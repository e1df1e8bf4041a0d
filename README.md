# LorentzVector in Dafny

A model of the C++ `LorentzVector` class: a four-vector with components (t, x, y, z) held
in four private `double` fields, with getters and setters, component-wise `+`, `-` and
scalar `*`, the in-place `+=`, `-=` and `*=`, `norm()`, `dot()` and `zboost(beta)`, a boost
along the z axis.

The project has two modules.

- `Minkowski` (minkowski.dfy) holds the value algebra. `Vec4` is the four components as a
  value. `Add`, `Sub` and `Scale` are the component-wise operators. `Interval` is
  −t²+x²+y²+z², and `NormSq` is its magnitude, the square of `norm()`. `Dot` is the `dot`
  member exactly as written. `Boost` is zboost's new components. `MinkowskiDot` is the
  bilinear product t t' − x x' − y y' − z z' that the repository's self-test compares `dot`
  against. The lemmas relating these are proved here.
- `Lorentz` (lorentz_vector.dfy) holds the class `LorentzVector`. It has the four mutable
  fields `t_`, `x_`, `y_`, `z_`. The const observers (getters, `norm`, `dot`) are
  functions with `reads this`. `operator+` and `operator-` are methods that return a fresh
  object and have no `modifies` clause. The `void` members are methods with
  `modifies this`. The friend `operator*` is the
  module-level method `Times`. Each member's contract ties the new state or the result to
  the `Minkowski` functions.

Every `double` is a `real`, so the identities are exact. `sqrt` has no counterpart over the
reals, so `norm` is handled in two parts. `NormSquared` gives its square. The ghost
predicate `IsNormOf(n, v)`, meaning n ≥ 0 and n·n = NormSq(v), says which number `norm`
returns. `zboost` gets the factor G = sqrt(1 − β²) from the caller as a parameter, with
`IsBoostFactor(beta, G)`, meaning −1 < β < 1, G > 0 and G·G = 1 − β².

## Model

| member | source | states |
|---|---|---|
| Lorentz.LorentzVector.constructor | LorentzVector.cpp:5-10 | the default constructor makes all four components zero |
| Lorentz.LorentzVector.Of | LorentzVector.cpp:11 | the four-argument constructor stores T, X, Y, Z unchanged, in that order |
| Lorentz.LorentzVector.T | LorentzVector.cpp:13-15 | `t()` returns the stored t component and changes nothing |
| Lorentz.LorentzVector.X | LorentzVector.cpp:16-18 | `x()` returns the stored x component and changes nothing |
| Lorentz.LorentzVector.Y | LorentzVector.cpp:19-21 | `y()` returns the stored y component and changes nothing |
| Lorentz.LorentzVector.Z | LorentzVector.cpp:22-24 | `z()` returns the stored z component and changes nothing |
| Lorentz.LorentzVector.NormSquared | LorentzVector.cpp:25-27 | the square of `norm()` is non-negative and equals \|−t²+x²+y²+z²\|, which is the same as \|t²−x²−y²−z²\| |
| Lorentz.LorentzVector.SetT | LorentzVector.cpp:29-31 | `t(v)` replaces t with v, and x, y, z keep their values |
| Lorentz.LorentzVector.SetX | LorentzVector.cpp:32-34 | `x(v)` replaces x with v, and t, y, z keep their values |
| Lorentz.LorentzVector.SetY | LorentzVector.cpp:35-37 | `y(v)` replaces y with v, and t, x, z keep their values |
| Lorentz.LorentzVector.SetZ | LorentzVector.cpp:38-40 | `z(v)` replaces z with v, and t, x, y keep their values |
| Lorentz.LorentzVector.AddAssign | LorentzVector.cpp:41-46 | after `a += b`, a holds Add of the old a and the old b, which is what `a + b` returns; b is unchanged unless it is a itself |
| Lorentz.LorentzVector.SubAssign | LorentzVector.cpp:47-52 | after `a -= b`, a holds Sub of the old values, which is what `a - b` returns; b is unchanged unless it is a itself |
| Lorentz.LorentzVector.MulAssign | LorentzVector.cpp:53-58 | after `a *= k`, a holds Scale(old a, k), which is what `a * k` returns |
| Lorentz.LorentzVector.Plus | LorentzVector.cpp:59-65 | `a + b` is a new vector holding the component-wise sum; neither operand is modified |
| Lorentz.LorentzVector.Minus | LorentzVector.cpp:66-72 | `a - b` is a new vector holding the component-wise difference; neither operand is modified |
| Lorentz.Times | LorentzVector.cpp:73-79 | `lv * a` is a new vector with every component multiplied by a; lv is not modified |
| Lorentz.LorentzVector.ZBoost | LorentzVector.cpp:84-94 | the new t and z are (t+βz)/G and (z+βt)/G of the old t and z, and x and y are unchanged; the interval and the squared norm are preserved |
| Lorentz.LorentzVector.Dot | LorentzVector.cpp:95-97 | `dot` reads only the receiver: it equals t²+x²+y²+z², is ≥ 0 and is zero exactly for the zero vector |
| Minkowski.Abs | LorentzVector.cpp:26 | `fabs`: the result is non-negative and equals r or −r |
| Minkowski.AddZeroIdentity | LorentzVector.cpp:59-65 | v + 0 = v and 0 + v = v |
| Minkowski.SubSelfIsZero | LorentzVector.cpp:66-72 | v − v = 0 |
| Minkowski.AddSubInverse | LorentzVector.cpp:59-72 | (a + b) − b = a and (a − b) + b = a |
| Minkowski.AddCommutes | LorentzVector.cpp:59-65 | a + b = b + a |
| Minkowski.AddAssociates | LorentzVector.cpp:59-65 | (a + b) + c = a + (b + c) |
| Minkowski.ScaleOneIdentity | LorentzVector.cpp:73-79 | v·1 = v |
| Minkowski.ScaleScale | LorentzVector.cpp:73-79 | (v·a)·b = v·(a·b) |
| Minkowski.ScaleDistributes | LorentzVector.cpp:73-79 | (a + b)·k = a·k + b·k |
| Minkowski.NormSq | LorentzVector.cpp:26 | the squared norm is non-negative and is the interval or its negation |
| Minkowski.NormSqEitherSignature | .test/main.cpp:164-165 | the squared norm equals \|t²−x²−y²−z²\|, the value the self-test checks `norm()²` against |
| Minkowski.SquareRootUnique | LorentzVector.cpp:26 | two non-negative reals with equal squares are equal, so `sqrt` has one admissible value |
| Minkowski.NormUnique | LorentzVector.cpp:25-27 | at most one n satisfies IsNormOf(n, v), so `norm()` is determined by the vector |
| Minkowski.DotIgnoresOther | LorentzVector.cpp:95-97 | `dot` gives the same result whatever the argument |
| Minkowski.DotSignDefinite | LorentzVector.cpp:95-97 | `dot` is ≥ 0, and it is 0 if and only if the receiver is the zero vector |
| Minkowski.BoostFactorUnique | LorentzVector.cpp:85 | for a given β, at most one G > 0 has G·G = 1 − β² |
| Minkowski.BoostFactorNegated | LorentzVector.cpp:85 | the G for β is also the G for −β |
| Minkowski.BoostTimesFactor | LorentzVector.cpp:86-89 | the boosted t and z, multiplied back by G, give the numerators t+βz and z+βt |
| Minkowski.BoostedProduct | LorentzVector.cpp:86-89 | for two (t, z) pairs boosted with the same β, the form t·t' − z·z' is unchanged |
| Minkowski.BoostKeepsTZ | LorentzVector.cpp:84-94 | the boost keeps t² − z² |
| Minkowski.BoostPreservesInterval | LorentzVector.cpp:84-94 | the boost keeps −t²+x²+y²+z² |
| Minkowski.BoostPreservesNorm | LorentzVector.cpp:84-94 | the boost keeps the squared norm, and n is the norm after the boost if and only if it was the norm before |
| Minkowski.BoostAdditive | LorentzVector.cpp:84-94 | boost(v + w) = boost(v) + boost(w) |
| Minkowski.BoostHomogeneous | LorentzVector.cpp:84-94 | boost(v·k) = boost(v)·k |
| Minkowski.BoostPreservesPairedSum | .test/main.cpp:273-284 | boosting two vectors by the same β leaves the norm of their sum unchanged |
| Minkowski.UnboostQuotients | LorentzVector.cpp:86-89 | applying zboost's t and z formulas with −β to their own output gives back the original t and z |
| Minkowski.BoostInverse | LorentzVector.cpp:84-94 | zboost(−β) with the same G undoes zboost(β) |
| Minkowski.MinkowskiDotSelf | .test/main.cpp:293-297 | the reference product of a vector with itself is minus its interval, and its magnitude is the squared norm |
| Minkowski.MinkowskiDotBoostInvariant | .test/main.cpp:309-313 | the reference product is unchanged when both operands are boosted by the same β |
| Minkowski.DotNotBoostInvariant | LorentzVector.cpp:95-97 | for β = 3/5 and the vector (1, 0, 0, 0), `dot` before and after the boost differ (1 against 34/16) |
| Minkowski.DotDiffersFromReference | .test/main.cpp:305 | for (1, 0, 0, 0) and the zero vector, \|dot\| is 1 but the reference product's magnitude is 0 |

## Left out

- `operator<<` (LorentzVector.cpp:80-83) is not modelled. It is stream output with
  platform-defined number formatting.
- IEEE-754 behaviour is not modelled: rounding, NaN and infinities. Fields are `real`, so
  every identity above holds exactly, where the C++ code would only hold it up to rounding.
- Lorentz.LorentzVector.NormSquared: `norm()` itself is not a member of the model. Dafny
  has no real square root, so the class exposes the square of the norm, and
  `IsNormOf` characterises the root.
- Lorentz.LorentzVector.ZBoost: the caller supplies G and must establish
  `IsBoostFactor(beta, G)`. The source computes G with `sqrt`. For |β| ≥ 1 that gives NaN
  or a division by zero, and this behaviour is excluded by the precondition.
- The self-test driver and its random-number generator (.test/main.cpp, .test/rng.hh) are
  not part of this model. Only the properties they check are stated, as lemmas.
- Object identity is modelled with `fresh` results for `+`, `-` and `*`. C++ returns these
  by value, so two results never alias, which `fresh` captures.
- Copy construction and copy assignment (`LorentzVector b = a;`) are not modelled. In C++
  they copy the value. In the model, `var b := a` makes b refer to the same object as a.

## Findings

| source | as written | input that shows it | evidently intended | confidence | as-written member | corrected member |
|---|---|---|---|---|---|---|
| LorentzVector.cpp:95-97 | `dot(other)` returns t²+x²+y²+z² of the receiver and never reads `other` | (1, 0, 0, 0) boosted with β = 3/5 becomes (5/4, 0, 0, 3/4): `dot` changes from 1 to 34/16. Also, for (1, 0, 0, 0) against the zero vector, \|dot\| is 1 but the reference product is 0 | the bilinear product t t' − x x' − y y' − z z', which .test/main.cpp:293-313 compares against and expects to be boost-invariant | not executed | Minkowski.DotNotBoostInvariant | Minkowski.MinkowskiDotBoostInvariant |

The class keeps `dot` as written, through `Lorentz.LorentzVector.Dot`, so the model matches
what the code computes. `Minkowski.MinkowskiDot` is the corrected definition, and the
invariance under a common boost is proved about it.
