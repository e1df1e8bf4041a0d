/** The value algebra behind LorentzVector: four real components (t, x, y, z), the
    component-wise operators, the interval that `norm` takes the root of, the `dot`
    member exactly as the class computes it, and the boost along z.
    Every `double` of the class is a `real` here, so the identities below are exact. */
module Minkowski {

  /** The four components, in the class's order (t_, x_, y_, z_). */
  datatype Vec4 = Vec4(t: real, x: real, y: real, z: real)

  /** What the default constructor produces. */
  const Zero: Vec4 := Vec4(0.0, 0.0, 0.0, 0.0)

  function Abs(r: real): (a: real)
    ensures a >= 0.0
    ensures a == r || a == -r
  {
    if r < 0.0 then -r else r
  }

  // ---------------------------------------------------------------------------
  // Component-wise arithmetic (operator+, operator-, operator*)
  // ---------------------------------------------------------------------------

  function Add(a: Vec4, b: Vec4): Vec4 {
    Vec4(a.t + b.t, a.x + b.x, a.y + b.y, a.z + b.z)
  }

  function Sub(a: Vec4, b: Vec4): Vec4 {
    Vec4(a.t - b.t, a.x - b.x, a.y - b.y, a.z - b.z)
  }

  /** The friend operator*(lv, a): the scalar multiplies from the left. */
  function Scale(v: Vec4, k: real): Vec4 {
    Vec4(k * v.t, k * v.x, k * v.y, k * v.z)
  }

  lemma AddZeroIdentity(v: Vec4)
    ensures Add(v, Zero) == v && Add(Zero, v) == v
  {
  }

  lemma SubSelfIsZero(v: Vec4)
    ensures Sub(v, v) == Zero
  {
  }

  /** Subtraction undoes addition, and addition undoes subtraction. */
  lemma AddSubInverse(a: Vec4, b: Vec4)
    ensures Sub(Add(a, b), b) == a
    ensures Add(Sub(a, b), b) == a
  {
  }

  lemma AddCommutes(a: Vec4, b: Vec4)
    ensures Add(a, b) == Add(b, a)
  {
  }

  lemma AddAssociates(a: Vec4, b: Vec4, c: Vec4)
    ensures Add(Add(a, b), c) == Add(a, Add(b, c))
  {
  }

  lemma ScaleOneIdentity(v: Vec4)
    ensures Scale(v, 1.0) == v
  {
  }

  /** Scaling twice is scaling once by the product. */
  lemma ScaleScale(v: Vec4, a: real, b: real)
    ensures Scale(Scale(v, a), b) == Scale(v, a * b)
  {
  }

  lemma ScaleDistributes(a: Vec4, b: Vec4, k: real)
    ensures Scale(Add(a, b), k) == Add(Scale(a, k), Scale(b, k))
  {
  }

  // ---------------------------------------------------------------------------
  // The interval and norm
  // ---------------------------------------------------------------------------

  /** The quantity under the absolute value in `norm`: -t^2 + x^2 + y^2 + z^2. */
  function Interval(v: Vec4): real {
    -v.t * v.t + v.x * v.x + v.y * v.y + v.z * v.z
  }

  /** The square of `norm`: the magnitude of the interval. */
  function NormSq(v: Vec4): (r: real)
    ensures r >= 0.0
    ensures r == Interval(v) || r == -Interval(v)
  {
    Abs(Interval(v))
  }

  /** The sign convention does not matter: |-t^2+x^2+y^2+z^2| == |t^2-x^2-y^2-z^2|. */
  lemma NormSqEitherSignature(v: Vec4)
    ensures NormSq(v) == Abs(v.t * v.t - v.x * v.x - v.y * v.y - v.z * v.z)
  {
  }

  /** n is what `norm` returns for v: the non-negative square root of NormSq(v). */
  ghost predicate IsNormOf(n: real, v: Vec4) {
    n >= 0.0 && n * n == NormSq(v)
  }

  /** Two non-negative reals with the same square are equal. */
  lemma SquareRootUnique(a: real, b: real)
    requires a >= 0.0 && b >= 0.0 && a * a == b * b
    ensures a == b
  {
    assert (a - b) * (a + b) == 0.0 * (a + b);
    if a + b != 0.0 {
      Cancel(a - b, 0.0, a + b);
    }
  }

  /** `norm` is a function of the vector: at most one n qualifies. */
  lemma NormUnique(v: Vec4, m: real, n: real)
    requires IsNormOf(m, v) && IsNormOf(n, v)
    ensures m == n
  {
    SquareRootUnique(m, n);
  }

  // ---------------------------------------------------------------------------
  // dot, as written: the receiver's own components squared, the argument unused
  // ---------------------------------------------------------------------------

  /** The `dot` member as the class computes it. */
  function Dot(self: Vec4, other: Vec4): real {
    self.t * self.t + self.x * self.x + self.y * self.y + self.z * self.z
  }

  /** The argument plays no part in the result. */
  lemma DotIgnoresOther(self: Vec4, u: Vec4, w: Vec4)
    ensures Dot(self, u) == Dot(self, w)
  {
  }

  lemma SquareNonNegative(r: real)
    ensures r * r >= 0.0
  {
    if r < 0.0 {
      assert r * r == (-r) * (-r);
    }
  }

  lemma DivSquare(r: real)
    requires r != 0.0
    ensures (r * r) / r == r
  {
  }

  /** A real whose square is not positive is zero. */
  lemma SquareNotPositive(r: real)
    requires r * r <= 0.0
    ensures r == 0.0
  {
    if r != 0.0 {
      DivSquare(r);
      assert false;
    }
  }

  /** `dot` is a sum of squares: never negative, and zero exactly for the zero vector. */
  lemma DotSignDefinite(self: Vec4, other: Vec4)
    ensures Dot(self, other) >= 0.0
    ensures Dot(self, other) == 0.0 <==> self == Zero
  {
    SquareNonNegative(self.t);
    SquareNonNegative(self.x);
    SquareNonNegative(self.y);
    SquareNonNegative(self.z);
    if Dot(self, other) == 0.0 {
      SquareNotPositive(self.t);
      SquareNotPositive(self.x);
      SquareNotPositive(self.y);
      SquareNotPositive(self.z);
    }
  }

  // ---------------------------------------------------------------------------
  // zboost
  // ---------------------------------------------------------------------------

  /** G is the `sqrt(1 - beta*beta)` that zboost computes: the positive root, which exists
      only for -1 < beta < 1. */
  predicate IsBoostFactor(beta: real, G: real) {
    -1.0 < beta < 1.0 && G > 0.0 && G * G == 1.0 - beta * beta
  }

  /** For a given beta there is only one admissible G. */
  lemma BoostFactorUnique(beta: real, G: real, H: real)
    requires IsBoostFactor(beta, G) && IsBoostFactor(beta, H)
    ensures G == H
  {
    SquareRootUnique(G, H);
  }

  /** zboost's new components, all computed from the original t and z. */
  function Boost(v: Vec4, beta: real, G: real): Vec4
    requires G > 0.0
  {
    Vec4((v.t + beta * v.z) / G, v.x, v.y, (v.z + beta * v.t) / G)
  }

  // Facts of real arithmetic, stated on plain reals so that each proof stays small.

  lemma MulThenDiv(n: real, G: real)
    requires G != 0.0
    ensures (n * G) / G == n
  {
  }

  /** A common non-zero factor cancels. */
  lemma Cancel(a: real, b: real, G: real)
    requires G != 0.0 && a * G == b * G
    ensures a == b
  {
    MulThenDiv(a, G);
    MulThenDiv(b, G);
  }

  /** ... and so does its square, one factor at a time. */
  lemma CancelSquare(a: real, b: real, G: real)
    requires G != 0.0 && a * (G * G) == b * (G * G)
    ensures a == b
  {
    assert (a * G) * G == (b * G) * G;
    Cancel(a * G, b * G, G);
    Cancel(a, b, G);
  }

  lemma DivThenMul(n: real, G: real)
    requires G > 0.0
    ensures (n / G) * G == n
  {
  }

  lemma DivAdd(a: real, b: real, G: real)
    requires G > 0.0
    ensures (a + b) / G == a / G + b / G
  {
    DivThenMul(a + b, G);
    DivThenMul(a, G);
    DivThenMul(b, G);
    assert (a / G + b / G) * G == (a / G) * G + (b / G) * G;
    Cancel((a + b) / G, a / G + b / G, G);
  }

  lemma DivScale(a: real, k: real, G: real)
    requires G > 0.0
    ensures (k * a) / G == k * (a / G)
  {
    DivThenMul(k * a, G);
    DivThenMul(a, G);
    assert (k * (a / G)) * G == k * ((a / G) * G);
    Cancel((k * a) / G, k * (a / G), G);
  }

  lemma BoostBilinearIdentity(at: real, az: real, bt: real, bz: real, beta: real)
    ensures (at + beta * az) * (bt + beta * bz) - (az + beta * at) * (bz + beta * bt)
         == (at * bt - az * bz) * (1.0 - beta * beta)
  {
  }

  /** If (pt', pz') and (qt', qz') are the boosts of (pt, pz) and (qt, qz), the form
      t*t' - z*z' is the same before and after. */
  lemma BoostedProduct(pt: real, pz: real, qt: real, qz: real,
                                          pt': real, pz': real, qt': real, qz': real,
                                          beta: real, G: real)
    requires G > 0.0 && G * G == 1.0 - beta * beta
    requires pt' * G == pt + beta * pz && pz' * G == pz + beta * pt
    requires qt' * G == qt + beta * qz && qz' * G == qz + beta * qt
    ensures pt' * qt' - pz' * qz' == pt * qt - pz * qz
  {
    calc {
      (pt' * qt' - pz' * qz') * (G * G);
      (pt' * G) * (qt' * G) - (pz' * G) * (qz' * G);
      (pt + beta * pz) * (qt + beta * qz) - (pz + beta * pt) * (qz + beta * qt);
      { BoostBilinearIdentity(pt, pz, qt, qz, beta); }
      (pt * qt - pz * qz) * (1.0 - beta * beta);
      (pt * qt - pz * qz) * (G * G);
    }
    CancelSquare(pt' * qt' - pz' * qz', pt * qt - pz * qz, G);
  }

  /** Boosting (t', z') = boost of (t, z) by -beta gives back (t, z). */
  lemma UnboostedPair(t: real, z: real, t': real, z': real, t'': real, z'': real,
                                         beta: real, G: real)
    requires G > 0.0 && G * G == 1.0 - beta * beta
    requires t' * G == t + beta * z && z' * G == z + beta * t
    requires t'' * G == t' + -beta * z' && z'' * G == z' + -beta * t'
    ensures t'' == t && z'' == z
  {
    calc {
      t'' * (G * G);
      (t'' * G) * G;
      (t' + -beta * z') * G;
      t' * G - beta * (z' * G);
      (t + beta * z) - beta * (z + beta * t);
      t * (1.0 - beta * beta);
      t * (G * G);
    }
    CancelSquare(t'', t, G);
    calc {
      z'' * (G * G);
      (z'' * G) * G;
      (z' + -beta * t') * G;
      z' * G - beta * (t' * G);
      (z + beta * t) - beta * (t + beta * z);
      z * (1.0 - beta * beta);
      z * (G * G);
    }
    CancelSquare(z'', z, G);
  }

  /** Multiplying zboost's new t and z back by G gives the numerators it divided. */
  lemma BoostTimesFactor(v: Vec4, beta: real, G: real)
    requires G > 0.0
    ensures Boost(v, beta, G).t * G == v.t + beta * v.z
    ensures Boost(v, beta, G).z * G == v.z + beta * v.t
  {
    DivThenMul(v.t + beta * v.z, G);
    DivThenMul(v.z + beta * v.t, G);
  }

  /** The boost keeps z^2 - t^2, the part of the interval it touches. */
  lemma BoostKeepsTZ(v: Vec4, beta: real, G: real)
    requires IsBoostFactor(beta, G)
    ensures var w := Boost(v, beta, G); w.t * w.t - w.z * w.z == v.t * v.t - v.z * v.z
  {
    var w := Boost(v, beta, G);
    BoostTimesFactor(v, beta, G);
    BoostedProduct(v.t, v.z, v.t, v.z, w.t, w.z, w.t, w.z, beta, G);
  }

  /** zboost preserves the interval -t^2 + x^2 + y^2 + z^2. */
  lemma BoostPreservesInterval(v: Vec4, beta: real, G: real)
    requires IsBoostFactor(beta, G)
    ensures Interval(Boost(v, beta, G)) == Interval(v)
  {
    BoostKeepsTZ(v, beta, G);
  }

  /** ... and therefore `norm`. */
  lemma BoostPreservesNorm(v: Vec4, beta: real, G: real, n: real)
    requires IsBoostFactor(beta, G)
    ensures NormSq(Boost(v, beta, G)) == NormSq(v)
    ensures IsNormOf(n, Boost(v, beta, G)) <==> IsNormOf(n, v)
  {
    BoostPreservesInterval(v, beta, G);
  }

  /** The boost is linear: it distributes over + ... */
  lemma BoostAdditive(v: Vec4, w: Vec4, beta: real, G: real)
    requires G > 0.0
    ensures Boost(Add(v, w), beta, G) == Add(Boost(v, beta, G), Boost(w, beta, G))
  {
    DivAdd(v.t + beta * v.z, w.t + beta * w.z, G);
    DivAdd(v.z + beta * v.t, w.z + beta * w.t, G);
  }

  /** ... and commutes with scaling. */
  lemma BoostHomogeneous(v: Vec4, k: real, beta: real, G: real)
    requires G > 0.0
    ensures Boost(Scale(v, k), beta, G) == Scale(Boost(v, beta, G), k)
  {
    DivScale(v.t + beta * v.z, k, G);
    DivScale(v.z + beta * v.t, k, G);
  }

  /** Boosting two vectors by the same beta leaves the norm of their sum unchanged. */
  lemma BoostPreservesPairedSum(v: Vec4, w: Vec4, beta: real, G: real)
    requires IsBoostFactor(beta, G)
    ensures NormSq(Add(Boost(v, beta, G), Boost(w, beta, G))) == NormSq(Add(v, w))
  {
    BoostAdditive(v, w, beta, G);
    BoostPreservesNorm(Add(v, w), beta, G, 0.0);
  }

  /** The factor for beta also serves -beta. */
  lemma BoostFactorNegated(beta: real, G: real)
    requires IsBoostFactor(beta, G)
    ensures IsBoostFactor(-beta, G)
  {
    assert (-beta) * (-beta) == beta * beta;
  }

  /** UnboostedPair for the quotients zboost actually forms. */
  lemma UnboostQuotients(t: real, z: real, t': real, z': real, beta: real, G: real)
    requires G > 0.0 && G * G == 1.0 - beta * beta
    requires t' == (t + beta * z) / G && z' == (z + beta * t) / G
    ensures (t' + -beta * z') / G == t && (z' + -beta * t') / G == z
  {
    DivThenMul(t + beta * z, G);
    DivThenMul(z + beta * t, G);
    DivThenMul(t' + -beta * z', G);
    DivThenMul(z' + -beta * t', G);
    UnboostedPair(t, z, t', z', (t' + -beta * z') / G, (z' + -beta * t') / G, beta, G);
  }

  /** Boosting by -beta undoes a boost by beta (same G). */
  lemma BoostInverse(v: Vec4, beta: real, G: real)
    requires IsBoostFactor(beta, G)
    ensures Boost(Boost(v, beta, G), -beta, G) == v
  {
    var w := Boost(v, beta, G);
    UnboostQuotients(v.t, v.z, w.t, w.z, beta, G);
  }

  // ---------------------------------------------------------------------------
  // The bilinear product the harness compares `dot` against
  // ---------------------------------------------------------------------------

  /** t*t' - x*x' - y*y' - z*z': the reference product of the self-test for `dot`. */
  function MinkowskiDot(a: Vec4, b: Vec4): real {
    a.t * b.t - a.x * b.x - a.y * b.y - a.z * b.z
  }

  /** On one vector it is the negated interval, so |MinkowskiDot(v, v)| is the square of `norm`. */
  lemma MinkowskiDotSelf(v: Vec4)
    ensures MinkowskiDot(v, v) == -Interval(v)
    ensures NormSq(v) == Abs(MinkowskiDot(v, v))
  {
  }

  /** The bilinear product is invariant under a common boost of both operands. */
  lemma MinkowskiDotBoostInvariant(a: Vec4, b: Vec4, beta: real, G: real)
    requires IsBoostFactor(beta, G)
    ensures MinkowskiDot(Boost(a, beta, G), Boost(b, beta, G)) == MinkowskiDot(a, b)
  {
    var a', b' := Boost(a, beta, G), Boost(b, beta, G);
    BoostTimesFactor(a, beta, G);
    BoostTimesFactor(b, beta, G);
    BoostedProduct(a.t, a.z, b.t, b.z, a'.t, a'.z, b'.t, b'.z, beta, G);
  }

  /** As written, `dot` does not survive a boost: (1, 0, 0, 0) boosted with beta = 3/5
      (G = 4/5) becomes (5/4, 0, 0, 3/4), whose `dot` is 34/16 rather than 1. */
  lemma DotNotBoostInvariant()
    ensures IsBoostFactor(0.6, 0.8)
    ensures Boost(Vec4(1.0, 0.0, 0.0, 0.0), 0.6, 0.8) == Vec4(1.25, 0.0, 0.0, 0.75)
    ensures Dot(Vec4(1.25, 0.0, 0.0, 0.75), Zero) != Dot(Vec4(1.0, 0.0, 0.0, 0.0), Zero)
  {
  }

  /** As written, |dot| also differs from |MinkowskiDot|: for (1, 0, 0, 0) and the zero
      vector one is 1, the other 0. */
  lemma DotDiffersFromReference()
    ensures Abs(Dot(Vec4(1.0, 0.0, 0.0, 0.0), Zero)) == 1.0
    ensures Abs(MinkowskiDot(Vec4(1.0, 0.0, 0.0, 0.0), Zero)) == 0.0
  {
  }
}
