/** The LorentzVector class: four private scalar fields that the constructors, the setters,
    the compound operators and zboost assign in place, and const members that only read
    them. Each member's contract ties the object's state to the Minkowski value algebra. */
module Lorentz {
  import opened Minkowski

  class LorentzVector {
    var t_: real
    var x_: real
    var y_: real
    var z_: real

    /** The object's current components as a value. */
    function Value(): Vec4
      reads this
    {
      Vec4(t_, x_, y_, z_)
    }

    /** LorentzVector(): all four components zero. */
    constructor ()
      ensures Value() == Zero
    {
      t_ := 0.0;
      x_ := 0.0;
      y_ := 0.0;
      z_ := 0.0;
    }

    /** LorentzVector(T, X, Y, Z): stores its arguments unchanged. */
    constructor Of(T: real, X: real, Y: real, Z: real)
      ensures Value() == Vec4(T, X, Y, Z)
    {
      t_ := T;
      x_ := X;
      y_ := Y;
      z_ := Z;
    }

    // -------------------------------------------------------------------------
    // const observers
    // -------------------------------------------------------------------------

    function T(): (r: real)
      reads this
      ensures r == Value().t
    {
      t_
    }

    function X(): (r: real)
      reads this
      ensures r == Value().x
    {
      x_
    }

    function Y(): (r: real)
      reads this
      ensures r == Value().y
    {
      y_
    }

    function Z(): (r: real)
      reads this
      ensures r == Value().z
    {
      z_
    }

    /** The square of norm(): |-t^2 + x^2 + y^2 + z^2|. The root itself is any n with
        IsNormOf(n, Value()), and Minkowski.NormUnique shows there is at most one. */
    function NormSquared(): (r: real)
      reads this
      ensures r >= 0.0
      ensures r == Interval(Value()) || r == -Interval(Value())
      ensures r == Abs(Value().t * Value().t - Value().x * Value().x
                       - Value().y * Value().y - Value().z * Value().z)
    {
      NormSqEitherSignature(Value());
      Abs(-t_ * t_ + x_ * x_ + y_ * y_ + z_ * z_)
    }

    /** dot(other) as written: it reads only this object, so `other` cannot influence it. */
    function Dot(other: LorentzVector): (r: real)
      reads this
      ensures r >= 0.0
      ensures r == 0.0 <==> Value() == Zero
      ensures r == Minkowski.Dot(Value(), Zero)
    {
      DotSignDefinite(Value(), Zero);
      t_ * t_ + x_ * x_ + y_ * y_ + z_ * z_
    }

    /** operator+: a new vector holding the component-wise sum; neither operand changes. */
    method Plus(b: LorentzVector) returns (r: LorentzVector)
      ensures fresh(r)
      ensures r.Value() == Add(Value(), b.Value())
    {
      var T := t_ + b.t_;
      var X := x_ + b.x_;
      var Y := y_ + b.y_;
      var Z := z_ + b.z_;
      r := new LorentzVector.Of(T, X, Y, Z);
    }

    /** operator-: a new vector holding the component-wise difference. */
    method Minus(b: LorentzVector) returns (r: LorentzVector)
      ensures fresh(r)
      ensures r.Value() == Sub(Value(), b.Value())
    {
      var T := t_ - b.t_;
      var X := x_ - b.x_;
      var Y := y_ - b.y_;
      var Z := z_ - b.z_;
      r := new LorentzVector.Of(T, X, Y, Z);
    }

    // -------------------------------------------------------------------------
    // void mutators
    // -------------------------------------------------------------------------

    method SetT(v: real)
      modifies this
      ensures Value() == old(Value()).(t := v)
    {
      t_ := v;
    }

    method SetX(v: real)
      modifies this
      ensures Value() == old(Value()).(x := v)
    {
      x_ := v;
    }

    method SetY(v: real)
      modifies this
      ensures Value() == old(Value()).(y := v)
    {
      y_ := v;
    }

    method SetZ(v: real)
      modifies this
      ensures Value() == old(Value()).(z := v)
    {
      z_ := v;
    }

    /** operator+=: afterwards this holds what operator+ would have returned. `b` may be this
        object itself, so the contract speaks of b's value before the call. */
    method AddAssign(b: LorentzVector)
      modifies this
      ensures Value() == Add(old(Value()), old(b.Value()))
      ensures b != this ==> b.Value() == old(b.Value())
    {
      t_ := t_ + b.t_;
      x_ := x_ + b.x_;
      y_ := y_ + b.y_;
      z_ := z_ + b.z_;
    }

    /** operator-=, with the same aliasing allowance as AddAssign. */
    method SubAssign(b: LorentzVector)
      modifies this
      ensures Value() == Sub(old(Value()), old(b.Value()))
      ensures b != this ==> b.Value() == old(b.Value())
    {
      t_ := t_ - b.t_;
      x_ := x_ - b.x_;
      y_ := y_ - b.y_;
      z_ := z_ - b.z_;
    }

    /** operator*=: afterwards this holds what operator*(this, a) would have returned. */
    method MulAssign(a: real)
      modifies this
      ensures Value() == Scale(old(Value()), a)
    {
      t_ := t_ * a;
      x_ := x_ * a;
      y_ := y_ * a;
      z_ := z_ * a;
    }

    /** zboost(beta), with G the value of sqrt(1 - beta*beta) supplied by the caller. The
        new t and z are both computed from the old t and z before any field is written. */
    method ZBoost(beta: real, G: real)
      requires IsBoostFactor(beta, G)
      modifies this
      ensures Value() == Boost(old(Value()), beta, G)
      ensures Interval(Value()) == Interval(old(Value()))
      ensures NormSq(Value()) == NormSq(old(Value()))
    {
      BoostPreservesNorm(Value(), beta, G, 0.0);
      var T := (t_ + beta * z_) / G;
      var X := x_;
      var Y := y_;
      var Z := (z_ + beta * t_) / G;
      t_ := T;
      x_ := X;
      y_ := Y;
      z_ := Z;
    }
  }

  /** The friend operator*(lv, a): a new vector, each component multiplied by a. */
  method Times(lv: LorentzVector, a: real) returns (r: LorentzVector)
    ensures fresh(r)
    ensures r.Value() == Scale(lv.Value(), a)
  {
    var T := a * lv.t_;
    var X := a * lv.x_;
    var Y := a * lv.y_;
    var Z := a * lv.z_;
    r := new LorentzVector.Of(T, X, Y, Z);
  }
}
