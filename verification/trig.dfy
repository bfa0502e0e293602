/**
 The trigonometric environment the kinematics is evaluated in.

 The source calls the numeric library's `sin`, `cos` and `pi`. They are not
 computable over `real`, so the model takes them as a value `TrigEnv` (a pair of
 real functions and a constant) and states, as predicates over that value, the
 identities the kinematics relies on. The real sine, cosine and pi satisfy all
 of them; every lemma that needs one of them says so in its `requires`.
 */
module Trig {

  /** `sin`, `cos` and `pi` as supplied by the numeric library. */
  datatype TrigEnv = TrigEnv(sin: real -> real, cos: real -> real, pi: real)

  /** sin² x + cos² x = 1 at the angle x. */
  ghost predicate UnitAt(t: TrigEnv, x: real) {
    t.sin(x) * t.sin(x) + t.cos(x) * t.cos(x) == 1.0
  }

  /** sin² x + cos² x = 1 for every angle x. */
  ghost predicate Pythagorean(t: TrigEnv) {
    forall x :: UnitAt(t, x)
  }

  /** The values at 0 and at pi, and pi itself positive. */
  ghost predicate SpecialValues(t: TrigEnv) {
    && t.pi > 0.0
    && t.cos(0.0) == 1.0 && t.sin(0.0) == 0.0
    && t.cos(t.pi) == -1.0 && t.sin(t.pi) == 0.0
  }

  /** The angle-addition formulas for sine and cosine at the angles x and y. */
  ghost predicate AdditionAt(t: TrigEnv, x: real, y: real) {
    && t.sin(x + y) == t.sin(x) * t.cos(y) + t.cos(x) * t.sin(y)
    && t.cos(x + y) == t.cos(x) * t.cos(y) - t.sin(x) * t.sin(y)
  }

  /** The angle-addition formulas for every pair of angles. */
  ghost predicate AngleAddition(t: TrigEnv) {
    forall x, y :: AdditionAt(t, x, y)
  }

  /** All the identities together: what "t behaves like sin, cos and pi" means here. */
  ghost predicate Laws(t: TrigEnv) {
    Pythagorean(t) && SpecialValues(t) && AngleAddition(t)
  }

  /** The value of cosine at a right angle is forced by the laws: cos(pi/2) = 0
      and sin²(pi/2) = 1 (the sign of sin(pi/2) is not). */
  lemma {:induction false} QuarterTurn(t: TrigEnv)
    requires Laws(t)
    ensures t.cos(t.pi / 2.0) == 0.0
    ensures t.sin(t.pi / 2.0) * t.sin(t.pi / 2.0) == 1.0
  {
    var h := t.pi / 2.0;
    var c, s := t.cos(h), t.sin(h);
    assert AdditionAt(t, h, h) && UnitAt(t, h);
    assert h + h == t.pi;
    assert t.cos(h + h) == c * c - s * s;
    assert s * s + c * c == 1.0;
    assert c * c == 0.0;
  }
}
