/**
 * The progress arithmetic shared by the transition and the row animations:
 * clamping to [0, 1] and the easing curve.  The curve the source uses,
 * `Easing.out(Easing.cubic)`, comes from the animation library; the model
 * takes any curve that maps [0, 1] into [0, 1] (`UnitEasing`) and shows that
 * the out-cubic curve is one.
 */
module Easing {
  import opened CalendarTypes

  /** `Math.max(0, Math.min(1, x))`, equally `Math.min(Math.max(x, 0), 1)`. */
  function Clamp01(x: real): (r: real)
    ensures 0.0 <= r <= 1.0
    ensures 0.0 <= x <= 1.0 ==> r == x
    ensures x < 0.0 ==> r == 0.0
    ensures x > 1.0 ==> r == 1.0
  {
    if x < 0.0 then 0.0 else if x > 1.0 then 1.0 else x
  }

  /** `verticalProgress?.value ?? 0`: the progress, 0 when the component is given none. */
  function ProgressOrZero(v: Option<real>): real {
    if v.Some? then v.value else 0.0
  }

  /** An easing curve keeps progress in [0, 1]. */
  ghost predicate UnitEasing(ease: real -> real) {
    forall x :: 0.0 <= x <= 1.0 ==> 0.0 <= ease(x) <= 1.0
  }

  /** `Easing.out(Easing.cubic)`: `1 - (1 - t)^3`. */
  function EaseOutCubic(t: real): real {
    var u := 1.0 - t;
    1.0 - u * u * u
  }

  /** Proof helper, with no counterpart in the app: scaling a non-negative quantity by a share in [0, 1] gives at most the quantity. */
  lemma ScaledWithin(y: real, e: real)
    requires y >= 0.0 && 0.0 <= e <= 1.0
    ensures 0.0 <= y * e <= y
  {
    ProductNonnegative(y, e);
    ProductNonnegative(y, 1.0 - e);
    assert y * (1.0 - e) == y - y * e;
  }

  /** Proof helper, with no counterpart in the app: the same for a non-positive `y`. */
  lemma ScaledWithinNegative(y: real, e: real)
    requires y <= 0.0 && 0.0 <= e <= 1.0
    ensures y <= y * e <= 0.0
  {
    ProductNonnegative(-y, e);
    ProductNonnegative(-y, 1.0 - e);
    assert (-y) * e == -(y * e);
    assert (-y) * (1.0 - e) == y * e - y;
  }

  /** Proof helper, with no counterpart in the app: the product of two non-negative reals is non-negative. */
  lemma ProductNonnegative(x: real, y: real)
    requires x >= 0.0 && y >= 0.0
    ensures x * y >= 0.0
  {
  }

  /** The out-cubic curve maps [0, 1] into [0, 1], from 0 to 1. */
  lemma EaseOutCubicIsUnit()
    ensures UnitEasing(EaseOutCubic)
    ensures EaseOutCubic(0.0) == 0.0 && EaseOutCubic(1.0) == 1.0
  {
    forall x | 0.0 <= x <= 1.0
      ensures 0.0 <= EaseOutCubic(x) <= 1.0
    {
      var u := 1.0 - x;
      ScaledWithin(u, u);
      ScaledWithin(u * u, u);
      assert EaseOutCubic(x) == 1.0 - (u * u) * u;
    }
  }
}
