/** The two GUI behaviours the managers rely on, stated as plain functions. */
module Widgets {
  import opened Wrappers

  /** Unity's `Mathf.Clamp(v, lo, hi)`. */
  function Clamp(v: real, lo: real, hi: real): (r: real)
    requires lo <= hi
    ensures lo <= r <= hi
    ensures lo <= v <= hi ==> r == v
    ensures v < lo ==> r == lo
    ensures hi < v ==> r == hi
  {
    if v < lo then lo else if hi < v then hi else v
  }

  /** `GUILayout.HorizontalSlider(current, lo, hi)` during one frame: a drag
   *  to `x` yields `x` kept on the track, no drag yields the current value
   *  unchanged (even one outside the track). */
  function Slider(current: real, drag: Option<real>, lo: real, hi: real): (r: real)
    requires lo <= hi
    ensures drag.Some? ==> lo <= r <= hi
    ensures drag.None? ==> r == current
  {
    match drag
    case None => current
    case Some(x) => Clamp(x, lo, hi)
  }
}
