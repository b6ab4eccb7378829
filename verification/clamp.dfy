/** Order facts about clamping a value into a closed interval.
    Both `std::clamp(v, lo, hi)` and `glm::clamp(v, lo, hi)` behave like
    `Clamp` below whenever `lo <= hi`, which holds for every call in the
    camera. */
module Clamping {

  /** `v` pushed into the interval [lo, hi]. */
  function Clamp(v: real, lo: real, hi: real): (r: real)
    requires lo <= hi
    ensures lo <= r <= hi
    ensures lo <= v <= hi ==> r == v
    ensures v < lo ==> r == lo
    ensures hi < v ==> r == hi
  {
    if v < lo then lo else if hi < v then hi else v
  }
}
