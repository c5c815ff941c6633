/** Small value helpers shared by the pipeline model. */
module Wrappers {

  /** A value that may be missing. The simulator's `next_t = inf` ("no next event yet")
      is `None`; a finite candidate time is `Some(t)`. Unset start and end times of a job
      are `None` as well. */
  datatype Option<T> = None | Some(value: T)

  /** `min(next_t, x)` where a missing `next_t` stands for infinity. */
  function MinNext(next: Option<int>, x: int): (r: int)
    ensures r <= x
    ensures next.Some? ==> r <= next.value
    ensures r == x || (next.Some? && r == next.value)
  {
    if next.Some? && next.value < x then next.value else x
  }

  function Max(a: int, b: int): (r: int)
    ensures r >= a && r >= b && (r == a || r == b)
  {
    if a < b then b else a
  }
}
