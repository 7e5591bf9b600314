/** Consecutive numbers. */
module Counting {

  /** 1, 2, ..., n. */
  function UpTo(n: nat): (numbers: seq<nat>)
    ensures |numbers| == n && forall k :: 0 <= k < n ==> numbers[k] == k + 1
  {
    seq(n, k requires 0 <= k < n => k + 1)
  }
}
