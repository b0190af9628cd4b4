/**
 * The slot array of a container: each slot is NULL (`Empty`) or points to an
 * independently owned copy of one element (`Full`).
 */
module Slots {

  datatype Slot<T> = Empty | Full(value: T)

  /** The values a run of occupied slots point to. */
  function Values<T>(s: seq<Slot<T>>): (r: seq<T>)
    requires forall k :: 0 <= k < |s| ==> s[k].Full?
    ensures |r| == |s| && forall k :: 0 <= k < |s| ==> r[k] == s[k].value
  {
    seq(|s|, k requires 0 <= k < |s| && s[k].Full? => s[k].value)
  }

  /**
   * realloc: a fresh buffer of `n` slots whose first `old.Length` slots are
   * those of `l`; the remaining slots hold whatever the allocator left there.
   */
  method Realloc<T>(l: array<Slot<T>>, n: int) returns (r: array<Slot<T>>)
    requires l.Length <= n
    ensures fresh(r) && r.Length == n
    ensures r[..l.Length] == l[..]
  {
    r := new Slot<T>[n];
    forall i | 0 <= i < l.Length {
      r[i] := l[i];
    }
  }
}
