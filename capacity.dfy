/**
 * The capacity policy shared by both containers: start at a fixed initial
 * capacity and double whenever an append finds the container full.
 */
module Capacity {

  /** cap * 2^k, written without multiplication. */
  function Doubled(cap: nat, k: nat): (r: nat)
    ensures r >= cap
  {
    if k == 0 then cap else 2 * Doubled(cap, k - 1)
  }

  /** Doubling k+1 times is doubling the doubled capacity k times. */
  lemma {:induction false} DoubledShift(cap: nat, k: nat)
    ensures Doubled(2 * cap, k) == Doubled(cap, k + 1)
  {
    if k > 0 {
      DoubledShift(cap, k - 1);
    }
  }

  /** The capacity a container starting at `cap` has after growing to hold `n` elements. */
  function Grow(cap: nat, n: nat): (r: nat)
    requires cap > 0
    ensures cap <= r && n <= r
    decreases if n <= cap then 0 else n - cap
  {
    if n <= cap then cap else Grow(2 * cap, n)
  }

  /**
   * Grow(cap, n) is the smallest capacity of the form cap * 2^k that holds
   * n elements: it is cap * 2^k, at least n, and cap * 2^(k-1) is too small.
   */
  lemma {:induction false} GrowIsSmallest(cap: nat, n: nat) returns (k: nat)
    requires cap > 0
    ensures Grow(cap, n) == Doubled(cap, k)
    ensures n <= Grow(cap, n)
    ensures k > 0 ==> Doubled(cap, k - 1) < n
    decreases if n <= cap then 0 else n - cap
  {
    if n <= cap {
      k := 0;
    } else {
      var j := GrowIsSmallest(2 * cap, n);
      k := j + 1;
      DoubledShift(cap, j);
      if j > 0 {
        DoubledShift(cap, j - 1);
      }
    }
  }

  /**
   * One more element changes the tight capacity only when the container was
   * exactly full: then the capacity doubles.
   */
  lemma {:induction false} GrowStep(cap: nat, n: nat)
    requires cap > 0
    ensures Grow(cap, n + 1) == if Grow(cap, n) == n then 2 * Grow(cap, n) else Grow(cap, n)
    decreases if n <= cap then 0 else n - cap
  {
    if n < cap {
    } else if n == cap {
      assert Grow(2 * cap, n + 1) == 2 * cap;
    } else {
      GrowStep(2 * cap, n);
    }
  }
}
