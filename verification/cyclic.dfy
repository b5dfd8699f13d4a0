/**
 * The cyclic index the interval-driven carousels advance:
 * `setCurrentIndex(prev => (prev + 1) % n)`.
 */
module Cyclic {

  /** One tick: the next of `n` slots, wrapping from the last back to the first. */
  function Next(i: nat, n: nat): (r: nat)
    requires n > 0
    ensures r < n
    ensures i + 1 < n ==> r == i + 1
    ensures i + 1 == n ==> r == 0
  {
    (i + 1) % n
  }

  /** The slot reached from `i` after `k` ticks. */
  function Ticks(i: nat, n: nat, k: nat): (r: nat)
    requires n > 0
    ensures k > 0 ==> r < n
  {
    if k == 0 then i else Next(Ticks(i, n, k - 1), n)
  }

  /** Ticks compose: `a` ticks and then `b` more are `a + b` ticks. */
  lemma {:induction false} TicksAdd(i: nat, n: nat, a: nat, b: nat)
    requires n > 0
    ensures Ticks(Ticks(i, n, a), n, b) == Ticks(i, n, a + b)
  {
    if b > 0 {
      TicksAdd(i, n, a, b - 1);
    }
  }

  /** Before the wrap, `k` ticks from slot `i` reach slot `i + k`. */
  lemma {:induction false} TicksBeforeWrap(i: nat, n: nat, k: nat)
    requires i + k < n
    ensures Ticks(i, n, k) == i + k
  {
    if k > 0 {
      TicksBeforeWrap(i, n, k - 1);
    }
  }

  /** From slot `i`, `n - i` ticks wrap around to the first slot. */
  lemma TicksToWrap(i: nat, n: nat)
    requires i < n
    ensures Ticks(i, n, n - i) == 0
  {
    TicksBeforeWrap(i, n, n - i - 1);
  }

  /** `n` ticks bring every slot back to itself. */
  lemma FullTurn(i: nat, n: nat)
    requires i < n
    ensures Ticks(i, n, n) == i
  {
    TicksToWrap(i, n);
    TicksAdd(i, n, n - i, i);
    TicksBeforeWrap(0, n, i);
  }
}
