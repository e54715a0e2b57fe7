/**
  The closed form of what the alternating buy/sell algorithms order.

  Both `BuySellAlgorithm` and `BuySellAlgorithmNew` start with a multiplier
  of -1 and flip it after every frame, and every order has magnitude
  `amount - offset * offset`. `Trace(n, amount, offset)` is the list of the
  first `n` order sizes; the lemmas give it in closed form and show that
  consecutive orders cancel.
*/
module BuySellTrace {

  /** The multiplier used for the order of frame `i` (counting from 0):
      -1 for the first frame, then alternating. */
  function Multiplier(i: nat): int {
    if i % 2 == 0 then -1 else 1
  }

  /** The unsigned part of every order: the amount reduced quadratically by the offset. */
  function Magnitude(amount: int, offset: int): int {
    amount - offset * offset
  }

  /** The order sizes issued by the first `n` frames, in order. */
  function Trace(n: nat, amount: int, offset: int): seq<int> {
    if n == 0 then [] else Trace(n - 1, amount, offset) + [Multiplier(n - 1) * Magnitude(amount, offset)]
  }

  /** The sum of a list of order sizes (the net position they build up). */
  function Sum(s: seq<int>): int {
    if s == [] then 0 else Sum(s[..|s| - 1]) + s[|s| - 1]
  }

  /** The multiplier is always a unit and flips sign from one frame to the next. */
  lemma MultiplierFlips(i: nat)
    ensures Multiplier(i) == -1 || Multiplier(i) == 1
    ensures Multiplier(i + 1) == -Multiplier(i)
  {
  }

  /** After `n` frames there are exactly `n` orders, and order `i` is
      `(-1)^(i+1) * (amount - offset^2)`. */
  lemma {:induction false} TraceAt(n: nat, amount: int, offset: int, i: nat)
    requires i < n
    ensures |Trace(n, amount, offset)| == n
    ensures Trace(n, amount, offset)[i] == Multiplier(i) * Magnitude(amount, offset)
  {
    TraceLength(n - 1, amount, offset);
    if i < n - 1 {
      TraceAt(n - 1, amount, offset, i);
    }
  }

  /** The trace has one entry per frame. */
  lemma {:induction false} TraceLength(n: nat, amount: int, offset: int)
    ensures |Trace(n, amount, offset)| == n
  {
    if n > 0 {
      TraceLength(n - 1, amount, offset);
    }
  }

  /** A longer run extends a shorter one: earlier orders are never rewritten. */
  lemma {:induction false} TracePrefix(m: nat, n: nat, amount: int, offset: int)
    requires m <= n
    ensures |Trace(n, amount, offset)| == n
    ensures Trace(n, amount, offset)[..m] == Trace(m, amount, offset)
  {
    TraceLength(n, amount, offset);
    if m < n {
      TracePrefix(m, n - 1, amount, offset);
      TraceLength(n - 1, amount, offset);
      assert Trace(n, amount, offset)[..n - 1] == Trace(n - 1, amount, offset);
      assert Trace(n, amount, offset)[..m] == Trace(n, amount, offset)[..n - 1][..m];
    }
  }

  /** A buy is always followed by the matching sell: orders 2k and 2k+1 cancel. */
  lemma PairsCancel(n: nat, amount: int, offset: int, k: nat)
    requires 2 * k + 1 < n
    ensures |Trace(n, amount, offset)| == n
    ensures Trace(n, amount, offset)[2 * k] + Trace(n, amount, offset)[2 * k + 1] == 0
  {
    TraceLength(n, amount, offset);
    TraceAt(n, amount, offset, 2 * k);
    TraceAt(n, amount, offset, 2 * k + 1);
  }

  /** The net of all orders is zero after an even number of frames and one
      sell of the full magnitude after an odd number. */
  lemma {:induction false} TraceSum(n: nat, amount: int, offset: int)
    ensures Sum(Trace(n, amount, offset)) == if n % 2 == 0 then 0 else -Magnitude(amount, offset)
  {
    if n > 0 {
      TraceSum(n - 1, amount, offset);
      var t := Trace(n, amount, offset);
      assert t[..|t| - 1] == Trace(n - 1, amount, offset);
    }
  }
}
