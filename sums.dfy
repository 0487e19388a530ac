/**
 * Sums of real terms indexed by positions, used to state where the two-pass
 * backward of trainStep puts every gradient contribution.
 */
module Sums {

  /** f(0) + f(1) + ... + f(n-1), added left to right. */
  function SumOf(n: nat, f: nat -> real): real
  {
    if n == 0 then 0.0 else SumOf(n - 1, f) + f(n - 1)
  }

  /** f(lo) + ... + f(hi-1), added left to right; 0 when hi <= lo. */
  function RangeSum(lo: nat, hi: nat, f: nat -> real): real
    decreases hi
  {
    if hi <= lo then 0.0 else RangeSum(lo, hi - 1, f) + f(hi - 1)
  }

  lemma {:induction false} SumOfCongruent(n: nat, f: nat -> real, g: nat -> real)
    requires forall i :: 0 <= i < n ==> f(i) == g(i)
    ensures SumOf(n, f) == SumOf(n, g)
  {
    if n > 0 {
      SumOfCongruent(n - 1, f, g);
    }
  }

  lemma {:induction false} SumOfAdd(n: nat, f: nat -> real, g: nat -> real, h: nat -> real)
    requires forall i :: 0 <= i < n ==> h(i) == f(i) + g(i)
    ensures SumOf(n, h) == SumOf(n, f) + SumOf(n, g)
  {
    if n > 0 {
      SumOfAdd(n - 1, f, g, h);
    }
  }

  lemma RangeSumLast(lo: nat, hi: nat, f: nat -> real)
    requires lo < hi
    ensures RangeSum(lo, hi, f) == RangeSum(lo, hi - 1, f) + f(hi - 1)
  {
  }

  lemma {:induction false} RangeSumCongruent(lo: nat, hi: nat, f: nat -> real, g: nat -> real)
    requires forall i :: lo <= i < hi ==> f(i) == g(i)
    ensures RangeSum(lo, hi, f) == RangeSum(lo, hi, g)
    decreases hi
  {
    if hi > lo {
      RangeSumCongruent(lo, hi - 1, f, g);
    }
  }

  /** A constant factor comes out of a range sum. */
  lemma {:induction false} RangeSumScale(lo: nat, hi: nat, f: nat -> real, g: nat -> real, c: real)
    requires forall i :: lo <= i < hi ==> g(i) == f(i) * c
    ensures RangeSum(lo, hi, g) == RangeSum(lo, hi, f) * c
    decreases hi
  {
    if hi > lo {
      RangeSumScale(lo, hi - 1, f, g, c);
    }
  }

  /** The entries f(pos, pos) of a double-indexed family. */
  function Diagonal(f: (nat, nat) -> real): nat -> real
  {
    (pos: nat) => f(pos, pos)
  }

  /** Row pos of a double-indexed family, t |-> f(pos, t). */
  function Row(f: (nat, nat) -> real, pos: nat): nat -> real
  {
    (t: nat) => f(pos, t)
  }

  /** Column t of a double-indexed family, pos |-> f(pos, t). */
  function ColumnOf(f: (nat, nat) -> real, t: nat): nat -> real
  {
    (pos: nat) => f(pos, t)
  }

  /** t |-> f(t+1, t) + ... + f(n-1, t): the entries below the diagonal in column t. */
  function BelowDiagonal(f: (nat, nat) -> real, n: nat): nat -> real
  {
    (t: nat) => RangeSum(t + 1, n, ColumnOf(f, t))
  }

  /** pos |-> f(pos, 0) + ... + f(pos, pos): row pos of the lower triangle. */
  function TriangleRow(f: (nat, nat) -> real): nat -> real
  {
    (pos: nat) => SumOf(pos + 1, Row(f, pos))
  }

  /** The triangular double sum over pairs t <= pos < n, split into its
      diagonal (t == pos) and the rest (t < pos), grouped by t. */
  lemma {:induction false} TriangleSplit(n: nat, f: (nat, nat) -> real)
    ensures SumOf(n, Diagonal(f)) + SumOf(n, BelowDiagonal(f, n)) == SumOf(n, TriangleRow(f))
  {
    if n > 0 {
      var k := n - 1;
      TriangleSplit(k, f);
      var row := Row(f, k);
      forall t | 0 <= t < k ensures BelowDiagonal(f, n)(t) == BelowDiagonal(f, k)(t) + row(t) {
      }
      SumOfAdd(k, BelowDiagonal(f, k), row, BelowDiagonal(f, n));
      assert BelowDiagonal(f, n)(k) == 0.0;
      assert SumOf(n, BelowDiagonal(f, n)) == SumOf(k, BelowDiagonal(f, n));
      assert TriangleRow(f)(k) == SumOf(k, row) + f(k, k);
    }
  }
}
