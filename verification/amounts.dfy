/**
 * Optional money amounts and the two ways the payroll helpers add them up:
 * a left fold that visits the items in order (what an iterator `fold` or
 * `map(..).sum()` does), and the mathematical sum it is proved equal to.
 * Money is an exact `real`; the source's `f32` rounding is not modelled.
 */
module Amounts {

  /** An amount that may be absent. */
  datatype Option<T> = None | Some(value: T)

  /** An absent amount counts as zero (`unwrap_or(0.0)`). */
  function UnwrapOrZero(amount: Option<real>): real
  {
    match amount
    case Some(v) => v
    case None => 0.0
  }

  /** Reference definition: the sum of `value` over `items`. */
  function Sum<T>(items: seq<T>, value: T -> real): real
  {
    if items == [] then 0.0 else value(items[0]) + Sum(items[1..], value)
  }

  /**
   * Accumulates `value` over `items` from left to right starting at `acc`,
   * the order in which an iterator fold visits them. Under exact arithmetic
   * the result is the starting value plus the sum.
   */
  function FoldSum<T>(acc: real, items: seq<T>, value: T -> real): (r: real)
    ensures r == acc + Sum(items, value)
    decreases |items|
  {
    if items == [] then acc else FoldSum(acc + value(items[0]), items[1..], value)
  }

  /** The sum of a concatenation is the sum of the sums. */
  lemma {:induction false} SumConcat<T>(xs: seq<T>, ys: seq<T>, value: T -> real)
    ensures Sum(xs + ys, value) == Sum(xs, value) + Sum(ys, value)
  {
    if xs == [] {
      assert xs + ys == ys;
    } else {
      assert (xs + ys)[1..] == xs[1..] + ys;
      SumConcat(xs[1..], ys, value);
    }
  }

  /** Summing values that are all non-negative gives a non-negative total. */
  lemma {:induction false} SumNonNegative<T>(items: seq<T>, value: T -> real)
    requires forall i :: 0 <= i < |items| ==> value(items[i]) >= 0.0
    ensures Sum(items, value) >= 0.0
  {
    if items != [] {
      assert forall i :: 0 <= i < |items[1..]| ==> items[1..][i] == items[i + 1];
      SumNonNegative(items[1..], value);
    }
  }

  /** Taking one item out of a sequence takes its value out of the sum. */
  lemma SumRemoveAt<T>(ys: seq<T>, j: nat, value: T -> real)
    requires j < |ys|
    ensures Sum(ys, value) == value(ys[j]) + Sum(ys[..j] + ys[j + 1..], value)
  {
    assert ys == ys[..j] + ([ys[j]] + ys[j + 1..]);
    SumConcat(ys[..j], [ys[j]] + ys[j + 1..], value);
    SumConcat(ys[..j], ys[j + 1..], value);
    assert ([ys[j]] + ys[j + 1..])[1..] == ys[j + 1..];
  }

  /** Taking one item out of a sequence takes it out of its multiset. */
  lemma MultisetRemoveAt<T>(ys: seq<T>, j: nat)
    requires j < |ys|
    ensures multiset(ys[..j] + ys[j + 1..]) == multiset(ys) - multiset{ys[j]}
  {
    assert ys == ys[..j] + [ys[j]] + ys[j + 1..];
  }

  /** The sum does not depend on the order of the items. */
  lemma {:induction false} SumPermutation<T>(xs: seq<T>, ys: seq<T>, value: T -> real)
    requires multiset(xs) == multiset(ys)
    ensures Sum(xs, value) == Sum(ys, value)
    decreases |xs|
  {
    if xs == [] {
      assert |ys| == |multiset(ys)| == 0;
    } else {
      var x := xs[0];
      assert x in multiset(ys);
      var j :| 0 <= j < |ys| && ys[j] == x;
      var rest := ys[..j] + ys[j + 1..];
      MultisetRemoveAt(ys, j);
      MultisetRemoveAt(xs, 0);
      assert xs[..0] + xs[1..] == xs[1..];
      SumPermutation(xs[1..], rest, value);
      SumRemoveAt(ys, j, value);
    }
  }
}
