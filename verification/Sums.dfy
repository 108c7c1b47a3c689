/** Weighted sums over sequences: the one arithmetic tool behind the ledgers, counters and measures. */
module Sums {

  function Sum<T>(xs: seq<T>, w: T -> nat): nat
  {
    if xs == [] then 0 else w(xs[0]) + Sum(xs[1..], w)
  }

  lemma {:induction false} SumAppend<T>(xs: seq<T>, ys: seq<T>, w: T -> nat)
    ensures Sum(xs + ys, w) == Sum(xs, w) + Sum(ys, w)
  {
    if xs == [] {
      assert xs + ys == ys;
    } else {
      SumAppend(xs[1..], ys, w);
      assert (xs + ys)[1..] == xs[1..] + ys;
    }
  }

  lemma SumSnoc<T>(xs: seq<T>, x: T, w: T -> nat)
    ensures Sum(xs + [x], w) == Sum(xs, w) + w(x)
  {
    SumAppend(xs, [x], w);
    assert Sum([x], w) == w(x) + Sum([x][1..], w);
  }

  lemma SumCons<T>(x: T, xs: seq<T>, w: T -> nat)
    ensures Sum([x] + xs, w) == w(x) + Sum(xs, w)
  {
    assert ([x] + xs)[1..] == xs;
  }

  lemma {:induction false} SumRemove<T>(xs: seq<T>, i: nat, w: T -> nat)
    requires i < |xs|
    ensures Sum(xs[..i] + xs[i + 1..], w) + w(xs[i]) == Sum(xs, w)
  {
    if i == 0 {
      assert xs[..0] + xs[1..] == xs[1..];
    } else {
      SumRemove(xs[1..], i - 1, w);
      assert xs[..i] + xs[i + 1..] == [xs[0]] + (xs[1..][..i - 1] + xs[1..][i..]);
      SumCons(xs[0], xs[1..][..i - 1] + xs[1..][i..], w);
    }
  }

  lemma SumUpdate<T>(xs: seq<T>, i: nat, x: T, w: T -> nat)
    requires i < |xs|
    ensures Sum(xs[i := x], w) + w(xs[i]) == Sum(xs, w) + w(x)
  {
    var ys := xs[i := x];
    assert ys[..i] + ys[i + 1..] == xs[..i] + xs[i + 1..];
    SumRemove(xs, i, w);
    SumRemove(ys, i, w);
  }

  lemma SumAtLeast<T>(xs: seq<T>, i: nat, w: T -> nat)
    requires i < |xs|
    ensures w(xs[i]) <= Sum(xs, w)
  {
    SumRemove(xs, i, w);
  }

  lemma SumAtLeastTwo<T>(xs: seq<T>, i: nat, j: nat, w: T -> nat)
    requires i < j < |xs|
    ensures w(xs[i]) + w(xs[j]) <= Sum(xs, w)
  {
    var ys := xs[..j] + xs[j + 1..];
    SumRemove(xs, j, w);
    assert ys[i] == xs[i];
    SumAtLeast(ys, i, w);
  }

  lemma {:induction false} SumZero<T>(xs: seq<T>, w: T -> nat)
    requires forall x :: x in xs ==> w(x) == 0
    ensures Sum(xs, w) == 0
  {
    if xs != [] {
      SumZero(xs[1..], w);
    }
  }

  lemma {:induction false} SumAtMostLength<T>(xs: seq<T>, w: T -> nat)
    requires forall x :: x in xs ==> w(x) <= 1
    ensures Sum(xs, w) <= |xs|
  {
    if xs != [] {
      SumAtMostLength(xs[1..], w);
    }
  }
}
