/** Sums over sequences and over sequences of sequences. */
module Tally {

  function Sum<T>(xs: seq<T>, f: T -> int): int {
    if xs == [] then 0 else Sum(xs[..|xs| - 1], f) + f(xs[|xs| - 1])
  }

  lemma SumSnoc<T>(xs: seq<T>, x: T, f: T -> int)
    ensures Sum(xs + [x], f) == Sum(xs, f) + f(x)
  {
    assert (xs + [x])[..|xs|] == xs;
  }

  lemma SumOne<T>(x: T, f: T -> int)
    ensures Sum([x], f) == f(x)
  {
    assert [x][..0] == [];
  }

  lemma SumPair<T>(x: T, y: T, f: T -> int)
    ensures Sum([x, y], f) == f(x) + f(y)
  {
    assert [x, y][..1] == [x];
    SumOne(x, f);
  }

  lemma {:induction false} SumConcat<T>(xs: seq<T>, ys: seq<T>, f: T -> int)
    ensures Sum(xs + ys, f) == Sum(xs, f) + Sum(ys, f)
    decreases |ys|
  {
    if ys == [] {
      assert xs + ys == xs;
    } else {
      var init, last := ys[..|ys| - 1], ys[|ys| - 1];
      assert xs + ys == (xs + init) + [last];
      SumSnoc(xs + init, last, f);
      SumConcat(xs, init, f);
    }
  }

  lemma SumHeadTail<T>(xs: seq<T>, f: T -> int)
    requires xs != []
    ensures Sum(xs, f) == f(xs[0]) + Sum(xs[1..], f)
  {
    assert xs == [xs[0]] + xs[1..];
    SumConcat([xs[0]], xs[1..], f);
    SumSnoc([], xs[0], f);
    assert [] + [xs[0]] == [xs[0]];
  }

  lemma {:induction false} SumZero<T>(xs: seq<T>, f: T -> int)
    requires forall x <- xs :: f(x) == 0
    ensures Sum(xs, f) == 0
    decreases |xs|
  {
    if xs != [] {
      SumZero(xs[..|xs| - 1], f);
    }
  }

  lemma {:induction false} SumNonNegative<T>(xs: seq<T>, f: T -> int)
    requires forall x <- xs :: f(x) >= 0
    ensures Sum(xs, f) >= 0
    decreases |xs|
  {
    if xs != [] {
      SumNonNegative(xs[..|xs| - 1], f);
    }
  }

  /** The prefixes of a sequence are those of it without its last element, and itself. */
  lemma Prefixes<T>(xs: seq<T>)
    requires xs != []
    ensures xs[..|xs|] == xs
    ensures forall n :: 0 <= n < |xs| ==> xs[..n] == xs[..|xs| - 1][..n]
  {
  }

  function Total<T>(xss: seq<seq<T>>, f: T -> int): int {
    if xss == [] then 0 else Total(xss[..|xss| - 1], f) + Sum(xss[|xss| - 1], f)
  }

  lemma TotalSnoc<T>(xss: seq<seq<T>>, xs: seq<T>, f: T -> int)
    ensures Total(xss + [xs], f) == Total(xss, f) + Sum(xs, f)
  {
    assert (xss + [xs])[..|xss|] == xss;
  }

  /** Replacing one sequence changes the total by the difference. */
  lemma {:induction false} TotalUpdate<T>(xss: seq<seq<T>>, t: nat, xs: seq<T>, f: T -> int)
    requires t < |xss|
    ensures Total(xss[t := xs], f) == Total(xss, f) - Sum(xss[t], f) + Sum(xs, f)
    decreases |xss|
  {
    var n := |xss| - 1;
    var updated := xss[t := xs];
    if t == n {
      assert updated[..n] == xss[..n];
    } else {
      assert updated[..n] == xss[..n][t := xs];
      TotalUpdate(xss[..n], t, xs, f);
    }
  }

  lemma {:induction false} TotalEmpty<T>(xss: seq<seq<T>>, f: T -> int)
    requires forall t :: 0 <= t < |xss| ==> xss[t] == []
    ensures Total(xss, f) == 0
    decreases |xss|
  {
    if xss != [] {
      TotalEmpty(xss[..|xss| - 1], f);
    }
  }

  /** The elements that satisfy f, in order. */
  function Keep<T>(xs: seq<T>, f: T -> bool): seq<T> {
    if xs == [] then []
    else (if f(xs[0]) then [xs[0]] else []) + Keep(xs[1..], f)
  }

  lemma {:induction false} KeepConcat<T>(xs: seq<T>, ys: seq<T>, f: T -> bool)
    ensures Keep(xs + ys, f) == Keep(xs, f) + Keep(ys, f)
    decreases |xs|
  {
    if xs == [] {
      assert xs + ys == ys;
    } else {
      var head := if f(xs[0]) then [xs[0]] else [];
      assert (xs + ys)[0] == xs[0] && (xs + ys)[1..] == xs[1..] + ys;
      KeepConcat(xs[1..], ys, f);
      assert head + (Keep(xs[1..], f) + Keep(ys, f)) == (head + Keep(xs[1..], f)) + Keep(ys, f);
    }
  }

  lemma {:induction false} KeepAll<T>(xs: seq<T>, f: T -> bool)
    requires forall x <- xs :: f(x)
    ensures Keep(xs, f) == xs
    decreases |xs|
  {
    if xs != [] {
      KeepAll(xs[1..], f);
    }
  }

  lemma {:induction false} KeepNone<T>(xs: seq<T>, f: T -> bool)
    requires forall x <- xs :: !f(x)
    ensures Keep(xs, f) == []
    decreases |xs|
  {
    if xs != [] {
      KeepNone(xs[1..], f);
    }
  }
}
