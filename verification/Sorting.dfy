/** Sorting by a strict order, and why its result does not depend on the order of its input. */
module Sorting {
  import opened Common

  ghost predicate StrictlySorted<T(!new)>(xs: seq<T>, before: (T, T) -> bool) {
    forall i, j :: 0 <= i < j < |xs| ==> before(xs[i], xs[j])
  }

  ghost predicate SameElements<T(!new)>(xs: seq<T>, ys: seq<T>) {
    forall x :: x in xs <==> x in ys
  }

  ghost predicate StrictOrder<T(!new)>(before: (T, T) -> bool) {
    && (forall x, y :: before(x, y) ==> !before(y, x))
    && (forall x, y, z :: before(x, y) && before(y, z) ==> before(x, z))
  }

  /** x comes before or after every element of ys. */
  ghost predicate Comparable<T>(x: T, ys: seq<T>, before: (T, T) -> bool) {
    forall i :: 0 <= i < |ys| ==> before(x, ys[i]) || before(ys[i], x)
  }

  ghost predicate AllComparable<T>(xs: seq<T>, before: (T, T) -> bool) {
    forall i, j :: 0 <= i < j < |xs| ==> before(xs[i], xs[j]) || before(xs[j], xs[i])
  }

  function Insert<T>(x: T, ys: seq<T>, before: (T, T) -> bool): seq<T> {
    if ys == [] || before(x, ys[0]) then [x] + ys else [ys[0]] + Insert(x, ys[1..], before)
  }

  /** sort.Slice on a list that is built up element by element. */
  function Sort<T>(xs: seq<T>, before: (T, T) -> bool): seq<T> {
    if xs == [] then [] else Insert(xs[|xs| - 1], Sort(xs[..|xs| - 1], before), before)
  }

  lemma {:induction false} InsertElements<T(!new)>(x: T, ys: seq<T>, before: (T, T) -> bool)
    ensures forall y :: y in Insert(x, ys, before) <==> y == x || y in ys
  {
    if !(ys == [] || before(x, ys[0])) {
      InsertElements(x, ys[1..], before);
      assert ys == [ys[0]] + ys[1..];
    }
  }

  lemma {:induction false} InsertSorted<T(!new)>(x: T, ys: seq<T>, before: (T, T) -> bool)
    requires StrictOrder(before) && StrictlySorted(ys, before) && Comparable(x, ys, before)
    ensures StrictlySorted(Insert(x, ys, before), before)
  {
    var zs := Insert(x, ys, before);
    if ys != [] {
      if before(x, ys[0]) {
        assert forall j :: 0 < j < |zs| ==> before(x, zs[j]);
      } else {
        InsertSorted(x, ys[1..], before);
        InsertElements(x, ys[1..], before);
        forall j | 0 < j < |zs| ensures before(ys[0], zs[j]) {
          assert zs[j] in Insert(x, ys[1..], before);
        }
      }
    }
  }

  lemma {:induction false} SortElements<T(!new)>(xs: seq<T>, before: (T, T) -> bool)
    ensures SameElements(Sort(xs, before), xs)
  {
    if xs != [] {
      var n := |xs| - 1;
      SortElements(xs[..n], before);
      InsertElements(xs[n], Sort(xs[..n], before), before);
      assert xs == xs[..n] + [xs[n]];
    }
  }

  lemma {:induction false} SortSorts<T(!new)>(xs: seq<T>, before: (T, T) -> bool)
    requires StrictOrder(before) && AllComparable(xs, before)
    ensures StrictlySorted(Sort(xs, before), before)
  {
    if xs != [] {
      var n := |xs| - 1;
      SortSorts(xs[..n], before);
      SortElements(xs[..n], before);
      var ys := Sort(xs[..n], before);
      forall i | 0 <= i < |ys| ensures before(xs[n], ys[i]) || before(ys[i], xs[n]) {
        assert ys[i] in xs[..n];
      }
      InsertSorted(xs[n], ys, before);
    }
  }

  lemma {:induction false} SumConcat<T>(a: seq<T>, b: seq<T>, w: T -> nat)
    ensures Sum(a + b, w) == Sum(a, w) + Sum(b, w)
  {
    if b == [] {
      assert a + b == a;
    } else {
      assert (a + b)[..|a + b| - 1] == a + b[..|b| - 1];
      SumConcat(a, b[..|b| - 1], w);
    }
  }

  lemma {:induction false} InsertSum<T>(x: T, ys: seq<T>, before: (T, T) -> bool, w: T -> nat)
    ensures Sum(Insert(x, ys, before), w) == Sum(ys, w) + w(x) && |Insert(x, ys, before)| == |ys| + 1
  {
    assert Sum([x], w) == w(x) by { assert [x][..0] == []; }
    if ys == [] || before(x, ys[0]) {
      SumConcat([x], ys, w);
    } else {
      InsertSum(x, ys[1..], before, w);
      SumConcat([ys[0]], Insert(x, ys[1..], before), w);
      SumConcat([ys[0]], ys[1..], w);
      assert ys == [ys[0]] + ys[1..];
    }
  }

  /** Sorting keeps every tally. */
  lemma {:induction false} SortSum<T>(xs: seq<T>, before: (T, T) -> bool, w: T -> nat)
    ensures Sum(Sort(xs, before), w) == Sum(xs, w) && |Sort(xs, before)| == |xs|
  {
    if xs != [] {
      SortSum(xs[..|xs| - 1], before, w);
      InsertSum(xs[|xs| - 1], Sort(xs[..|xs| - 1], before), before, w);
    }
  }

  lemma TailElements<T(!new)>(xs: seq<T>, before: (T, T) -> bool)
    requires xs != [] && StrictOrder(before) && StrictlySorted(xs, before)
    ensures forall x :: x in xs[1..] <==> x in xs && x != xs[0]
  {
    assert xs == [xs[0]] + xs[1..];
    forall x | x in xs[1..] ensures x != xs[0] {
      var i :| 0 < i < |xs| && xs[i] == x;
      assert before(xs[0], xs[i]);
    }
  }

  /** A strictly sorted list is determined by its elements. */
  lemma {:induction false} SortedUnique<T(!new)>(xs: seq<T>, ys: seq<T>, before: (T, T) -> bool)
    requires StrictOrder(before) && StrictlySorted(xs, before) && StrictlySorted(ys, before) && SameElements(xs, ys)
    ensures xs == ys
    decreases |xs| + |ys|, |ys|
  {
    if |xs| < |ys| {
      SortedUnique(ys, xs, before);
    } else if xs != [] {
      assert xs[0] in ys;
      assert ys[0] in xs;
      assert xs[0] == ys[0];
      TailElements(xs, before);
      TailElements(ys, before);
      SortedUnique(xs[1..], ys[1..], before);
      assert xs == [xs[0]] + xs[1..] && ys == [ys[0]] + ys[1..];
    }
  }
}
