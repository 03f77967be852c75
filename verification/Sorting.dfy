/** The two library sorts the program calls (sort.Slice and sort.Sort), as one insertion sort. */
module Sorting {

  /** What Go asks of a `less` argument: "not before" is total and transitive. */
  ghost predicate WeakOrder<T(!new)>(less: (T, T) -> bool) {
    && (forall a, b :: less(a, b) ==> !less(b, a))
    && (forall a, b, c :: !less(b, a) && !less(c, b) ==> !less(c, a))
  }

  ghost predicate Sorted<T>(less: (T, T) -> bool, xs: seq<T>) {
    forall i, j :: 0 <= i < j < |xs| ==> !less(xs[j], xs[i])
  }

  function Insert<T>(less: (T, T) -> bool, x: T, xs: seq<T>): (ys: seq<T>)
    ensures multiset(ys) == multiset(xs) + multiset{x}
    ensures |ys| == |xs| + 1
  {
    if xs == [] || !less(xs[0], x) then
      [x] + xs
    else
      assert xs == [xs[0]] + xs[1..];
      [xs[0]] + Insert(less, x, xs[1..])
  }

  function Sort<T>(less: (T, T) -> bool, xs: seq<T>): (ys: seq<T>)
    ensures multiset(ys) == multiset(xs)
    ensures |ys| == |xs|
  {
    if xs == [] then []
    else
      assert xs == [xs[0]] + xs[1..];
      Insert(less, xs[0], Sort(less, xs[1..]))
  }

  lemma {:induction false} InsertKeepsSorted<T(!new)>(less: (T, T) -> bool, x: T, xs: seq<T>)
    requires WeakOrder(less) && Sorted(less, xs)
    ensures Sorted(less, Insert(less, x, xs))
  {
    if xs != [] && less(xs[0], x) {
      var rest := Insert(less, x, xs[1..]);
      InsertKeepsSorted(less, x, xs[1..]);
      forall y | y in rest
        ensures !less(y, xs[0])
      {
        assert y in multiset(rest);
        if y != x {
          assert y in multiset(xs[1..]);
        }
      }
    }
  }

  lemma {:induction false} SortSorts<T(!new)>(less: (T, T) -> bool, xs: seq<T>)
    requires WeakOrder(less)
    ensures Sorted(less, Sort(less, xs))
  {
    if xs != [] {
      SortSorts(less, xs[1..]);
      InsertKeepsSorted(less, xs[0], Sort(less, xs[1..]));
    }
  }

  /** A sort keeps membership, and keeps duplicates out. */
  lemma SortKeepsElements<T>(less: (T, T) -> bool, xs: seq<T>)
    ensures forall x :: x in Sort(less, xs) <==> x in xs
    ensures (forall i, j :: 0 <= i < j < |xs| ==> xs[i] != xs[j]) ==>
              forall i, j :: 0 <= i < j < |xs| ==> Sort(less, xs)[i] != Sort(less, xs)[j]
  {
    var ys := Sort(less, xs);
    forall x
      ensures x in ys <==> x in xs
    {
      assert x in ys <==> x in multiset(ys);
    }
    if forall i, j :: 0 <= i < j < |xs| ==> xs[i] != xs[j] {
      forall i, j | 0 <= i < j < |ys|
        ensures ys[i] != ys[j]
      {
        DistinctCountsOnce(xs, ys[i]);
        CountsTwice(ys, i, j);
      }
    }
  }

  lemma DistinctCountsOnce<T>(xs: seq<T>, x: T)
    requires forall i, j :: 0 <= i < j < |xs| ==> xs[i] != xs[j]
    ensures multiset(xs)[x] <= 1
  {
    if xs != [] {
      assert xs == [xs[0]] + xs[1..];
      DistinctCountsOnce(xs[1..], x);
    }
  }

  lemma CountsTwice<T>(ys: seq<T>, i: int, j: int)
    requires 0 <= i < j < |ys|
    ensures ys[i] == ys[j] ==> multiset(ys)[ys[i]] >= 2
  {
    assert ys == ys[..j] + ys[j..];
    assert multiset(ys) == multiset(ys[..j]) + multiset(ys[j..]);
    assert ys[i] in ys[..j] && ys[j] in ys[j..];
  }
}
