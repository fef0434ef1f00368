/** Python's sorted(items, key=...): the stable sort, and what stability gives. */
module Sorting {
  /** Places x after every item whose key does not exceed its own. */
  function Insert<T>(sorted: seq<T>, x: T, key: T -> int): seq<T> {
    if sorted == [] then [x]
    else
      var n := |sorted| - 1;
      if key(sorted[n]) <= key(x) then sorted + [x] else Insert(sorted[..n], x, key) + [sorted[n]]
  }

  function Sort<T>(items: seq<T>, key: T -> int): seq<T> {
    if items == [] then []
    else
      var n := |items| - 1;
      Insert(Sort(items[..n], key), items[n], key)
  }

  ghost predicate Ascending<T>(items: seq<T>, key: T -> int) {
    forall i, j | 0 <= i < j < |items| :: key(items[i]) <= key(items[j])
  }

  ghost predicate Increasing<T>(items: seq<T>, key: T -> int) {
    forall i, j | 0 <= i < j < |items| :: key(items[i]) < key(items[j])
  }

  lemma {:induction false} InsertPermutes<T>(sorted: seq<T>, x: T, key: T -> int)
    ensures multiset(Insert(sorted, x, key)) == multiset(sorted) + multiset{x}
    decreases |sorted|
  {
    if sorted != [] {
      var n := |sorted| - 1;
      assert sorted == sorted[..n] + [sorted[n]];
      if key(sorted[n]) > key(x) {
        InsertPermutes(sorted[..n], x, key);
      }
    }
  }

  lemma {:induction false} InsertSorts<T>(sorted: seq<T>, x: T, key: T -> int)
    requires Ascending(sorted, key)
    ensures Ascending(Insert(sorted, x, key), key)
    decreases |sorted|
  {
    if sorted != [] {
      var n := |sorted| - 1;
      if key(sorted[n]) > key(x) {
        var shorter := Insert(sorted[..n], x, key);
        InsertSorts(sorted[..n], x, key);
        InsertPermutes(sorted[..n], x, key);
        forall i | 0 <= i < |shorter|
          ensures key(shorter[i]) <= key(sorted[n])
        {
          assert shorter[i] in multiset(shorter);
          assert shorter[i] in sorted[..n] || shorter[i] == x;
        }
      }
    }
  }

  /** The result is a sorted permutation. */
  lemma {:induction false} SortSorts<T>(items: seq<T>, key: T -> int)
    ensures Ascending(Sort(items, key), key)
    ensures multiset(Sort(items, key)) == multiset(items)
    decreases |items|
  {
    if items != [] {
      var n := |items| - 1;
      assert items == items[..n] + [items[n]];
      SortSorts(items[..n], key);
      InsertSorts(Sort(items[..n], key), items[n], key);
      InsertPermutes(Sort(items[..n], key), items[n], key);
    }
  }

  function Filter<T>(items: seq<T>, keep: T -> bool): seq<T> {
    if items == [] then []
    else
      var n := |items| - 1;
      Filter(items[..n], keep) + (if keep(items[n]) then [items[n]] else [])
  }

  lemma FilterSnoc<T>(items: seq<T>, x: T, keep: T -> bool)
    ensures Filter(items + [x], keep) == Filter(items, keep) + (if keep(x) then [x] else [])
  {
    assert (items + [x])[..|items|] == items;
  }

  lemma {:induction false} FilterMembers<T>(items: seq<T>, keep: T -> bool)
    ensures forall y :: y in Filter(items, keep) <==> y in items && keep(y)
    decreases |items|
  {
    if items != [] {
      var n := |items| - 1;
      FilterMembers(items[..n], keep);
      assert items == items[..n] + [items[n]];
    }
  }

  lemma {:induction false} FilterEmptyIff<T>(items: seq<T>, keep: T -> bool)
    ensures Filter(items, keep) == [] <==> forall i | 0 <= i < |items| :: !keep(items[i])
    decreases |items|
  {
    if items != [] {
      FilterEmptyIff(items[..|items| - 1], keep);
    }
  }

  /** A filter keeps every copy of an item it keeps. */
  lemma {:induction false} FilterCounts<T>(items: seq<T>, keep: T -> bool, y: T)
    ensures multiset(Filter(items, keep))[y] == if keep(y) then multiset(items)[y] else 0
    decreases |items|
  {
    if items != [] {
      var n := |items| - 1;
      FilterCounts(items[..n], keep, y);
      assert items == items[..n] + [items[n]];
    }
  }

  /** Insertion puts x behind the kept items when none of them has a larger key, and leaves them in order anyway. */
  lemma {:induction false} InsertFiltered<T>(sorted: seq<T>, x: T, key: T -> int, keep: T -> bool)
    requires keep(x) ==> forall y | y in sorted && keep(y) :: key(y) <= key(x)
    ensures Filter(Insert(sorted, x, key), keep) == Filter(sorted, keep) + (if keep(x) then [x] else [])
    decreases |sorted|
  {
    if sorted == [] {
      FilterSnoc([], x, keep);
      assert [] + [x] == [x];
    } else {
      var n := |sorted| - 1;
      assert sorted == sorted[..n] + [sorted[n]];
      if key(sorted[n]) <= key(x) {
        FilterSnoc(sorted, x, keep);
      } else {
        InsertFiltered(sorted[..n], x, key, keep);
        FilterSnoc(Insert(sorted[..n], x, key), sorted[n], keep);
      }
    }
  }

  /** A part of the items that is in key order already keeps its order: stability, for any part. */
  lemma {:induction false} SortKeepsOrderedParts<T>(items: seq<T>, key: T -> int, keep: T -> bool)
    requires Ascending(Filter(items, keep), key)
    ensures Filter(Sort(items, key), keep) == Filter(items, keep)
    decreases |items|
  {
    if items != [] {
      var n := |items| - 1;
      var x, kept := items[n], Filter(items[..n], keep);
      assert Filter(items, keep) == kept + (if keep(x) then [x] else []);
      assert Ascending(kept, key) by {
        forall i, j | 0 <= i < j < |kept|
          ensures key(kept[i]) <= key(kept[j])
        {
          assert Filter(items, keep)[i] == kept[i] && Filter(items, keep)[j] == kept[j];
        }
      }
      SortKeepsOrderedParts(items[..n], key, keep);
      var sorted := Sort(items[..n], key);
      if keep(x) {
        forall y | y in sorted && keep(y)
          ensures key(y) <= key(x)
        {
          FilterMembers(sorted, keep);
          assert y in Filter(sorted, keep);
          assert y in kept;
          var i :| 0 <= i < |kept| && kept[i] == y;
          assert Filter(items, keep)[i] == y && Filter(items, keep)[|kept|] == x;
        }
      }
      InsertFiltered(sorted, x, key, keep);
    }
  }

  lemma LastIsTheLargest<T>(a: seq<T>, b: seq<T>, key: T -> int)
    requires Ascending(a, key) && Increasing(b, key) && multiset(a) == multiset(b) && a != [] && b != []
    ensures a[|a| - 1] == b[|b| - 1]
  {
    var x, y := a[|a| - 1], b[|b| - 1];
    assert x in multiset(a) && y in multiset(b);
    var i :| 0 <= i < |b| && b[i] == x;
    var j :| 0 <= j < |a| && a[j] == y;
    assert key(y) <= key(x);
  }

  lemma DropLast<T>(a: seq<T>)
    requires a != []
    ensures multiset(a[..|a| - 1]) == multiset(a) - multiset{a[|a| - 1]}
    ensures a == a[..|a| - 1] + [a[|a| - 1]]
  {
    assert a == a[..|a| - 1] + [a[|a| - 1]];
  }

  lemma SameSize<T>(a: seq<T>, b: seq<T>)
    requires multiset(a) == multiset(b)
    ensures |a| == |b|
  {
    assert |a| == |multiset(a)| && |b| == |multiset(b)|;
  }

  /** Distinct keys leave only one sorted order. */
  lemma {:induction false} SortedOrderIsUnique<T>(a: seq<T>, b: seq<T>, key: T -> int)
    requires Ascending(a, key) && Increasing(b, key) && multiset(a) == multiset(b)
    ensures a == b
    decreases |a|
  {
    SameSize(a, b);
    if a != [] {
      LastIsTheLargest(a, b, key);
      DropLast(a);
      DropLast(b);
      SortedOrderIsUnique(a[..|a| - 1], b[..|b| - 1], key);
    }
  }

  /** Whatever order the items come in, sorting them gives the one increasing order. */
  lemma SortOfPermutation<T>(items: seq<T>, ordered: seq<T>, key: T -> int)
    requires multiset(items) == multiset(ordered) && Increasing(ordered, key)
    ensures Sort(items, key) == ordered
  {
    SortSorts(items, key);
    SortedOrderIsUnique(Sort(items, key), ordered, key);
  }

  function Map<T, U>(items: seq<T>, f: T -> U): seq<U> {
    if items == [] then [] else Map(items[..|items| - 1], f) + [f(items[|items| - 1])]
  }

  lemma {:induction false} MapAt<T, U>(items: seq<T>, f: T -> U)
    ensures |Map(items, f)| == |items|
    ensures forall i | 0 <= i < |items| :: Map(items, f)[i] == f(items[i])
    decreases |items|
  {
    if items != [] {
      MapAt(items[..|items| - 1], f);
    }
  }

  lemma MapSnoc<T, U>(items: seq<T>, x: T, f: T -> U)
    ensures Map(items + [x], f) == Map(items, f) + [f(x)]
  {
    assert (items + [x])[..|items|] == items;
  }

  function Compose<T, U>(f: T -> U, key: U -> int): T -> int {
    (y: T) => key(f(y))
  }

  lemma {:induction false} MapInsert<T, U>(sorted: seq<T>, x: T, f: T -> U, key: U -> int)
    ensures Map(Insert(sorted, x, Compose(f, key)), f) == Insert(Map(sorted, f), f(x), key)
    decreases |sorted|
  {
    var k := Compose(f, key);
    if sorted == [] {
      MapSnoc([], x, f);
      assert [] + [x] == [x];
    } else {
      var n := |sorted| - 1;
      var images := Map(sorted, f);
      assert images[..|images| - 1] == Map(sorted[..n], f) && images[|images| - 1] == f(sorted[n]);
      if k(sorted[n]) <= k(x) {
        MapSnoc(sorted, x, f);
      } else {
        MapInsert(sorted[..n], x, f, key);
        MapSnoc(Insert(sorted[..n], x, k), sorted[n], f);
      }
    }
  }

  /** Sorting does not see what a key does not look at. */
  lemma {:induction false} MapSort<T, U>(items: seq<T>, f: T -> U, key: U -> int)
    ensures Map(Sort(items, Compose(f, key)), f) == Sort(Map(items, f), key)
    decreases |items|
  {
    if items != [] {
      var n := |items| - 1;
      var images := Map(items, f);
      assert images[..|images| - 1] == Map(items[..n], f) && images[|images| - 1] == f(items[n]);
      MapSort(items[..n], f, key);
      MapInsert(Sort(items[..n], Compose(f, key)), items[n], f, key);
    }
  }
}
