/** Sorting by a numeric key, as `sort_by_key` does. */
module Sorting {
  ghost predicate SortedBy<T>(items: seq<T>, key: T -> nat) {
    forall j, k :: 0 <= j < k < |items| ==> key(items[j]) < key(items[k])
  }

  ghost predicate DistinctBy<T>(items: seq<T>, key: T -> nat) {
    forall j, k :: 0 <= j < k < |items| ==> key(items[j]) != key(items[k])
  }

  function InsertBy<T(!new)>(sorted: seq<T>, x: T, key: T -> nat): (out: seq<T>)
    ensures forall y :: y in out <==> y == x || y in sorted
  {
    if sorted == [] then [x]
    else
      var front, last := sorted[..|sorted| - 1], sorted[|sorted| - 1];
      assert sorted == front + [last];
      if key(last) < key(x) then sorted + [x] else InsertBy(front, x, key) + [last]
  }

  /** Insertion sort. */
  function SortBy<T(!new)>(items: seq<T>, key: T -> nat): (out: seq<T>)
    ensures forall y :: y in out <==> y in items
  {
    if items == [] then []
    else
      var front, last := items[..|items| - 1], items[|items| - 1];
      assert items == front + [last];
      InsertBy(SortBy(front, key), last, key)
  }

  /** In key order, every item but the last is below the last. */
  lemma LastIsGreatest<T(!new)>(a: seq<T>, key: T -> nat)
    requires a != [] && SortedBy(a, key)
    ensures forall x :: x in a <==> x == a[|a| - 1] || x in a[..|a| - 1]
    ensures forall x :: x in a[..|a| - 1] ==> key(x) < key(a[|a| - 1])
    ensures SortedBy(a[..|a| - 1], key)
  {
    assert a == a[..|a| - 1] + [a[|a| - 1]];
  }

  lemma {:induction false} InsertSorts<T(!new)>(sorted: seq<T>, x: T, key: T -> nat)
    requires SortedBy(sorted, key) && forall y :: y in sorted ==> key(y) != key(x)
    ensures SortedBy(InsertBy(sorted, x, key), key)
  {
    if sorted == [] {
    } else {
      LastIsGreatest(sorted, key);
      var front, last := sorted[..|sorted| - 1], sorted[|sorted| - 1];
      if key(last) > key(x) {
        InsertSorts(front, x, key);
        var placed := InsertBy(front, x, key);
        assert forall k :: 0 <= k < |placed| ==> placed[k] in placed;
      }
    }
  }

  lemma {:induction false} SortSorts<T(!new)>(items: seq<T>, key: T -> nat)
    requires DistinctBy(items, key)
    ensures SortedBy(SortBy(items, key), key)
  {
    if items == [] {
    } else {
      var front := items[..|items| - 1];
      SortSorts(front, key);
      InsertSorts(SortBy(front, key), items[|items| - 1], key);
    }
  }

  ghost predicate SameMembers<T(!new)>(a: seq<T>, b: seq<T>) {
    forall x :: x in a <==> x in b
  }

  /** Two such lists with the same members end alike. */
  lemma SameLast<T(!new)>(a: seq<T>, b: seq<T>, key: T -> nat)
    requires a != [] && b != [] && SortedBy(a, key) && SortedBy(b, key) && SameMembers(a, b)
    ensures a[|a| - 1] == b[|b| - 1]
    ensures SameMembers(a[..|a| - 1], b[..|b| - 1])
  {
    LastIsGreatest(a, key);
    LastIsGreatest(b, key);
    var x, y := a[|a| - 1], b[|b| - 1];
    assert x in b && y in a;
    assert key(x) <= key(y) <= key(x);
    assert x == y;
    var a', b' := a[..|a| - 1], b[..|b| - 1];
    assert forall z :: z in a' ==> z in b && z != y;
    assert forall z :: z in b' ==> z in a && z != x;
  }

  /** Two lists in key order with the same members are the same list. */
  lemma {:induction false} SortedUnique<T(!new)>(a: seq<T>, b: seq<T>, key: T -> nat)
    requires SortedBy(a, key) && SortedBy(b, key) && SameMembers(a, b)
    ensures a == b
  {
    assert a != [] ==> a[0] in b;
    assert b != [] ==> b[0] in a;
    if a == [] {
    } else {
      SameLast(a, b, key);
      LastIsGreatest(a, key);
      LastIsGreatest(b, key);
      SortedUnique(a[..|a| - 1], b[..|b| - 1], key);
    }
  }
}
