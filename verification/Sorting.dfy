/** A stable sort by a strict order in which some values may be equal. */
module Sorting {
  import opened Prelude

  /** Puts x after everything that is not greater. */
  function Insert<T>(less: (T, T) -> bool, sorted: seq<T>, x: T): seq<T> {
    if sorted == [] then [x]
    else if less(x, Last(sorted)) then Insert(less, Front(sorted), x) + [Last(sorted)]
    else sorted + [x]
  }

  function SortBy<T>(less: (T, T) -> bool, s: seq<T>): seq<T> {
    if s == [] then [] else Insert(less, SortBy(less, Front(s)), Last(s))
  }

  ghost predicate WeakOrder<T(!new)>(less: (T, T) -> bool) {
    && (forall x, y :: less(x, y) ==> !less(y, x))
    && (forall x, y, z :: !less(y, x) && !less(z, y) ==> !less(z, x))
  }

  ghost predicate Sorted<T(!new)>(less: (T, T) -> bool, s: seq<T>) {
    forall j, k :: 0 <= j < k < |s| ==> !less(s[k], s[j])
  }

  lemma {:induction false} InsertAdds<T>(less: (T, T) -> bool, sorted: seq<T>, x: T)
    ensures |Insert(less, sorted, x)| == |sorted| + 1
    ensures forall y :: y in Insert(less, sorted, x) <==> y in sorted || y == x
  {
    if sorted != [] {
      assert sorted == Front(sorted) + [Last(sorted)];
      InsertAdds(less, Front(sorted), x);
    }
  }

  lemma {:induction false} InsertSorts<T(!new)>(less: (T, T) -> bool, sorted: seq<T>, x: T)
    requires WeakOrder(less) && Sorted(less, sorted)
    ensures Sorted(less, Insert(less, sorted, x))
  {
    if sorted != [] {
      var last := Last(sorted);
      if less(x, last) {
        var s := Insert(less, Front(sorted), x);
        InsertSorts(less, Front(sorted), x);
        InsertAdds(less, Front(sorted), x);
        forall k | 0 <= k < |s| ensures !less(last, s[k]) {
          assert s[k] in s;
          if s[k] != x {
            var j :| 0 <= j < |sorted| - 1 && sorted[j] == s[k];
            assert !less(sorted[|sorted| - 1], sorted[j]);
          }
        }
      } else {
        forall j | 0 <= j < |sorted| ensures !less(x, sorted[j]) {
          assert j < |sorted| - 1 ==> !less(sorted[|sorted| - 1], sorted[j]);
        }
      }
    }
  }

  /** A new value comes first only if it is less than the first. */
  lemma {:induction false} InsertHead<T(!new)>(less: (T, T) -> bool, sorted: seq<T>, x: T)
    requires WeakOrder(less) && Sorted(less, sorted)
    ensures Insert(less, sorted, x) != []
    ensures Insert(less, sorted, x)[0] == if sorted != [] && !less(x, sorted[0]) then sorted[0] else x
  {
    if |sorted| > 1 {
      assert !less(Last(sorted), sorted[0]);
      if less(x, Last(sorted)) {
        InsertHead(less, Front(sorted), x);
      }
    }
  }

  lemma {:induction false} SortSorts<T(!new)>(less: (T, T) -> bool, s: seq<T>)
    requires WeakOrder(less)
    ensures Sorted(less, SortBy(less, s)) && |SortBy(less, s)| == |s|
    ensures forall y :: y in SortBy(less, s) <==> y in s
  {
    if s != [] {
      SortSorts(less, Front(s));
      InsertSorts(less, SortBy(less, Front(s)), Last(s));
      InsertAdds(less, SortBy(less, Front(s)), Last(s));
      assert s == Front(s) + [Last(s)];
    }
  }

  /** x comes at place i, before it only greater ones, after it none that is less. */
  ghost predicate EarliestLeast<T(!new)>(less: (T, T) -> bool, s: seq<T>, i: nat) {
    && i < |s|
    && (forall j :: 0 <= j < i ==> less(s[i], s[j]))
    && (forall j :: i < j < |s| ==> !less(s[j], s[i]))
  }

  lemma LeastSnoc<T(!new)>(less: (T, T) -> bool, front: seq<T>, x: T, i: nat)
    requires WeakOrder(less) && EarliestLeast(less, front, i)
    ensures if less(x, front[i]) then EarliestLeast(less, front + [x], |front|) else EarliestLeast(less, front + [x], i)
  {
    if less(x, front[i]) {
      forall j | 0 <= j < |front| ensures less(x, front[j]) {
        assert j != i ==> !less(front[j], front[i]);
      }
    }
  }

  /** What comes first is the earliest of the least. */
  lemma {:induction false} SortPutsLeastFirst<T(!new)>(less: (T, T) -> bool, s: seq<T>)
    requires WeakOrder(less) && s != []
    ensures SortBy(less, s) != []
    ensures exists i: nat :: EarliestLeast(less, s, i) && SortBy(less, s)[0] == s[i]
  {
    var front, x := Front(s), Last(s);
    assert s == front + [x];
    SortSorts(less, front);
    InsertHead(less, SortBy(less, front), x);
    if front == [] {
      assert EarliestLeast(less, s, 0);
    } else {
      SortPutsLeastFirst(less, front);
      var i: nat :| EarliestLeast(less, front, i) && SortBy(less, front)[0] == front[i];
      LeastSnoc(less, front, x, i);
    }
  }
}
