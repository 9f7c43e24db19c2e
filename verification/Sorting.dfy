/** Sorting by a strict total order; insertion sort stands in for the library sort. */
module Sorting {
  import opened Sequences

  ghost predicate StrictTotalOrder<T(!new)>(before: (T, T) -> bool, items: set<T>) {
    && (forall a, b :: a in items && b in items && a != b ==> before(a, b) || before(b, a))
    && (forall a, b :: a in items && b in items && before(a, b) ==> !before(b, a))
    && (forall a, b, c :: a in items && b in items && c in items && before(a, b) && before(b, c) ==> before(a, c))
  }

  ghost predicate Ordered<T>(before: (T, T) -> bool, s: seq<T>) {
    forall p, q :: 0 <= p < q < |s| ==> before(s[p], s[q])
  }

  function Insert<T>(before: (T, T) -> bool, s: seq<T>, x: T): (r: seq<T>)
    ensures |r| == |s| + 1
    ensures forall y :: y in r ==> y == x || y in s
    ensures x in r && forall y :: y in s ==> y in r
  {
    if s == [] then [x]
    else if before(x, s[0]) then [x] + s
    else
      var rest := Insert(before, s[1..], x);
      assert forall y :: y in s ==> y == s[0] || y in s[1..];
      [s[0]] + rest
  }

  function Sort<T>(before: (T, T) -> bool, s: seq<T>): (r: seq<T>)
    ensures |r| == |s|
  {
    if s == [] then [] else Insert(before, Sort(before, s[..|s| - 1]), s[|s| - 1])
  }

  lemma {:induction false} InsertKeepsOrder<T(!new)>(before: (T, T) -> bool, s: seq<T>, x: T, items: set<T>)
    requires StrictTotalOrder(before, items) && x in items && Elements(s) <= items && x !in s
    requires Ordered(before, s)
    ensures Ordered(before, Insert(before, s, x))
  {
    if s == [] {
    } else if before(x, s[0]) {
      forall q | 0 <= q < |s| ensures before(x, s[q]) {
        assert s[0] in items && s[q] in items by { assert s[0] in Elements(s) && s[q] in Elements(s); }
      }
    } else {
      assert s[0] in Elements(s);
      assert Elements(s[1..]) <= Elements(s);
      InsertKeepsOrder(before, s[1..], x, items);
      var rest := Insert(before, s[1..], x);
      forall q | 0 <= q < |rest| ensures before(s[0], rest[q]) {
        assert rest[q] in rest;
      }
    }
  }

  lemma {:induction false} SortedElements<T>(before: (T, T) -> bool, s: seq<T>)
    ensures Elements(Sort(before, s)) == Elements(s)
  {
    if s != [] {
      SortedElements(before, s[..|s| - 1]);
      assert s == s[..|s| - 1] + [s[|s| - 1]];
      assert Elements(s) == Elements(s[..|s| - 1]) + {s[|s| - 1]};
      var front := Sort(before, s[..|s| - 1]);
      assert Elements(Insert(before, front, s[|s| - 1])) == Elements(front) + {s[|s| - 1]};
    }
  }

  /** Sorting distinct items gives the same items, each once, in order. */
  lemma {:induction false} SortOrders<T(!new)>(before: (T, T) -> bool, s: seq<T>)
    requires Distinct(s) && StrictTotalOrder(before, Elements(s))
    ensures Elements(Sort(before, s)) == Elements(s) && Distinct(Sort(before, s)) && Ordered(before, Sort(before, s))
  {
    SortedElements(before, s);
    SortOrdersWithin(before, s, Elements(s));
    OrderedIsDistinct(before, Sort(before, s), Elements(s));
  }

  lemma {:induction false} SortOrdersWithin<T(!new)>(before: (T, T) -> bool, s: seq<T>, items: set<T>)
    requires Distinct(s) && StrictTotalOrder(before, items) && Elements(s) <= items
    ensures Ordered(before, Sort(before, s))
  {
    if s != [] {
      var front, last := s[..|s| - 1], s[|s| - 1];
      assert Elements(front) <= Elements(s) && last in Elements(s);
      SortOrdersWithin(before, front, items);
      SortedElements(before, front);
      assert last !in Sort(before, front) by {
        assert last in Sort(before, front) ==> last in Elements(Sort(before, front));
      }
      assert Elements(Sort(before, front)) <= items;
      InsertKeepsOrder(before, Sort(before, front), last, items);
    }
  }

  lemma OrderedIsDistinct<T(!new)>(before: (T, T) -> bool, s: seq<T>, items: set<T>)
    requires Ordered(before, s) && StrictTotalOrder(before, items) && Elements(s) <= items
    ensures Distinct(s)
  {
    forall i, j | 0 <= i < j < |s| ensures s[i] != s[j] {
      assert s[i] in Elements(s) && before(s[i], s[j]);
    }
  }

  /** In an ordered list, what comes before is what stands earlier. */
  lemma EarlierWins<T(!new)>(before: (T, T) -> bool, s: seq<T>, items: set<T>, p: nat, q: nat)
    requires StrictTotalOrder(before, items) && Elements(s) <= items && Ordered(before, s)
    requires p < |s| && q < |s| && before(s[p], s[q])
    ensures p < q
  {
    assert s[p] in Elements(s) && s[q] in Elements(s);
  }

  /** There is only one ordered arrangement of a set of items, whatever order they arrived in. */
  lemma {:induction false} OrderedIsUnique<T(!new)>(before: (T, T) -> bool, a: seq<T>, b: seq<T>, items: set<T>)
    requires StrictTotalOrder(before, items) && Elements(a) == Elements(b) <= items
    requires Ordered(before, a) && Ordered(before, b)
    ensures a == b
  {
    if a == [] {
      OrderedIsDistinct(before, b, items);
      DistinctCardinality(b);
      assert Elements(b) == {};
    } else {
      assert a[0] in Elements(a);
      assert b != [];
      assert b[0] in Elements(b);
      SameHead(before, a, b, items);
      TailElements(before, a, items);
      TailElements(before, b, items);
      OrderedIsUnique(before, a[1..], b[1..], items);
    }
  }

  lemma SameHead<T(!new)>(before: (T, T) -> bool, a: seq<T>, b: seq<T>, items: set<T>)
    requires StrictTotalOrder(before, items) && Elements(a) == Elements(b) <= items
    requires Ordered(before, a) && Ordered(before, b) && a != [] && b != []
    ensures a[0] == b[0]
  {
    assert a[0] in Elements(b) && b[0] in Elements(a);
    var i :| 0 <= i < |b| && b[i] == a[0];
    var j :| 0 <= j < |a| && a[j] == b[0];
    assert i > 0 ==> before(b[0], a[0]);
    assert j > 0 ==> before(a[0], b[0]);
  }

  lemma TailElements<T(!new)>(before: (T, T) -> bool, a: seq<T>, items: set<T>)
    requires StrictTotalOrder(before, items) && Elements(a) <= items && Ordered(before, a) && a != []
    ensures Elements(a[1..]) == Elements(a) - {a[0]}
  {
    OrderedIsDistinct(before, a, items);
    assert a == [a[0]] + a[1..];
    forall x | x in Elements(a[1..]) ensures x != a[0] {
      var k :| 0 <= k < |a[1..]| && a[1..][k] == x;
      assert a[k + 1] == x;
    }
  }
}
