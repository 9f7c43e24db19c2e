/** Facts about sequences that several components share. */
module Sequences {

  datatype Option<+T> = None | Some(value: T)

  function Sum(s: seq<nat>): nat {
    if s == [] then 0 else Sum(s[..|s| - 1]) + s[|s| - 1]
  }

  lemma {:induction false} SumAppend(s: seq<nat>, x: nat)
    ensures Sum(s + [x]) == Sum(s) + x
  {
    assert (s + [x])[..|s|] == s;
  }

  /** Raising one entry raises the sum by the same amount. */
  lemma {:induction false} SumUpdate(s: seq<nat>, i: nat, x: nat)
    requires i < |s|
    ensures Sum(s[i := x]) + s[i] == Sum(s) + x
  {
    var last := |s| - 1;
    var u := s[i := x];
    if i == last {
      assert u[..last] == s[..last];
    } else {
      assert u[..last] == s[..last][i := x];
      SumUpdate(s[..last], i, x);
    }
  }

  lemma PrefixSum(s: seq<nat>, c: nat)
    requires 0 < c <= |s|
    ensures Sum(s[..c]) == Sum(s[..c - 1]) + s[c - 1]
  {
    assert s[..c] == s[..c - 1] + [s[c - 1]];
    SumAppend(s[..c - 1], s[c - 1]);
  }

  /** Entrywise order carries over to the sums. */
  lemma {:induction false} SumMonotone(a: seq<nat>, b: seq<nat>)
    requires |a| == |b|
    requires forall i :: 0 <= i < |a| ==> a[i] <= b[i]
    ensures Sum(a) <= Sum(b)
  {
    if a != [] {
      SumMonotone(a[..|a| - 1], b[..|b| - 1]);
    }
  }

  /** The sum of a measure over the entries. */
  function SumBy<T>(s: seq<T>, measure: T -> nat): nat {
    if s == [] then 0 else SumBy(s[..|s| - 1], measure) + measure(s[|s| - 1])
  }

  lemma {:induction false} SumByRemove<T>(s: seq<T>, k: nat, measure: T -> nat)
    requires k < |s|
    ensures SumBy(s, measure) == SumBy(s[..k] + s[k + 1..], measure) + measure(s[k])
  {
    var n := |s| - 1;
    if k == n {
      assert s[..k] + s[k + 1..] == s[..n];
    } else {
      SumByRemove(s[..n], k, measure);
      var rest := s[..k] + s[k + 1..];
      assert rest[..n - 1] == s[..n][..k] + s[..n][k + 1..] && rest[n - 1] == s[n];
    }
  }

  /** The sum does not depend on the order of distinct entries. */
  lemma {:induction false} SumByPermutation<T>(a: seq<T>, b: seq<T>, measure: T -> nat)
    requires Distinct(a) && Distinct(b) && Elements(a) == Elements(b)
    ensures SumBy(a, measure) == SumBy(b, measure)
    decreases |a|
  {
    if a == [] {
      DistinctCardinality(b);
    } else {
      var front, last := a[..|a| - 1], a[|a| - 1];
      assert last in Elements(b);
      var k :| 0 <= k < |b| && b[k] == last;
      SumByRemove(b, k, measure);
      RemoveElements(a, |a| - 1);
      RemoveElements(b, k);
      assert a[..|a| - 1] + a[|a|..] == front;
      SumByPermutation(front, b[..k] + b[k + 1..], measure);
    }
  }

  lemma RemoveElements<T>(s: seq<T>, k: nat)
    requires Distinct(s) && k < |s|
    ensures Distinct(s[..k] + s[k + 1..]) && Elements(s[..k] + s[k + 1..]) == Elements(s) - {s[k]}
  {
    var rest := s[..k] + s[k + 1..];
    forall x | x in Elements(s) && x != s[k] ensures x in rest {
      var i :| 0 <= i < |s| && s[i] == x;
      assert i < k ==> rest[i] == x;
      assert i > k ==> rest[i - 1] == x;
    }
    assert forall i :: 0 <= i < |rest| ==> rest[i] == s[if i < k then i else i + 1];
  }

  /** How often `x` occurs in `s`. */
  function Count<T(==)>(s: seq<T>, x: T): nat {
    if s == [] then 0 else Count(s[..|s| - 1], x) + if s[|s| - 1] == x then 1 else 0
  }

  lemma {:induction false} CountConcat<T>(a: seq<T>, b: seq<T>, x: T)
    ensures Count(a + b, x) == Count(a, x) + Count(b, x)
  {
    if b == [] {
      assert a + b == a;
    } else {
      assert (a + b)[..|a + b| - 1] == a + b[..|b| - 1];
      CountConcat(a, b[..|b| - 1], x);
    }
  }

  ghost predicate Distinct<T>(s: seq<T>) {
    forall i, j :: 0 <= i < j < |s| ==> s[i] != s[j]
  }

  function Elements<T>(s: seq<T>): set<T> {
    set x | x in s
  }

  lemma {:induction false} DistinctCardinality<T>(s: seq<T>)
    requires Distinct(s)
    ensures |Elements(s)| == |s|
  {
    if s != [] {
      var front, last := s[..|s| - 1], s[|s| - 1];
      DistinctCardinality(front);
      assert Elements(s) == Elements(front) + {last};
      assert last !in Elements(front);
    }
  }

  /** A sequence never has more distinct members than entries. */
  lemma {:induction false} ElementsCardinality<T>(s: seq<T>)
    ensures |Elements(s)| <= |s|
  {
    if s != [] {
      var front, last := s[..|s| - 1], s[|s| - 1];
      ElementsCardinality(front);
      assert Elements(s) == Elements(front) + {last};
    }
  }

  lemma Pick<T>(s: set<T>) returns (x: T)
    requires |s| > 0
    ensures x in s
  {
    x :| x in s;
  }

  lemma SubsetCardinality<T>(a: set<T>, b: set<T>)
    requires a <= b
    ensures |a| <= |b|
    ensures |a| == |b| ==> a == b
  {
    var rest := b - a;
    assert b == a + rest;
    assert |b| == |a| + |rest|;
    if |a| == |b| {
      assert rest == {};
    }
  }

  /** The entries that satisfy `keep`, in order. */
  function Filter<T(!new)>(s: seq<T>, keep: T -> bool): (r: seq<T>)
    ensures forall x :: x in r <==> x in s && keep(x)
    ensures |r| <= |s|
  {
    if s == [] then []
    else
      var front := Filter(s[..|s| - 1], keep);
      assert s == s[..|s| - 1] + [s[|s| - 1]];
      if keep(s[|s| - 1]) then front + [s[|s| - 1]] else front
  }

  lemma FilterEmpty<T(!new)>(s: seq<T>, keep: T -> bool)
    ensures Filter(s, keep) == [] <==> forall x :: x in s ==> !keep(x)
  {
    if Filter(s, keep) != [] {
      assert Filter(s, keep)[0] in Filter(s, keep);
    }
  }

  lemma {:induction false} FilterDistinct<T(!new)>(s: seq<T>, keep: T -> bool)
    requires Distinct(s)
    ensures Distinct(Filter(s, keep))
  {
    if s != [] {
      FilterDistinct(s[..|s| - 1], keep);
    }
  }

  /** How many entries satisfy `p`. */
  function CountIf<T>(s: seq<T>, p: T -> bool): (n: nat)
    ensures n <= |s|
  {
    if s == [] then 0 else CountIf(s[..|s| - 1], p) + if p(s[|s| - 1]) then 1 else 0
  }

  lemma {:induction false} CountIfUpdate<T>(s: seq<T>, i: nat, x: T, p: T -> bool)
    requires i < |s|
    ensures CountIf(s[i := x], p) + (if p(s[i]) then 1 else 0) == CountIf(s, p) + if p(x) then 1 else 0
  {
    var last, u := |s| - 1, s[i := x];
    if i == last {
      assert u[..last] == s[..last];
    } else {
      assert u[..last] == s[..last][i := x];
      CountIfUpdate(s[..last], i, x, p);
    }
  }

  lemma {:induction false} CountIfNone<T>(s: seq<T>, p: T -> bool)
    requires forall i :: 0 <= i < |s| ==> !p(s[i])
    ensures CountIf(s, p) == 0
  {
    if s != [] {
      CountIfNone(s[..|s| - 1], p);
    }
  }

  lemma {:induction false} CountIfAll<T>(s: seq<T>, p: T -> bool)
    requires forall i :: 0 <= i < |s| ==> p(s[i])
    ensures CountIf(s, p) == |s|
  {
    if s != [] {
      CountIfAll(s[..|s| - 1], p);
    }
  }

  /** A count is the number of positions it counts. */
  lemma {:induction false} CountIfPositions<T>(s: seq<T>, p: T -> bool)
    ensures CountIf(s, p) == |Positions(s, p)|
  {
    if s == [] {
      assert Positions(s, p) == {};
    } else {
      var front, last: nat := s[..|s| - 1], |s| - 1;
      CountIfPositions(front, p);
      if p(s[last]) {
        assert Positions(s, p) == Positions(front, p) + {last};
      } else {
        assert Positions(s, p) == Positions(front, p);
      }
    }
  }

  ghost function Positions<T>(s: seq<T>, p: T -> bool): set<nat> {
    set i: nat | i < |s| && p(s[i])
  }

  /** Filtering keeps the order: it can be done in two parts. */
  lemma {:induction false} FilterConcat<T(!new)>(a: seq<T>, b: seq<T>, keep: T -> bool)
    ensures Filter(a + b, keep) == Filter(a, keep) + Filter(b, keep)
  {
    if b == [] {
      assert a + b == a;
    } else {
      assert (a + b)[..|a + b| - 1] == a + b[..|b| - 1];
      FilterConcat(a, b[..|b| - 1], keep);
    }
  }

  lemma FilterOne<T(!new)>(x: T, keep: T -> bool)
    ensures Filter([x], keep) == if keep(x) then [x] else []
  {
    assert [x][..0] == [];
  }
}
