/** Top-k ranking by score, ties by ascending id (`topK`). */
module Ranking {
  import opened Sequences
  import Sorting
  import Text

  /** Better: a higher score, or the same score and the smaller id. */
  function Better(score: string -> real): (string, string) -> bool {
    (a: string, b: string) => score(a) > score(b) || (score(a) == score(b) && Text.Less(a, b))
  }

  lemma BetterIsTotal(score: string -> real, items: set<string>)
    ensures Sorting.StrictTotalOrder(Better(score), items)
  {
    var before := Better(score);
    forall a, b | a in items && b in items && a != b ensures before(a, b) || before(b, a) {
      Text.LessTotal(a, b);
    }
    forall a, b | a in items && b in items && before(a, b) ensures !before(b, a) {
      if score(a) == score(b) && Text.Less(b, a) {
        Text.LessTransitive(a, b, a);
        Text.LessIrreflexive(a);
      }
    }
    forall a, b, c | a in items && b in items && c in items && before(a, b) && before(b, c) ensures before(a, c) {
      if Text.Less(a, b) && Text.Less(b, c) {
        Text.LessTransitive(a, b, c);
      }
    }
  }

  function Positives(ids: seq<string>, score: string -> real): seq<string> {
    Filter(ids, id => score(id) > 0.0)
  }

  function Take(s: seq<string>, k: nat): seq<string> {
    if k < |s| then s[..k] else s
  }

  function TopK(ids: seq<string>, score: string -> real, k: nat): seq<string> {
    Take(Sorting.Sort(Better(score), Positives(ids, score)), k)
  }

  /** Score every document, keep the positive ones, sort, cut. */
  method RankTopK(ids: seq<string>, score: string -> real, k: nat) returns (r: seq<string>)
    ensures r == TopK(ids, score, k)
  {
    var scored: seq<string> := [];
    for i := 0 to |ids|
      invariant scored == Positives(ids[..i], score)
    {
      assert ids[..i + 1][..i] == ids[..i];
      if score(ids[i]) > 0.0 {
        scored := scored + [ids[i]];
      }
    }
    assert ids[..|ids|] == ids;
    r := Take(Sorting.Sort(Better(score), scored), k);
  }

  /** The specification: the k best positive documents, best first. */
  ghost predicate IsTopK(ids: seq<string>, score: string -> real, k: nat, r: seq<string>) {
    && Sorting.Ordered(Better(score), r)
    && (forall id :: id in r ==> id in ids && score(id) > 0.0)
    && |r| <= k
    && (forall id, best :: id in ids && score(id) > 0.0 && id !in r && best in r ==> Better(score)(best, id))
    && (|r| < k ==> forall id :: id in ids && score(id) > 0.0 ==> id in r)
  }

  lemma SortedPositives(ids: seq<string>, score: string -> real)
    requires Distinct(ids)
    ensures var all := Sorting.Sort(Better(score), Positives(ids, score));
            && Sorting.Ordered(Better(score), all) && Distinct(all)
            && forall id :: id in all <==> id in ids && score(id) > 0.0
  {
    var kept := Positives(ids, score);
    FilterDistinct(ids, id => score(id) > 0.0);
    BetterIsTotal(score, Elements(kept));
    Sorting.SortOrders(Better(score), kept);
    var all := Sorting.Sort(Better(score), kept);
    forall id ensures id in all <==> id in ids && score(id) > 0.0 {
      assert id in all <==> id in Elements(all);
      assert id in kept <==> id in Elements(kept);
    }
  }

  /** In an ordered list, whatever a prefix holds comes before whatever it leaves out. */
  lemma PrefixIsBest(before: (string, string) -> bool, all: seq<string>, n: nat, x: string, y: string)
    requires Sorting.Ordered(before, all) && n <= |all|
    requires x in all[..n] && y in all && y !in all[..n]
    ensures before(x, y)
  {
    var i :| 0 <= i < n && all[..n][i] == x;
    assert all == all[..n] + all[n..];
    assert y in all[n..];
    var j :| 0 <= j < |all| - n && all[n..][j] == y;
    assert before(all[i], all[n + j]);
  }

  lemma TopKIsTopK(ids: seq<string>, score: string -> real, k: nat)
    requires Distinct(ids)
    ensures IsTopK(ids, score, k, TopK(ids, score, k)) && Distinct(TopK(ids, score, k))
  {
    SortedPositives(ids, score);
    var all, r, better := Sorting.Sort(Better(score), Positives(ids, score)), TopK(ids, score, k), Better(score);
    forall id, best | id in ids && score(id) > 0.0 && id !in r && best in r ensures better(best, id) {
      PrefixIsBest(better, all, |r|, best, id);
    }
  }

  /** Only one list meets the specification, so the order in which documents were indexed cannot matter. */
  lemma TopKIsUnique(ids: seq<string>, ids': seq<string>, score: string -> real, k: nat, r: seq<string>)
    requires Distinct(ids) && (forall id :: id in ids <==> id in ids')
    requires IsTopK(ids', score, k, r)
    ensures r == TopK(ids, score, k)
  {
    var best := TopK(ids, score, k);
    TopKIsTopK(ids, score, k);
    BetterIsTotal(score, Elements(r) + Elements(best));
    Sorting.OrderedIsDistinct(Better(score), r, Elements(r) + Elements(best));
    SameMembers(ids, score, k, r, best);
    Sorting.OrderedIsUnique(Better(score), r, best, Elements(r) + Elements(best));
  }

  /** Two lists that meet the specification hold the same documents. */
  lemma SameMembers(ids: seq<string>, score: string -> real, k: nat, a: seq<string>, b: seq<string>)
    requires IsTopK(ids, score, k, a) && IsTopK(ids, score, k, b) && Distinct(a) && Distinct(b)
    ensures Elements(a) == Elements(b)
  {
    DistinctCardinality(a);
    DistinctCardinality(b);
    NoExchange(ids, score, k, a, b);
    if Elements(a) <= Elements(b) {
      CoversAll(ids, score, k, b, a);
    } else {
      CoversAll(ids, score, k, a, b);
    }
  }

  /** Neither list can hold a document the other lacks while lacking one the other holds. */
  lemma NoExchange(ids: seq<string>, score: string -> real, k: nat, a: seq<string>, b: seq<string>)
    requires IsTopK(ids, score, k, a) && IsTopK(ids, score, k, b)
    ensures Elements(a) <= Elements(b) || Elements(b) <= Elements(a)
  {
    var items := Elements(a) + Elements(b);
    BetterIsTotal(score, items);
    forall x, y | x in Elements(a) && x !in Elements(b) ensures y in Elements(b) ==> y in Elements(a) {
      assert y in b && y !in a ==> Better(score)(x, y);
      assert y in b && y !in a ==> Better(score)(y, x);
    }
  }

  /** A list whose documents all occur in another one is as long as it. */
  lemma CoversAll(ids: seq<string>, score: string -> real, k: nat, a: seq<string>, b: seq<string>)
    requires IsTopK(ids, score, k, a) && IsTopK(ids, score, k, b)
    requires |Elements(a)| == |a| && |Elements(b)| == |b| && Elements(b) <= Elements(a)
    ensures Elements(a) == Elements(b)
  {
    SubsetCardinality(Elements(b), Elements(a));
    if |b| < k {
      forall x | x in Elements(a) ensures x in Elements(b) {
        assert x in a;
      }
    }
  }

  /** Asking for one more document only extends the list. */
  lemma TopKIsPrefix(ids: seq<string>, score: string -> real, k: nat, k': nat)
    requires k <= k'
    ensures TopK(ids, score, k) <= TopK(ids, score, k')
  {
  }

  /** Neither the order of the documents nor anything but their scores matters. */
  lemma RankingIgnoresOrder(ids: seq<string>, ids': seq<string>, score: string -> real, score': string -> real, k: nat)
    requires Distinct(ids) && Distinct(ids') && (forall id :: id in ids <==> id in ids')
    requires forall id :: id in ids ==> score(id) == score'(id)
    ensures TopK(ids, score, k) == TopK(ids', score', k)
  {
    TopKIsTopK(ids', score', k);
    SameScoresSameTopK(ids', score, score', k, TopK(ids', score', k));
    TopKIsUnique(ids, ids', score, k, TopK(ids', score', k));
  }

  lemma SameScoresSameTopK(ids: seq<string>, score: string -> real, score': string -> real, k: nat, r: seq<string>)
    requires IsTopK(ids, score', k, r) && forall id :: id in ids ==> score(id) == score'(id)
    ensures IsTopK(ids, score, k, r)
  {
    forall p, q | 0 <= p < q < |r| ensures Better(score)(r[p], r[q]) {
      assert r[p] in r && r[q] in r;
      assert Better(score')(r[p], r[q]);
    }
  }
}
