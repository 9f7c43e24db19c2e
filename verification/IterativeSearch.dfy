/** Multi-round search under one document budget (`iterativeTopK`). */
module IterativeSearch {
  import opened Sequences
  import opened Ranking
  import opened Text

  /**
   * What the search calls: the indexed ids, the score of a document for a query, the text of a document, and the
   * token and identifier extractors.
   */
  datatype Engine = Engine(
    ids: seq<string>, score: string -> string -> real, text: string -> string,
    tokens: string -> seq<string>, identifiers: string -> seq<string>)

  predicate EveryKnown(words: seq<string>, known: seq<string>) {
    forall i :: 0 <= i < |words| ==> words[i] in known
  }

  /** The identifiers of one document that say something the question did not, appended without repeats. */
  function AddCandidates(e: Engine, known: seq<string>, found: seq<string>, mentioned: seq<string>): seq<string> {
    if mentioned == [] then found
    else
      var front, last := AddCandidates(e, known, found, mentioned[..|mentioned| - 1]), mentioned[|mentioned| - 1];
      if EveryKnown(e.tokens(last), known) || last in front then front else front + [last]
  }

  function Candidates(e: Engine, known: seq<string>, docs: seq<string>): seq<string> {
    if docs == [] then []
    else AddCandidates(e, known, Candidates(e, known, docs[..|docs| - 1]), e.identifiers(e.text(docs[|docs| - 1])))
  }

  /** An identifier worth asking for: one of its tokens is not in the question. */
  ghost predicate SaysMore(e: Engine, known: seq<string>, id: string) {
    exists t :: t in e.tokens(id) && t !in known
  }

  lemma {:induction false} AddedExactly(e: Engine, known: seq<string>, found: seq<string>, mentioned: seq<string>)
    requires Distinct(found)
    ensures var r := AddCandidates(e, known, found, mentioned);
            && Distinct(r) && found <= r
            && forall id :: id in r <==> id in found || (id in mentioned && SaysMore(e, known, id))
  {
    if mentioned != [] {
      var front, last := mentioned[..|mentioned| - 1], mentioned[|mentioned| - 1];
      assert mentioned == front + [last];
      AddedExactly(e, known, found, front);
      SaysMoreExactly(e, known, last);
    }
  }

  lemma SaysMoreExactly(e: Engine, known: seq<string>, id: string)
    ensures SaysMore(e, known, id) <==> !EveryKnown(e.tokens(id), known)
  {
    if !EveryKnown(e.tokens(id), known) {
      var i :| 0 <= i < |e.tokens(id)| && e.tokens(id)[i] !in known;
      assert e.tokens(id)[i] in e.tokens(id);
    }
  }

  /**
   * The follow-up identifiers: each once, exactly those found in the text of one of the documents that hold a token the
   * question lacks; those of earlier documents come first.
   */
  lemma {:induction false} CandidatesExactly(e: Engine, known: seq<string>, docs: seq<string>)
    ensures var r := Candidates(e, known, docs);
            && Distinct(r)
            && (forall id ::
                  id in r <==> SaysMore(e, known, id) && exists d :: d in docs && id in e.identifiers(e.text(d)))
            && (docs != [] ==> Candidates(e, known, docs[..|docs| - 1]) <= r)
  {
    if docs != [] {
      var front, last := docs[..|docs| - 1], docs[|docs| - 1];
      assert docs == front + [last];
      CandidatesExactly(e, known, front);
      AddedExactly(e, known, Candidates(e, known, front), e.identifiers(e.text(last)));
    }
  }

  /** Take over the unseen documents of a ranking until the budget is full. */
  function Absorb(ranked: seq<string>, next: seq<string>, budget: nat): seq<string>
    decreases |next|
  {
    if next == [] || |ranked| >= budget then ranked
    else Absorb(if next[0] in ranked then ranked else ranked + [next[0]], next[1..], budget)
  }

  /** The search between rounds; `queries` are the follow-up queries executed so far. */
  datatype Hop = Hop(ranked: seq<string>, current: seq<string>, queries: seq<string>)

  /** The ranking of a follow-up query: as many documents as are missing plus as many as are known. */
  function FollowUp(e: Engine, ranked: seq<string>, query: string, budget: nat): seq<string>
    requires |ranked| <= budget
  {
    TopK(e.ids, e.score(query), budget - |ranked| + |Elements(ranked)|)
  }

  /** One follow-up round: query with the new identifiers, none if there are none. */
  function Round(e: Engine, known: seq<string>, hop: Hop, budget: nat): Option<Hop>
    requires |hop.ranked| < budget
  {
    var found := Candidates(e, known, hop.current);
    if found == [] then None
    else
      var query := Join(found, " ");
      var ranked := Absorb(hop.ranked, FollowUp(e, hop.ranked, query, budget), budget);
      Some(Hop(ranked, if |hop.ranked| <= |ranked| then ranked[|hop.ranked|..] else [], hop.queries + [query]))
  }

  function Hops(e: Engine, known: seq<string>, hop: Hop, budget: nat, rounds: nat): Hop
    decreases rounds
  {
    if rounds == 0 || |hop.ranked| >= budget then hop
    else
      match Round(e, known, hop, budget)
      case None => hop
      case Some(hop') => Hops(e, known, hop', budget, rounds - 1)
  }

  function FirstBudget(budget: nat, maxRounds: int): nat {
    if maxRounds == 1 then budget else if budget < 4 then budget else 4
  }

  function Search(e: Engine, query: string, budget: nat, maxRounds: int): Hop {
    var first := TopK(e.ids, e.score(query), FirstBudget(budget, maxRounds));
    if maxRounds <= 1 || |first| >= budget then Hop(first, first, [])
    else Hops(e, e.tokens(query), Hop(first, first, []), budget, maxRounds - 1)
  }

  /**
   * A round is executed exactly when the documents just added mention an identifier that says more than the question.
   */
  lemma {:induction false} RoundRunsExactly(e: Engine, known: seq<string>, hop: Hop, budget: nat)
    requires |hop.ranked| < budget
    ensures Round(e, known, hop, budget).Some?
       <==> exists d, id :: d in hop.current && id in e.identifiers(e.text(d)) && SaysMore(e, known, id)
    ensures Round(e, known, hop, budget).Some? ==>
              Round(e, known, hop, budget).value.queries == hop.queries + [Join(Candidates(e, known, hop.current), " ")]
  {
    var found := Candidates(e, known, hop.current);
    CandidatesExactly(e, known, hop.current);
    assert found != [] ==> found[0] in found;
  }

  ghost predicate Complete(e: Engine, query: string, ranked: seq<string>, budget: nat) {
    |ranked| == budget || forall id :: id in e.ids && e.score(query)(id) > 0.0 ==> id in ranked
  }

  ghost predicate AllComplete(e: Engine, queries: seq<string>, ranked: seq<string>, budget: nat) {
    forall q :: q in queries ==> Complete(e, q, ranked, budget)
  }

  /** What every moment of the search keeps. */
  ghost predicate HopInvariant(e: Engine, hop: Hop, budget: nat) {
    && Distinct(hop.ranked) && |hop.ranked| <= budget
    && (forall id :: id in hop.ranked ==> id in e.ids)
    && AllComplete(e, hop.queries, hop.ranked, budget)
  }

  lemma {:induction false} AbsorbLaws(ranked: seq<string>, next: seq<string>, budget: nat)
    requires Distinct(ranked) && |ranked| <= budget
    ensures var r := Absorb(ranked, next, budget);
            && Distinct(r) && |r| <= budget && ranked <= r
            && (forall id :: id in r ==> id in ranked || id in next)
            && (|r| < budget ==> forall id :: id in next ==> id in r)
    decreases |next|
  {
    if next != [] && |ranked| < budget {
      var taken := if next[0] in ranked then ranked else ranked + [next[0]];
      AbsorbLaws(taken, next[1..], budget);
      assert next == [next[0]] + next[1..];
      assert next[0] in taken;
    }
  }

  /**
   * The pigeonhole argument: asking for as many documents as are missing plus as many as are known either fills the
   * budget or brings in every document that scores at all.
   */
  lemma {:induction false} RoundCompletes(e: Engine, ranked: seq<string>, query: string, budget: nat)
    requires Distinct(e.ids) && Distinct(ranked) && |ranked| <= budget
    ensures Complete(e, query, Absorb(ranked, FollowUp(e, ranked, query, budget), budget), budget)
  {
    DistinctCardinality(ranked);
    var next := TopK(e.ids, e.score(query), budget);
    var r := Absorb(ranked, next, budget);
    TopKIsTopK(e.ids, e.score(query), budget);
    AbsorbLaws(ranked, next, budget);
    if |r| < budget {
      DistinctCardinality(next);
      DistinctCardinality(r);
      assert Elements(next) <= Elements(r);
      SubsetCardinality(Elements(next), Elements(r));
    }
  }

  lemma {:induction false} RoundStaysIndexed(e: Engine, ranked: seq<string>, query: string, budget: nat)
    requires Distinct(e.ids) && Distinct(ranked) && |ranked| <= budget
    requires forall id :: id in ranked ==> id in e.ids
    ensures var r := Absorb(ranked, FollowUp(e, ranked, query, budget), budget);
            Distinct(r) && |r| <= budget && ranked <= r && forall id :: id in r ==> id in e.ids
  {
    var next := FollowUp(e, ranked, query, budget);
    RankedIsIndexed(e.ids, e.score(query), budget - |ranked| + |Elements(ranked)|);
    AbsorbLaws(ranked, next, budget);
  }

  lemma RankedIsIndexed(ids: seq<string>, score: string -> real, k: nat)
    requires Distinct(ids)
    ensures forall id :: id in TopK(ids, score, k) ==> id in ids
  {
    TopKIsTopK(ids, score, k);
  }

  /** Completeness of earlier rounds survives a longer ranking. */
  lemma AllCompleteExtends(
      e: Engine, queries: seq<string>, query: string, ranked: seq<string>, r: seq<string>, budget: nat)
    requires AllComplete(e, queries, ranked, budget) && Complete(e, query, r, budget)
    requires ranked <= r && |r| <= budget
    ensures AllComplete(e, queries + [query], r, budget)
  {
    forall q | q in queries + [query] ensures Complete(e, q, r, budget) {
      assert q in queries ==> Complete(e, q, ranked, budget);
    }
  }

  lemma RoundKeeps(e: Engine, known: seq<string>, hop: Hop, budget: nat)
    requires Distinct(e.ids) && HopInvariant(e, hop, budget) && |hop.ranked| < budget
    requires Round(e, known, hop, budget).Some?
    ensures HopInvariant(e, Round(e, known, hop, budget).value, budget)
    ensures hop.ranked <= Round(e, known, hop, budget).value.ranked
  {
    var query := Join(Candidates(e, known, hop.current), " ");
    var r := Absorb(hop.ranked, FollowUp(e, hop.ranked, query, budget), budget);
    RoundCompletes(e, hop.ranked, query, budget);
    RoundStaysIndexed(e, hop.ranked, query, budget);
    AllCompleteExtends(e, hop.queries, query, hop.ranked, r, budget);
  }

  lemma {:induction false} HopsKeep(e: Engine, known: seq<string>, hop: Hop, budget: nat, rounds: nat)
    requires Distinct(e.ids) && HopInvariant(e, hop, budget)
    ensures HopInvariant(e, Hops(e, known, hop, budget, rounds), budget)
    ensures hop.ranked <= Hops(e, known, hop, budget, rounds).ranked
    decreases rounds
  {
    hide Round;
    if rounds > 0 && |hop.ranked| < budget && Round(e, known, hop, budget).Some? {
      RoundKeeps(e, known, hop, budget);
      HopsKeep(e, known, Round(e, known, hop, budget).value, budget, rounds - 1);
    }
  }

  /**
   * The result holds distinct documents within the budget, starts with the first-round ranking, and after every
   * executed round either fills the budget or holds every document that scores for that round's query.
   */
  lemma SearchIsComplete(e: Engine, query: string, budget: nat, maxRounds: int)
    requires Distinct(e.ids)
    ensures var hop := Search(e, query, budget, maxRounds);
            && HopInvariant(e, hop, budget)
            && TopK(e.ids, e.score(query), FirstBudget(budget, maxRounds)) <= hop.ranked
  {
    var first := TopK(e.ids, e.score(query), FirstBudget(budget, maxRounds));
    TopKIsTopK(e.ids, e.score(query), FirstBudget(budget, maxRounds));
    if maxRounds > 1 && |first| < budget {
      HopsKeep(e, e.tokens(query), Hop(first, first, []), budget, maxRounds - 1);
    }
  }

  /** The loop over the documents of the last round, collecting new identifiers. */
  method CollectCandidates(e: Engine, known: seq<string>, docs: seq<string>) returns (found: seq<string>)
    ensures found == Candidates(e, known, docs)
  {
    found := [];
    for i := 0 to |docs|
      invariant found == Candidates(e, known, docs[..i])
    {
      assert docs[..i + 1][..i] == docs[..i];
      var mentioned := e.identifiers(e.text(docs[i]));
      ghost var before := found;
      for j := 0 to |mentioned|
        invariant found == AddCandidates(e, known, before, mentioned[..j])
      {
        assert mentioned[..j + 1][..j] == mentioned[..j];
        if !EveryKnown(e.tokens(mentioned[j]), known) && mentioned[j] !in found {
          found := found + [mentioned[j]];
        }
      }
      assert mentioned[..|mentioned|] == mentioned;
    }
    assert docs[..|docs|] == docs;
  }

  /** The loop over a follow-up ranking; `seen` is kept equal to the set of ranked documents. */
  method TakeOver(ranked: seq<string>, seen: set<string>, next: seq<string>, budget: nat)
    returns (ranked': seq<string>, seen': set<string>, added: seq<string>)
    requires seen == Elements(ranked) && |ranked| < budget
    ensures ranked' == Absorb(ranked, next, budget) && seen' == Elements(ranked') && ranked' == ranked + added
  {
    ranked', seen', added := ranked, seen, [];
    for i := 0 to |next|
      invariant Absorb(ranked', next[i..], budget) == Absorb(ranked, next, budget)
      invariant seen' == Elements(ranked') && ranked' == ranked + added && |ranked'| < budget
    {
      assert next[i..][1..] == next[i + 1..];
      if next[i] !in seen' {
        seen' := seen' + {next[i]};
        ranked' := ranked' + [next[i]];
        added := added + [next[i]];
        if |ranked'| >= budget {
          return;
        }
      }
    }
  }

  /** One pass of the round loop; `more` is false when no new identifier was found. */
  method FollowUpRound(e: Engine, known: seq<string>, ranked: seq<string>, seen: set<string>, current: seq<string>,
      budget: nat, ghost queries: seq<string>)
    returns (more: bool, ranked': seq<string>, seen': set<string>, added: seq<string>, ghost queries': seq<string>)
    requires seen == Elements(ranked) && |ranked| < budget
    ensures more <==> Round(e, known, Hop(ranked, current, queries), budget).Some?
    ensures more ==> Round(e, known, Hop(ranked, current, queries), budget).value == Hop(ranked', added, queries')
    ensures seen' == Elements(ranked')
  {
    hide Candidates, Absorb, TopK;
    var found := CollectCandidates(e, known, current);
    if found == [] {
      return false, ranked, seen, [], queries;
    }
    var query := Join(found, " ");
    var next := RankTopK(e.ids, e.score(query), budget - |ranked| + |seen|);
    ranked', seen', added := TakeOver(ranked, seen, next, budget);
    more, queries' := true, queries + [query];
  }

  method FollowUpRounds(e: Engine, known: seq<string>, first: seq<string>, budget: nat, maxRounds: nat)
    returns (ranked: seq<string>)
    requires maxRounds > 1
    ensures ranked == Hops(e, known, Hop(first, first, []), budget, maxRounds - 1).ranked
  {
    hide Round;
    var seen, current := Elements(first), first;
    ranked := first;
    ghost var queries: seq<string> := [];
    var round := 2;
    while round <= maxRounds
      invariant 2 <= round <= maxRounds + 1 && seen == Elements(ranked)
      invariant Hops(e, known, Hop(ranked, current, queries), budget, maxRounds + 1 - round)
                == Hops(e, known, Hop(first, first, []), budget, maxRounds - 1)
    {
      if |ranked| >= budget {
        return;
      }
      var more, ranked', seen', added, queries' := FollowUpRound(e, known, ranked, seen, current, budget, queries);
      if !more {
        return;
      }
      ranked, seen, current, queries := ranked', seen', added, queries';
      round := round + 1;
    }
  }

  method IterativeTopK(e: Engine, query: string, budget: nat, maxRounds: int) returns (r: seq<string>)
    requires Distinct(e.ids)
    ensures r == Search(e, query, budget, maxRounds).ranked
    ensures Distinct(r) && |r| <= budget
  {
    SearchIsComplete(e, query, budget, maxRounds);
    var first := RankTopK(e.ids, e.score(query), FirstBudget(budget, maxRounds));
    if maxRounds == 1 || |first| >= budget {
      return first;
    }
    var ranked := first;
    if maxRounds > 1 {
      ranked := FollowUpRounds(e, e.tokens(query), first, budget, maxRounds);
    }
    r := Take(ranked, budget);
  }

  /**
   * The first round asks for the whole budget when it is the only one and for at most four documents otherwise; no
   * follow-up query is made when it is the only one or fills the budget.
   */
  lemma FirstRoundExactly(e: Engine, query: string, budget: nat, maxRounds: int)
    ensures var hop := Search(e, query, budget, maxRounds);
            && (maxRounds == 1 ==> hop.ranked == TopK(e.ids, e.score(query), budget))
            && (maxRounds < 1 ==> hop.ranked == TopK(e.ids, e.score(query), if budget < 4 then budget else 4))
            && (maxRounds <= 1 ==> hop.queries == [])
            && (maxRounds > 1 && |TopK(e.ids, e.score(query), if budget < 4 then budget else 4)| == budget ==>
                  hop.queries == [] && hop.ranked == TopK(e.ids, e.score(query), if budget < 4 then budget else 4))
  {
  }

  /**
   * At most `rounds` queries are made; fewer only when the budget is full or the last documents mention nothing new.
   */
  lemma {:induction false} RoundsRunOut(e: Engine, known: seq<string>, hop: Hop, budget: nat, rounds: nat)
    ensures var r := Hops(e, known, hop, budget, rounds);
            && |hop.queries| <= |r.queries| <= |hop.queries| + rounds
            && (|r.queries| < |hop.queries| + rounds ==> |r.ranked| >= budget || Candidates(e, known, r.current) == [])
    decreases rounds
  {
    hide Candidates, Round;
    if rounds > 0 && |hop.ranked| < budget {
      var next := Round(e, known, hop, budget);
      RoundAsksOnce(e, known, hop, budget);
      if next.Some? {
        RoundsRunOut(e, known, next.value, budget, rounds - 1);
      }
    }
  }

  lemma {:induction false} RoundAsksOnce(e: Engine, known: seq<string>, hop: Hop, budget: nat)
    requires |hop.ranked| < budget
    ensures var r := Round(e, known, hop, budget);
            && (r.None? <==> Candidates(e, known, hop.current) == [])
            && (r.Some? ==> |r.value.queries| == |hop.queries| + 1)
  {
    hide Candidates, Absorb;
  }
}
