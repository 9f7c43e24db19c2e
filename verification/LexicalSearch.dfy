/** The baseline as a whole: the ranking and the iterative search over a BM25 index (`topK`, `iterativeTopK`). */
module LexicalSearch {
  import opened Sequences
  import opened Bm25
  import opened Ranking
  import opened IterativeSearch

  /** Everything the search takes besides the index: the logarithm, the parameters, the texts and the two extractors. */
  datatype Tools = Tools(
    ln: real -> real, p: Params, text: string -> string, tokens: string -> seq<string>,
    identifiers: string -> seq<string>)

  ghost predicate IsUsable(tools: Tools) {
    PositiveAboveOne(tools.ln) && Sane(tools.p)
  }

  function Points(tools: Tools, index: Index, query: string): string -> real {
    (id: string) =>
      if Sane(tools.p) && index.avgdl >= 0.0 then ScoreOf(tools.ln, index, id, tools.tokens(query), tools.p) else 0.0
  }

  function EngineOf(tools: Tools, index: Index): Engine {
    Engine(index.ids, query => Points(tools, index, query), tools.text, tools.tokens, tools.identifiers)
  }

  lemma IdsAreDistinct(index: Index, corpus: seq<Entry>)
    requires Summarises(index, corpus)
    ensures Distinct(index.ids) && forall id :: id in index.ids <==> exists i :: 0 <= i < |corpus| && corpus[i].id == id
  {
    forall id | id in index.ids ensures exists i :: 0 <= i < |corpus| && corpus[i].id == id {
      var i :| 0 <= i < |index.ids| && index.ids[i] == id;
      assert corpus[i].id == id;
    }
    forall i | 0 <= i < |corpus| ensures corpus[i].id in index.ids {
      assert index.ids[i] == corpus[i].id;
    }
  }

  lemma SameIds(a: Index, ca: seq<Entry>, b: Index, cb: seq<Entry>, id: string)
    requires Summarises(a, ca) && Summarises(b, cb) && Reordered(ca, cb) && id in a.ids
    ensures id in b.ids
  {
    IdsAreDistinct(a, ca);
    IdsAreDistinct(b, cb);
    var i :| 0 <= i < |ca| && ca[i].id == id;
    assert ca[i] in Elements(cb);
  }

  /** Indexing the documents in another order gives the same ranking for every query and every k. */
  lemma IndexOrderIsIrrelevant(tools: Tools, a: Index, ca: seq<Entry>, b: Index, cb: seq<Entry>, query: string, k: nat)
    requires Summarises(a, ca) && Summarises(b, cb) && Reordered(ca, cb) && IsUsable(tools)
    ensures TopK(a.ids, Points(tools, a, query), k) == TopK(b.ids, Points(tools, b, query), k)
  {
    IdsAreDistinct(a, ca);
    IdsAreDistinct(b, cb);
    forall id ensures id in a.ids <==> id in b.ids {
      if id in a.ids {
        SameIds(a, ca, b, cb, id);
      }
      if id in b.ids {
        SameIds(b, cb, a, ca, id);
      }
    }
    forall id | id in a.ids ensures Points(tools, a, query)(id) == Points(tools, b, query)(id) {
      ScoreIgnoresOrder(tools.ln, a, ca, b, cb, id, tools.tokens(query), tools.p);
    }
    RankingIgnoresOrder(a.ids, b.ids, Points(tools, a, query), Points(tools, b, query), k);
  }

  /** A document of the corpus is ranked for a query exactly when the two share a token, if k leaves room for all. */
  lemma PositiveMeansSharing(tools: Tools, index: Index, corpus: seq<Entry>, i: nat, query: string)
    requires Summarises(index, corpus) && IsUsable(tools) && i < |corpus|
    ensures Points(tools, index, query)(corpus[i].id) > 0.0 <==> Shares(corpus[i], tools.tokens(query))
  {
    PositiveExactlyWhenSharing(tools.ln, index, corpus, i, tools.tokens(query), tools.p);
  }

  /** Every document that shares a token with the query is there, or the budget is full. */
  ghost predicate HasAllSharing(tools: Tools, corpus: seq<Entry>, query: string, ranked: seq<string>, budget: nat) {
    |ranked| == budget || forall i :: 0 <= i < |corpus| && Shares(corpus[i], tools.tokens(query)) ==>
      corpus[i].id in ranked
  }

  /**
   * The search over an index of the corpus: distinct documents within budget, the first-round ranking in front, and for
   * every executed follow-up query a full budget or every document that shares a token with it.
   */
  lemma SearchFindsAllSharing(
      tools: Tools, index: Index, corpus: seq<Entry>, query: string, budget: nat, maxRounds: int)
    requires Summarises(index, corpus) && IsUsable(tools)
    ensures var hop := Search(EngineOf(tools, index), query, budget, maxRounds);
            && Distinct(hop.ranked) && |hop.ranked| <= budget
            && TopK(index.ids, Points(tools, index, query), FirstBudget(budget, maxRounds)) <= hop.ranked
            && forall q :: q in hop.queries ==> HasAllSharing(tools, corpus, q, hop.ranked, budget)
  {
    var e := EngineOf(tools, index);
    var hop := Search(e, query, budget, maxRounds);
    IdsAreDistinct(index, corpus);
    SearchIsComplete(e, query, budget, maxRounds);
    assert e.score(query) == Points(tools, index, query);
    forall q | q in hop.queries ensures HasAllSharing(tools, corpus, q, hop.ranked, budget) {
      assert Complete(e, q, hop.ranked, budget);
      CompleteMeansSharing(tools, index, corpus, q, hop.ranked, budget);
    }
  }

  lemma CompleteMeansSharing(
      tools: Tools, index: Index, corpus: seq<Entry>, query: string, ranked: seq<string>, budget: nat)
    requires Summarises(index, corpus) && IsUsable(tools) && Complete(EngineOf(tools, index), query, ranked, budget)
    ensures HasAllSharing(tools, corpus, query, ranked, budget)
  {
    IdsAreDistinct(index, corpus);
    forall i | 0 <= i < |corpus| && Shares(corpus[i], tools.tokens(query)) && |ranked| != budget
      ensures corpus[i].id in ranked
    {
      PositiveMeansSharing(tools, index, corpus, i, query);
      assert corpus[i].id in index.ids;
    }
  }

  // ----- the whole search does not depend on the order of the corpus either -----

  /** Two engines that rank alike and read alike. */
  ghost predicate SameEngine(a: Engine, b: Engine) {
    && a.text == b.text && a.tokens == b.tokens && a.identifiers == b.identifiers
    && forall query, k :: TopK(a.ids, a.score(query), k) == TopK(b.ids, b.score(query), k)
  }

  lemma {:induction false} AddCandidatesAgree(
      a: Engine, b: Engine, known: seq<string>, found: seq<string>, mentioned: seq<string>)
    requires SameEngine(a, b)
    ensures AddCandidates(a, known, found, mentioned) == AddCandidates(b, known, found, mentioned)
  {
    if mentioned != [] {
      AddCandidatesAgree(a, b, known, found, mentioned[..|mentioned| - 1]);
    }
  }

  lemma {:induction false} CandidatesAgree(a: Engine, b: Engine, known: seq<string>, docs: seq<string>)
    requires SameEngine(a, b)
    ensures Candidates(a, known, docs) == Candidates(b, known, docs)
  {
    if docs != [] {
      var front, last := docs[..|docs| - 1], docs[|docs| - 1];
      CandidatesAgree(a, b, known, front);
      AddCandidatesAgree(a, b, known, Candidates(a, known, front), a.identifiers(a.text(last)));
    }
  }

  lemma RoundsAgree(a: Engine, b: Engine, known: seq<string>, hop: Hop, budget: nat)
    requires SameEngine(a, b) && |hop.ranked| < budget
    ensures Round(a, known, hop, budget) == Round(b, known, hop, budget)
  {
    CandidatesAgree(a, b, known, hop.current);
  }

  lemma {:induction false} HopsAgree(a: Engine, b: Engine, known: seq<string>, hop: Hop, budget: nat, rounds: nat)
    requires SameEngine(a, b)
    ensures Hops(a, known, hop, budget, rounds) == Hops(b, known, hop, budget, rounds)
    decreases rounds
  {
    hide Round;
    if rounds > 0 && |hop.ranked| < budget {
      RoundsAgree(a, b, known, hop, budget);
      match Round(a, known, hop, budget)
      case None =>
      case Some(next) => HopsAgree(a, b, known, next, budget, rounds - 1);
    }
  }

  /** Indexing the documents in another order gives the same search, round by round. */
  lemma SearchIgnoresOrder(
      tools: Tools, a: Index, ca: seq<Entry>, b: Index, cb: seq<Entry>, query: string, budget: nat, maxRounds: int)
    requires Summarises(a, ca) && Summarises(b, cb) && Reordered(ca, cb) && IsUsable(tools)
    ensures Search(EngineOf(tools, a), query, budget, maxRounds) == Search(EngineOf(tools, b), query, budget, maxRounds)
  {
    EnginesAgree(tools, a, ca, b, cb);
    SearchesAgree(EngineOf(tools, a), EngineOf(tools, b), query, budget, maxRounds);
  }

  lemma EnginesAgree(tools: Tools, a: Index, ca: seq<Entry>, b: Index, cb: seq<Entry>)
    requires Summarises(a, ca) && Summarises(b, cb) && Reordered(ca, cb) && IsUsable(tools)
    ensures SameEngine(EngineOf(tools, a), EngineOf(tools, b))
  {
    hide Summarises, TopK;
    var ea, eb := EngineOf(tools, a), EngineOf(tools, b);
    forall q, k ensures TopK(ea.ids, ea.score(q), k) == TopK(eb.ids, eb.score(q), k) {
      IndexOrderIsIrrelevant(tools, a, ca, b, cb, q, k);
    }
  }

  lemma SearchesAgree(a: Engine, b: Engine, query: string, budget: nat, maxRounds: int)
    requires SameEngine(a, b)
    ensures Search(a, query, budget, maxRounds) == Search(b, query, budget, maxRounds)
  {
    hide Hops, TopK;
    var first := TopK(a.ids, a.score(query), FirstBudget(budget, maxRounds));
    if maxRounds > 1 {
      HopsAgree(a, b, a.tokens(query), Hop(first, first, []), budget, maxRounds - 1);
    }
  }
}
