/** What every accepted medium or hard question satisfies, for every corpus, random stream and history. */
module QuestionTheorems {
  import opened Sequences
  import opened QuestionWorld
  import opened QuestionSpec

  /**
   * A connected chain of unretracted allow-listed edges in distinct documents, ending at an entity it never visits
   * before.
   */
  ghost predicate IsChain(c: Corpus, chain: seq<Edge>) {
    && 2 <= |chain| <= 3
    && (forall i :: 0 <= i < |chain| ==> chain[i] in PositiveEdges(c))
    && (forall i :: 0 <= i < |chain| - 1 ==> chain[i].obj == chain[i + 1].subject)
    && (forall i, j :: 0 <= i < j < |chain| ==> chain[i].docId != chain[j].docId)
    && (forall i :: 0 <= i < |chain| - 1 ==> chain[i].obj != chain[|chain| - 1].obj)
    && chain[0].subject != chain[|chain| - 1].obj
  }

  /** No document of an earlier hop mentions the answer entity. */
  ghost predicate IsLocal(c: Corpus, chain: seq<Edge>)
    requires chain != []
  {
    forall i, d :: 0 <= i < |chain| - 1 && d in c.docs && d.id == chain[i].docId
      ==> !Mentions(d, c.names, chain[|chain| - 1].obj)
  }

  /** The written question says what the chain says. */
  ghost predicate Writes(w: World, tier: Tier, chain: seq<Edge>, q: Question)
    requires chain != []
  {
    && q.tier == tier && !q.answerIsNegative
    && |q.hopChain| == |chain| && |q.evidenceDocIds| == |chain|
    && (forall i :: 0 <= i < |chain| ==>
          && q.evidenceDocIds[i] == chain[i].docId && q.hopChain[i].docId == chain[i].docId
          && q.hopChain[i].via == chain[i].pred
          && q.hopChain[i].from == Label(w, chain[i].subject) && q.hopChain[i].to == Label(w, chain[i].obj))
    && chain[|chain| - 1].obj in w.names
    && q.answer == Canonical(w.names[chain[|chain| - 1].obj]) && |q.answer| >= 5
  }

  ghost predicate IsSound(w: World, c: Corpus, tier: Tier, a: Accepted) {
    && |a.chain| == (if tier.Hard? then 3 else 2)
    && IsChain(c, a.chain) && IsLocal(c, a.chain) && Writes(w, tier, a.chain, a.question)
    && a.key == Key(Prefix(tier), Route(a.chain))
  }

  lemma {:induction false} HopsAt(w: World, chain: seq<Edge>)
    ensures |Hops(w, chain)| == |chain| && forall i :: 0 <= i < |chain| ==> Hops(w, chain)[i] == HopOf(w, chain[i])
  {
    if chain != [] {
      HopsAt(w, chain[..|chain| - 1]);
    }
  }

  lemma {:induction false} FirstFits(edges: seq<Edge>, keep: Edge -> bool)
    ensures First(edges, keep) != [] ==> First(edges, keep)[0] in edges && keep(First(edges, keep)[0])
  {
    if edges != [] && !keep(edges[0]) {
      FirstFits(edges[1..], keep);
    }
  }

  lemma {:induction false} IdsAt(edges: seq<Edge>)
    ensures |Ids(edges)| == |edges| && forall i :: 0 <= i < |edges| ==> Ids(edges)[i] == edges[i].docId
  {
    if edges != [] {
      IdsAt(edges[1..]);
    }
  }

  /** The start index lists exactly the positive edges that start at an entity. */
  lemma StartsArePositive(w: World, c: Corpus, id: string)
    requires Summarises(w, c)
    ensures forall e :: e in At(w.startingAt, id) <==> e in PositiveEdges(c) && e.subject == id
  {
    assert At(w.startingAt, id) == Filter(w.positive, StartsAt(id));
  }

  lemma ContinuationsAre(w: World, c: Corpus, a: Edge, docs: seq<string>)
    requires Summarises(w, c)
    ensures forall e ::
              e in Continuations(w, a, docs) <==> e in PositiveEdges(c) && e.subject == a.obj && e.docId !in docs
  {
    StartsArePositive(w, c, a.obj);
  }

  /** A written question says what its chain says. */
  lemma WrittenIsFaithful(w: World, tier: Tier, number: nat, chain: seq<Edge>, wording: Wording)
    requires chain != [] && IsResolvable(w, chain[|chain| - 1].obj)
    requires |CanonicalAnswer(w, chain[|chain| - 1].obj)| >= 5
    ensures Writes(w, tier, chain, Write(w, tier, number, chain, wording).question)
  {
    HopsAt(w, chain);
    IdsAt(chain);
  }

  /** What passes the minimality check is local: the mention index lists every document that mentions the answer. */
  lemma {:induction false} MinimalIsLocal(w: World, c: Corpus, chain: seq<Edge>)
    requires ListsMentions(w, c) && |chain| >= 2
    requires IsMinimal(Hops(w, chain), At(w.docsForEntity, chain[|chain| - 1].obj))
    ensures IsLocal(c, chain)
    ensures forall i, j :: 0 <= i < j < |chain| ==> chain[i].docId != chain[j].docId
  {
    HopsAt(w, chain);
    var hops, last := Hops(w, chain), chain[|chain| - 1].obj;
    forall i, j | 0 <= i < j < |chain| ensures chain[i].docId != chain[j].docId {
      assert hops[i].docId != hops[j].docId;
    }
    forall i, d | 0 <= i < |chain| - 1 && d in c.docs && d.id == chain[i].docId ensures !Mentions(d, c.names, last) {
      assert hops[i].docId !in MentionDocs(c.docs, c.names, last);
    }
  }

  lemma JudgedIsSound(
      s: Setting, c: Corpus, used: set<string>, tier: Tier, number: nat, chain: seq<Edge>, wording: Wording)
    requires ListsMentions(s.world, c) && IsChain(c, chain) && |chain| == (if tier.Hard? then 3 else 2)
    requires IsAcceptable(s, used, tier, chain)
    ensures IsSound(s.world, c, tier, Write(s.world, tier, number, chain, wording))
  {
    WrittenIsFaithful(s.world, tier, number, chain, wording);
    MinimalIsLocal(s.world, c, chain);
  }

  lemma PairIsChain(c: Corpus, a: Edge, b: Edge)
    requires a in PositiveEdges(c)
    requires b in PositiveEdges(c) && b.subject == a.obj && b.docId != a.docId
    requires a.subject != b.obj && b.obj != a.obj
    ensures IsChain(c, [a, b])
  {
  }

  lemma TripleIsChain(c: Corpus, a: Edge, b: Edge, e: Edge)
    requires a in PositiveEdges(c)
    requires b in PositiveEdges(c) && b.subject == a.obj && b.docId != a.docId
    requires e in PositiveEdges(c) && e.subject == b.obj && e.docId != a.docId && e.docId != b.docId
    requires a.subject != e.obj && e.obj != b.obj && e.obj != a.obj
    ensures IsChain(c, [a, b, e])
  {
    var chain := [a, b, e];
    assert chain[0] == a && chain[1] == b && chain[2] == e;
  }

  lemma MediumChoiceIsChain(s: Setting, c: Corpus, drawn: nat)
    requires Summarises(s.world, c) && ChooseMedium(s, drawn).Chosen?
    ensures IsChain(c, ChooseMedium(s, drawn).chain) && |ChooseMedium(s, drawn).chain| == 2
  {
    var w := s.world;
    var a := PickEdge(s, drawn, w.withSeconds);
    ContinuationsAre(w, c, a, [a.docId]);
    var b := PickEdge(s, drawn + 1, Continuations(w, a, [a.docId]));
    PairIsChain(c, a, b);
  }

  lemma HardChoiceIsChain(s: Setting, c: Corpus, drawn: nat)
    requires Summarises(s.world, c) && ChooseHard(s, drawn).Chosen?
    ensures IsChain(c, ChooseHard(s, drawn).chain) && |ChooseHard(s, drawn).chain| == 3
  {
    var w := s.world;
    var a := PickEdge(s, drawn, w.withThirds);
    ContinuationsAre(w, c, a, [a.docId]);
    var b := PickEdge(s, drawn + 1, Continuations(w, a, [a.docId]));
    ContinuationsAre(w, c, b, [a.docId, b.docId]);
    var e := PickEdge(s, drawn + 2, Continuations(w, b, [a.docId, b.docId]));
    assert a in w.withSeconds;
    TripleIsChain(c, a, b, e);
  }

  ghost predicate MultiHop(tier: Tier) {
    tier.Medium? || tier.Hard?
  }

  lemma ChoiceIsChain(s: Setting, c: Corpus, tier: Tier, drawn: nat)
    requires Summarises(s.world, c) && MultiHop(tier) && Choose(s, tier, drawn).Chosen?
    ensures IsChain(c, Choose(s, tier, drawn).chain)
    ensures |Choose(s, tier, drawn).chain| == (if tier.Hard? then 3 else 2)
  {
    if tier.Hard? {
      HardChoiceIsChain(s, c, drawn);
    } else {
      MediumChoiceIsChain(s, c, drawn);
    }
  }

  /** Whatever one attempt accepts is sound. */
  lemma AttemptIsSound(s: Setting, c: Corpus, tier: Tier, st: Progress, number: nat)
    requires Summarises(s.world, c) && MultiHop(tier) && Attempt(s, tier, st, number).Made?
    ensures IsSound(s.world, c, tier, Attempt(s, tier, st, number).made)
  {
    var choice := Choose(s, tier, st.drawn);
    ChoiceIsChain(s, c, tier, st.drawn);
    JudgedIsSound(s, c, st.used, tier, number, choice.chain, choice.wording);
  }

  /**
   * How an outcome may change the set of used keys: not at all, or by the key of the accepted question, which is new.
   */
  predicate UsesKey(st: Progress, r: Outcome) {
    match r
    case Crashed => true
    case Nothing(st') => st'.used == st.used
    case Made(a, st') => a.key !in st.used && st'.used == st.used + {a.key}
  }

  lemma AttemptUsesKey(s: Setting, tier: Tier, st: Progress, number: nat)
    ensures UsesKey(st, Attempt(s, tier, st, number))
  {
  }

  lemma {:induction false} BuildIsAttempt(
      s: Setting, tier: Tier, st: Progress, number: nat, left: nat) returns (at: Progress)
    ensures UsesKey(st, Build(s, tier, st, number, left))
    ensures Build(s, tier, st, number, left).Made? ==> Build(s, tier, st, number, left) == Attempt(s, tier, at, number)
    decreases left
  {
    at := st;
    if left > 0 {
      AttemptUsesKey(s, tier, st, number);
      var r := Attempt(s, tier, st, number);
      if r.Nothing? {
        at := BuildIsAttempt(s, tier, r.st, number, left - 1);
      }
    }
  }

  /** Whatever one build returns is sound. */
  lemma {:induction false} BuildIsSound(s: Setting, c: Corpus, tier: Tier, limit: nat, st: Progress, number: nat)
    requires Summarises(s.world, c) && MultiHop(tier)
    ensures var r := Build(s, tier, st, number, limit);
            UsesKey(st, r) && (r.Made? ==> IsSound(s.world, c, tier, r.made))
  {
    var at := BuildIsAttempt(s, tier, st, number, limit);
    if Build(s, tier, st, number, limit).Made? {
      AttemptIsSound(s, c, tier, at, number);
    }
  }

  function Keys(made: seq<Accepted>): set<string> {
    set a | a in made :: a.key
  }

  /** Every question of a tier is good, and no key is used twice, in this tier or before it. */
  ghost predicate IsGoodRun(good: Accepted -> bool, st: Progress, f: Filled) {
    f.Filled? ==>
      && (forall i :: 0 <= i < |f.made| ==> good(f.made[i]) && f.made[i].key !in st.used)
      && (forall i, j :: 0 <= i < j < |f.made| ==> f.made[i].key != f.made[j].key)
      && f.st.used == st.used + Keys(f.made)
  }

  lemma PrependKeeps(good: Accepted -> bool, st: Progress, a: Accepted, st': Progress, rest: Filled)
    requires good(a) && a.key !in st.used && st'.used == st.used + {a.key}
    requires IsGoodRun(good, st', rest)
    ensures IsGoodRun(good, st, Prepend(a, rest))
  {
    if rest.Filled? {
      assert Keys([a] + rest.made) == {a.key} + Keys(rest.made);
    }
  }

  /** All that the main loop needs to know about a builder. */
  ghost predicate BuildsGood(build: Builder, good: Accepted -> bool) {
    forall st, number :: UsesKey(st, build(st, number)) && (build(st, number).Made? ==> good(build(st, number).made))
  }

  lemma {:induction false} FillIsGood(
      build: Builder, good: Accepted -> bool, st: Progress, want: nat, made: nat, tries: nat)
    requires BuildsGood(build, good)
    ensures IsGoodRun(good, st, Fill(build, st, want, made, tries))
    decreases tries
  {
    if made < want && tries > 0 {
      var r := build(st, made + 1);
      assert UsesKey(st, r);
      if r.Nothing? {
        FillIsGood(build, good, r.st, want, made, tries - 1);
      } else if r.Made? {
        FillIsGood(build, good, r.st, want, made + 1, tries - 1);
        PrependKeeps(good, st, r.made, r.st, Fill(build, r.st, want, made + 1, tries - 1));
      }
    }
  }

  /** Every question a tier makes is sound, and no key is used twice. */
  lemma {:induction false} FillIsSound(
      s: Setting, c: Corpus, tier: Tier, limit: nat, st: Progress, want: nat, tries: nat)
    requires Summarises(s.world, c) && MultiHop(tier)
    ensures IsGoodRun(a => IsSound(s.world, c, tier, a), st, Fill(BuilderOf(s, tier, limit), st, want, 0, tries))
  {
    forall at, number
      ensures var r := BuilderOf(s, tier, limit)(at, number);
              UsesKey(at, r) && (r.Made? ==> IsSound(s.world, c, tier, r.made))
    {
      BuildIsSound(s, c, tier, limit, at, number);
    }
    FillIsGood(BuilderOf(s, tier, limit), a => IsSound(s.world, c, tier, a), st, want, 0, tries);
  }

  /** No two questions of a tier ask along the same entities. */
  lemma {:induction false} RoutesNeverRepeat(
      s: Setting, c: Corpus, tier: Tier, limit: nat, st: Progress, want: nat, tries: nat, i: nat, j: nat)
    requires Summarises(s.world, c) && MultiHop(tier)
    requires Fill(BuilderOf(s, tier, limit), st, want, 0, tries).Filled?
    requires i < j < |Fill(BuilderOf(s, tier, limit), st, want, 0, tries).made|
    ensures var made := Fill(BuilderOf(s, tier, limit), st, want, 0, tries).made;
            Route(made[i].chain) != Route(made[j].chain)
  {
    FillIsSound(s, c, tier, limit, st, want, tries);
    var made := Fill(BuilderOf(s, tier, limit), st, want, 0, tries).made;
    assert IsSound(s.world, c, tier, made[i]) && IsSound(s.world, c, tier, made[j]);
  }

  lemma AttemptCrashes(s: Setting, tier: Tier, st: Progress, number: nat)
    ensures Attempt(s, tier, st, number).Crashed?
            <==> (if tier.Hard? then s.world.withThirds else s.world.withSeconds) == []
  {
  }

  lemma {:induction false} BuildCrashes(s: Setting, tier: Tier, st: Progress, number: nat, left: nat)
    ensures Build(s, tier, st, number, left).Crashed?
            <==> left > 0 && (if tier.Hard? then s.world.withThirds else s.world.withSeconds) == []
    decreases left
  {
    hide Attempt;
    AttemptCrashes(s, tier, st, number);
    if left > 0 && Attempt(s, tier, st, number).Nothing? {
      BuildCrashes(s, tier, Attempt(s, tier, st, number).st, number, left - 1);
    }
  }

  /** Building raises an exception exactly when no edge of the corpus can start a chain of that length. */
  lemma {:induction false} CrashesExactlyWithoutChains(
      s: Setting, c: Corpus, tier: Tier, limit: nat, st: Progress, number: nat)
    requires Summarises(s.world, c) && limit > 0
    ensures Build(s, tier, st, number, limit).Crashed?
            <==> forall a :: a in PositiveEdges(c) ==>
                   !HasSecond(PositiveEdges(c), a) || (tier.Hard? && !HasThird(PositiveEdges(c), a))
  {
    BuildCrashes(s, tier, st, number, limit);
    var w := s.world;
    assert forall a :: a in w.withSeconds <==> a in w.positive && HasSecond(w.positive, a);
    assert forall a :: a in w.withThirds <==> a in w.withSeconds && HasThird(w.positive, a);
    if w.withSeconds != [] {
      assert w.withSeconds[0] in w.positive;
    }
    if w.withThirds != [] {
      assert w.withThirds[0] in w.withSeconds;
    }
  }
}
