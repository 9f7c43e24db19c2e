/** A generated corpus always holds chains to ask about, so the question generator never fails on one. */
module GeneratedChains {
  import opened Sequences
  import opened QuestionWorld
  import opened QuestionSpec
  import opened QuestionTheorems
  import opened QuestionTiers
  import opened SupersessionLinks
  import Apportionment
  import CorpusSpec
  import CorpusTheorems
  import CorpusWorld
  import Rng

  type Doc = CorpusWorld.Doc
  type Kind = CorpusWorld.Kind

  /** Some document of the kind asserts this. */
  ghost predicate Stated(docs: seq<Doc>, kind: Kind, r: CorpusWorld.Relation) {
    exists p :: 0 <= p < |docs| && docs[p].kind == kind && r in docs[p].relations
  }

  /**
   * What the first document of each of three kinds asserts: a delivery is received, carries a batch, which is listed.
   */
  function Opening(kind: Kind): CorpusWorld.Relation {
    match kind
    case WarehouseMemo =>
      CorpusWorld.Says(CorpusWorld.WarehouseAt(0), CorpusWorld.ReceivedDelivery, CorpusWorld.DeliveryAt(0))
    case DeliveryNote =>
      CorpusWorld.Says(CorpusWorld.DeliveryAt(0), CorpusWorld.CarriedBatch, CorpusWorld.BatchAt(0))
    case _ => CorpusWorld.Says(CorpusWorld.BatchAt(0), CorpusWorld.ContainsSerial, CorpusWorld.Serial(0))
  }

  predicate Opens(kind: Kind) {
    kind.WarehouseMemo? || kind.DeliveryNote? || kind.InventoryMemo?
  }

  lemma OpeningIsWritten(kind: Kind, draws: seq<int>)
    requires Opens(kind) && |draws| == |CorpusWorld.Ranges(kind)|
    ensures Opening(kind) in CorpusWorld.Relations(kind, 0, draws)
  {
    match kind
    case WarehouseMemo => assert CorpusWorld.Relations(kind, 0, draws)[1] == Opening(kind);
    case DeliveryNote => assert CorpusWorld.Relations(kind, 0, draws)[1] == Opening(kind);
    case InventoryMemo =>
      var batch := CorpusWorld.BatchAt(0);
      assert CorpusWorld.Listing(batch, 0, 1)
             == [CorpusWorld.Says(batch, CorpusWorld.ContainsSerial, CorpusWorld.Serial(0))];
      assert CorpusWorld.Listing(batch, 0, 2)[0] == Opening(kind);
      assert CorpusWorld.Relations(kind, 0, draws) == CorpusWorld.Listing(batch, 0, 2);
  }

  lemma StatedExtends(docs: seq<Doc>, docs': seq<Doc>, kind: Kind, r: CorpusWorld.Relation)
    requires Stated(docs, kind, r) && docs <= docs'
    ensures Stated(docs', kind, r)
  {
    var p :| 0 <= p < |docs| && docs[p].kind == kind && r in docs[p].relations;
    assert docs'[p] == docs[p];
  }

  /** Overturning a relation leaves every other one standing. */
  lemma StatedOverturn(docs: seq<Doc>, p: nat, q: nat, kind: Kind, r: CorpusWorld.Relation)
    requires p < |docs| && q < |docs[p].relations| && docs[p].relations[q] != r && Stated(docs, kind, r)
    ensures Stated(CorpusSpec.Overturn(docs, p, q), kind, r)
  {
    var docs' := CorpusSpec.Overturn(docs, p, q);
    var i :| 0 <= i < |docs| && docs[i].kind == kind && r in docs[i].relations;
    var j :| 0 <= j < |docs[i].relations| && docs[i].relations[j] == r;
    assert docs'[i].relations[j] == r;
  }

  lemma PairKeepsStated(s: CorpusSpec.State, late: CorpusWorld.Relation, kind: Kind, r: CorpusWorld.Relation)
    requires r.pred != CorpusWorld.ReportedOnTime && Stated(s.docs, kind, r)
    ensures Stated(CorpusSpec.Pair(s, late).docs, kind, r)
  {
    hide CorpusSpec.Overturn;
    CorpusSpec.FindFromIsFirst(s.docs, 0, late.subject, CorpusWorld.ReportedOnTime);
    var found := CorpusSpec.FindFrom(s.docs, 0, late.subject, CorpusWorld.ReportedOnTime);
    if found.Some? {
      StatedOverturn(s.docs, found.value.0, found.value.1, kind, r);
    }
  }

  lemma CorrectionKeepsStated(rng: Rng.Stream, s: CorpusSpec.State, stated: Kind, r: CorpusWorld.Relation)
    requires r.pred != CorpusWorld.ReportedOnTime && Stated(s.docs, stated, r)
    ensures Stated(CorpusSpec.EmitCorrection(rng, s).docs, stated, r)
  {
    hide Stated, CorpusSpec.Pair;
    var memo := CorpusSpec.EmitOne(rng, s, CorpusWorld.CorrectionMemo);
    StatedExtends(s.docs, memo.docs, stated, r);
    PairKeepsStated(memo, CorpusSpec.Fresh(rng, s, CorpusWorld.CorrectionMemo).relations[0], stated, r);
  }

  lemma EmitKeepsStated(
      rng: Rng.Stream, withCorrections: bool, s: CorpusSpec.State, kind: Kind, stated: Kind, r: CorpusWorld.Relation)
    requires r.pred != CorpusWorld.ReportedOnTime && Stated(s.docs, stated, r)
    ensures Stated(CorpusSpec.Emit(rng, withCorrections, s, kind).docs, stated, r)
  {
    hide Stated, CorpusSpec.EmitCorrection, CorpusSpec.Fresh, CorpusSpec.Ordinal;
    match kind
    case AuditFindingDoc => StatedExtends(s.docs, CorpusSpec.EmitAudit(s).docs, stated, r);
    case FillerDoc =>
    case CorrectionMemo => CorrectionKeepsStated(rng, s, stated, r);
    case _ => StatedExtends(s.docs, CorpusSpec.EmitOne(rng, s, kind).docs, stated, r);
  }

  lemma {:induction false} FirstOfKindStates(rng: Rng.Stream, s: CorpusSpec.State, kind: Kind)
    requires Opens(kind) && CorpusSpec.Ordinal(s.docs, kind) == 0
    ensures Stated(CorpusSpec.EmitOne(rng, s, kind).docs, kind, Opening(kind))
  {
    CorpusSpec.RangesAreProper(kind);
    var written := CorpusSpec.Fresh(rng, s, kind);
    OpeningIsWritten(kind, written.draws);
    assert CorpusSpec.EmitOne(rng, s, kind).docs[|s.docs|] == written;
  }

  /** Once a plan has reached one of these kinds, what its first document asserts is there to stay. */
  lemma {:induction false} PlanStates(rng: Rng.Stream, withCorrections: bool, plan: seq<Kind>, kind: Kind)
    requires Opens(kind)
    ensures var docs := CorpusSpec.EmitAll(rng, withCorrections, CorpusSpec.EMPTY, plan).docs;
            && (kind in plan ==> Stated(docs, kind, Opening(kind)))
            && (kind !in plan ==> CorpusSpec.Ordinal(docs, kind) == 0)
  {
    hide Stated, CorpusSpec.Emit, CorpusSpec.EmitOne, Opening;
    if plan != [] {
      var front, last := plan[..|plan| - 1], plan[|plan| - 1];
      assert plan == front + [last];
      var s := CorpusSpec.EmitAll(rng, withCorrections, CorpusSpec.EMPTY, front);
      PlanStates(rng, withCorrections, front, kind);
      OpeningStands(kind);
      if kind in front {
        EmitKeepsStated(rng, withCorrections, s, last, kind, Opening(kind));
      } else if last == kind {
        FirstOfKindStates(rng, s, kind);
        EmitIsEmitOne(rng, withCorrections, s, kind);
      } else {
        OtherKindsDoNotCount(rng, withCorrections, s, last, kind);
      }
    }
  }

  lemma OpeningStands(kind: Kind)
    ensures Opening(kind).pred != CorpusWorld.ReportedOnTime && !Opening(kind).retracted
  {
  }

  lemma EmitIsEmitOne(rng: Rng.Stream, withCorrections: bool, s: CorpusSpec.State, kind: Kind)
    requires Opens(kind) || kind in CorpusWorld.SINGLE_DOC_KINDS
    ensures CorpusSpec.Emit(rng, withCorrections, s, kind) == CorpusSpec.EmitOne(rng, s, kind)
  {
  }

  lemma {:induction false} OtherKindsDoNotCount(
      rng: Rng.Stream, withCorrections: bool, s: CorpusSpec.State, kind: Kind, counted: Kind)
    requires Opens(counted) && kind != counted && CorpusSpec.Ordinal(s.docs, counted) == 0
    ensures CorpusSpec.Ordinal(CorpusSpec.Emit(rng, withCorrections, s, kind).docs, counted) == 0
  {
    hide CorpusSpec.Ordinal, CorpusSpec.EmitAudit, CorpusSpec.EmitCorrection, CorpusSpec.EmitOne;
    match kind
    case AuditFindingDoc => CorpusTheorems.AuditCounts(s, counted);
    case CorrectionMemo => CorpusTheorems.CorrectionCounts(rng, s, counted);
    case FillerDoc =>
    case _ => OneDoesNotCount(rng, s, kind, counted);
  }

  lemma {:induction false} OneDoesNotCount(rng: Rng.Stream, s: CorpusSpec.State, kind: Kind, counted: Kind)
    requires kind != counted
    ensures CorpusSpec.Ordinal(CorpusSpec.EmitOne(rng, s, kind).docs, counted) == CorpusSpec.Ordinal(s.docs, counted)
  {
    CorpusTheorems.OrdinalAppend(s.docs, CorpusSpec.Fresh(rng, s, kind), counted);
  }

  // ----- the plan reaches all three kinds -----

  lemma {:induction false} CountedIsThere(plan: seq<Kind>, kind: Kind)
    requires Count(plan, kind) > 0
    ensures kind in plan
  {
    if plan[|plan| - 1] != kind {
      CountedIsThere(plan[..|plan| - 1], kind);
    }
  }

  lemma PlanHas(budget: nat, i: nat)
    requires budget >= 21 && i < |CorpusWorld.HOT_KINDS| && i != CorpusWorld.AUDIT
             && CorpusWorld.HOT_KIND_WEIGHTS[i] >= 42
    ensures CorpusWorld.HOT_KINDS[i] in CorpusSpec.Plan(budget)
  {
    hide CorpusSpec.Plan;
    CorpusTheorems.PlanIsFull(budget);
    CorpusSpec.WeightsWellformed();
    CorpusWorld.TotalWeight();
    Apportionment.QuotaIsFloorOrCeiling(CorpusWorld.HOT_KIND_WEIGHTS, CorpusWorld.HOT_KIND_NAMES, budget, i);
    WholeShare(CorpusWorld.HOT_KIND_WEIGHTS[i], budget);
    CountedIsThere(CorpusSpec.Plan(budget), CorpusWorld.HOT_KINDS[i]);
  }

  lemma WholeShare(weight: nat, budget: nat)
    requires weight >= 42 && budget >= 21
    ensures weight * budget / 876 >= 1
  {
    assert weight * budget >= 42 * 21;
  }

  lemma {:induction false} SlackExtends(
      rng: Rng.Stream, withCorrections: bool, s: CorpusSpec.State, budget: nat, extra: nat)
    ensures s.docs <= CorpusSpec.Slack(rng, withCorrections, s, budget, extra).docs
    decreases budget - |s.docs|
  {
    hide CorpusSpec.Fresh;
    if |s.docs| < budget {
      var kind := CorpusWorld.SINGLE_DOC_KINDS[extra % |CorpusWorld.SINGLE_DOC_KINDS|];
      SlackExtends(rng, withCorrections, CorpusSpec.Emit(rng, withCorrections, s, kind), budget, extra + 1);
    }
  }

  /** Enough documents, beyond the optional layer, for every kind of the chain to be planned. */
  predicate IsLargeEnough(options: CorpusSpec.Options) {
    options.total - CorpusSpec.Layer(options) >= 21
  }

  /** A generated corpus states the opening relation of each kind. */
  lemma GeneratedStates(rng: Rng.Stream, options: CorpusSpec.Options, kind: Kind)
    requires IsLargeEnough(options) && Opens(kind)
    ensures Stated(CorpusSpec.Generate(rng, options).docs, kind, Opening(kind))
  {
    hide Stated, Opening, CorpusSpec.Slack, CorpusSpec.Plan, CorpusSpec.EmitAll;
    var total := options.total - CorpusSpec.Layer(options);
    var budget := CorpusSpec.HotBudget(total);
    var planned := CorpusSpec.EmitAll(rng, options.corrections, CorpusSpec.EMPTY, CorpusSpec.Plan(budget));
    var hot := CorpusSpec.GenerateHot(rng, options.corrections, total);
    KindIsPlanned(budget, kind);
    PlanStates(rng, options.corrections, CorpusSpec.Plan(budget), kind);
    SlackExtends(rng, options.corrections, planned, budget, 0);
    CorpusTheorems.LayerAppends(rng, hot, CorpusWorld.UNCERTAINTY_PAIRS);
    CorpusTheorems.FillersOnlyAppend(rng, CorpusSpec.Bearing(rng, options), options);
    StatedExtends(planned.docs, CorpusSpec.Generate(rng, options).docs, kind, Opening(kind));
  }

  lemma KindIsPlanned(budget: nat, kind: Kind)
    requires budget >= 21 && Opens(kind)
    ensures kind in CorpusSpec.Plan(budget)
  {
    hide CorpusSpec.Plan;
    assert CorpusWorld.HOT_KINDS[5] == CorpusWorld.WarehouseMemo
           && CorpusWorld.HOT_KINDS[9] == CorpusWorld.DeliveryNote;
    assert CorpusWorld.HOT_KINDS[10] == CorpusWorld.InventoryMemo;
    PlanHas(budget, 5);
    PlanHas(budget, 9);
    PlanHas(budget, 10);
  }

  // ----- the chain among the edges -----

  /** The edge that an opening relation becomes. */
  lemma OpeningIsEdge(
      rng: Rng.Stream, options: CorpusSpec.Options, c: Corpus, n: Naming, kind: Kind) returns (e: Edge, p: nat)
    requires IsLargeEnough(options) && Renders(c, CorpusSpec.Generate(rng, options), n) && Opens(kind)
    ensures var s := CorpusSpec.Generate(rng, options);
            p < |s.docs| && s.docs[p].kind == kind && e.docId == n.doc(p)
    ensures e in PositiveEdges(c)
    ensures var r := Opening(kind);
            e.subject == n.entity(r.subject) && e.obj == n.entity(r.obj) && e.pred == PredicateName(r.pred)
  {
    hide CorpusSpec.Generate, PredicateName, Renders;
    var s, r := CorpusSpec.Generate(rng, options), Opening(kind);
    GeneratedStates(rng, options, kind);
    p :| 0 <= p < |s.docs| && s.docs[p].kind == kind && r in s.docs[p].relations;
    RelationIsEdge(c, s, n, p, r);
    e := Edge(n.entity(r.subject), PredicateName(r.pred), n.entity(r.obj), r.retracted, n.doc(p));
    OpeningIsPositive(kind);
    OpeningStands(kind);
  }

  lemma OpeningIsPositive(kind: Kind)
    requires Opens(kind)
    ensures PredicateName(Opening(kind).pred) in POSITIVE_CHAIN_PREDICATES
  {
    assert POSITIVE_CHAIN_PREDICATES[1] == "received_delivery" && POSITIVE_CHAIN_PREDICATES[7] == "carried_batch";
    assert POSITIVE_CHAIN_PREDICATES[8] == "contains_serial";
  }

  lemma DocumentsDiffer(c: Corpus, s: CorpusSpec.State, n: Naming, p: nat, q: nat)
    requires Renders(c, s, n) && p < |s.docs| && q < |s.docs| && s.docs[p].kind != s.docs[q].kind
    ensures n.doc(p) != n.doc(q)
  {
  }

  /** A received delivery, the batch it carries, and a serial of the batch: three edges in three documents. */
  lemma GeneratedHasChains(rng: Rng.Stream, options: CorpusSpec.Options, c: Corpus, n: Naming, w: World)
    requires IsLargeEnough(options) && Renders(c, CorpusSpec.Generate(rng, options), n) && Summarises(w, c)
    ensures w.withSeconds != [] && w.withThirds != []
  {
    hide CorpusSpec.Generate, Renders, Summarises, PredicateName, PositiveEdges;
    var s := CorpusSpec.Generate(rng, options);
    var a, pa := OpeningIsEdge(rng, options, c, n, CorpusWorld.WarehouseMemo);
    var b, pb := OpeningIsEdge(rng, options, c, n, CorpusWorld.DeliveryNote);
    var e, pe := OpeningIsEdge(rng, options, c, n, CorpusWorld.InventoryMemo);
    DocumentsDiffer(c, s, n, pa, pb);
    DocumentsDiffer(c, s, n, pb, pe);
    DocumentsDiffer(c, s, n, pa, pe);
    ChainIsListed(w, c, a, b, e);
  }

  lemma ChainIsListed(w: World, c: Corpus, a: Edge, b: Edge, e: Edge)
    requires Summarises(w, c) && a in PositiveEdges(c) && b in PositiveEdges(c) && e in PositiveEdges(c)
    requires b.subject == a.obj && e.subject == b.obj
    requires a.docId != b.docId && b.docId != e.docId && a.docId != e.docId
    ensures w.withSeconds != [] && w.withThirds != []
  {
    hide PositiveEdges;
    assert Follows(a)(b) && Follows(b)(e);
    assert CanContinue(w.positive)(a) && CanContinueTwice(w.positive)(a);
    assert a in w.withSeconds && a in w.withThirds;
  }

  /** Some vendor names its delivery, so there is something to ask the easy tier about. */
  lemma GeneratedHasEasyEdges(rng: Rng.Stream, options: CorpusSpec.Options, c: Corpus, n: Naming, w: World)
    requires IsLargeEnough(options) && Renders(c, CorpusSpec.Generate(rng, options), n) && Summarises(w, c)
    ensures EasyEdges(w) != []
  {
    hide CorpusSpec.Generate, Renders, Summarises, PositiveEdges, PredicateName;
    var e, p := OpeningIsEdge(rng, options, c, n, CorpusWorld.DeliveryNote);
    EdgeIsIndexed(w, c, e);
    CarriedIsEasy(w, e);
  }

  lemma CarriedIsEasy(w: World, e: Edge)
    requires e in At(w.byPredicate, PredicateName(CorpusWorld.CarriedBatch))
    ensures EasyEdges(w) != []
  {
  }

  lemma {:induction false} TableEdgesAreEvery(entries: seq<Entry>, e: Edge)
    requires e in TableEdges(ByDocument(entries))
    ensures e in EveryEdge(entries)
  {
    if entries != [] {
      var front, last := entries[..|entries| - 1], entries[|entries| - 1];
      PutHolds(ByDocument(front), last.id, EntryEdges(last.id, last.relations), e);
      if e !in EntryEdges(last.id, last.relations) {
        TableEdgesAreEvery(front, e);
      }
    }
  }

  /** After setting an entry, an edge of the table is one of it or was there before. */
  lemma {:induction false} PutHolds(table: seq<(string, seq<Edge>)>, id: string, edges: seq<Edge>, e: Edge)
    requires e in TableEdges(Put(table, id, edges))
    ensures e in edges || e in TableEdges(table)
  {
    EdgeOfTable(Put(table, id, edges), e);
    var i :| 0 <= i < |Put(table, id, edges)| && e in Put(table, id, edges)[i].1;
    PutPlaces(table, id, edges, i);
    if e !in edges {
      var j :| 0 <= j < |table| && table[j].1 == Put(table, id, edges)[i].1;
      TableHolds(table, j, e);
    }
  }

  lemma {:induction false} EdgeOfTable(table: seq<(string, seq<Edge>)>, e: Edge)
    requires e in TableEdges(table)
    ensures exists i :: 0 <= i < |table| && e in table[i].1
  {
    if e !in table[|table| - 1].1 {
      EdgeOfTable(table[..|table| - 1], e);
    }
  }

  lemma {:induction false} PutPlaces(table: seq<(string, seq<Edge>)>, id: string, edges: seq<Edge>, i: nat)
    requires i < |Put(table, id, edges)|
    ensures Put(table, id, edges)[i].1 == edges
            || exists j :: 0 <= j < |table| && table[j].1 == Put(table, id, edges)[i].1
  {
    if table != [] && i > 0 {
      if table[0].0 == id {
        assert table[i].1 == Put(table, id, edges)[i].1;
      } else {
        PutPlaces(table[1..], id, edges, i - 1);
        if j :| 0 <= j < |table[1..]| && table[1..][j].1 == Put(table, id, edges)[i].1 {
          assert table[j + 1].1 == Put(table, id, edges)[i].1;
        }
      }
    } else if table != [] {
      assert table[0].0 != id ==> table[0].1 == Put(table, id, edges)[0].1;
    }
  }

  lemma EdgeIsIndexed(w: World, c: Corpus, e: Edge)
    requires Summarises(w, c) && e in PositiveEdges(c)
    ensures e in At(w.byPredicate, e.pred)
  {
    TableEdgesAreEvery(c.entries, e);
    assert At(w.byPredicate, e.pred) == Filter(EveryEdge(c.entries), HasPredicate(e.pred));
  }

  // ----- the generator never fails -----

  ghost predicate NeverFails(attempt: Attempter) {
    forall st :: !attempt(st).Crashed?
  }

  ghost predicate NeverFailsToBuild(build: Builder) {
    forall st, number :: !build(st, number).Crashed?
  }

  lemma {:induction false} RepeatNeverFails(attempt: Attempter, st: Progress, left: nat)
    requires NeverFails(attempt)
    ensures !Repeat(attempt, st, left).Crashed?
    decreases left
  {
    if left > 0 && attempt(st).Nothing? {
      RepeatNeverFails(attempt, attempt(st).st, left - 1);
    }
  }

  lemma {:induction false} FillNeverFails(build: Builder, st: Progress, want: nat, made: nat, tries: nat)
    requires NeverFailsToBuild(build)
    ensures Fill(build, st, want, made, tries).Filled?
    decreases tries
  {
    if made < want && tries > 0 {
      match build(st, made + 1)
      case Nothing(st') => FillNeverFails(build, st', want, made, tries - 1);
      case Made(q, st') => FillNeverFails(build, st', want, made + 1, tries - 1);
      case Crashed => assert false;
    }
  }

  lemma TurnsNeverFail(first: Attempter, second: Attempter, third: Attempter, limits: Limits, st: Progress)
    requires NeverFails(first) && NeverFails(second) && NeverFails(third)
    ensures !Turns(first, second, third, limits, st).Crashed?
  {
    RepeatNeverFails(first, st, limits.supersession);
    var r1 := Repeat(first, st, limits.supersession);
    if r1.Nothing? {
      RepeatNeverFails(second, r1.st, limits.negative);
      var r2 := Repeat(second, r1.st, limits.negative);
      if r2.Nothing? {
        RepeatNeverFails(third, r2.st, limits.disambiguation);
      }
    }
  }

  /** The lists the mechanisms pick from are not empty. */
  ghost predicate HasPicks(w: World) {
    EasyEdges(w) != [] && w.withSeconds != [] && w.withThirds != []
  }

  lemma MultiHopNeverFails(s: Setting, tier: Tier, limit: nat)
    requires HasPicks(s.world)
    ensures NeverFailsToBuild(BuilderOf(s, tier, limit))
  {
    forall st, number ensures !BuilderOf(s, tier, limit)(st, number).Crashed? {
      BuildCrashes(s, tier, st, number, limit);
    }
  }

  lemma ComplexNeverFails(s: Setting, limits: Limits)
    requires HasPicks(s.world)
    ensures NeverFailsToBuild(ComplexBuilder(s, limits))
  {
    hide Turns, Supersede;
    forall st, number ensures !ComplexBuilder(s, limits)(st, number).Crashed? {
      SinglesNeverFail(s, number);
      MediumNeverFails(s, number, limits.medium);
      TurnsNeverFail(SupersessionAttempter(s, number), NegativeAttempter(s, number),
                     MediumAttempter(s, number, limits.medium), limits, st);
    }
  }

  lemma SinglesNeverFail(s: Setting, number: nat)
    ensures NeverFails(SupersessionAttempter(s, number)) && NeverFails(NegativeAttempter(s, number))
  {
    forall st ensures !SupersessionAttempter(s, number)(st).Crashed? && !NegativeAttempter(s, number)(st).Crashed? {
      SupersessionNeverFails(s, number, st);
    }
  }

  lemma SupersessionNeverFails(s: Setting, number: nat, st: Progress)
    ensures !SupersessionAttempt(s, number, st).Crashed? && !NegativeAttempt(s, number, st).Crashed?
  {
  }

  lemma MediumNeverFails(s: Setting, number: nat, limit: nat)
    requires HasPicks(s.world)
    ensures NeverFails(MediumAttempter(s, number, limit))
  {
    forall st ensures !MediumAttempter(s, number, limit)(st).Crashed? {
      BuildCrashes(s, Medium, st, number, limit);
    }
  }

  lemma EasyNeverFails(s: Setting, limits: Limits)
    requires HasPicks(s.world)
    ensures NeverFailsToBuild(EasyBuilder(s, limits))
  {
    hide EasyEdges, EasyQuestion;
    forall st, number ensures !EasyBuilder(s, limits)(st, number).Crashed? {
      forall at ensures !EasyAttempter(s, number)(at).Crashed? {
        EasyAttemptNeverFails(s, number, at);
      }
      RepeatNeverFails(EasyAttempter(s, number), st, limits.easy);
    }
  }

  lemma EasyAttemptNeverFails(s: Setting, number: nat, st: Progress)
    requires EasyEdges(s.world) != []
    ensures !EasyAttempt(s, number, st).Crashed?
  {
    hide EasyQuestion;
  }

  lemma {:induction false} TiersNeverFail(s: Setting, limits: Limits, st: Progress, wants: seq<(Tier, nat)>)
    requires HasPicks(s.world)
    ensures FillTiers(s, limits, st, wants).Filled?
    decreases |wants|
  {
    hide HasPicks, NeverFailsToBuild;
    if wants != [] {
      TiersNeverFail(s, limits, st, wants[..|wants| - 1]);
      var (tier, want) := wants[|wants| - 1];
      var before := FillTiers(s, limits, st, wants[..|wants| - 1]);
      EasyNeverFails(s, limits);
      ComplexNeverFails(s, limits);
      MultiHopNeverFails(s, Medium, limits.medium);
      MultiHopNeverFails(s, Hard, limits.hard);
      FillNeverFails(TierBuilder(s, limits, tier), before.st, want, 0, want * TRIES_PER_QUESTION);
    }
  }

  /**
   * Main result: on the files of a generated corpus of at least 21 documents beside the optional layer, with or without
   * corrections and fillers, the question generator runs to its end for every demand, random stream and history.
   */
  lemma {:induction false} GeneratorNeverFails(
      rng: Rng.Stream, options: CorpusSpec.Options, c: Corpus, n: Naming, s: Setting, limits: Limits, st: Progress,
      wants: seq<(Tier, nat)>)
    requires IsLargeEnough(options) && Renders(c, CorpusSpec.Generate(rng, options), n) && Summarises(s.world, c)
    ensures FillTiers(s, limits, st, wants).Filled?
  {
    hide Renders, Summarises, FillTiers, EasyEdges;
    GeneratedHasChains(rng, options, c, n, s.world);
    GeneratedHasEasyEdges(rng, options, c, n, s.world);
    TiersNeverFail(s, limits, st, wants);
  }
}
