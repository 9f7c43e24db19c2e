/** What every run of the corpus generator keeps: pairing of corrections, sizes, and stable numbering. */
module CorpusTheorems {
  import opened Sequences
  import opened CorpusWorld
  import opened CorpusSpec
  import Apportionment
  import opened Rng
  import RoundRobin
  import Spread

  // ---------------------------------------------------------------------------------------------
  // Ordinals
  // ---------------------------------------------------------------------------------------------

  lemma {:induction false} OrdinalAppend(docs: seq<Doc>, d: Doc, kind: Kind)
    ensures Ordinal(docs + [d], kind) == Ordinal(docs, kind) + if d.kind == kind then 1 else 0
  {
    assert (docs + [d])[..|docs|] == docs;
  }

  lemma {:induction false} OrdinalGrows(docs: seq<Doc>, p: nat, kind: Kind)
    requires p <= |docs|
    ensures Ordinal(docs[..p], kind) <= Ordinal(docs, kind)
  {
    if p < |docs| {
      OrdinalGrows(docs[..|docs| - 1], p, kind);
      assert docs[..|docs| - 1][..p] == docs[..p];
    } else {
      assert docs[..p] == docs;
    }
  }

  /** Every document carries the ordinal its kind had reached when it was written. */
  ghost predicate OrdinalsCount(docs: seq<Doc>) {
    forall p :: 0 <= p < |docs| ==> docs[p].ordinal == Ordinal(docs[..p], docs[p].kind)
  }

  lemma {:induction false} OrdinalsCountAppend(docs: seq<Doc>, d: Doc)
    requires OrdinalsCount(docs) && d.ordinal == Ordinal(docs, d.kind)
    ensures OrdinalsCount(docs + [d])
  {
    var docs' := docs + [d];
    forall p | 0 <= p < |docs'| ensures docs'[p].ordinal == Ordinal(docs'[..p], docs'[p].kind) {
      if p < |docs| {
        assert docs'[..p] == docs[..p];
      } else {
        assert docs'[..p] == docs;
      }
    }
  }

  lemma OrdinalsIncrease(docs: seq<Doc>, p: nat, p': nat)
    requires OrdinalsCount(docs) && p < p' < |docs| && docs[p].kind == docs[p'].kind
    ensures docs[p].ordinal < docs[p'].ordinal
  {
    var kind := docs[p].kind;
    OrdinalAppend(docs[..p], docs[p], kind);
    assert docs[..p] + [docs[p]] == docs[..p + 1] == docs[..p'][..p + 1];
    OrdinalGrows(docs[..p'], p + 1, kind);
  }

  /** Each ordinal below the count was given to some document. */
  lemma {:induction false} OrdinalGiven(docs: seq<Doc>, kind: Kind, o: nat) returns (p: nat)
    requires OrdinalsCount(docs) && o < Ordinal(docs, kind)
    ensures p < |docs| && docs[p].kind == kind && docs[p].ordinal == o
  {
    var last := |docs| - 1;
    if docs[last].kind == kind && Ordinal(docs[..last], kind) == o {
      p := last;
    } else {
      forall i | 0 <= i < last ensures docs[..last][i].ordinal == Ordinal(docs[..last][..i], docs[..last][i].kind) {
        assert docs[..last][..i] == docs[..i];
      }
      p := OrdinalGiven(docs[..last], kind, o);
    }
  }

  lemma {:induction false} OrdinalByKinds(a: seq<Doc>, b: seq<Doc>, kind: Kind)
    requires |a| == |b| && forall i :: 0 <= i < |a| ==> a[i].kind == b[i].kind
    ensures Ordinal(a, kind) == Ordinal(b, kind)
  {
    if a != [] {
      OrdinalByKinds(a[..|a| - 1], b[..|b| - 1], kind);
    }
  }

  // ---------------------------------------------------------------------------------------------
  // Which document asserts what
  // ---------------------------------------------------------------------------------------------

  predicate Paired(pred: Predicate) {
    pred == ReportedOnTime || pred == FromVendor || pred == ForProject
  }

  /** The kind whose documents carry a paired predicate, and where they carry it. */
  function Home(pred: Predicate): Kind {
    if pred == FromVendor then WarehouseMemo else DeliveryNote
  }

  function Slot(pred: Predicate): nat {
    if pred == ReportedOnTime then 2 else 0
  }

  predicate Neutral(relations: seq<Relation>) {
    forall i :: 0 <= i < |relations| ==> !relations[i].retracted && !Paired(relations[i].pred)
  }

  /** The relations of a document once the first `corrected` deliveries were corrected. */
  predicate RelationsFit(d: Doc, corrected: nat) {
    match d.kind
    case DeliveryNote =>
      |d.draws| == 1 && d.relations == DeliveryRelations(d.ordinal, d.draws[0], d.ordinal < corrected)
    case WarehouseMemo => |d.draws| == 1 && d.relations == WarehouseRelations(d.ordinal, d.draws[0])
    case _ => Neutral(d.relations)
  }

  lemma {:induction false} HomeAsserts(d: Doc, corrected: nat, pred: Predicate)
    requires Paired(pred) && RelationsFit(d, corrected) && d.kind == Home(pred)
    ensures FindIn(d.relations, DeliveryAt(d.ordinal), pred) == Some(Slot(pred))
  {
    assert d.relations[Slot(pred)].pred == pred && d.relations[Slot(pred)].subject == DeliveryAt(d.ordinal);
    assert FindIn(d.relations, DeliveryAt(d.ordinal), pred).Some?;
  }

  lemma OnlyHomeAsserts(d: Doc, corrected: nat, subject: Entity, pred: Predicate)
    requires Paired(pred) && RelationsFit(d, corrected) && Asserts(d, subject, pred)
    ensures d.kind == Home(pred) && subject == DeliveryAt(d.ordinal)
  {
    var q := FindIn(d.relations, subject, pred).value;
    assert d.relations[q].pred == pred;
  }

  /** For a delivery of the first block, a search finds the document with that very ordinal. */
  lemma {:induction false} FindsSameOrdinal(docs: seq<Doc>, corrected: nat, n: nat, pred: Predicate, p0: nat)
    requires OrdinalsCount(docs) && forall p :: 0 <= p < |docs| ==> RelationsFit(docs[p], corrected)
    requires Paired(pred) && n < 120 && p0 < |docs| && docs[p0].kind == Home(pred) && docs[p0].ordinal == n
    ensures FindFrom(docs, 0, DeliveryAt(n), pred) == Some((p0, Slot(pred)))
  {
    HomeAsserts(docs[p0], corrected, pred);
    FindFromIsFirst(docs, 0, DeliveryAt(n), pred);
    var found := FindFrom(docs, 0, DeliveryAt(n), pred);
    assert Asserts(docs[p0], DeliveryAt(n), pred);
    var p := found.value.0;
    assert p <= p0;
    OnlyHomeAsserts(docs[p], corrected, DeliveryAt(n), pred);
    if p < p0 {
      OrdinalsIncrease(docs, p, p0);
      Spread.FirstBlockIsIdentity(120, docs[p].ordinal, 7);
      Spread.FirstBlockIsIdentity(120, n, 7);
    }
  }

  // ---------------------------------------------------------------------------------------------
  // The pairing invariant
  // ---------------------------------------------------------------------------------------------

  predicate IsNote(d: Doc, j: nat, day: Entity) {
    d.kind == DeliveryNote && d.ordinal == j && |d.draws| == 1 && day == Day(d.draws[0])
  }

  predicate IsMemo(d: Doc, j: nat, day: Entity) {
    d.kind == CorrectionMemo && d.ordinal == j && |d.draws| == 2 && day == Day(d.draws[1])
  }

  /** Correction `j` overturns the `j`-th delivery note, and keeps its project and its dock memo's vendor. */
  ghost predicate CorrectionFits(docs: seq<Doc>, c: CorrectionRecord, j: nat) {
    && c.incorrectDoc < c.correctDoc < |docs|
    && IsNote(docs[c.incorrectDoc], j, c.incorrectDay)
    && IsMemo(docs[c.correctDoc], j, c.correctDay)
    && c.delivery == DeliveryAt(j) && c.project == ProjectAt(j) && c.vendor == VendorAt(j)
  }

  ghost predicate Coherent(s: State) {
    && OrdinalsCount(s.docs)
    && (forall p :: 0 <= p < |s.docs| ==> RelationsFit(s.docs[p], |s.corrections|))
    && |s.corrections| == Ordinal(s.docs, CorrectionMemo)
    && (forall j :: 0 <= j < |s.corrections| ==> CorrectionFits(s.docs, s.corrections[j], j))
  }

  lemma CoherentAppend(s: State, d: Doc, drawn: nat)
    requires Coherent(s) && d.ordinal == Ordinal(s.docs, d.kind) && d.kind != CorrectionMemo
    requires RelationsFit(d, |s.corrections|)
    ensures Coherent(State(s.docs + [d], s.corrections, drawn))
  {
    OrdinalsCountAppend(s.docs, d);
    OrdinalAppend(s.docs, d, CorrectionMemo);
  }

  lemma {:induction false} CorrectedBelowNotes(docs: seq<Doc>, corrections: seq<CorrectionRecord>)
    requires OrdinalsCount(docs)
    requires forall j :: 0 <= j < |corrections| ==> CorrectionFits(docs, corrections[j], j)
    ensures |corrections| <= Ordinal(docs, DeliveryNote)
  {
    if |corrections| > 0 {
      var c := corrections[|corrections| - 1];
      var p := c.incorrectDoc;
      OrdinalAppend(docs[..p], docs[p], DeliveryNote);
      assert docs[..p] + [docs[p]] == docs[..p + 1];
      OrdinalGrows(docs, p + 1, DeliveryNote);
    }
  }

  lemma {:induction false} FreshFits(rng: Stream, s: State, kind: Kind, corrected: nat)
    requires corrected <= Ordinal(s.docs, DeliveryNote)
    ensures RelationsFit(Fresh(rng, s, kind), corrected)
    ensures kind == CorrectionMemo ==>
              IsMemo(Fresh(rng, s, kind), Ordinal(s.docs, kind), Fresh(rng, s, kind).relations[0].obj)
  {
    RangesAreProper(kind);
    FreshNeutral(kind, Ordinal(s.docs, kind), Draws(rng, s.drawn, Ranges(kind)));
  }

  lemma FreshNeutral(kind: Kind, o: nat, draws: seq<int>)
    requires |draws| == |Ranges(kind)|
    ensures kind != DeliveryNote && kind != WarehouseMemo ==> Neutral(Relations(kind, o, draws))
  {
    hide Spread.Row;
    if kind == InventoryMemo {
      ListingNeutral(BatchAt(o), (o * 11) % (900 - (2 + o % 3) - 1), 2 + o % 3);
    } else if kind != DeliveryNote && kind != WarehouseMemo {
      var relations := Relations(kind, o, draws);
      assert |relations| <= 3;
      assert |relations| > 0 ==> !Paired(relations[0].pred) && !relations[0].retracted;
      assert |relations| > 1 ==> !Paired(relations[1].pred) && !relations[1].retracted;
      assert |relations| > 2 ==> !Paired(relations[2].pred) && !relations[2].retracted;
    }
  }

  lemma {:induction false} ListingNeutral(batch: Entity, start: nat, count: nat)
    ensures Neutral(Listing(batch, start, count))
  {
    if count > 0 {
      ListingNeutral(batch, start, count - 1);
    }
  }

  lemma EmitOneCoherent(rng: Stream, s: State, kind: Kind)
    requires Coherent(s) && kind != CorrectionMemo
    ensures Coherent(EmitOne(rng, s, kind))
  {
    CorrectedBelowNotes(s.docs, s.corrections);
    FreshFits(rng, s, kind, |s.corrections|);
    CoherentAppend(s, Fresh(rng, s, kind), s.drawn + |Ranges(kind)|);
  }

  lemma EmitAuditCoherent(s: State)
    requires Coherent(s)
    ensures Coherent(EmitAudit(s))
  {
    var o := Ordinal(s.docs, AuditFindingDoc);
    var narrative := Doc(AuditFindingDoc, o, [], NarrativeRelations(o));
    CoherentAppend(s, narrative, s.drawn);
    var o' := Ordinal(s.docs + [narrative], AuditFindingDoc);
    CoherentAppend(State(s.docs + [narrative], s.corrections, s.drawn),
                   Doc(AuditFindingDoc, o', [], AttributionRelations(o')), s.drawn);
  }

  /** With its delivery note and dock memo already written, a correction memo is paired and the invariant is kept. */
  lemma EmitCorrectionCoherent(rng: Stream, s: State)
    requires Coherent(s) && |s.corrections| < 120
    requires Ordinal(s.docs, DeliveryNote) > |s.corrections| && Ordinal(s.docs, WarehouseMemo) > |s.corrections|
    ensures Coherent(EmitCorrection(rng, s))
    ensures |EmitCorrection(rng, s).corrections| == |s.corrections| + 1
    ensures |EmitCorrection(rng, s).docs| == |s.docs| + 1
  {
    hide EmitCorrection, Ordinal;
    var pd := OrdinalGiven(s.docs, DeliveryNote, |s.corrections|);
    var pw := OrdinalGiven(s.docs, WarehouseMemo, |s.corrections|);
    MemoOverturns(rng, s, pd, pw);
    OverturnCoherent(s, Fresh(rng, s, CorrectionMemo), pd, EmitCorrection(rng, s));
  }

  /** With the note at `pd` and the dock memo at `pw`, the memo overturns the note at `pd`. */
  lemma MemoOverturns(rng: Stream, s: State, pd: nat, pw: nat)
    requires Coherent(s) && |s.corrections| < 120 && |s.corrections| <= Ordinal(s.docs, DeliveryNote)
    requires pd < |s.docs| && s.docs[pd].kind == DeliveryNote && s.docs[pd].ordinal == |s.corrections|
    requires pw < |s.docs| && s.docs[pw].kind == WarehouseMemo && s.docs[pw].ordinal == |s.corrections|
    ensures Overturned(s, Fresh(rng, s, CorrectionMemo), pd, EmitCorrection(rng, s))
  {
    hide Pair, FindFrom, Ordinal, Relations, RelationsFit, Draws;
    var n, memo := |s.corrections|, Fresh(rng, s, CorrectionMemo);
    MemoFits(rng, s);
    PairSucceeds(EmitOne(rng, s, CorrectionMemo), memo.relations[0], n, pd, pw);
  }

  lemma MemoFits(rng: Stream, s: State)
    requires Coherent(s) && |s.corrections| <= Ordinal(s.docs, DeliveryNote)
    ensures var n, memo := |s.corrections|, Fresh(rng, s, CorrectionMemo);
            && |memo.relations| == 1 && memo.relations[0].subject == DeliveryAt(n) && Neutral(memo.relations)
            && IsMemo(memo, n, memo.relations[0].obj) && RelationsFit(memo, n) && OrdinalsCount(s.docs + [memo])
            && Ordinal(s.docs + [memo], CorrectionMemo) == n + 1
  {
    var n, memo := |s.corrections|, Fresh(rng, s, CorrectionMemo);
    FreshFits(rng, s, CorrectionMemo, n);
    OrdinalsCountAppend(s.docs, memo);
    OrdinalAppend(s.docs, memo, CorrectionMemo);
  }

  /** What the pairing computes once the note and the dock memo are there. */
  lemma PairSucceeds(s: State, late: Relation, n: nat, pd: nat, pw: nat)
    requires OrdinalsCount(s.docs) && forall p :: 0 <= p < |s.docs| ==> RelationsFit(s.docs[p], n)
    requires n < 120 && late.subject == DeliveryAt(n)
    requires pd < |s.docs| && s.docs[pd].kind == DeliveryNote && s.docs[pd].ordinal == n
    requires pw < |s.docs| && s.docs[pw].kind == WarehouseMemo && s.docs[pw].ordinal == n
    ensures |s.docs[pd].draws| == 1 && |s.docs[pd].relations| == 3
    ensures Pair(s, late) == State(
      Overturn(s.docs, pd, 2),
      s.corrections + [CorrectionRecord(DeliveryAt(n), pd, Day(s.docs[pd].draws[0]), |s.docs| - 1, late.obj,
                                        ProjectAt(n), VendorAt(n))],
      s.drawn)
  {
    FindsSameOrdinal(s.docs, n, n, ReportedOnTime, pd);
    FindsSameOrdinal(s.docs, n, n, ForProject, pd);
    FindsSameOrdinal(s.docs, n, n, FromVendor, pw);
    NoteTargets(s.docs[pd], n);
    MemoTargets(s.docs[pw], n);
    PairWithFound(s, late, pd, pw);
  }

  lemma PairWithFound(s: State, late: Relation, pd: nat, pw: nat)
    requires pd < |s.docs| && pw < |s.docs| && |s.docs[pd].relations| == 3 && |s.docs[pw].relations| == 3
    requires FindFrom(s.docs, 0, late.subject, ReportedOnTime) == Some((pd, 2))
    requires FindFrom(s.docs, 0, late.subject, ForProject) == Some((pd, 0))
    requires FindFrom(s.docs, 0, late.subject, FromVendor) == Some((pw, 0))
    ensures Pair(s, late) == State(
      Overturn(s.docs, pd, 2),
      s.corrections + [CorrectionRecord(late.subject, pd, s.docs[pd].relations[2].obj, |s.docs| - 1, late.obj,
                                        s.docs[pd].relations[0].obj, s.docs[pw].relations[0].obj)],
      s.drawn)
  {
  }

  lemma NoteTargets(d: Doc, corrected: nat)
    requires RelationsFit(d, corrected) && d.kind == DeliveryNote
    ensures |d.draws| == 1 && |d.relations| == 3
    ensures d.relations[2].obj == Day(d.draws[0]) && d.relations[0].obj == ProjectAt(d.ordinal)
  {
  }

  lemma MemoTargets(d: Doc, corrected: nat)
    requires RelationsFit(d, corrected) && d.kind == WarehouseMemo
    ensures |d.relations| == 3 && d.relations[0].obj == VendorAt(d.ordinal)
  {
  }

  ghost predicate Overturned(s: State, memo: Doc, pd: nat, after: State) {
    var n := |s.corrections|;
    && pd < |s.docs| && s.docs[pd].kind == DeliveryNote && s.docs[pd].ordinal == n && |s.docs[pd].draws| == 1
    && memo.kind == CorrectionMemo && memo.ordinal == n && |memo.draws| == 2 && Neutral(memo.relations)
    && OrdinalsCount(s.docs + [memo]) && Ordinal(s.docs + [memo], CorrectionMemo) == n + 1
    && 2 < |s.docs[pd].relations| && after.docs == Overturn(s.docs + [memo], pd, 2)
    && after.corrections == s.corrections
       + [CorrectionRecord(DeliveryAt(n), pd, Day(s.docs[pd].draws[0]), |s.docs|, Day(memo.draws[1]),
                           ProjectAt(n), VendorAt(n))]
  }

  lemma OverturnCoherent(s: State, memo: Doc, pd: nat, after: State)
    requires Coherent(s) && Overturned(s, memo, pd, after)
    ensures Coherent(after)
  {
    hide Ordinal;
    OverturnKeepsOrdinals(s.docs + [memo], pd, 2);
    forall p | 0 <= p < |after.docs| ensures RelationsFit(after.docs[p], |after.corrections|) {
      OverturnFits(s, memo, pd, after, p);
    }
    forall j | 0 <= j < |after.corrections| ensures CorrectionFits(after.docs, after.corrections[j], j) {
      assert j < |s.corrections| ==> CorrectionFits(s.docs, s.corrections[j], j);
    }
  }

  /** Only the note that was found is touched, because no other note has its ordinal. */
  lemma OverturnFits(s: State, memo: Doc, pd: nat, after: State, p: nat)
    requires Coherent(s) && Overturned(s, memo, pd, after) && p <= |s.docs|
    ensures RelationsFit(after.docs[p], |s.corrections| + 1)
  {
    var n, docs := |s.corrections|, s.docs + [memo];
    assert RelationsFit(docs[p], n);
    if p < pd && docs[p].kind == DeliveryNote {
      OrdinalsIncrease(docs, p, pd);
    } else if p > pd && docs[p].kind == DeliveryNote {
      OrdinalsIncrease(docs, pd, p);
    }
  }

  lemma {:induction false} OverturnKeepsOrdinals(docs: seq<Doc>, p: nat, q: nat)
    requires OrdinalsCount(docs) && p < |docs| && q < |docs[p].relations|
    ensures OrdinalsCount(Overturn(docs, p, q))
    ensures forall kind :: Ordinal(Overturn(docs, p, q), kind) == Ordinal(docs, kind)
  {
    var docs' := Overturn(docs, p, q);
    forall kind ensures Ordinal(docs', kind) == Ordinal(docs, kind) {
      OrdinalByKinds(docs', docs, kind);
    }
    forall i | 0 <= i < |docs'| ensures docs'[i].ordinal == Ordinal(docs'[..i], docs'[i].kind) {
      OrdinalByKinds(docs'[..i], docs[..i], docs'[i].kind);
    }
  }

  // ---------------------------------------------------------------------------------------------
  // Along the plan
  // ---------------------------------------------------------------------------------------------

  lemma {:induction false} PairKeepsKinds(s: State, late: Relation, kind: Kind)
    ensures |Pair(s, late).docs| == |s.docs| && Ordinal(Pair(s, late).docs, kind) == Ordinal(s.docs, kind)
  {
    FindFromIsFirst(s.docs, 0, late.subject, ReportedOnTime);
    OrdinalByKinds(Pair(s, late).docs, s.docs, kind);
  }

  /** How many documents one planned unit realizes. */
  function Yield(kind: Kind, withCorrections: bool): nat {
    match kind
    case AuditFindingDoc => 2
    case CorrectionMemo => if withCorrections then 1 else 0
    case FillerDoc => 0
    case _ => 1
  }

  lemma {:induction false} AuditCounts(s: State, counted: Kind)
    requires counted != AuditFindingDoc
    ensures |EmitAudit(s).docs| == |s.docs| + 2 && Ordinal(EmitAudit(s).docs, counted) == Ordinal(s.docs, counted)
  {
    var o := Ordinal(s.docs, AuditFindingDoc);
    var narrative := Doc(AuditFindingDoc, o, [], NarrativeRelations(o));
    OrdinalAppend(s.docs, narrative, counted);
    var o' := Ordinal(s.docs + [narrative], AuditFindingDoc);
    OrdinalAppend(s.docs + [narrative], Doc(AuditFindingDoc, o', [], AttributionRelations(o')), counted);
  }

  lemma {:induction false} CorrectionCounts(rng: Stream, s: State, counted: Kind)
    ensures var s' := EmitCorrection(rng, s);
            && |s'.docs| == |s.docs| + 1
            && Ordinal(s'.docs, counted) == Ordinal(s.docs, counted) + if counted == CorrectionMemo then 1 else 0
  {
    var memo := Fresh(rng, s, CorrectionMemo);
    OrdinalAppend(s.docs, memo, counted);
    PairKeepsKinds(EmitOne(rng, s, CorrectionMemo), memo.relations[0], counted);
  }

  lemma {:induction false} EmitCounts(rng: Stream, withCorrections: bool, s: State, kind: Kind, counted: Kind)
    requires counted != AuditFindingDoc && counted != FillerDoc
    ensures var s' := Emit(rng, withCorrections, s, kind);
            && |s'.docs| == |s.docs| + Yield(kind, withCorrections)
            && (withCorrections ==>
                  Ordinal(s'.docs, counted) == Ordinal(s.docs, counted) + if kind == counted then 1 else 0)
  {
    hide EmitAudit, EmitCorrection, Ordinal, Relations;
    match kind
    case AuditFindingDoc => AuditCounts(s, counted);
    case CorrectionMemo => CorrectionCounts(rng, s, counted);
    case FillerDoc =>
    case _ => OrdinalAppend(s.docs, Fresh(rng, s, kind), counted);
  }

  lemma UnitsFavourTheEarlier(budget: nat)
    requires budget <= HOT_DOCS
    ensures Units(budget)[WAREHOUSE] >= Units(budget)[CORRECTION]
            && Units(budget)[DELIVERY] >= Units(budget)[CORRECTION]
    ensures Units(budget)[CORRECTION] == Quotas(budget)[CORRECTION] <= 35
  {
    WeightsWellformed();
    Apportionment.HeavierNeverGetsLess(HOT_KIND_WEIGHTS, HOT_KIND_NAMES, budget, WAREHOUSE, CORRECTION);
    Apportionment.HeavierNeverGetsLess(HOT_KIND_WEIGHTS, HOT_KIND_NAMES, budget, DELIVERY, CORRECTION);
    Apportionment.QuotaIsFloorOrCeiling(HOT_KIND_WEIGHTS, HOT_KIND_NAMES, budget, CORRECTION);
    TotalWeight();
    assert Apportionment.Floor(HOT_KIND_WEIGHTS, budget, CORRECTION) == 34 * budget / 876;
  }

  ghost predicate InStep(s: State, planned: seq<Kind>) {
    && Coherent(s)
    && Ordinal(s.docs, DeliveryNote) == Count(planned, DeliveryNote)
    && Ordinal(s.docs, WarehouseMemo) == Count(planned, WarehouseMemo)
    && Ordinal(s.docs, CorrectionMemo) == Count(planned, CorrectionMemo)
  }

  /** When the plan reaches a correction, one more delivery note and one more dock memo were planned before it. */
  lemma CorrectionIsReady(budget: nat, t: nat)
    requires budget <= HOT_DOCS && t < |Plan(budget)| && Plan(budget)[t] == CorrectionMemo
    ensures var planned := Plan(budget)[..t];
            && Count(planned, DeliveryNote) > Count(planned, CorrectionMemo)
            && Count(planned, WarehouseMemo) > Count(planned, CorrectionMemo)
            && Count(planned, CorrectionMemo) < 35
  {
    UnitsFavourTheEarlier(budget);
    NamesDistinct();
    assert HOT_KINDS[CORRECTION] == CorrectionMemo && HOT_KINDS[DELIVERY] == DeliveryNote
           && HOT_KINDS[WAREHOUSE] == WarehouseMemo;
    RoundRobin.EarlierKindLeads(HOT_KINDS, Units(budget), budget, t, DELIVERY, CORRECTION);
    RoundRobin.EarlierKindLeads(HOT_KINDS, Units(budget), budget, t, WAREHOUSE, CORRECTION);
  }

  /** One planned unit keeps the invariant: a correction is only planned after its delivery note and its dock memo. */
  lemma EmitInStep(rng: Stream, s: State, budget: nat, t: nat)
    requires budget <= HOT_DOCS && t < |Plan(budget)| && InStep(s, Plan(budget)[..t])
    ensures InStep(Emit(rng, true, s, Plan(budget)[t]), Plan(budget)[..t + 1])
  {
    hide Plan, Emit, Ordinal, Count, OrdinalsCount, RelationsFit, CorrectionFits;
    var kind := Plan(budget)[t];
    EmitCounts(rng, true, s, kind, DeliveryNote);
    EmitCounts(rng, true, s, kind, WarehouseMemo);
    EmitCounts(rng, true, s, kind, CorrectionMemo);
    PrefixCount(Plan(budget), t, DeliveryNote);
    PrefixCount(Plan(budget), t, WarehouseMemo);
    PrefixCount(Plan(budget), t, CorrectionMemo);
    if kind == CorrectionMemo {
      CorrectionIsReady(budget, t);
    }
    EmitCoherent(rng, s, kind);
  }

  lemma EmitCoherent(rng: Stream, s: State, kind: Kind)
    requires Coherent(s)
    requires kind == CorrectionMemo ==>
      && |s.corrections| < 120
      && Ordinal(s.docs, DeliveryNote) > |s.corrections| && Ordinal(s.docs, WarehouseMemo) > |s.corrections|
    ensures Coherent(Emit(rng, true, s, kind))
  {
    match kind
    case AuditFindingDoc => EmitAuditCoherent(s);
    case FillerDoc =>
    case CorrectionMemo => EmitCorrectionCoherent(rng, s);
    case _ => EmitOneCoherent(rng, s, kind);
  }

  lemma {:induction false} PrefixCount(plan: seq<Kind>, t: nat, kind: Kind)
    requires t < |plan|
    ensures Count(plan[..t + 1], kind) == Count(plan[..t], kind) + if plan[t] == kind then 1 else 0
  {
    assert plan[..t + 1][..t] == plan[..t];
  }

  lemma {:induction false} PlanInStep(rng: Stream, budget: nat, t: nat)
    requires budget <= HOT_DOCS && t <= |Plan(budget)|
    ensures InStep(EmitAll(rng, true, EMPTY, Plan(budget)[..t]), Plan(budget)[..t])
  {
    hide Emit, Plan;
    if t > 0 {
      PlanInStep(rng, budget, t - 1);
      EmitInStep(rng, EmitAll(rng, true, EMPTY, Plan(budget)[..t - 1]), budget, t - 1);
      assert Plan(budget)[..t][..t - 1] == Plan(budget)[..t - 1];
    }
  }

  lemma {:induction false} SlackKeeps(rng: Stream, s: State, budget: nat, extra: nat)
    requires Coherent(s)
    ensures Coherent(Slack(rng, true, s, budget, extra))
    ensures Slack(rng, true, s, budget, extra).corrections == s.corrections
    decreases budget - |s.docs|
  {
    hide Coherent, Emit;
    if |s.docs| < budget {
      var kind := SINGLE_DOC_KINDS[extra % |SINGLE_DOC_KINDS|];
      EmitSingle(rng, s, kind);
      SlackKeeps(rng, Emit(rng, true, s, kind), budget, extra + 1);
    }
  }

  lemma EmitSingle(rng: Stream, s: State, kind: Kind)
    requires Coherent(s) && kind in SINGLE_DOC_KINDS
    ensures Coherent(Emit(rng, true, s, kind)) && Emit(rng, true, s, kind).corrections == s.corrections
    ensures |Emit(rng, true, s, kind).docs| == |s.docs| + 1
  {
    hide Coherent, Fresh;
    EmitOneCoherent(rng, s, kind);
  }

  lemma PlanIsFull(budget: nat)
    ensures |Plan(budget)| == Sum(Units(budget)) && Sum(Units(budget)) + Units(budget)[AUDIT] <= budget
    ensures forall i :: 0 <= i < |HOT_KINDS| ==> Count(Plan(budget), HOT_KINDS[i]) == Units(budget)[i]
  {
    var quotas := Quotas(budget);
    WeightsWellformed();
    Apportionment.QuotasSumToBudget(HOT_KIND_WEIGHTS, HOT_KIND_NAMES, budget);
    SumUpdate(quotas, AUDIT, quotas[AUDIT] / DOCS_PER_AUDIT_UNIT);
    RoundRobin.FullLength(HOT_KINDS, Units(budget));
    NamesDistinct();
    forall i | 0 <= i < |HOT_KINDS| ensures Count(Plan(budget), HOT_KINDS[i]) == Units(budget)[i] {
      RoundRobin.PlanCounts(HOT_KINDS, Units(budget), budget, i);
    }
  }

  /**
   * With corrections on, for every budget and every stream of draws, every correction memo the plan emits is paired:
   * there are as many corrections as memos, which is exactly the kind's quota.
   */
  lemma EveryCorrectionIsPaired(rng: Stream, total: int)
    ensures Coherent(GenerateHot(rng, true, total))
    ensures |GenerateHot(rng, true, total).corrections| == Quotas(HotBudget(total))[CORRECTION]
  {
    var budget := HotBudget(total);
    var plan := Plan(budget);
    PlanInStep(rng, budget, |plan|);
    assert plan[..|plan|] == plan;
    PlanIsFull(budget);
    UnitsFavourTheEarlier(budget);
    assert HOT_KINDS[CORRECTION] == CorrectionMemo;
    SlackKeeps(rng, EmitAll(rng, true, EMPTY, plan), budget, 0);
  }

  // ---------------------------------------------------------------------------------------------
  // Sizes
  // ---------------------------------------------------------------------------------------------

  lemma {:induction false} PlanYield(rng: Stream, withCorrections: bool, plan: seq<Kind>)
    requires Count(plan, FillerDoc) == 0
    ensures |EmitAll(rng, withCorrections, EMPTY, plan).docs| <= |plan| + Count(plan, AuditFindingDoc)
    ensures withCorrections ==>
              |EmitAll(rng, withCorrections, EMPTY, plan).docs| == |plan| + Count(plan, AuditFindingDoc)
  {
    if plan != [] {
      var front, last := plan[..|plan| - 1], plan[|plan| - 1];
      var s := EmitAll(rng, withCorrections, EMPTY, front);
      PlanYield(rng, withCorrections, front);
      EmitCounts(rng, withCorrections, s, last, DeliveryNote);
      assert EmitAll(rng, withCorrections, EMPTY, plan) == Emit(rng, withCorrections, s, last);
    }
  }

  lemma {:induction false} NoFillerCounted(plan: seq<Kind>)
    requires forall i :: 0 <= i < |plan| ==> plan[i] != FillerDoc
    ensures Count(plan, FillerDoc) == 0
  {
    if plan != [] {
      NoFillerCounted(plan[..|plan| - 1]);
    }
  }

  lemma PlanHasNoFiller(budget: nat)
    ensures Count(Plan(budget), FillerDoc) == 0
  {
    var all := RoundRobin.Rounds(HOT_KINDS, Units(budget), RoundRobin.Largest(Units(budget)));
    RoundRobin.RoundsOnlyKinds(HOT_KINDS, Units(budget), RoundRobin.Largest(Units(budget)));
    forall i | 0 <= i < |Plan(budget)| ensures Plan(budget)[i] != FillerDoc {
      assert all[i] in all && FillerDoc !in HOT_KINDS;
    }
    NoFillerCounted(Plan(budget));
  }

  /**
   * The plan never overshoots: audit units are charged for two documents and suppressed corrections only leave room.
   */
  lemma {:induction false} PlanNeverOvershoots(rng: Stream, withCorrections: bool, budget: nat)
    ensures |EmitAll(rng, withCorrections, EMPTY, Plan(budget)).docs| <= budget
  {
    PlanIsFull(budget);
    PlanHasNoFiller(budget);
    PlanYield(rng, withCorrections, Plan(budget));
    assert HOT_KINDS[AUDIT] == AuditFindingDoc;
  }

  lemma {:induction false} SlackFills(rng: Stream, withCorrections: bool, s: State, budget: nat, extra: nat)
    requires |s.docs| <= budget
    ensures |Slack(rng, withCorrections, s, budget, extra).docs| == budget
    decreases budget - |s.docs|
  {
    if |s.docs| < budget {
      SlackFills(rng, withCorrections,
                 Emit(rng, withCorrections, s, SINGLE_DOC_KINDS[extra % |SINGLE_DOC_KINDS|]), budget, extra + 1);
    }
  }

  lemma {:induction false} LayerAppends(rng: Stream, s: State, pairs: nat)
    ensures var s' := UncertaintyLayer(rng, s, pairs);
            && |s'.docs| == |s.docs| + 2 * pairs && s.docs <= s'.docs && s'.corrections == s.corrections
            && forall p :: |s.docs| <= p < |s'.docs| ==> Neutral(s'.docs[p].relations)
  {
    if pairs > 0 {
      LayerAppends(rng, s, pairs - 1);
    }
  }

  lemma {:induction false} FillersAppend(rng: Stream, s: State, count: nat, shorter: nat)
    requires shorter <= count
    ensures var s' := Fillers(rng, s, count);
            && |s'.docs| == |s.docs| + count && s.docs <= s'.docs && s'.corrections == s.corrections
            && (forall p :: |s.docs| <= p < |s'.docs| ==> s'.docs[p].relations == [])
            && Fillers(rng, s, shorter).docs <= s'.docs
  {
    if count > 0 {
      FillersAppend(rng, s, count - 1, if shorter < count then shorter else count - 1);
    }
  }

  lemma HotSize(rng: Stream, withCorrections: bool, total: int)
    ensures |GenerateHot(rng, withCorrections, total).docs| == HotBudget(total)
  {
    var budget := HotBudget(total);
    PlanNeverOvershoots(rng, withCorrections, budget);
    SlackFills(rng, withCorrections, EmitAll(rng, withCorrections, EMPTY, Plan(budget)), budget, 0);
  }

  lemma BearingSize(rng: Stream, options: Options)
    ensures |Bearing(rng, options).docs| == HotBudget(options.total - Layer(options)) + Layer(options)
  {
    hide GenerateHot, UncertaintyLayer;
    HotSize(rng, options.corrections, options.total - Layer(options));
    LayerAppends(rng, GenerateHot(rng, options.corrections, options.total - Layer(options)), UNCERTAINTY_PAIRS);
  }

  /** The relation-bearing half stays within the hot ceiling exactly without the layer or for a request that small. */
  lemma BearingFitsExactly(rng: Stream, options: Options)
    ensures |Bearing(rng, options).docs| <= HOT_DOCS <==> !options.uncertain || options.total <= HOT_DOCS
  {
    BearingSize(rng, options);
  }

  /** With fillers on, the corpus has exactly the requested size, unless the optional layer alone is larger. */
  lemma CorpusSize(rng: Stream, options: Options)
    ensures |Generate(rng, options).docs|
         == if options.fillers then Max(options.total, Layer(options))
            else HotBudget(options.total - Layer(options)) + Layer(options)
  {
    BearingSize(rng, options);
    FillersOnlyAppend(rng, Bearing(rng, options), options);
  }

  lemma FillersOnlyAppend(rng: Stream, bearing: State, options: Options)
    ensures var whole := Filled(rng, bearing, options);
            && bearing.docs <= whole.docs && whole.corrections == bearing.corrections
            && (forall p :: |bearing.docs| <= p < |whole.docs| ==> Neutral(whole.docs[p].relations))
            && (options.fillers ==> |whole.docs| == Max(options.total, |bearing.docs|))
  {
    if options.fillers && |bearing.docs| < options.total {
      FillersAppend(rng, bearing, options.total - |bearing.docs|, 0);
    }
  }

  lemma FilledIsPrefix(rng: Stream, bearing: State, small: Options, large: Options)
    requires small.(total := large.total) == large && |bearing.docs| <= small.total <= large.total
    ensures Filled(rng, bearing, small).docs <= Filled(rng, bearing, large).docs
    ensures Filled(rng, bearing, small).corrections == Filled(rng, bearing, large).corrections
  {
    if small.fillers {
      FillersAppend(rng, bearing, large.total - |bearing.docs|, small.total - |bearing.docs|);
      FillersAppend(rng, bearing, small.total - |bearing.docs|, 0);
    }
  }

  /** Above the hot ceiling a smaller corpus is an exact prefix of a larger one, so no document is renumbered. */
  lemma SmallerCorpusIsPrefix(rng: Stream, small: Options, large: Options)
    requires small.(total := large.total) == large
    requires HOT_DOCS + Layer(small) <= small.total <= large.total
    ensures Generate(rng, small).docs <= Generate(rng, large).docs
    ensures Generate(rng, small).corrections == Generate(rng, large).corrections
  {
    BearingSize(rng, small);
    SameBearing(rng, small, large);
    FilledIsPrefix(rng, Bearing(rng, small), small, large);
  }

  lemma SameBearing(rng: Stream, small: Options, large: Options)
    requires small.(total := large.total) == large
    requires HOT_DOCS + Layer(small) <= small.total <= large.total
    ensures Bearing(rng, small) == Bearing(rng, large)
  {
    assert HotBudget(small.total - Layer(small)) == HotBudget(large.total - Layer(large));
  }

  // ---------------------------------------------------------------------------------------------
  // The supersession layer of the finished corpus
  // ---------------------------------------------------------------------------------------------

  ghost predicate Names(c: CorrectionRecord, p: nat, r: Relation) {
    c.incorrectDoc == p && r.pred == ReportedOnTime && r.subject == c.delivery
  }

  /**
   * The finished supersession layer: each record fits, and a relation is retracted exactly when one record names it.
   */
  ghost predicate Supersedes(docs: seq<Doc>, corrections: seq<CorrectionRecord>) {
    && (forall j :: 0 <= j < |corrections| ==> CorrectionFits(docs, corrections[j], j))
    && (forall i, j :: 0 <= i < j < |corrections| ==>
          corrections[i].delivery != corrections[j].delivery
            && corrections[i].incorrectDoc != corrections[j].incorrectDoc)
    && (forall p, q :: 0 <= p < |docs| && 0 <= q < |docs[p].relations| ==>
          (docs[p].relations[q].retracted <==>
           exists j :: 0 <= j < |corrections| && Names(corrections[j], p, docs[p].relations[q])))
  }

  lemma RetractedExactly(s: State, p: nat, q: nat)
    requires Coherent(s) && |s.corrections| <= 120 && p < |s.docs| && q < |s.docs[p].relations|
    ensures s.docs[p].relations[q].retracted <==>
            exists j :: 0 <= j < |s.corrections| && Names(s.corrections[j], p, s.docs[p].relations[q])
  {
    var r := s.docs[p].relations[q];
    if r.retracted {
      RetractedIsNamed(s, p, q);
    }
    if j :| 0 <= j < |s.corrections| && Names(s.corrections[j], p, r) {
      NamedIsRetracted(s, p, q, j);
    }
  }

  lemma RetractedIsNamed(s: State, p: nat, q: nat)
    requires Coherent(s) && p < |s.docs| && q < |s.docs[p].relations| && s.docs[p].relations[q].retracted
    ensures s.docs[p].ordinal < |s.corrections| && Names(s.corrections[s.docs[p].ordinal], p, s.docs[p].relations[q])
  {
    hide Ordinal;
    var d := s.docs[p];
    assert RelationsFit(d, |s.corrections|);
    var j := d.ordinal;
    assert d.kind == DeliveryNote && j < |s.corrections| && q == 2;
    assert CorrectionFits(s.docs, s.corrections[j], j);
    SameOrdinalSamePlace(s.docs, s.corrections[j].incorrectDoc, p);
  }

  lemma NamedIsRetracted(s: State, p: nat, q: nat, j: nat)
    requires Coherent(s) && |s.corrections| <= 120 && p < |s.docs| && q < |s.docs[p].relations|
    requires j < |s.corrections| && Names(s.corrections[j], p, s.docs[p].relations[q])
    ensures s.docs[p].relations[q].retracted
  {
    hide Ordinal;
    assert RelationsFit(s.docs[p], |s.corrections|);
    assert CorrectionFits(s.docs, s.corrections[j], j);
  }

  lemma SameOrdinalSamePlace(docs: seq<Doc>, a: nat, b: nat)
    requires OrdinalsCount(docs) && a < |docs| && b < |docs|
    requires docs[a].kind == docs[b].kind && docs[a].ordinal == docs[b].ordinal
    ensures a == b
  {
    if a < b { OrdinalsIncrease(docs, a, b); } else if b < a { OrdinalsIncrease(docs, b, a); }
  }

  lemma CoherentSupersedes(s: State)
    requires Coherent(s) && |s.corrections| <= 120
    ensures Supersedes(s.docs, s.corrections)
  {
    forall i, j | 0 <= i < j < |s.corrections|
      ensures s.corrections[i].delivery != s.corrections[j].delivery
              && s.corrections[i].incorrectDoc != s.corrections[j].incorrectDoc
    {
      assert CorrectionFits(s.docs, s.corrections[i], i) && CorrectionFits(s.docs, s.corrections[j], j);
      Spread.FirstBlockIsIdentity(120, i, 7);
      Spread.FirstBlockIsIdentity(120, j, 7);
    }
    forall p, q | 0 <= p < |s.docs| && 0 <= q < |s.docs[p].relations|
      ensures s.docs[p].relations[q].retracted <==>
              exists j :: 0 <= j < |s.corrections| && Names(s.corrections[j], p, s.docs[p].relations[q])
    {
      RetractedExactly(s, p, q);
    }
  }

  lemma SupersedesExtends(docs: seq<Doc>, docs': seq<Doc>, corrections: seq<CorrectionRecord>)
    requires Supersedes(docs, corrections) && docs <= docs'
    requires forall p :: |docs| <= p < |docs'| ==> Neutral(docs'[p].relations)
    ensures Supersedes(docs', corrections)
  {
    forall j | 0 <= j < |corrections| ensures CorrectionFits(docs', corrections[j], j) {
      assert CorrectionFits(docs, corrections[j], j);
    }
    forall p, q | 0 <= p < |docs'| && 0 <= q < |docs'[p].relations|
      ensures docs'[p].relations[q].retracted <==>
              exists j :: 0 <= j < |corrections| && Names(corrections[j], p, docs'[p].relations[q])
    {
      if p < |docs| {
        assert docs'[p] == docs[p];
      } else {
        assert Neutral(docs'[p].relations);
      }
    }
  }

  lemma BearingSupersedes(rng: Stream, options: Options)
    requires options.corrections
    ensures Supersedes(Bearing(rng, options).docs, Bearing(rng, options).corrections)
    ensures |Bearing(rng, options).corrections| == Quotas(HotBudget(options.total - Layer(options)))[CORRECTION]
  {
    var hot := GenerateHot(rng, true, options.total - Layer(options));
    EveryCorrectionIsPaired(rng, options.total - Layer(options));
    UnitsFavourTheEarlier(HotBudget(options.total - Layer(options)));
    CoherentSupersedes(hot);
    LayerAppends(rng, hot, UNCERTAINTY_PAIRS);
    SupersedesExtends(hot.docs, Bearing(rng, options).docs, hot.corrections);
  }

  /**
   * Main result: in every corpus generated with corrections on, for every size, layer and stream of draws, the
   * corrections are exactly the planned memos, name pairwise distinct deliveries, point from an earlier on-time note
   * to a later memo, and account for every retracted relation.
   */
  lemma CorpusSupersession(rng: Stream, options: Options)
    requires options.corrections
    ensures Supersedes(Generate(rng, options).docs, Generate(rng, options).corrections)
    ensures |Generate(rng, options).corrections| == Quotas(HotBudget(options.total - Layer(options)))[CORRECTION]
  {
    BearingSupersedes(rng, options);
    FillersOnlyAppend(rng, Bearing(rng, options), options);
    SupersedesExtends(Bearing(rng, options).docs, Generate(rng, options).docs, Bearing(rng, options).corrections);
  }

  // ---------------------------------------------------------------------------------------------
  // What a correction leaves standing
  // ---------------------------------------------------------------------------------------------

  /** The overturned note still assigns the project, and another document still names the vendor. */
  ghost predicate Linked(docs: seq<Doc>, c: CorrectionRecord) {
    && c.incorrectDoc < |docs| && Says(c.delivery, ForProject, c.project) in docs[c.incorrectDoc].relations
    && exists p :: 0 <= p < |docs| && p != c.incorrectDoc && Says(c.delivery, FromVendor, c.vendor) in docs[p].relations
  }

  ghost predicate AllLinked(docs: seq<Doc>, corrections: seq<CorrectionRecord>) {
    forall j :: 0 <= j < |corrections| ==> Linked(docs, corrections[j])
  }

  lemma NoteLinks(s: State, j: nat)
    requires Coherent(s) && j < |s.corrections|
    ensures var c := s.corrections[j];
            && c.incorrectDoc < |s.docs| && s.docs[c.incorrectDoc].kind == DeliveryNote
            && Says(c.delivery, ForProject, c.project) in s.docs[c.incorrectDoc].relations
  {
    hide Ordinal;
    var c := s.corrections[j];
    assert CorrectionFits(s.docs, c, j);
    var d := s.docs[c.incorrectDoc];
    assert RelationsFit(d, |s.corrections|);
    assert d.relations[0] == Says(DeliveryAt(j), ForProject, ProjectAt(j));
  }

  lemma DockMemoLinks(s: State, j: nat, pw: nat)
    requires Coherent(s) && j < |s.corrections|
    requires pw < |s.docs| && s.docs[pw].kind == WarehouseMemo && s.docs[pw].ordinal == j
    ensures var c := s.corrections[j]; Says(c.delivery, FromVendor, c.vendor) in s.docs[pw].relations
  {
    hide Ordinal;
    assert CorrectionFits(s.docs, s.corrections[j], j);
    assert RelationsFit(s.docs[pw], |s.corrections|);
    assert s.docs[pw].relations[0] == Says(DeliveryAt(j), FromVendor, VendorAt(j));
  }

  lemma CoherentLinks(s: State)
    requires Coherent(s) && Ordinal(s.docs, WarehouseMemo) >= |s.corrections|
    ensures AllLinked(s.docs, s.corrections)
  {
    hide Ordinal;
    forall j | 0 <= j < |s.corrections| ensures Linked(s.docs, s.corrections[j]) {
      NoteLinks(s, j);
      var pw := OrdinalGiven(s.docs, WarehouseMemo, j);
      DockMemoLinks(s, j, pw);
    }
  }

  lemma LinkedExtends(docs: seq<Doc>, docs': seq<Doc>, corrections: seq<CorrectionRecord>)
    requires AllLinked(docs, corrections) && docs <= docs'
    ensures AllLinked(docs', corrections)
  {
    forall j | 0 <= j < |corrections| ensures Linked(docs', corrections[j]) {
      var c := corrections[j];
      assert Linked(docs, c);
      var p :| 0 <= p < |docs| && p != c.incorrectDoc && Says(c.delivery, FromVendor, c.vendor) in docs[p].relations;
      assert docs'[p] == docs[p];
    }
  }

  lemma {:induction false} SlackAppends(rng: Stream, s: State, budget: nat, extra: nat)
    ensures s.docs <= Slack(rng, true, s, budget, extra).docs
    ensures Slack(rng, true, s, budget, extra).corrections == s.corrections
    decreases budget - |s.docs|
  {
    hide Fresh;
    if |s.docs| < budget {
      SlackAppends(rng, Emit(rng, true, s, SINGLE_DOC_KINDS[extra % |SINGLE_DOC_KINDS|]), budget, extra + 1);
    }
  }

  lemma PlanLinks(rng: Stream, budget: nat)
    requires budget <= HOT_DOCS
    ensures var s := EmitAll(rng, true, EMPTY, Plan(budget)); AllLinked(s.docs, s.corrections)
  {
    hide Plan, Emit, AllLinked, OrdinalsCount, RelationsFit, CorrectionFits;
    var plan := Plan(budget);
    PlanInStep(rng, budget, |plan|);
    assert plan[..|plan|] == plan;
    PlanIsFull(budget);
    UnitsFavourTheEarlier(budget);
    assert HOT_KINDS[CORRECTION] == CorrectionMemo && HOT_KINDS[WAREHOUSE] == WarehouseMemo;
    CoherentLinks(EmitAll(rng, true, EMPTY, plan));
  }

  /**
   * In every corpus generated with corrections on, each correction's project is still assigned by the note it
   * overturns, and its vendor is still named by another document, neither of them retracted.
   */
  lemma CorrectionsStayLinked(rng: Stream, options: Options)
    requires options.corrections
    ensures AllLinked(Generate(rng, options).docs, Generate(rng, options).corrections)
  {
    hide Slack, AllLinked, Plan, EmitAll;
    var total := options.total - Layer(options);
    var hot, planned := GenerateHot(rng, true, total), EmitAll(rng, true, EMPTY, Plan(HotBudget(total)));
    PlanLinks(rng, HotBudget(total));
    SlackAppends(rng, planned, HotBudget(total), 0);
    LayerAppends(rng, hot, UNCERTAINTY_PAIRS);
    FillersOnlyAppend(rng, Bearing(rng, options), options);
    LinkedExtends(planned.docs, Generate(rng, options).docs, planned.corrections);
  }

  lemma {:induction false} NoneEmitted(rng: Stream, plan: seq<Kind>)
    ensures EmitAll(rng, false, EMPTY, plan).corrections == []
  {
    if plan != [] {
      NoneEmitted(rng, plan[..|plan| - 1]);
    }
  }

  lemma {:induction false} NoneInSlack(rng: Stream, s: State, budget: nat, extra: nat)
    ensures Slack(rng, false, s, budget, extra).corrections == s.corrections
    decreases budget - |s.docs|
  {
    hide Fresh;
    if |s.docs| < budget {
      NoneInSlack(rng, Emit(rng, false, s, SINGLE_DOC_KINDS[extra % |SINGLE_DOC_KINDS|]), budget, extra + 1);
    }
  }

  /** With corrections off there are none. */
  lemma NoCorrections(rng: Stream, options: Options)
    requires !options.corrections
    ensures Generate(rng, options).corrections == []
  {
    var total := options.total - Layer(options);
    var planned := EmitAll(rng, false, EMPTY, Plan(HotBudget(total)));
    NoneEmitted(rng, Plan(HotBudget(total)));
    NoneInSlack(rng, planned, HotBudget(total), 0);
    LayerAppends(rng, GenerateHot(rng, false, total), UNCERTAINTY_PAIRS);
    FillersOnlyAppend(rng, Bearing(rng, options), options);
  }
}
