/** What a generated document holds: its numbers, its relations, and the tables its entities come from. */
module CorpusContents {
  import opened Sequences
  import opened CorpusWorld
  import opened CorpusSpec
  import opened CorpusTheorems
  import opened Rng

  // ----- the hot world is determined by kinds and draws -----

  /** How many words the documents drew. */
  function Offset(docs: seq<Doc>): nat {
    if docs == [] then 0 else Offset(docs[..|docs| - 1]) + |docs[|docs| - 1].draws|
  }

  /** The draws are those of the kind, in its order, each from the next word of the stream. */
  ghost predicate DrawnFrom(rng: Stream, from: nat, kind: Kind, draws: seq<int>) {
    && |draws| == |Ranges(kind)|
    && forall i :: 0 <= i < |draws| ==>
         draws[i] == Ranges(kind)[i].0
                     + rng(from + i) * (Ranges(kind)[i].1 - Ranges(kind)[i].0 + 1) / 0x1_0000_0000
  }

  /** What a document of that kind, ordinal and draws asserts; audit findings alternate narrative and attribution. */
  function Stated(kind: Kind, o: nat, draws: seq<int>): seq<Relation>
    requires |draws| == |Ranges(kind)|
  {
    if kind == AuditFindingDoc then if o % 2 == 0 then NarrativeRelations(o) else AttributionRelations(o)
    else Relations(kind, o, draws)
  }

  /** The relations are these, but for retractions. */
  ghost predicate SaysThese(relations: seq<Relation>, stated: seq<Relation>) {
    && |relations| == |stated|
    && forall q :: 0 <= q < |stated| ==> relations[q].(retracted := false) == stated[q]
  }

  ghost predicate IsDetermined(rng: Stream, from: nat, d: Doc) {
    DrawnFrom(rng, from, d.kind, d.draws) && SaysThese(d.relations, Stated(d.kind, d.ordinal, d.draws))
  }

  ghost predicate AllDetermined(rng: Stream, s: State) {
    && OrdinalsCount(s.docs) && s.drawn == Offset(s.docs) && Ordinal(s.docs, AuditFindingDoc) % 2 == 0
    && forall p :: 0 <= p < |s.docs| ==> IsDetermined(rng, Offset(s.docs[..p]), s.docs[p])
  }

  /** All but the parity of the audit findings, which fails between the two documents of a unit. */
  ghost predicate DocsDetermined(rng: Stream, docs: seq<Doc>) {
    OrdinalsCount(docs) && forall p :: 0 <= p < |docs| ==> IsDetermined(rng, Offset(docs[..p]), docs[p])
  }

  lemma {:induction false} DrawsAreWords(rng: Stream, from: nat, ranges: seq<(int, int)>)
    requires ProperRanges(ranges)
    ensures var draws := Draws(rng, from, ranges);
            forall i :: 0 <= i < |ranges| ==>
              draws[i] == ranges[i].0 + rng(from + i) * (ranges[i].1 - ranges[i].0 + 1) / 0x1_0000_0000
  {
    if ranges != [] {
      DrawsAreWords(rng, from, ranges[..|ranges| - 1]);
    }
  }

  lemma {:induction false} OffsetAppend(docs: seq<Doc>, d: Doc)
    ensures Offset(docs + [d]) == Offset(docs) + |d.draws|
  {
    assert (docs + [d])[..|docs|] == docs;
  }

  lemma {:induction false} DeterminedAppend(rng: Stream, docs: seq<Doc>, d: Doc)
    requires DocsDetermined(rng, docs) && d.ordinal == Ordinal(docs, d.kind) && IsDetermined(rng, Offset(docs), d)
    ensures DocsDetermined(rng, docs + [d])
  {
    hide IsDetermined;
    OrdinalsCountAppend(docs, d);
    var docs' := docs + [d];
    forall p | 0 <= p < |docs'| ensures IsDetermined(rng, Offset(docs'[..p]), docs'[p]) {
      if p < |docs| {
        assert docs'[..p] == docs[..p];
      } else {
        assert docs'[..p] == docs;
      }
    }
  }

  lemma FreshIsDetermined(rng: Stream, s: State, kind: Kind)
    requires kind != AuditFindingDoc
    ensures IsDetermined(rng, s.drawn, Fresh(rng, s, kind))
  {
    hide Relations, Ranges;
    RangesAreProper(kind);
    DrawsAreWords(rng, s.drawn, Ranges(kind));
    var d := Fresh(rng, s, kind);
    FreshIsUnretracted(kind, d.ordinal, d.draws);
  }

  lemma FreshIsUnretracted(kind: Kind, o: nat, draws: seq<int>)
    requires |draws| == |Ranges(kind)|
    ensures forall q :: 0 <= q < |Relations(kind, o, draws)| ==> !Relations(kind, o, draws)[q].retracted
  {
    FreshNeutral(kind, o, draws);
  }

  lemma EmitOneDetermined(rng: Stream, s: State, kind: Kind)
    requires AllDetermined(rng, s) && kind != AuditFindingDoc
    ensures AllDetermined(rng, EmitOne(rng, s, kind))
  {
    hide IsDetermined, OrdinalsCount;
    var d := Fresh(rng, s, kind);
    FreshIsDetermined(rng, s, kind);
    DeterminedAppend(rng, s.docs, d);
    OffsetAppend(s.docs, d);
    OrdinalAppend(s.docs, d, AuditFindingDoc);
  }

  lemma AuditIsDetermined(rng: Stream, from: nat, o: nat, relations: seq<Relation>)
    requires relations == if o % 2 == 0 then NarrativeRelations(o) else AttributionRelations(o)
    ensures IsDetermined(rng, from, Doc(AuditFindingDoc, o, [], relations))
  {
  }

  lemma {:induction false} AuditStep(rng: Stream, docs: seq<Doc>, relations: seq<Relation>)
    requires DocsDetermined(rng, docs)
    requires var o := Ordinal(docs, AuditFindingDoc);
             relations == if o % 2 == 0 then NarrativeRelations(o) else AttributionRelations(o)
    ensures var docs' := docs + [Doc(AuditFindingDoc, Ordinal(docs, AuditFindingDoc), [], relations)];
            && DocsDetermined(rng, docs') && Offset(docs') == Offset(docs)
            && Ordinal(docs', AuditFindingDoc) == Ordinal(docs, AuditFindingDoc) + 1
  {
    hide IsDetermined, DocsDetermined, NarrativeRelations, AttributionRelations;
    var d := Doc(AuditFindingDoc, Ordinal(docs, AuditFindingDoc), [], relations);
    AuditIsDetermined(rng, Offset(docs), d.ordinal, relations);
    DeterminedAppend(rng, docs, d);
    OffsetAppend(docs, d);
    OrdinalAppend(docs, d, AuditFindingDoc);
  }

  lemma EmitAuditDetermined(rng: Stream, s: State)
    requires AllDetermined(rng, s)
    ensures AllDetermined(rng, EmitAudit(s))
  {
    hide IsDetermined, OrdinalsCount, NarrativeRelations, AttributionRelations, Ordinal, Offset;
    var o := Ordinal(s.docs, AuditFindingDoc);
    AuditStep(rng, s.docs, NarrativeRelations(o));
    AuditStep(rng, s.docs + [Doc(AuditFindingDoc, o, [], NarrativeRelations(o))], AttributionRelations(o + 1));
  }

  lemma {:induction false} OffsetByDraws(a: seq<Doc>, b: seq<Doc>)
    requires |a| == |b| && forall i :: 0 <= i < |a| ==> a[i].draws == b[i].draws
    ensures Offset(a) == Offset(b)
  {
    if a != [] {
      OffsetByDraws(a[..|a| - 1], b[..|b| - 1]);
    }
  }

  lemma OverturnDetermined(rng: Stream, s: State, p: nat, q: nat, corrections: seq<CorrectionRecord>)
    requires AllDetermined(rng, s) && p < |s.docs| && q < |s.docs[p].relations|
    ensures AllDetermined(rng, State(Overturn(s.docs, p, q), corrections, s.drawn))
  {
    hide OrdinalsCount, DrawnFrom, Stated;
    var docs' := Overturn(s.docs, p, q);
    OverturnKeepsOrdinals(s.docs, p, q);
    OffsetByDraws(s.docs, docs');
    OrdinalByKinds(s.docs, docs', AuditFindingDoc);
    forall i | 0 <= i < |docs'| ensures IsDetermined(rng, Offset(docs'[..i]), docs'[i]) {
      OffsetByDraws(s.docs[..i], docs'[..i]);
      assert IsDetermined(rng, Offset(s.docs[..i]), s.docs[i]);
    }
  }

  lemma EmitDetermined(rng: Stream, withCorrections: bool, s: State, kind: Kind)
    requires AllDetermined(rng, s)
    ensures AllDetermined(rng, Emit(rng, withCorrections, s, kind))
  {
    hide AllDetermined;
    match kind
    case AuditFindingDoc => EmitAuditDetermined(rng, s);
    case FillerDoc =>
    case CorrectionMemo =>
      EmitOneDetermined(rng, s, kind);
      PairDetermined(rng, EmitOne(rng, s, kind), Fresh(rng, s, kind).relations[0]);
    case _ => EmitOneDetermined(rng, s, kind);
  }

  lemma PairDetermined(rng: Stream, s: State, late: Relation)
    requires AllDetermined(rng, s)
    ensures AllDetermined(rng, Pair(s, late))
  {
    hide AllDetermined, FindFrom, Overturn;
    FindFromIsFirst(s.docs, 0, late.subject, ReportedOnTime);
    var found := FindFrom(s.docs, 0, late.subject, ReportedOnTime);
    if found.Some? {
      OverturnDetermined(rng, s, found.value.0, found.value.1, Pair(s, late).corrections);
    }
  }

  lemma {:induction false} PlanDetermined(rng: Stream, withCorrections: bool, plan: seq<Kind>)
    ensures AllDetermined(rng, EmitAll(rng, withCorrections, EMPTY, plan))
  {
    hide Emit;
    if plan != [] {
      PlanDetermined(rng, withCorrections, plan[..|plan| - 1]);
      EmitDetermined(rng, withCorrections, EmitAll(rng, withCorrections, EMPTY, plan[..|plan| - 1]), plan[|plan| - 1]);
    }
  }

  lemma {:induction false} SlackDetermined(rng: Stream, withCorrections: bool, s: State, budget: nat, extra: nat)
    requires AllDetermined(rng, s)
    ensures AllDetermined(rng, Slack(rng, withCorrections, s, budget, extra))
    decreases budget - |s.docs|
  {
    hide AllDetermined, Emit;
    if |s.docs| < budget {
      var kind := SINGLE_DOC_KINDS[extra % |SINGLE_DOC_KINDS|];
      SlackGrows(rng, withCorrections, s, extra);
      EmitDetermined(rng, withCorrections, s, kind);
      SlackDetermined(rng, withCorrections, Emit(rng, withCorrections, s, kind), budget, extra + 1);
    }
  }

  /**
   * Main result: in the hot world, with or without corrections, every document has the next ordinal of its kind and
   * the draws of its kind from the next words of the stream, with no word skipped or used twice; and those determine
   * what it says, up to retraction.
   */
  lemma HotIsDetermined(rng: Stream, withCorrections: bool, total: int)
    ensures AllDetermined(rng, GenerateHot(rng, withCorrections, total))
  {
    hide AllDetermined, EmitAll;
    var budget := HotBudget(total);
    PlanDetermined(rng, withCorrections, Plan(budget));
    SlackDetermined(rng, withCorrections, EmitAll(rng, withCorrections, EMPTY, Plan(budget)), budget, 0);
  }

  // ----- the optional layer and the fillers -----

  /** A pair of the layer: a count and a unit price, joined by one serial and one invoice of their own. */
  ghost predicate IsPair(rng: Stream, from: nat, memo: Doc, pricing: Doc, i: nat) {
    && memo.kind == InventoryMemo && pricing.kind == InvoiceMemo && memo.ordinal == pricing.ordinal == i
    && memo.relations == [Says(Invoice(3 * i + 9), CoversSerial, Serial(7 * i + 5))]
    && pricing.relations == [Says(Serial(7 * i + 5), PricedBy, Invoice(3 * i + 9))]
    && |memo.draws| == 2 && memo.draws == pricing.draws
    && memo.draws[0] == rng(from) * 4001 / 0x1_0000_0000 && memo.draws[1] == rng(from + 1) * 5201 / 0x1_0000_0000
  }

  /** The layer never runs round its tables: every pair has a serial and an invoice that no other pair has. */
  lemma {:induction false} LayerIsPairs(rng: Stream, s: State, pairs: nat, i: nat)
    requires i < pairs <= UNCERTAINTY_PAIRS
    ensures var s' := UncertaintyLayer(rng, s, pairs);
            && |s'.docs| == |s.docs| + 2 * pairs && s'.drawn == s.drawn + 2 * pairs
            && IsPair(rng, s.drawn + 2 * i, s'.docs[|s.docs| + 2 * i], s'.docs[|s.docs| + 2 * i + 1], i)
  {
    hide IsPair;
    if i < pairs - 1 {
      LayerIsPairs(rng, s, pairs - 1, i);
    } else {
      LayerTyped(rng, s, i);
      LastPair(rng, UncertaintyLayer(rng, s, i), i);
    }
  }

  lemma LastPair(rng: Stream, s: State, i: nat)
    requires i < UNCERTAINTY_PAIRS
    ensures var s' := UncertainPair(rng, s, i);
            && |s'.docs| == |s.docs| + 2 && s'.drawn == s.drawn + 2
            && IsPair(rng, s.drawn, s'.docs[|s.docs|], s'.docs[|s.docs| + 1], i)
  {
    PairIsWritten(rng, s, i);
    UncertainDraws(rng, s.drawn);
  }

  lemma PairIsWritten(rng: Stream, s: State, i: nat)
    requires i < UNCERTAINTY_PAIRS && ProperRanges(UNCERTAIN_RANGES)
    ensures var s' := UncertainPair(rng, s, i);
            && |s'.docs| == |s.docs| + 2 && s'.drawn == s.drawn + 2
            && var draws := Draws(rng, s.drawn, UNCERTAIN_RANGES);
               && s'.docs[|s.docs|]
                  == Doc(InventoryMemo, i, draws, [Says(Invoice(3 * i + 9), CoversSerial, Serial(7 * i + 5))])
               && s'.docs[|s.docs| + 1]
                  == Doc(InvoiceMemo, i, draws, [Says(Serial(7 * i + 5), PricedBy, Invoice(3 * i + 9))])
  {
    hide Draws;
  }

  lemma UncertainDraws(rng: Stream, from: nat)
    ensures var draws := Draws(rng, from, UNCERTAIN_RANGES);
            && |draws| == 2
            && draws[0] == rng(from) * 4001 / 0x1_0000_0000 && draws[1] == rng(from + 1) * 5201 / 0x1_0000_0000
  {
    hide Draws;
    DrawsAreWords(rng, from, UNCERTAIN_RANGES);
    assert UNCERTAIN_RANGES[0] == (0, 4000) && UNCERTAIN_RANGES[1] == (0, 5200);
  }

  /** The fillers are numbered from 0 and draw the next words, three each. */
  lemma {:induction false} FillersAreNumbered(rng: Stream, s: State, count: nat, i: nat)
    requires i < count
    ensures var s' := Fillers(rng, s, count);
            && |s'.docs| == |s.docs| + count && s'.drawn == s.drawn + 3 * count
            && var d := s'.docs[|s.docs| + i];
               d.kind == FillerDoc && d.ordinal == i && DrawnFrom(rng, s.drawn + 3 * i, FillerDoc, d.draws)
  {
    hide DrawnFrom;
    if i < count - 1 {
      FillersAreNumbered(rng, s, count - 1, i);
    } else {
      FillersDraw(rng, s, i);
      LastFiller(rng, Fillers(rng, s, i), i);
    }
  }

  lemma {:induction false} FillersDraw(rng: Stream, s: State, count: nat)
    ensures var s' := Fillers(rng, s, count); |s'.docs| == |s.docs| + count && s'.drawn == s.drawn + 3 * count
  {
    if count > 0 {
      FillersDraw(rng, s, count - 1);
    }
  }

  lemma LastFiller(rng: Stream, s: State, ordinal: nat)
    ensures var s' := Filler(rng, s, ordinal);
            && |s'.docs| == |s.docs| + 1 && s'.drawn == s.drawn + 3
            && var d := s'.docs[|s.docs|];
               d.kind == FillerDoc && d.ordinal == ordinal && DrawnFrom(rng, s.drawn, FillerDoc, d.draws)
  {
    RangesAreProper(FillerDoc);
    DrawsAreWords(rng, s.drawn, Ranges(FillerDoc));
  }

  // ----- every relation joins the tables its predicate is about -----

  predicate InTables(e: Entity) {
    match e
    case Vendor(row) => row < 40
    case Person(row) => row < 80
    case Project(row) => row < 30
    case Warehouse(row) => row < 15
    case Invoice(row) => row < 220
    case PurchaseOrder(row) => row < 60
    case Batch(row) => row < 300
    case Serial(row) => row < 900
    case AuditFinding(row) => row < 60
    case Incident(row) => row < 32
    case Delivery(row) => row < 120
    case Approval(row) => row < 60
    case Day(_) => true
  }

  predicate Joins(subject: Entity, pred: Predicate, obj: Entity) {
    match pred
    case RaisedAgainst => subject.PurchaseOrder? && obj.Vendor?
    case SignedOff => subject.Person? && obj.Approval?
    case Covers => subject.Approval? && obj.PurchaseOrder?
    case Approved => subject.Person? && obj.Invoice?
    case ForProject => subject.Delivery? && obj.Project?
    case CarriedBatch => subject.Delivery? && obj.Batch?
    case ReportedOnTime => subject.Delivery? && obj.Day?
    case ContainsSerial => subject.Batch? && obj.Serial?
    case FromVendor => subject.Delivery? && obj.Vendor?
    case ReceivedDelivery => subject.Warehouse? && obj.Delivery?
    case ArrivedDay => subject.Delivery? && obj.Day?
    case Raised => subject.Person? && obj.AuditFinding?
    case ScopedToProject => subject.AuditFinding? && obj.Project?
    case AgainstVendor => subject.AuditFinding? && obj.Vendor?
    case Filed => subject.Person? && obj.Incident?
    case AtWarehouse => subject.Incident? && obj.Warehouse?
    case InvolvedBatch => subject.Incident? && obj.Batch?
    case WasLate => subject.Delivery? && obj.Day?
    case NoRecordFor => subject.Project? && obj.Incident?
    case CoversSerial => subject.Invoice? && obj.Serial?
    case PricedBy => subject.Serial? && obj.Invoice?
  }

  predicate IsTyped(r: Relation) {
    InTables(r.subject) && InTables(r.obj) && Joins(r.subject, r.pred, r.obj)
  }

  predicate AllTyped(relations: seq<Relation>) {
    forall q :: 0 <= q < |relations| ==> IsTyped(relations[q])
  }

  lemma {:induction false} ListingTyped(batch: Entity, start: nat, count: nat)
    requires batch.Batch? && InTables(batch)
    ensures AllTyped(Listing(batch, start, count))
  {
    if count > 0 {
      ListingTyped(batch, start, count - 1);
    }
  }

  lemma RowsAreInTables(o: nat)
    ensures VendorAt(o).Vendor? && InTables(VendorAt(o)) && PersonAt(o).Person? && InTables(PersonAt(o))
    ensures ProjectAt(o).Project? && InTables(ProjectAt(o)) && WarehouseAt(o).Warehouse? && InTables(WarehouseAt(o))
    ensures InvoiceAt(o).Invoice? && InTables(InvoiceAt(o)) && OrderAt(o).PurchaseOrder? && InTables(OrderAt(o))
    ensures ApprovalAt(o).Approval? && InTables(ApprovalAt(o)) && BatchAt(o).Batch? && InTables(BatchAt(o))
    ensures FindingAt(o).AuditFinding? && InTables(FindingAt(o)) && IncidentAt(o).Incident? && InTables(IncidentAt(o))
    ensures DeliveryAt(o).Delivery? && InTables(DeliveryAt(o))
  {
    hide Spread.Row;
  }

  lemma DaysAreInTables()
    ensures forall day :: InTables(Day(day))
  {
  }

  lemma RowsAreTyped(kind: Kind, o: nat, draws: seq<int>)
    requires |draws| == |Ranges(kind)| && kind != InventoryMemo
    ensures var relations := Stated(kind, o, draws);
            && |relations| <= 3
            && (|relations| > 0 ==> IsTyped(relations[0]))
            && (|relations| > 1 ==> IsTyped(relations[1]))
            && (|relations| > 2 ==> IsTyped(relations[2]))
  {
    hide InTables, VendorAt, PersonAt, ProjectAt, WarehouseAt, InvoiceAt, OrderAt, ApprovalAt, BatchAt, FindingAt,
      IncidentAt, DeliveryAt;
    RowsAreInTables(o);
    DaysAreInTables();
  }

  lemma StatedTyped(kind: Kind, o: nat, draws: seq<int>)
    requires |draws| == |Ranges(kind)|
    ensures AllTyped(Stated(kind, o, draws))
  {
    hide Spread.Row, IsTyped;
    if kind == InventoryMemo {
      ListingTyped(BatchAt(o), (o * 11) % (900 - (2 + o % 3) - 1), 2 + o % 3);
    } else {
      RowsAreTyped(kind, o, draws);
    }
  }

  lemma DeterminedTyped(rng: Stream, s: State)
    requires AllDetermined(rng, s)
    ensures forall p :: 0 <= p < |s.docs| ==> AllTyped(s.docs[p].relations)
  {
    hide Stated, Joins, InTables, OrdinalsCount, DrawnFrom;
    forall p | 0 <= p < |s.docs| ensures AllTyped(s.docs[p].relations) {
      var d := s.docs[p];
      assert IsDetermined(rng, Offset(s.docs[..p]), d);
      RangesMatch(rng, Offset(s.docs[..p]), d);
      StatedTyped(d.kind, d.ordinal, d.draws);
    }
  }

  lemma RangesMatch(rng: Stream, from: nat, d: Doc)
    requires DrawnFrom(rng, from, d.kind, d.draws)
    ensures |d.draws| == |Ranges(d.kind)|
  {
  }

  lemma {:induction false} LayerTyped(rng: Stream, s: State, pairs: nat)
    ensures var s' := UncertaintyLayer(rng, s, pairs);
            && s.docs <= s'.docs && |s'.docs| == |s.docs| + 2 * pairs
            && s'.drawn == s.drawn + 2 * pairs
            && forall p :: |s.docs| <= p < |s'.docs| ==> AllTyped(s'.docs[p].relations)
  {
    if pairs > 0 {
      LayerTyped(rng, s, pairs - 1);
    }
  }

  lemma FilledTyped(rng: Stream, bearing: State, options: Options)
    requires forall p :: 0 <= p < |bearing.docs| ==> AllTyped(bearing.docs[p].relations)
    ensures forall p :: 0 <= p < |Filled(rng, bearing, options).docs| ==>
              AllTyped(Filled(rng, bearing, options).docs[p].relations)
  {
    if options.fillers && |bearing.docs| < options.total {
      FillersAppend(rng, bearing, options.total - |bearing.docs|, 0);
    }
  }

  /**
   * Main result: every relation of every generated corpus joins entities of the two tables its predicate is about, both
   * rows within their tables.
   */
  lemma GeneratedIsTyped(rng: Stream, options: Options)
    ensures forall p :: 0 <= p < |Generate(rng, options).docs| ==> AllTyped(Generate(rng, options).docs[p].relations)
  {
    hide GenerateHot, UncertaintyLayer, Filled, AllDetermined;
    var hot := GenerateHot(rng, options.corrections, options.total - Layer(options));
    HotIsDetermined(rng, options.corrections, options.total - Layer(options));
    DeterminedTyped(rng, hot);
    LayerTyped(rng, hot, UNCERTAINTY_PAIRS);
    FilledTyped(rng, Bearing(rng, options), options);
  }
}
