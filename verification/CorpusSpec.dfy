/**
 * What the corpus generator computes, as a function of its draws. The class in CorpusBuilder.dfy is proved against
 * it.
 */
module CorpusSpec {
  import opened Sequences
  import opened CorpusWorld
  import Apportionment
  import opened Rng
  import RoundRobin

  datatype CorrectionRecord = CorrectionRecord(
    delivery: Entity, incorrectDoc: nat, incorrectDay: Entity, correctDoc: nat, correctDay: Entity,
    project: Entity, vendor: Entity)

  datatype State = State(docs: seq<Doc>, corrections: seq<CorrectionRecord>, drawn: nat)

  ghost predicate ProperRanges(ranges: seq<(int, int)>) {
    forall i :: 0 <= i < |ranges| ==> ranges[i].0 <= ranges[i].1
  }

  function Draws(rng: Stream, from: nat, ranges: seq<(int, int)>): (r: seq<int>)
    requires ProperRanges(ranges)
    ensures |r| == |ranges|
  {
    if ranges == [] then []
    else
      Draws(rng, from, ranges[..|ranges| - 1])
      + [IntBetween(rng(from + |ranges| - 1), ranges[|ranges| - 1].0, ranges[|ranges| - 1].1)]
  }

  /** The ordinal the next document of this kind gets. */
  function Ordinal(docs: seq<Doc>, kind: Kind): nat {
    if docs == [] then 0
    else Ordinal(docs[..|docs| - 1], kind) + if docs[|docs| - 1].kind == kind then 1 else 0
  }

  function FindIn(relations: seq<Relation>, subject: Entity, pred: Predicate): (r: Option<nat>)
    ensures match r
            case Some(q) =>
              q < |relations| && relations[q].subject == subject && relations[q].pred == pred
              && forall i :: 0 <= i < q ==> relations[i].subject != subject || relations[i].pred != pred
            case None => forall i :: 0 <= i < |relations| ==>
              relations[i].subject != subject || relations[i].pred != pred
  {
    if relations == [] then None
    else if relations[0].subject == subject && relations[0].pred == pred then Some(0)
    else
      match FindIn(relations[1..], subject, pred)
      case Some(q) =>
        assert forall i :: 0 < i <= q ==> relations[i] == relations[1..][i - 1];
        Some(q + 1)
      case None =>
        assert forall i :: 0 < i < |relations| ==> relations[i] == relations[1..][i - 1];
        None
  }

  /** The earliest document, and in it the earliest relation, asserting `subject pred ?`. */
  function FindFrom(docs: seq<Doc>, from: nat, subject: Entity, pred: Predicate): Option<(nat, nat)>
    requires from <= |docs|
    decreases |docs| - from
  {
    if from == |docs| then None
    else
      match FindIn(docs[from].relations, subject, pred)
      case Some(q) => Some((from, q))
      case None => FindFrom(docs, from + 1, subject, pred)
  }

  predicate Asserts(doc: Doc, subject: Entity, pred: Predicate) {
    FindIn(doc.relations, subject, pred).Some?
  }

  ghost predicate FirstAssertion(docs: seq<Doc>, from: nat, subject: Entity, pred: Predicate, r: Option<(nat, nat)>) {
    match r
    case Some((p, q)) =>
      from <= p < |docs| && FindIn(docs[p].relations, subject, pred) == Some(q)
      && forall i :: from <= i < p ==> !Asserts(docs[i], subject, pred)
    case None => forall i :: from <= i < |docs| ==> !Asserts(docs[i], subject, pred)
  }

  lemma {:induction false} FindFromIsFirst(docs: seq<Doc>, from: nat, subject: Entity, pred: Predicate)
    requires from <= |docs|
    ensures FirstAssertion(docs, from, subject, pred, FindFrom(docs, from, subject, pred))
    decreases |docs| - from
  {
    hide FindIn;
    if from == |docs| {
      assert FindFrom(docs, from, subject, pred) == None;
    } else if Asserts(docs[from], subject, pred) {
      assert FindFrom(docs, from, subject, pred) == Some((from, FindIn(docs[from].relations, subject, pred).value));
    } else {
      FindFromIsFirst(docs, from + 1, subject, pred);
      FirstAssertionExtends(docs, from, subject, pred, FindFrom(docs, from + 1, subject, pred));
      assert FindFrom(docs, from, subject, pred) == FindFrom(docs, from + 1, subject, pred);
    }
  }

  lemma FirstAssertionExtends(docs: seq<Doc>, from: nat, subject: Entity, pred: Predicate, r: Option<(nat, nat)>)
    requires from < |docs| && !Asserts(docs[from], subject, pred)
    requires FirstAssertion(docs, from + 1, subject, pred, r)
    ensures FirstAssertion(docs, from, subject, pred, r)
  {
    hide FindIn;
  }

  lemma RangesAreProper(kind: Kind)
    ensures ProperRanges(Ranges(kind))
  {
  }

  function Fresh(rng: Stream, s: State, kind: Kind): Doc {
    RangesAreProper(kind);
    var o := Ordinal(s.docs, kind);
    var draws := Draws(rng, s.drawn, Ranges(kind));
    Doc(kind, o, draws, Relations(kind, o, draws))
  }

  /** Write one document of a one-document kind. */
  function EmitOne(rng: Stream, s: State, kind: Kind): State {
    State(s.docs + [Fresh(rng, s, kind)], s.corrections, s.drawn + |Ranges(kind)|)
  }

  /** An audit unit is a narrative and a separate attribution note, both counted as audit findings. */
  function EmitAudit(s: State): State {
    var o := Ordinal(s.docs, AuditFindingDoc);
    var narrated := s.docs + [Doc(AuditFindingDoc, o, [], NarrativeRelations(o))];
    var o' := Ordinal(narrated, AuditFindingDoc);
    State(narrated + [Doc(AuditFindingDoc, o', [], AttributionRelations(o'))], s.corrections, s.drawn)
  }

  function Overturn(docs: seq<Doc>, p: nat, q: nat): seq<Doc>
    requires p < |docs| && q < |docs[p].relations|
  {
    var relations := docs[p].relations;
    docs[p := docs[p].(relations := relations[q := relations[q].(retracted := true)])]
  }

  /** Write the memo, then pair it with the relations it overturns, if all three can be found. */
  function EmitCorrection(rng: Stream, s: State): State {
    var memo := Fresh(rng, s, CorrectionMemo);
    var s' := EmitOne(rng, s, CorrectionMemo);
    Pair(s', memo.relations[0])
  }

  function Pair(s: State, late: Relation): State {
    FindFromIsFirst(s.docs, 0, late.subject, ReportedOnTime);
    FindFromIsFirst(s.docs, 0, late.subject, FromVendor);
    FindFromIsFirst(s.docs, 0, late.subject, ForProject);
    match (FindFrom(s.docs, 0, late.subject, ReportedOnTime), FindFrom(s.docs, 0, late.subject, FromVendor),
           FindFrom(s.docs, 0, late.subject, ForProject))
    case (Some((p, q)), Some((pv, qv)), Some((pp, qp))) =>
      State(
        Overturn(s.docs, p, q),
        s.corrections + [CorrectionRecord(
          late.subject, p, s.docs[p].relations[q].obj, |s.docs| - 1, late.obj,
          s.docs[pp].relations[qp].obj, s.docs[pv].relations[qv].obj)],
        s.drawn)
    case _ => s
  }

  function Emit(rng: Stream, withCorrections: bool, s: State, kind: Kind): State {
    match kind
    case AuditFindingDoc => EmitAudit(s)
    case CorrectionMemo => if withCorrections then EmitCorrection(rng, s) else s
    case FillerDoc => s
    case _ => EmitOne(rng, s, kind)
  }

  function EmitAll(rng: Stream, withCorrections: bool, s: State, plan: seq<Kind>): State {
    if plan == [] then s
    else Emit(rng, withCorrections, EmitAll(rng, withCorrections, s, plan[..|plan| - 1]), plan[|plan| - 1])
  }

  lemma WeightsWellformed()
    ensures Apportionment.Wellformed(HOT_KIND_WEIGHTS, HOT_KIND_NAMES)
  {
    TotalWeight();
    NamesDistinct();
  }

  function Quotas(budget: nat): (r: seq<nat>)
    ensures |r| == |HOT_KINDS|
  {
    WeightsWellformed();
    Apportionment.Quotas(HOT_KIND_WEIGHTS, HOT_KIND_NAMES, budget)
  }

  /** Quotas in units: an audit unit is worth two documents. */
  function Units(budget: nat): (r: seq<nat>)
    ensures |r| == |HOT_KINDS|
  {
    var quotas := Quotas(budget);
    quotas[AUDIT := quotas[AUDIT] / DOCS_PER_AUDIT_UNIT]
  }

  function Plan(budget: nat): seq<Kind> {
    RoundRobin.Plan(HOT_KINDS, Units(budget), budget)
  }

  lemma SlackGrows(rng: Stream, withCorrections: bool, s: State, extra: nat)
    ensures |Emit(rng, withCorrections, s, SINGLE_DOC_KINDS[extra % |SINGLE_DOC_KINDS|]).docs| == |s.docs| + 1
  {
  }

  /** Single-document kinds, in rotation, until the budget is met. */
  function Slack(rng: Stream, withCorrections: bool, s: State, budget: nat, extra: nat): State
    decreases budget - |s.docs|
  {
    if |s.docs| >= budget then s
    else
      Slack(rng, withCorrections, Emit(rng, withCorrections, s, SINGLE_DOC_KINDS[extra % |SINGLE_DOC_KINDS|]), budget,
            extra + 1)
  }

  function Max(a: int, b: int): int { if a > b then a else b }
  function Min(a: int, b: int): int { if a < b then a else b }

  function HotBudget(total: int): nat {
    Min(HOT_DOCS, Max(0, total))
  }

  const EMPTY := State([], [], 0)

  function GenerateHot(rng: Stream, withCorrections: bool, total: int): State {
    var budget := HotBudget(total);
    Slack(rng, withCorrections, EmitAll(rng, withCorrections, EMPTY, Plan(budget)), budget, 0)
  }

  const UNCERTAIN_RANGES: seq<(int, int)> := [(0, 4000), (0, 5200)]

  /** One spelled-out quantity: an inventory memo with the count and an invoice memo with the unit price. */
  function UncertainPair(rng: Stream, s: State, i: nat): State {
    var draws := Draws(rng, s.drawn, UNCERTAIN_RANGES);
    var serial, invoice := Serial((i * 7 + 5) % 900), Invoice((i * 3 + 9) % 220);
    var memo := Doc(InventoryMemo, i, draws, [Says(invoice, CoversSerial, serial)]);
    var pricing := Doc(InvoiceMemo, i, draws, [Says(serial, PricedBy, invoice)]);
    State(s.docs + [memo, pricing], s.corrections, s.drawn + |UNCERTAIN_RANGES|)
  }

  function UncertaintyLayer(rng: Stream, s: State, pairs: nat): State {
    if pairs == 0 then s else UncertainPair(rng, UncertaintyLayer(rng, s, pairs - 1), pairs - 1)
  }

  function Filler(rng: Stream, s: State, ordinal: nat): State {
    RangesAreProper(FillerDoc);
    State(s.docs + [Doc(FillerDoc, ordinal, Draws(rng, s.drawn, Ranges(FillerDoc)), [])], s.corrections,
          s.drawn + |Ranges(FillerDoc)|)
  }

  function Fillers(rng: Stream, s: State, count: nat): State {
    if count == 0 then s else Filler(rng, Fillers(rng, s, count - 1), count - 1)
  }

  datatype Options = Options(total: int, fillers: bool, corrections: bool, uncertain: bool)

  function Layer(options: Options): nat {
    if options.uncertain then UNCERTAINTY_PAIRS * 2 else 0
  }

  function Layered(rng: Stream, hot: State, options: Options): State {
    if options.uncertain then UncertaintyLayer(rng, hot, UNCERTAINTY_PAIRS) else hot
  }

  /** The relation-bearing half: the hot world and the optional layer. */
  function Bearing(rng: Stream, options: Options): State {
    Layered(rng, GenerateHot(rng, options.corrections, options.total - Layer(options)), options)
  }

  /** Filler brings the corpus up to the requested size. */
  function Filled(rng: Stream, bearing: State, options: Options): State {
    if options.fillers && |bearing.docs| < options.total then Fillers(rng, bearing, options.total - |bearing.docs|)
    else bearing
  }

  function Generate(rng: Stream, options: Options): State {
    Filled(rng, Bearing(rng, options), options)
  }
}
