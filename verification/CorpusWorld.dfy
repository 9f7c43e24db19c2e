/** The fixed world of the corpus generator: kinds, weights, entity tables, and what each kind of document asserts. */
module CorpusWorld {
  import opened Sequences
  import Spread

  datatype Kind =
    | WorldBriefing | VendorMaster | VendorMemo | PersonnelMemo | ProjectMemo | WarehouseMemo | PurchaseOrderDoc
    | ApprovalMemo | InvoiceMemo | DeliveryNote | InventoryMemo | AuditFindingDoc | IncidentReport | CorrectionMemo
    | NegativeEvidence | FillerDoc

  const HOT_KINDS: seq<Kind> := [
    WorldBriefing, VendorMaster, VendorMemo, PersonnelMemo, ProjectMemo, WarehouseMemo, PurchaseOrderDoc,
    ApprovalMemo, InvoiceMemo, DeliveryNote, InventoryMemo, AuditFindingDoc, IncidentReport, CorrectionMemo,
    NegativeEvidence
  ]

  const HOT_KIND_WEIGHTS: seq<nat> := [14, 45, 80, 80, 60, 120, 60, 60, 42, 42, 57, 90, 32, 34, 60]

  const HOT_KIND_NAMES: seq<string> := [
    "world_briefing", "vendor_master", "vendor_memo", "personnel_memo", "project_memo", "warehouse_memo",
    "purchase_order", "approval_memo", "invoice_memo", "delivery_note", "inventory_memo", "audit_finding",
    "incident_report", "correction_memo", "negative_evidence"
  ]

  // Positions in HOT_KINDS that the pairing of corrections depends on.
  const WAREHOUSE := 5
  const DELIVERY := 9
  const AUDIT := 11
  const CORRECTION := 13

  const HOT_DOCS := 900
  const UNCERTAINTY_PAIRS := 34
  const DOCS_PER_AUDIT_UNIT := 2
  const SINGLE_DOC_KINDS: seq<Kind> := [WarehouseMemo, PersonnelMemo, InvoiceMemo, ProjectMemo, InventoryMemo,
                                        VendorMemo]

  /** An entity by its table and its row; `Day` stands for the day-valued pseudo-ids. */
  datatype Entity =
    | Vendor(row: nat) | Person(row: nat) | Project(row: nat) | Warehouse(row: nat) | Invoice(row: nat)
    | PurchaseOrder(row: nat) | Batch(row: nat) | Serial(row: nat) | AuditFinding(row: nat) | Incident(row: nat)
    | Delivery(row: nat) | Approval(row: nat) | Day(day: int)

  datatype Predicate =
    | RaisedAgainst | SignedOff | Covers | Approved | ForProject | CarriedBatch | ReportedOnTime | ContainsSerial
    | FromVendor | ReceivedDelivery | ArrivedDay | Raised | ScopedToProject | AgainstVendor | Filed | AtWarehouse
    | InvolvedBatch | WasLate | NoRecordFor | CoversSerial | PricedBy

  datatype Relation = Relation(subject: Entity, pred: Predicate, obj: Entity, retracted: bool)

  /** A document: its prose is determined by its kind, its ordinal and the numbers drawn for it. */
  datatype Doc = Doc(kind: Kind, ordinal: nat, draws: seq<int>, relations: seq<Relation>)

  function VendorAt(o: nat): Entity { Vendor(Spread.Row(40, o, 11)) }
  function PersonAt(o: nat): Entity { Person(Spread.Row(80, o, 13)) }
  function ProjectAt(o: nat): Entity { Project(Spread.Row(30, o, 7)) }
  function WarehouseAt(o: nat): Entity { Warehouse(Spread.Row(15, o, 7)) }
  function InvoiceAt(o: nat): Entity { Invoice(Spread.Row(220, o, 17)) }
  function OrderAt(o: nat): Entity { PurchaseOrder(Spread.Row(60, o, 7)) }
  function ApprovalAt(o: nat): Entity { Approval(Spread.Row(60, o, 7)) }
  function BatchAt(o: nat): Entity { Batch(Spread.Row(300, o, 13)) }
  function FindingAt(o: nat): Entity { AuditFinding(Spread.Row(60, o, 7)) }
  function IncidentAt(o: nat): Entity { Incident(Spread.Row(32, o, 5)) }
  function DeliveryAt(o: nat): Entity { Delivery(Spread.Row(120, o, 7)) }

  function Says(subject: Entity, p: Predicate, obj: Entity): Relation {
    Relation(subject, p, obj, false)
  }

  /** The number ranges a document of this kind draws from, in the order it draws them. */
  function Ranges(kind: Kind): seq<(int, int)> {
    match kind
    case PersonnelMemo => [(120, 400)]
    case InvoiceMemo => [(0, 3600), (200, 620)]
    case DeliveryNote => [(240, 560)]
    case WarehouseMemo => [(260, 580)]
    case IncidentReport => [(300, 590)]
    case CorrectionMemo => [(2, 9), (241, 561)]
    case FillerDoc => [(90, 640), (0, 9), (0, 4)]
    case _ => []
  }

  function DeliveryRelations(o: nat, day: int, overturned: bool): seq<Relation> {
    [Says(DeliveryAt(o), ForProject, ProjectAt(o)),
     Says(DeliveryAt(o), CarriedBatch, BatchAt(o)),
     Relation(DeliveryAt(o), ReportedOnTime, Day(day), overturned)]
  }

  function WarehouseRelations(o: nat, day: int): seq<Relation> {
    [Says(DeliveryAt(o), FromVendor, VendorAt(o)),
     Says(WarehouseAt(o), ReceivedDelivery, DeliveryAt(o)),
     Says(DeliveryAt(o), ArrivedDay, Day(day))]
  }

  function Listing(batch: Entity, start: nat, count: nat): seq<Relation> {
    if count == 0 then []
    else Listing(batch, start, count - 1) + [Says(batch, ContainsSerial, Serial((start + count - 1) % 900))]
  }

  function InventoryRelations(o: nat): seq<Relation> {
    var count := 2 + o % 3;
    Listing(BatchAt(o), (o * 11) % (900 - count - 1), count)
  }

  function NarrativeRelations(o: nat): seq<Relation> {
    [Says(PersonAt(o), Raised, FindingAt(o)), Says(FindingAt(o), ScopedToProject, ProjectAt(o))]
  }

  function AttributionRelations(o: nat): seq<Relation> {
    [Says(FindingAt(o), AgainstVendor, VendorAt(o))]
  }

  /** What a one-document kind asserts when it is first written. */
  function Relations(kind: Kind, o: nat, draws: seq<int>): seq<Relation>
    requires |draws| == |Ranges(kind)|
  {
    match kind
    case PurchaseOrderDoc => [Says(OrderAt(o), RaisedAgainst, VendorAt(o))]
    case ApprovalMemo => [Says(PersonAt(o), SignedOff, ApprovalAt(o)), Says(ApprovalAt(o), Covers, OrderAt(o))]
    case InvoiceMemo => [Says(PersonAt(o), Approved, InvoiceAt(o))]
    case DeliveryNote => DeliveryRelations(o, draws[0], false)
    case InventoryMemo => InventoryRelations(o)
    case WarehouseMemo => WarehouseRelations(o, draws[0])
    case IncidentReport =>
      [Says(PersonAt(o), Filed, IncidentAt(o)),
       Says(IncidentAt(o), AtWarehouse, WarehouseAt(o)),
       Says(IncidentAt(o), InvolvedBatch, BatchAt(o))]
    case CorrectionMemo => [Says(DeliveryAt(o), WasLate, Day(draws[1]))]
    case NegativeEvidence => [Says(ProjectAt(o), NoRecordFor, IncidentAt(o))]
    case _ => []
  }

  lemma TotalWeight()
    ensures Sum(HOT_KIND_WEIGHTS) == 876
  {
    var w := HOT_KIND_WEIGHTS;
    assert w[..15] == w;
    for c := 15 downto 0
      invariant Sum(w) == Sum(w[..c]) + Tail(c)
    {
      assert w[..c + 1][..c] == w[..c];
    }
  }

  function Tail(c: nat): nat
    requires c <= 15
    decreases 15 - c
  {
    if c == 15 then 0 else HOT_KIND_WEIGHTS[c] + Tail(c + 1)
  }

  lemma NamesDistinct()
    ensures Distinct(HOT_KIND_NAMES) && Distinct(HOT_KINDS)
  {
  }
}
