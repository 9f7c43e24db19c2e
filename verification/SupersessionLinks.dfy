/**
 * From the corpus generator to the question generator: the corpus files as rendered from what the builder holds, and
 * what the pairing of corrections means for the supersession questions.
 */
module SupersessionLinks {
  import opened Sequences
  import opened QuestionWorld
  import opened QuestionSpec
  import opened QuestionTiers
  import opened LintTheorems
  import CorpusSpec
  import CorpusTheorems
  import CorpusWorld
  import QuestionTheorems
  import Rng

  function PredicateName(p: CorpusWorld.Predicate): string {
    match p
    case RaisedAgainst => "raised_against"
    case SignedOff => "signed_off"
    case Covers => "covers"
    case Approved => "approved"
    case ForProject => "for_project"
    case CarriedBatch => "carried_batch"
    case ReportedOnTime => "reported_on_time"
    case ContainsSerial => "contains_serial"
    case FromVendor => "from_vendor"
    case ReceivedDelivery => "received_delivery"
    case ArrivedDay => "arrived_day"
    case Raised => "raised"
    case ScopedToProject => "scoped_to_project"
    case AgainstVendor => "against_vendor"
    case Filed => "filed"
    case AtWarehouse => "at_warehouse"
    case InvolvedBatch => "involved_batch"
    case WasLate => "was_late"
    case NoRecordFor => "no_record_for"
    case CoversSerial => "covers_serial"
    case PricedBy => "priced_by"
  }

  /** How documents, by position, and entities are called in the files. */
  datatype Naming = Naming(doc: nat -> string, entity: CorpusWorld.Entity -> string)

  function RenderRelation(n: Naming, r: CorpusWorld.Relation): Relation {
    Relation(n.entity(r.subject), PredicateName(r.pred), n.entity(r.obj), r.retracted)
  }

  function RenderRelations(n: Naming, rs: seq<CorpusWorld.Relation>): (r: seq<Relation>)
    ensures |r| == |rs| && forall q :: 0 <= q < |rs| ==> r[q] == RenderRelation(n, rs[q])
  {
    if rs == [] then [] else RenderRelations(n, rs[..|rs| - 1]) + [RenderRelation(n, rs[|rs| - 1])]
  }

  ghost predicate RendersCorrection(n: Naming, corr: Correction, r: CorpusSpec.CorrectionRecord) {
    && corr.deliveryId == n.entity(r.delivery)
    && corr.incorrectDocId == n.doc(r.incorrectDoc) && corr.correctDocId == n.doc(r.correctDoc)
    && corr.vendorId == n.entity(r.vendor) && corr.projectId == n.entity(r.project)
  }

  /**
   * The corpus files hold the builder's documents, relations and corrections, in order, under distinct document ids.
   */
  ghost predicate Renders(c: Corpus, s: CorpusSpec.State, n: Naming) {
    && |c.docs| == |s.docs| == |c.entries| && |c.corrections| == |s.corrections|
    && (forall p, p' :: 0 <= p < p' < |s.docs| ==> n.doc(p) != n.doc(p'))
    && (forall p :: 0 <= p < |s.docs| ==> c.docs[p].id == n.doc(p))
    && (forall p :: 0 <= p < |s.docs| ==> c.entries[p] == Entry(n.doc(p), RenderRelations(n, s.docs[p].relations)))
    && (forall j :: 0 <= j < |s.corrections| ==> RendersCorrection(n, c.corrections[j], s.corrections[j]))
  }

  // ----- with distinct ids no entry is replaced -----

  ghost predicate HasDistinctEntries(entries: seq<Entry>) {
    forall i, j :: 0 <= i < j < |entries| ==> entries[i].id != entries[j].id
  }

  lemma {:induction false} PutNew(table: seq<(string, seq<Edge>)>, id: string, edges: seq<Edge>)
    requires forall i :: 0 <= i < |table| ==> table[i].0 != id
    ensures Put(table, id, edges) == table + [(id, edges)]
  {
    if table != [] {
      PutNew(table[1..], id, edges);
    }
  }

  lemma {:induction false} TableIsEntries(entries: seq<Entry>)
    requires HasDistinctEntries(entries)
    ensures |ByDocument(entries)| == |entries|
    ensures forall i :: 0 <= i < |entries| ==>
              ByDocument(entries)[i] == (entries[i].id, EntryEdges(entries[i].id, entries[i].relations))
  {
    if entries != [] {
      var front, last := entries[..|entries| - 1], entries[|entries| - 1];
      TableIsEntries(front);
      PutNew(ByDocument(front), last.id, EntryEdges(last.id, last.relations));
    }
  }

  lemma {:induction false} TableHolds(table: seq<(string, seq<Edge>)>, i: nat, e: Edge)
    requires i < |table| && e in table[i].1
    ensures e in TableEdges(table)
  {
    if i < |table| - 1 {
      TableHolds(table[..|table| - 1], i, e);
    }
  }

  lemma {:induction false} EntryHolds(id: string, relations: seq<Relation>, q: nat)
    requires q < |relations|
    ensures var r := relations[q]; Edge(r.subject, r.pred, r.obj, r.retracted, id) in EntryEdges(id, relations)
  {
    if q < |relations| - 1 {
      EntryHolds(id, relations[..|relations| - 1], q);
    }
  }

  /** Every relation of a rendered document is an edge of the world. */
  lemma RelationIsEdge(c: Corpus, s: CorpusSpec.State, n: Naming, p: nat, r: CorpusWorld.Relation)
    requires Renders(c, s, n) && p < |s.docs| && r in s.docs[p].relations
    ensures Edge(n.entity(r.subject), PredicateName(r.pred), n.entity(r.obj), r.retracted, n.doc(p)) in AllEdges(c)
  {
    var q :| 0 <= q < |s.docs[p].relations| && s.docs[p].relations[q] == r;
    hide PredicateName;
    assert c.entries[p] == Entry(n.doc(p), RenderRelations(n, s.docs[p].relations));
    TableIsEntries(c.entries) by {
      forall i, j | 0 <= i < j < |c.entries| ensures c.entries[i].id != c.entries[j].id {
        assert c.entries[i].id == n.doc(i) && c.entries[j].id == n.doc(j);
      }
    }
    EntryHolds(c.entries[p].id, c.entries[p].relations, q);
    TableHolds(ByDocument(c.entries), p,
               Edge(n.entity(r.subject), PredicateName(r.pred), n.entity(r.obj), r.retracted, n.doc(p)));
  }

  /** Every index entry of a rendered corpus names one of its documents. */
  lemma RenderedIsIndexed(c: Corpus, s: CorpusSpec.State, n: Naming)
    requires Renders(c, s, n)
    ensures EntryIds(c) <= DocIds(c)
  {
    forall id | id in EntryIds(c) ensures id in DocIds(c) {
      var p :| 0 <= p < |c.entries| && c.entries[p].id == id;
      assert c.docs[p].id == id;
    }
  }

  // ----- the links of a correction -----

  /** An edge of the world that links the delivery to the candidate, in a document of the corpus. */
  ghost predicate HasLink(c: Corpus, corr: Correction, candidate: Candidate) {
    exists e :: e in PositiveEdges(c) && Links(corr, candidate)(e)
  }

  lemma LinkOf(
      c: Corpus, s: CorpusSpec.State, n: Naming, j: nat, p: nat, candidate: Candidate, pred: CorpusWorld.Predicate,
      obj: CorpusWorld.Entity)
    requires Renders(c, s, n) && j < |s.corrections| && p < |s.docs|
    requires CorpusWorld.Says(s.corrections[j].delivery, pred, obj) in s.docs[p].relations
    requires PredicateName(pred) == LinkingPredicate(candidate) && n.entity(obj) == candidate.id
    ensures HasLink(c, c.corrections[j], candidate)
  {
    hide PredicateName;
    var r := CorpusWorld.Says(s.corrections[j].delivery, pred, obj);
    RelationIsEdge(c, s, n, p, r);
    assert RendersCorrection(n, c.corrections[j], s.corrections[j]);
    assert POSITIVE_CHAIN_PREDICATES[0] == "from_vendor" && POSITIVE_CHAIN_PREDICATES[6] == "for_project";
    var e := Edge(n.entity(r.subject), PredicateName(r.pred), n.entity(r.obj), r.retracted, n.doc(p));
    assert Positive(e) && Links(c.corrections[j], candidate)(e);
  }

  lemma VendorIsLinked(c: Corpus, s: CorpusSpec.State, n: Naming, j: nat, candidate: Candidate)
    requires Renders(c, s, n) && j < |s.corrections| && CorpusTheorems.Linked(s.docs, s.corrections[j])
    requires candidate == Candidate(c.corrections[j].vendorId, "vendor")
    ensures HasLink(c, c.corrections[j], candidate)
  {
    hide HasLink;
    var r := s.corrections[j];
    assert RendersCorrection(n, c.corrections[j], r);
    var p :| 0 <= p < |s.docs| && p != r.incorrectDoc
             && CorpusWorld.Says(r.delivery, CorpusWorld.FromVendor, r.vendor) in s.docs[p].relations;
    LinkOf(c, s, n, j, p, candidate, CorpusWorld.FromVendor, r.vendor);
  }

  lemma ProjectIsLinked(c: Corpus, s: CorpusSpec.State, n: Naming, j: nat, candidate: Candidate)
    requires Renders(c, s, n) && j < |s.corrections| && CorpusTheorems.Linked(s.docs, s.corrections[j])
    requires candidate == Candidate(c.corrections[j].projectId, "project")
    ensures HasLink(c, c.corrections[j], candidate)
  {
    hide HasLink;
    var r := s.corrections[j];
    assert RendersCorrection(n, c.corrections[j], r);
    LinkOf(c, s, n, j, r.incorrectDoc, candidate, CorpusWorld.ForProject, r.project);
  }

  lemma CandidateIsLinked(c: Corpus, s: CorpusSpec.State, n: Naming, j: nat, candidate: Candidate)
    requires Renders(c, s, n) && j < |s.corrections| && CorpusTheorems.Linked(s.docs, s.corrections[j])
    requires |c.corrections| == |s.corrections| && candidate in Candidates(c.corrections[j])
    ensures HasLink(c, c.corrections[j], candidate)
  {
    hide HasLink, Renders, CorpusTheorems.Linked;
    if candidate.kind == "vendor" {
      VendorIsLinked(c, s, n, j, candidate);
    } else {
      ProjectIsLinked(c, s, n, j, candidate);
    }
  }

  /** Every correction has its memo, and a link in the world for each of its candidates. */
  ghost predicate IsLinked(c: Corpus, corr: Correction) {
    && corr.correctDocId in DocIds(c)
    && forall candidate :: candidate in Candidates(corr) ==> HasLink(c, corr, candidate)
  }

  lemma GeneratedIsLinked(rng: Rng.Stream, options: CorpusSpec.Options, c: Corpus, n: Naming, corr: Correction)
    requires Renders(c, CorpusSpec.Generate(rng, options), n) && corr in c.corrections
    ensures IsLinked(c, corr)
  {
    hide CorpusSpec.Generate, Renders, CorpusTheorems.Linked, HasLink, Candidates;
    var s := CorpusSpec.Generate(rng, options);
    var j := PlaceOf(c, s, n, corr);
    if !options.corrections {
      CorpusTheorems.NoCorrections(rng, options);
    }
    CorpusTheorems.CorrectionsStayLinked(rng, options);
    CorpusTheorems.CorpusSupersession(rng, options);
    MemoIsThere(c, s, n, j);
    forall candidate | candidate in Candidates(corr) ensures HasLink(c, corr, candidate) {
      CandidateIsLinked(c, s, n, j, candidate);
    }
  }

  lemma PlaceOf(c: Corpus, s: CorpusSpec.State, n: Naming, corr: Correction) returns (j: nat)
    requires Renders(c, s, n) && corr in c.corrections
    ensures j < |s.corrections| == |c.corrections| && c.corrections[j] == corr
  {
    j :| 0 <= j < |c.corrections| && c.corrections[j] == corr;
  }

  lemma MemoIsThere(c: Corpus, s: CorpusSpec.State, n: Naming, j: nat)
    requires Renders(c, s, n) && j < |s.corrections| && s.corrections[j].correctDoc < |s.docs|
    ensures c.corrections[j].correctDocId in DocIds(c)
  {
    assert RendersCorrection(n, c.corrections[j], s.corrections[j]);
    assert c.docs[s.corrections[j].correctDoc] in c.docs;
  }

  // ----- what the links mean for the questions -----

  lemma {:induction false} FirstFinds(edges: seq<Edge>, keep: Edge -> bool, e: Edge)
    requires e in edges && keep(e)
    ensures First(edges, keep) != []
  {
    if !keep(edges[0]) {
      assert edges == [edges[0]] + edges[1..];
      FirstFinds(edges[1..], keep, e);
    }
  }

  /** The linking edge is found, and its document too. */
  lemma LinkIsFound(w: World, c: Corpus, corr: Correction, candidate: Candidate)
    requires Summarises(w, c) && EntryIds(c) <= DocIds(c) && HasLink(c, corr, candidate)
    ensures var link := First(w.positive, Links(corr, candidate)); link != [] && DocOf(w.docs, link[0].docId).Some?
  {
    var e :| e in PositiveEdges(c) && Links(corr, candidate)(e);
    FirstFinds(w.positive, Links(corr, candidate), e);
    QuestionTheorems.FirstFits(w.positive, Links(corr, candidate));
    var link := First(w.positive, Links(corr, candidate))[0];
    EdgesComeFromEntries(c);
    assert link.docId in DocIds(c);
    DocOfSome(c.docs, link.docId);
  }

  lemma {:induction false} ChosenIsCandidate(w: World, picks: seq<Candidate>, start: nat, k: nat)
    requires picks != []
    ensures ChooseFrom(w, picks, start, k).Some? ==> ChooseFrom(w, picks, start, k).value in picks
    decreases |picks| - k
  {
    if k < |picks| && !IsResolvable(w, picks[(start + k) % |picks|].id) {
      ChosenIsCandidate(w, picks, start, k + 1);
    }
  }

  /** The candidate a drawn correction is asked about, and whether its answer and key will do. */
  function Chosen(w: World, st: Progress, corr: Correction): Option<Candidate> {
    var picks := Candidates(corr);
    if picks == [] then None else ChooseFrom(w, picks, |st.used| % |picks|, 0)
  }

  predicate WillDo(s: Setting, st: Progress, corr: Correction, candidate: Candidate) {
    var answer := CanonicalAnswer(s.world, candidate.id);
    SupersessionKey(corr, candidate) !in st.used && |answer| >= 5 && !s.common(answer)
  }

  /**
   * On a corpus that renders a generated one, a drawn correction makes a question exactly when a candidate resolves,
   * its answer is long and rare enough and its key is new; otherwise nothing is used up. The branches for a missing
   * memo and a missing link never run.
   */
  lemma SupersedeExactly(
      rng: Rng.Stream, options: CorpusSpec.Options, c: Corpus, n: Naming, s: Setting, number: nat, st: Progress,
      corr: Correction)
    requires Renders(c, CorpusSpec.Generate(rng, options), n) && Summarises(s.world, c) && corr in c.corrections
    ensures var r, chosen := Supersede(s, number, st, corr), Chosen(s.world, st, corr);
            if chosen.Some? && WillDo(s, st, corr, chosen.value) then r.Made? else r == Nothing(st)
  {
    hide Renders, CorpusSpec.Generate, SupersessionQuestion, Links, HasLink, CanonicalAnswer, IsResolvable;
    GeneratedIsLinked(rng, options, c, n, corr);
    RenderedIsIndexed(c, CorpusSpec.Generate(rng, options), n);
    MemoIsFound(s.world, c, corr);
    var picks := Candidates(corr);
    if picks != [] {
      ChosenIsCandidate(s.world, picks, |st.used| % |picks|, 0);
      if Chosen(s.world, st, corr).Some? {
        LinkIsFound(s.world, c, corr, Chosen(s.world, st, corr).value);
      }
    }
  }

  lemma MemoIsFound(w: World, c: Corpus, corr: Correction)
    requires w.docs == c.docs && corr.correctDocId in DocIds(c)
    ensures DocOf(w.docs, corr.correctDocId).Some?
  {
    DocOfSome(c.docs, corr.correctDocId);
  }

  lemma AttemptWastesNothing(
      rng: Rng.Stream, options: CorpusSpec.Options, c: Corpus, n: Naming, s: Setting, number: nat, st: Progress)
    requires Renders(c, CorpusSpec.Generate(rng, options), n) && Summarises(s.world, c)
    ensures var r := SupersessionAttempt(s, number, st); !r.Crashed? && (r.Nothing? ==> r.st.used == st.used)
  {
    hide Renders, CorpusSpec.Generate, Supersede;
    var corrections := s.world.corrections;
    if corrections != [] {
      SupersedeExactly(rng, options, c, n, s, number, st.(drawn := st.drawn + 1),
                       corrections[Rng.Below(s.words(st.drawn), |corrections|)]);
    }
  }

  /** However often it is tried, a supersession question that is not made leaves every key unused. */
  lemma {:induction false} SupersessionWastesNothing(
      rng: Rng.Stream, options: CorpusSpec.Options, c: Corpus, n: Naming, s: Setting, number: nat, st: Progress,
      left: nat)
    requires Renders(c, CorpusSpec.Generate(rng, options), n) && Summarises(s.world, c)
    ensures var r := Repeat(SupersessionAttempter(s, number), st, left); r.Nothing? ==> r.st.used == st.used
    decreases left
  {
    hide Renders, CorpusSpec.Generate, SupersessionAttempt;
    if left > 0 {
      AttemptWastesNothing(rng, options, c, n, s, number, st);
      var r := SupersessionAttempt(s, number, st);
      if r.Nothing? {
        SupersessionWastesNothing(rng, options, c, n, s, number, r.st, left - 1);
      }
    }
  }
}
