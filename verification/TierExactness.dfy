/** What one attempt at an easy, a negative or a supersession question makes, and what it uses up: both exactly. */
module TierExactness {
  import opened Sequences
  import opened QuestionWorld
  import opened QuestionSpec
  import opened QuestionTiers
  import opened Distractors
  import ChainExactness
  import Rng
  import SupersessionLinks

  // ----- easy -----

  /**
   * The relations easy questions are drawn from: every asserted edge of four predicates, one predicate after the
   * other.
   */
  lemma EasyEdgesExactly(w: World, c: Corpus)
    requires Summarises(w, c)
    ensures var all := EveryEdge(c.entries);
            EasyEdges(w) == Filter(all, HasPredicate("raised_against")) + Filter(all, HasPredicate("from_vendor"))
                            + Filter(all, HasPredicate("carried_batch"))
                            + Filter(all, HasPredicate("scoped_to_project"))
  {
    hide Summarises;
    PredicatesAre(w, c, "raised_against");
    PredicatesAre(w, c, "from_vendor");
    PredicatesAre(w, c, "carried_batch");
    PredicatesAre(w, c, "scoped_to_project");
  }

  lemma PredicatesAre(w: World, c: Corpus, pred: string)
    requires Summarises(w, c)
    ensures At(w.byPredicate, pred) == Filter(EveryEdge(c.entries), HasPredicate(pred))
  {
  }

  /** The last document with that id declares the entity. */
  ghost predicate DeclaredIn(c: Corpus, id: string, entity: string) {
    exists k :: IsLastWith(c.docs, id, k) && entity in c.docs[k].entityIds
  }

  lemma {:induction false} LastOfDoc(docs: seq<Document>, id: string) returns (k: int)
    requires DocOf(docs, id).Some?
    ensures IsLastWith(docs, id, k)
  {
    k := |docs| - 1;
    if docs[k].id != id {
      var front := docs[..k];
      k := LastOfDoc(front, id);
      assert forall l :: 0 <= l < |front| ==> front[l] == docs[l];
    }
  }

  lemma DeclaresExactly(c: Corpus, id: string, entity: string)
    ensures Declares(c.docs, id, entity) <==> DeclaredIn(c, id, entity)
  {
    if Declares(c.docs, id, entity) {
      var k := LastOfDoc(c.docs, id);
      DocOfIsLast(c.docs, id, k);
    }
    if k :| IsLastWith(c.docs, id, k) && entity in c.docs[k].entityIds {
      DocOfIsLast(c.docs, id, k);
    }
  }

  /** The document an easy question rests on: the first of those that mention the subject to declare the object. */
  ghost predicate IsEasyEvidence(c: Corpus, r: Edge, id: string) {
    exists i :: IsFirstDeclaring(c, MentionDocs(c.docs, c.names, r.subject), r.obj, i)
                && id == MentionDocs(c.docs, c.names, r.subject)[i]
  }

  ghost predicate IsFirstDeclaring(c: Corpus, ids: seq<string>, entity: string, i: int) {
    0 <= i < |ids| && DeclaredIn(c, ids[i], entity) && forall j :: 0 <= j < i ==> !DeclaredIn(c, ids[j], entity)
  }

  lemma {:induction false} FilterBeginsAt<T(!new)>(s: seq<T>, keep: T -> bool) returns (i: int)
    requires Filter(s, keep) != []
    ensures 0 <= i < |s| && keep(s[i]) && Filter(s, keep)[0] == s[i] && forall j :: 0 <= j < i ==> !keep(s[j])
  {
    var front := s[..|s| - 1];
    if Filter(front, keep) != [] {
      i := FilterBeginsAt(front, keep);
      assert forall j :: 0 <= j < |front| ==> front[j] == s[j];
    } else {
      i := |s| - 1;
      FilterEmpty(front, keep);
      assert forall j :: 0 <= j < i ==> s[j] in front by {
        assert forall j :: 0 <= j < i ==> front[j] == s[j];
      }
    }
  }

  /** The filtered list begins with the evidence, and is empty exactly when there is none. */
  lemma EvidenceIsFirst(w: World, c: Corpus, r: Edge)
    requires Summarises(w, c)
    ensures var docs := Filter(At(w.docsForEntity, r.subject), Declaring(w.docs, r.obj));
            if docs == [] then forall id :: !IsEasyEvidence(c, r, id)
            else forall id :: IsEasyEvidence(c, r, id) <==> id == docs[0]
  {
    hide Declares, DeclaredIn;
    var ids := MentionDocs(c.docs, c.names, r.subject);
    var docs := Filter(ids, Declaring(c.docs, r.obj));
    forall id ensures Declaring(c.docs, r.obj)(id) <==> DeclaredIn(c, id, r.obj) {
      DeclaresExactly(c, id, r.obj);
    }
    if docs == [] {
      FilterEmpty(ids, Declaring(c.docs, r.obj));
    } else {
      var i := FilterBeginsAt(ids, Declaring(c.docs, r.obj));
      assert IsFirstDeclaring(c, ids, r.obj, i);
    }
  }

  /** An easy question about an edge, resting on a document. */
  ghost predicate IsEasyQuestion(w: World, number: nat, r: Edge, id: string, a: Accepted) {
    var q := a.question;
    && a.chain == [] && a.key == "easy|" + r.subject + "|" + r.obj
    && q.tier == Easy && q.number == number && q.submechanism == "" && !q.answerIsNegative
    && q.answer == Canonical(Label(w, r.obj)) && q.evidenceDocIds == [id]
    && q.hopChain == [Hop(Label(w, r.subject), r.pred, Label(w, r.obj), id)]
  }

  /**
   * One easy attempt takes one draw. Without evidence, or with evidence or key used before, nothing happens;
   * otherwise both are used up, and there is a question exactly when the object can be an answer.
   */
  lemma EasyExactly(s: Setting, c: Corpus, number: nat, st: Progress)
    requires Summarises(s.world, c)
    ensures var edges, out := EasyEdges(s.world), EasyAttempt(s, number, st);
            if edges == [] then out.Crashed?
            else
              var r := edges[Rng.Below(s.words(st.drawn), |edges|)];
              var key := "easy|" + r.subject + "|" + r.obj;
              && !out.Crashed? && out.st.drawn == st.drawn + 1
              && ((forall id :: !IsEasyEvidence(c, r, id)) || key in st.used ==> out.Nothing? && out.st.used == st.used)
              && (forall id :: IsEasyEvidence(c, r, id) && key !in st.used ==>
                    && out.st.used == (if id in st.used then st.used else st.used + {id, key})
                    && (out.Made? <==> id !in st.used && IsResolvable(s.world, r.obj)
                                       && |Canonical(Label(s.world, r.obj))| > 4)
                    && (out.Made? ==> IsEasyQuestion(s.world, number, r, id, out.made)))
  {
    hide Summarises, IsEasyEvidence, IsResolvable, Label, Canonical, Key, EasyEdges, Rng.Below;
    var edges := EasyEdges(s.world);
    if edges != [] {
      var r := edges[Rng.Below(s.words(st.drawn), |edges|)];
      assert r == PickEdge(s, st.drawn, edges);
      ChainExactness.KeyOfTwo("easy", r.subject, r.obj);
      assert Key("easy", [r.subject, r.obj]) == "easy|" + r.subject + "|" + r.obj;
      EvidenceIsFirst(s.world, c, r);
      var docs := Filter(At(s.world.docsForEntity, r.subject), Declaring(s.world.docs, r.obj));
      assert docs != [] ==> IsEasyEvidence(c, r, docs[0]);
    }
  }

  // ----- negative evidence -----

  ghost predicate IsNegativeQuestion(w: World, number: nat, neg: Edge, a: Accepted) {
    var q := a.question;
    && a.chain == [] && a.key == neg.docId
    && q.tier == Complex && q.number == number && q.submechanism == "negative" && q.answerIsNegative
    && q.answer == "not recorded" && q.evidenceDocIds == [neg.docId]
    && q.hopChain == [Hop(Label(w, neg.subject), neg.pred, Label(w, neg.obj), neg.docId)]
    && q.distractorStrings == [Canonical(Label(w, neg.obj))]
    && q.distractorDocIds == (var ids := At(w.docsForEntity, neg.obj); if |ids| == 0 then [] else ids[..1])
  }

  /**
   * One negative attempt takes one draw, unless nothing was ever disclaimed; it makes a question exactly when the
   * note is unused and its subject has a long enough name, and uses up the note and nothing else.
   */
  lemma NegativeExactly(s: Setting, c: Corpus, number: nat, st: Progress)
    requires Summarises(s.world, c)
    ensures var edges := Filter(EveryEdge(c.entries), HasPredicate("no_record_for"));
            var out := NegativeAttempt(s, number, st);
            if edges == [] then out == Nothing(st)
            else
              var neg := edges[Rng.Below(s.words(st.drawn), |edges|)];
              && !out.Crashed? && out.st.drawn == st.drawn + 1
              && (out.Made? <==> neg.docId !in st.used && |Label(s.world, neg.subject)| > 4)
              && out.st.used == st.used + (if out.Made? then {neg.docId} else {})
              && (out.Made? ==> IsNegativeQuestion(s.world, number, neg, out.made))
  {
    hide Label, Canonical, Rng.Below, Summarises, NegativeQuestion, IsNegativeQuestion;
    var edges := At(s.world.byPredicate, "no_record_for");
    PredicatesAre(s.world, c, "no_record_for");
    if edges != [] {
      var neg := edges[Rng.Below(s.words(st.drawn), |edges|)];
      assert neg == PickEdge(s, st.drawn, edges);
      NegativeIsWritten(s.world, number, neg);
    }
  }

  lemma NegativeIsWritten(w: World, number: nat, neg: Edge)
    ensures IsNegativeQuestion(w, number, neg, NegativeQuestion(w, number, neg))
  {
    hide Label, Canonical;
  }

  // ----- supersession -----

  /**
   * Vendor and project take turns with the number of used keys; one that cannot be an answer gives way to the other.
   */
  lemma CandidatesTakeTurns(w: World, st: Progress, corr: Correction)
    ensures var vendor := corr.vendorId != "" && IsResolvable(w, corr.vendorId);
            var project := corr.projectId != "" && IsResolvable(w, corr.projectId);
            SupersessionLinks.Chosen(w, st, corr) ==
            if vendor && (!project || |st.used| % 2 == 0) then Some(Candidate(corr.vendorId, "vendor"))
            else if project then Some(Candidate(corr.projectId, "project"))
            else None
  {
    hide IsResolvable;
    var picks := Candidates(corr);
    if |picks| == 1 {
      ChooseNext(w, picks, |st.used| % 1, 0);
      ChooseNext(w, picks, |st.used| % 1, 1);
    } else if |picks| == 2 {
      var start := |st.used| % 2;
      ChooseNext(w, picks, start, 0);
      ChooseNext(w, picks, start, 1);
      ChooseNext(w, picks, start, 2);
    }
  }

  lemma ChooseNext(w: World, picks: seq<Candidate>, start: nat, k: nat)
    requires picks != []
    ensures ChooseFrom(w, picks, start, k) ==
            if k >= |picks| then None
            else if IsResolvable(w, picks[(start + k) % |picks|].id) then Some(picks[(start + k) % |picks|])
            else ChooseFrom(w, picks, start, k + 1)
  {
  }

  /** The document that links the delivery to the candidate: of the first positive edge that says so. */
  ghost predicate IsLinkingEdge(c: Corpus, corr: Correction, candidate: Candidate, i: int) {
    && 0 <= i < |PositiveEdges(c)| && SaysLink(corr, candidate, PositiveEdges(c)[i])
    && forall j :: 0 <= j < i ==> !SaysLink(corr, candidate, PositiveEdges(c)[j])
  }

  predicate SaysLink(corr: Correction, candidate: Candidate, e: Edge) {
    && e.subject == corr.deliveryId && e.obj == candidate.id
    && e.pred == (if candidate.kind == "vendor" then "from_vendor" else "for_project")
  }
  /** The day the overturned document reports; a missing document counts as an empty text. */
  function StaleDayOf(s: Setting, corr: Correction): string {
    match DocOf(s.world.docs, corr.incorrectDocId)
    case Some(d) => s.staleDay(d.text)
    case None => s.staleDay("")
  }

  /** The question about a corrected delivery: the memo's timing first, then the link that it leaves standing. */
  ghost predicate IsSupersessionQuestion(
      s: Setting, c: Corpus, number: nat, corr: Correction, candidate: Candidate, a: Accepted) {
    var q, w, delivery := a.question, s.world, Label(s.world, corr.deliveryId);
    && a.chain == [] && a.key == "complex-sup|" + corr.deliveryId + "|" + candidate.id
    && q.tier == Complex && q.number == number && q.submechanism == "supersession" && !q.answerIsNegative
    && q.answer == Canonical(Label(w, candidate.id))
    && |q.hopChain| == 2 && |q.evidenceDocIds| == 2
    && q.evidenceDocIds[0] == corr.correctDocId
    && q.hopChain[0] == Hop(delivery, "was_late", corr.correctAssertion, corr.correctDocId)
    && (exists i :: IsLinkingEdge(c, corr, candidate, i) && q.evidenceDocIds[1] == PositiveEdges(c)[i].docId)
    && q.hopChain[1] == Hop(delivery, if candidate.kind == "vendor" then "from_vendor" else "for_project",
                            Label(w, candidate.id), q.evidenceDocIds[1])
    && (StaleDayOf(s, corr) != "" ==> q.distractorStrings != []
                                      && q.distractorStrings[|q.distractorStrings| - 1] == "day " + StaleDayOf(s, corr))
  }

  lemma FirstLinkIs(w: World, c: Corpus, corr: Correction, candidate: Candidate)
    requires Summarises(w, c)
    ensures var found := First(w.positive, Links(corr, candidate));
            if forall i :: !IsLinkingEdge(c, corr, candidate, i) then found == []
            else exists i: nat :: i < |PositiveEdges(c)| && IsLinkingEdge(c, corr, candidate, i)
                                  && found == [PositiveEdges(c)[i]]
  {
    hide Summarises;
    var edges := PositiveEdges(c);
    PositiveIs(w, c);
    FirstIsFirst(edges, Links(corr, candidate));
    assert forall e :: Links(corr, candidate)(e) <==> SaysLink(corr, candidate, e);
    if First(edges, Links(corr, candidate)) == [] {
      assert forall i :: 0 <= i < |edges| ==> !Links(corr, candidate)(edges[i]);
    } else {
      var i :| IsFirst(edges, Links(corr, candidate), i) && First(edges, Links(corr, candidate)) == [edges[i]];
      assert IsLinkingEdge(c, corr, candidate, i);
    }
  }

  lemma PositiveIs(w: World, c: Corpus)
    requires Summarises(w, c)
    ensures w.positive == PositiveEdges(c)
  {
  }

  lemma SupersessionIsWritten(
      s: Setting, c: Corpus, number: nat, corr: Correction, candidate: Candidate, i: nat)
    requires IsLinkingEdge(c, corr, candidate, i)
    ensures IsSupersessionQuestion(
              s, c, number, corr, candidate, SupersessionQuestion(s, number, corr, candidate, PositiveEdges(c)[i]))
  {
    hide Label, Canonical, IsLinkingEdge, PositiveEdges, First, Key;
    ChainExactness.KeyOfTwo("complex-sup", corr.deliveryId, candidate.id);
  }

  /**
   * A drawn correction can be asked about: its memo is there, a candidate is, and the answer is long, rare and
   * unused.
   */
  predicate CanAsk(s: Setting, st: Progress, corr: Correction) {
    var chosen := SupersessionLinks.Chosen(s.world, st, corr);
    && DocOf(s.world.docs, corr.correctDocId).Some? && chosen.Some?
    && "complex-sup|" + corr.deliveryId + "|" + chosen.value.id !in st.used
    && |Canonical(Label(s.world, chosen.value.id))| > 4
    && !s.common(Canonical(Label(s.world, chosen.value.id)))
  }

  /** The link of the delivery to the candidate is there, with its document. */
  ghost predicate HasLinkDocument(c: Corpus, corr: Correction, candidate: Candidate) {
    exists i :: IsLinkingEdge(c, corr, candidate, i) && DocOf(c.docs, PositiveEdges(c)[i].docId).Some?
  }

  /**
   * On any corpus, what follows once a correction was drawn: no further draw; nothing at all when it cannot be asked
   * about; otherwise its key is used up, and there is a question exactly when the link is there.
   */
  lemma SupersedeOutcome(s: Setting, c: Corpus, number: nat, st: Progress, corr: Correction)
    requires Summarises(s.world, c)
    ensures var out := Supersede(s, number, st, corr);
            if !CanAsk(s, st, corr) then out == Nothing(st)
            else
              var candidate := SupersessionLinks.Chosen(s.world, st, corr).value;
              && !out.Crashed? && out.st.drawn == st.drawn
              && out.st.used == st.used + {"complex-sup|" + corr.deliveryId + "|" + candidate.id}
              && (out.Made? <==> HasLinkDocument(c, corr, candidate))
              && (out.Made? ==> IsSupersessionQuestion(s, c, number, corr, candidate, out.made))
  {
    hide Summarises, Label, Canonical, Key, ChooseFrom, IsLinkingEdge, SupersessionQuestion, IsSupersessionQuestion,
      First;
    var chosen := SupersessionLinks.Chosen(s.world, st, corr);
    if chosen.Some? {
      var candidate := chosen.value;
      ChainExactness.KeyOfTwo("complex-sup", corr.deliveryId, candidate.id);
      assert SupersessionKey(corr, candidate) == "complex-sup|" + corr.deliveryId + "|" + candidate.id;
      FirstLinkIs(s.world, c, corr, candidate);
      OnlyOneLink(c, corr, candidate);
      DocsAre(s.world, c);
      var found := First(s.world.positive, Links(corr, candidate));
      if i: nat :| i < |PositiveEdges(c)| && IsLinkingEdge(c, corr, candidate, i) && found == [PositiveEdges(c)[i]] {
        SupersessionIsWritten(s, c, number, corr, candidate, i);
      }
    }
  }

  lemma OnlyOneLink(c: Corpus, corr: Correction, candidate: Candidate)
    ensures forall i, j :: IsLinkingEdge(c, corr, candidate, i) && IsLinkingEdge(c, corr, candidate, j) ==> i == j
  {
    hide PositiveEdges, SaysLink;
  }

  lemma DocsAre(w: World, c: Corpus)
    requires Summarises(w, c)
    ensures w.docs == c.docs
  {
  }
}
