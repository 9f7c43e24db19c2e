/** The distractors of a question, near misses that lead away from its answer, and what its wording gives away. */
module Distractors {
  import opened Sequences
  import opened QuestionWorld
  import opened Text
  import opened QuestionSpec
  import opened QuestionTheorems
  import opened QuestionTiers

  /** The first edge that fits, if there is one. */
  lemma {:induction false} FirstIsFirst(edges: seq<Edge>, keep: Edge -> bool)
    ensures if forall i :: 0 <= i < |edges| ==> !keep(edges[i]) then First(edges, keep) == []
            else exists i :: IsFirst(edges, keep, i) && First(edges, keep) == [edges[i]]
  {
    if edges != [] {
      if keep(edges[0]) {
        assert IsFirst(edges, keep, 0);
      } else {
        var rest := edges[1..];
        FirstIsFirst(rest, keep);
        assert forall i :: 0 <= i < |rest| ==> rest[i] == edges[i + 1];
        if !(forall i :: 0 <= i < |rest| ==> !keep(rest[i])) {
          var i :| IsFirst(rest, keep, i) && First(rest, keep) == [rest[i]];
          assert forall j :: 0 < j < i + 1 ==> edges[j] == rest[j - 1];
          assert IsFirst(edges, keep, i + 1);
        } else {
          assert forall i :: 0 < i < |edges| ==> edges[i] == rest[i - 1];
        }
      }
    }
  }

  ghost predicate IsFirst(edges: seq<Edge>, keep: Edge -> bool, i: int) {
    0 <= i < |edges| && keep(edges[i]) && forall j :: 0 <= j < i ==> !keep(edges[j])
  }

  /** Edges that are there exactly when some positive edge leads astray, and then are one that does. */
  ghost predicate IsNearMiss(c: Corpus, found: seq<Edge>, astray: Edge -> bool) {
    if forall e :: e in PositiveEdges(c) ==> !astray(e) then found == []
    else |found| == 1 && found[0] in PositiveEdges(c) && astray(found[0])
  }

  lemma FirstStarting(w: World, c: Corpus, id: string, keep: Edge -> bool, astray: Edge -> bool)
    requires Summarises(w, c) && forall e :: astray(e) <==> e.subject == id && keep(e)
    ensures IsNearMiss(c, First(At(w.startingAt, id), keep), astray)
  {
    var edges := At(w.startingAt, id);
    StartsArePositive(w, c, id);
    FirstIsFirst(edges, keep);
    assert forall e :: e in PositiveEdges(c) && astray(e) ==> e in edges;
  }

  /** Empty document ids are left out of the distractors, and nothing else is. */
  lemma {:induction false} BlanksAreLeftOut(ids: seq<string>)
    ensures "" !in Filter(ids, NonEmpty())
    ensures "" !in ids ==> Filter(ids, NonEmpty()) == ids
    ensures forall id :: id != "" ==> (id in ids <==> id in Filter(ids, NonEmpty()))
  {
    if ids != [] {
      var front, last := ids[..|ids| - 1], ids[|ids| - 1];
      assert ids == front + [last];
      BlanksAreLeftOut(front);
    }
  }

  // ----- multi-hop questions -----

  /** The same relation of the same entity, with another object. */
  function SameRelationElsewhere(b: Edge): Edge -> bool {
    (e: Edge) => e.subject == b.subject && e.pred == b.pred && e.obj != b.obj
  }

  /** Any relation of the same entity, with another object. */
  function ElsewhereFrom(b: Edge): Edge -> bool {
    (e: Edge) => e.subject == b.subject && e.obj != b.obj
  }

  function DocsOf(edges: seq<Edge>): seq<string> {
    if edges == [] then [] else [edges[0].docId] + DocsOf(edges[1..])
  }

  function NamesOf(w: World, edges: seq<Edge>): seq<string> {
    if edges == [] then [] else [CanonicalAnswer(w, edges[0].obj)] + NamesOf(w, edges[1..])
  }

  lemma {:induction false} ListsAgree(w: World, edges: seq<Edge>)
    ensures Ids(edges) == DocsOf(edges) && Answers(w, edges) == NamesOf(w, edges)
  {
    if edges != [] {
      ListsAgree(w, edges[1..]);
    }
  }

  /**
   * A medium question is given one distractor, which answers the same relation of the middle entity with another
   * object, exactly when there is one.
   */
  ghost predicate DistractsMedium(w: World, c: Corpus, a: Accepted, found: seq<Edge>) {
    && |a.chain| == 2 && IsNearMiss(c, found, SameRelationElsewhere(a.chain[1]))
    && a.question.distractorDocIds == DocsOf(found) && a.question.distractorStrings == NamesOf(w, found)
  }

  lemma AttemptWrites(s: Setting, tier: Tier, st: Progress, number: nat)
    requires Attempt(s, tier, st, number).Made?
    ensures var choice := Choose(s, tier, st.drawn);
            choice.Chosen? && Attempt(s, tier, st, number).made
              == Write(s.world, tier, number, choice.chain, choice.wording)
  {
    hide Choose, Write, IsAcceptable;
  }

  lemma {:induction false} WrittenDistractors(w: World, tier: Tier, number: nat, chain: seq<Edge>, wording: Wording)
    requires chain != []
    ensures var a := Write(w, tier, number, chain, wording);
            && a.chain == chain && a.question.distractorDocIds == wording.siblingDocs
            && a.question.distractorStrings == NamesOf(w, wording.siblings)
  {
    ListsAgree(w, wording.siblings);
  }

  lemma MediumChoiceMisses(s: Setting, c: Corpus, drawn: nat) returns (found: seq<Edge>)
    requires Summarises(s.world, c) && ChooseMedium(s, drawn).Chosen?
    ensures var choice := ChooseMedium(s, drawn);
            && |choice.chain| == 2 && IsNearMiss(c, found, SameRelationElsewhere(choice.chain[1]))
            && choice.wording.siblings == found && choice.wording.siblingDocs == DocsOf(found)
  {
    hide Summarises, MediumText, IsNearMiss;
    var choice := ChooseMedium(s, drawn);
    var a, b := choice.chain[0], choice.chain[1];
    ContinuationsAre(s.world, c, a, [a.docId]);
    found := First(At(s.world.startingAt, a.obj), Rival(b.pred, b.obj));
    FirstStarting(s.world, c, a.obj, Rival(b.pred, b.obj), SameRelationElsewhere(b));
    ListsAgree(s.world, found);
  }

  lemma MediumDistracts(s: Setting, c: Corpus, st: Progress, number: nat) returns (found: seq<Edge>)
    requires Summarises(s.world, c) && Attempt(s, Medium, st, number).Made?
    ensures DistractsMedium(s.world, c, Attempt(s, Medium, st, number).made, found)
  {
    hide Attempt, ChooseMedium, Write, Summarises, IsNearMiss;
    var choice := ChooseMedium(s, st.drawn);
    AttemptWrites(s, Medium, st, number);
    WrittenDistractors(s.world, Medium, number, choice.chain, choice.wording);
    found := MediumChoiceMisses(s, c, st.drawn);
  }

  /**
   * A hard question is given up to two: one leaves the first middle entity for another object than the chain does,
   * one the second, each exactly when there is such an edge.
   */
  ghost predicate DistractsHard(w: World, c: Corpus, a: Accepted, first: seq<Edge>, second: seq<Edge>) {
    && |a.chain| == 3
    && IsNearMiss(c, first, ElsewhereFrom(a.chain[1])) && IsNearMiss(c, second, ElsewhereFrom(a.chain[2]))
    && a.question.distractorDocIds == Filter(DocsOf(first + second), NonEmpty())
    && a.question.distractorStrings == NamesOf(w, first + second)
  }

  lemma HardChoiceMisses(s: Setting, c: Corpus, drawn: nat) returns (first: seq<Edge>, second: seq<Edge>)
    requires Summarises(s.world, c) && ChooseHard(s, drawn).Chosen?
    ensures var choice := ChooseHard(s, drawn);
            && |choice.chain| == 3
            && IsNearMiss(c, first, ElsewhereFrom(choice.chain[1]))
            && IsNearMiss(c, second, ElsewhereFrom(choice.chain[2]))
            && choice.wording.siblings == first + second
            && choice.wording.siblingDocs == Filter(DocsOf(first + second), NonEmpty())
  {
    hide Summarises, HardText, IsNearMiss;
    var choice := ChooseHard(s, drawn);
    var a, b, e := choice.chain[0], choice.chain[1], choice.chain[2];
    ContinuationsAre(s.world, c, a, [a.docId]);
    ContinuationsAre(s.world, c, b, [a.docId, b.docId]);
    first := First(At(s.world.startingAt, a.obj), EndsElsewhere(b.obj));
    second := First(At(s.world.startingAt, b.obj), EndsElsewhere(e.obj));
    FirstStarting(s.world, c, a.obj, EndsElsewhere(b.obj), ElsewhereFrom(b));
    FirstStarting(s.world, c, b.obj, EndsElsewhere(e.obj), ElsewhereFrom(e));
    ListsAgree(s.world, first + second);
  }

  lemma HardDistracts(s: Setting, c: Corpus, st: Progress, number: nat) returns (first: seq<Edge>, second: seq<Edge>)
    requires Summarises(s.world, c) && Attempt(s, Hard, st, number).Made?
    ensures DistractsHard(s.world, c, Attempt(s, Hard, st, number).made, first, second)
  {
    hide Attempt, ChooseHard, Write, Summarises, IsNearMiss;
    var choice := ChooseHard(s, st.drawn);
    AttemptWrites(s, Hard, st, number);
    WrittenDistractors(s.world, Hard, number, choice.chain, choice.wording);
    first, second := HardChoiceMisses(s, c, st.drawn);
  }

  // ----- easy and supersession questions -----

  /** An easy question's distractor says the same of the same subject, with another object. */
  lemma EasyDistracts(s: Setting, number: nat, st: Progress)
    requires EasyAttempt(s, number, st).Made?
    ensures var q, edges := EasyAttempt(s, number, st).made.question, EasyEdges(s.world);
            var r := PickEdge(s, st.drawn, edges);
            if forall e :: e in edges ==> !SameRelationElsewhere(r)(e) then q.distractorStrings == []
            else exists e :: e in edges && SameRelationElsewhere(r)(e)
                   && q.distractorStrings == [CanonicalAnswer(s.world, e.obj)]
  {
    var edges := EasyEdges(s.world);
    var r := PickEdge(s, st.drawn, edges);
    FirstIsFirst(edges, Sibling(r));
    if i :| IsFirst(edges, Sibling(r), i) && First(edges, Sibling(r)) == [edges[i]] {
      assert edges[i] in edges && SameRelationElsewhere(r)(edges[i]);
      assert Answers(s.world, [edges[i]]) == [CanonicalAnswer(s.world, edges[i].obj)] by {
        assert [edges[i]][1..] == [];
      }
    }
  }

  /** Another delivery's link of the same kind, to another object. */
  function LinkElsewhere(corr: Correction, candidate: Candidate): Edge -> bool {
    (e: Edge) =>
      && e.pred == (if candidate.kind == "vendor" then "from_vendor" else "for_project")
      && e.subject != corr.deliveryId && e.obj != candidate.id
  }

  /**
   * A supersession question leads away to the overturned document, which comes first, and to another delivery of
   * another vendor or project, exactly when there is one.
   */
  lemma SupersessionDistracts(s: Setting, c: Corpus, number: nat, corr: Correction, candidate: Candidate, link: Edge)
      returns (found: seq<Edge>)
    requires Summarises(s.world, c)
    ensures IsNearMiss(c, found, LinkElsewhere(corr, candidate))
    ensures var q := SupersessionQuestion(s, number, corr, candidate, link).question;
            && q.distractorDocIds == Filter([corr.incorrectDocId] + DocsOf(found), NonEmpty())
            && Filter(NamesOf(s.world, found), NonEmpty()) <= q.distractorStrings
  {
    found := First(s.world.positive, LinksElsewhere(corr, candidate));
    FirstIsFirst(s.world.positive, LinksElsewhere(corr, candidate));
    assert forall e :: LinksElsewhere(corr, candidate)(e) == LinkElsewhere(corr, candidate)(e);
    ListsAgree(s.world, found);
  }

  // ----- the wording -----

  /**
   * Two chains a question is worded alike for: they ask for the same relations, beginning at an entity of the same
   * name.
   */
  ghost predicate AskAlike(w: World, tier: Tier, a: seq<Edge>, b: seq<Edge>) {
    && |a| == |b| > 0 && Label(w, a[0].subject) == Label(w, b[0].subject)
    && a[|a| - 1].pred == b[|b| - 1].pred && (tier.Medium? ==> a[0].pred == b[0].pred)
  }

  lemma WordedByChoice(s: Setting, tier: Tier, drawn: nat)
    requires Choose(s, tier, drawn).Chosen?
    ensures var choice := Choose(s, tier, drawn);
            && |choice.chain| == (if tier.Hard? then 3 else 2)
            && choice.wording.text == if tier.Hard? then HardText(s.world, choice.chain[0], choice.chain[2])
                                      else MediumText(s.world, choice.chain[0], choice.chain[1])
  {
    hide HardText, MediumText, First, Continuations;
  }

  /**
   * The wording of a multi-hop question names its starting entity, and depends on nothing else but the relations
   * asked for: neither the answer nor a middle entity can be told from it.
   */
  lemma WordingTellsNothing(s: Setting, tier: Tier, st: Progress, number: nat, st': Progress, number': nat)
    requires MultiHop(tier) && Attempt(s, tier, st, number).Made? && Attempt(s, tier, st', number').Made?
    ensures var a, b := Attempt(s, tier, st, number).made, Attempt(s, tier, st', number').made;
            && (AskAlike(s.world, tier, a.chain, b.chain) ==> a.question.question == b.question.question)
            && a.chain != [] && Includes(a.question.question, Label(s.world, a.chain[0].subject))
  {
    hide Attempt, Choose, HardText, MediumText, Write, Includes;
    var choice := Choose(s, tier, st.drawn);
    AttemptWrites(s, tier, st, number);
    AttemptWrites(s, tier, st', number');
    WordedByChoice(s, tier, st.drawn);
    WordedByChoice(s, tier, st'.drawn);
    WrittenText(s.world, tier, number, choice.chain, choice.wording);
    WrittenText(s.world, tier, number', Choose(s, tier, st'.drawn).chain, Choose(s, tier, st'.drawn).wording);
    TextNamesStart(s.world, choice.chain[0], choice.chain[|choice.chain| - 1]);
    TextsAlike(s.world, choice.chain, Choose(s, tier, st'.drawn).chain);
  }

  lemma WrittenText(w: World, tier: Tier, number: nat, chain: seq<Edge>, wording: Wording)
    requires chain != []
    ensures var a := Write(w, tier, number, chain, wording); a.chain == chain && a.question.question == wording.text
  {
  }

  lemma IncludedBetween(before: string, needle: string, after: string)
    ensures Includes(before + needle + after, needle)
  {
    assert OccursAt(before + needle + after, needle, |before|);
  }

  lemma TextNamesStart(w: World, a: Edge, last: Edge)
    ensures Includes(MediumText(w, a, last), Label(w, a.subject)) && Includes(HardText(w, a, last), Label(w, a.subject))
  {
    hide Includes, NounFor, Label;
    var medium := "Which " + NounFor(last.pred) + " is reached from the " + NounFor(a.pred) + " that ";
    var hard := ", follow two intermediate records: which " + NounFor(last.pred)
      + " is reached at the end of that chain?";
    IncludedBetween(medium, Label(w, a.subject), " is recorded with?");
    IncludedBetween("Starting from ", Label(w, a.subject), hard);
    assert HardText(w, a, last) == "Starting from " + Label(w, a.subject) + hard;
  }

  lemma TextsAlike(w: World, a: seq<Edge>, b: seq<Edge>)
    requires |a| == |b| >= 2
    ensures AskAlike(w, Medium, a, b) ==> MediumText(w, a[0], a[|a| - 1]) == MediumText(w, b[0], b[|b| - 1])
    ensures AskAlike(w, Hard, a, b) ==> HardText(w, a[0], a[|a| - 1]) == HardText(w, b[0], b[|b| - 1])
  {
  }

  /** Nor do the other questions tell their answer. */
  lemma SingleWordingTellsNothing(w: World, number: nat, r: Edge, r': Edge, docId: string, docId': string)
    requires r.pred == r'.pred && Label(w, r.subject) == Label(w, r'.subject)
    ensures EasyQuestion(w, number, r, docId).question.question == EasyQuestion(w, number, r', docId').question.question
    ensures NegativeQuestion(w, number, r).question.question == NegativeQuestion(w, number, r').question.question
  {
  }
}
