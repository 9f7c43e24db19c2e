/** The whole generator against the whole linter on a corpus whose documents name what they speak of. */
module GroundedTiers {
  import opened Sequences
  import opened Text
  import opened QuestionWorld
  import opened QuestionSpec
  import opened QuestionTheorems
  import opened QuestionTiers
  import opened GroundTruthLint
  import opened LintTheorems
  import opened TierTheorems
  import Rng

  ghost predicate HasDistinctIds(docs: seq<Document>) {
    forall i, j :: 0 <= i < j < |docs| ==> docs[i].id != docs[j].id
  }

  /** A document holds the names of the entities it declares. */
  ghost predicate NamesDeclared(c: Corpus) {
    forall d, id :: d in c.docs && id in d.entityIds ==> NamedIn(d.text, NameIn(c.names, id))
  }

  /** The correcting memo names the delivery, and its assertion where that is short enough to be looked for. */
  ghost predicate CorrectionsName(c: Corpus) {
    forall corr, d :: corr in c.corrections && d in c.docs && d.id == corr.correctDocId ==>
      && NamedIn(d.text, NameIn(c.names, corr.deliveryId))
      && (IsDescriptive(corr.correctAssertion) || NamedIn(d.text, corr.correctAssertion))
  }

  /** A note of absence names both the subject and what is not recorded for it. */
  ghost predicate NegativesName(c: Corpus) {
    forall e, d :: e in EveryEdge(c.entries) && e.pred == "no_record_for" && d in c.docs && d.id == e.docId ==>
      NamedIn(d.text, NameIn(c.names, e.subject)) && NamedIn(d.text, NameIn(c.names, e.obj))
  }

  /** Every document names what its relations, its declarations, its correction or its note of absence speak of. */
  ghost predicate IsFullyGrounded(c: Corpus) {
    && IsWellFormed(c) && IsGrounded(c) && HasDistinctIds(c.docs)
    && NamesDeclared(c) && CorrectionsName(c) && NegativesName(c)
  }

  /** The hop passes the linter when its document is there and names both ends. */
  lemma {:induction false} NamedHop(docs: seq<Document>, hop: Hop, d: Document)
    requires DocOf(docs, hop.docId) == Some(d)
    requires Includes(Lower(d.text), Normalise(hop.from))
    requires IsDescriptive(hop.to) || NamedIn(d.text, hop.to)
    ensures UngroundedHop(docs, hop) == []
  {
    if NamedIn(d.text, hop.to) {
      NamedFormsAreIncluded(d.text, hop.to);
    }
  }

  lemma {:induction false} OneHop(docs: seq<Document>, hop: Hop)
    requires UngroundedHop(docs, hop) == []
    ensures UngroundedHops(docs, [hop]) == []
  {
    HopsAreGrounded(docs, [hop]);
  }

  lemma {:induction false} TwoHops(docs: seq<Document>, a: Hop, b: Hop)
    requires UngroundedHop(docs, a) == [] && UngroundedHop(docs, b) == []
    ensures UngroundedHops(docs, [a, b]) == []
  {
    HopsAreGrounded(docs, [a, b]);
  }

  lemma {:induction false} LastHolds(docs: seq<Document>, ids: seq<string>, d: Document, name: string)
    requires ids != [] && DocOf(docs, ids[|ids| - 1]) == Some(d) && NamedIn(d.text, name)
    ensures Includes(Lower(Evidence(docs, ids)), Lower(Canonical(name)))
  {
    NamedFormsAreIncluded(d.text, name);
    EvidenceIncludesLast(docs, ids, Lower(Canonical(name)));
  }

  // ----- easy -----

  lemma MentionedForm(text: string, name: string)
    requires TextMentions(text, name)
    ensures Includes(Lower(text), Normalise(name))
  {
    var bare := StripPt(name);
    if NamedIn(text, name) {
      NamedFormsAreIncluded(text, name);
    } else {
      BareForm(bare);
      IncludesTransitive(Lower(text), Lower(bare), Normalise(name));
    }
  }

  lemma {:induction false} BareForm(bare: string)
    ensures Includes(Lower(bare), Lower(Trim(StripWord(bare, KIND_WORDS))))
  {
    var core := StripWord(bare, KIND_WORDS);
    StripWordIncluded(bare, KIND_WORDS);
    TrimIncluded(core);
    IncludesTransitive(bare, core, Trim(core));
    LowerIncludes(bare, Trim(core));
  }

  lemma {:induction false} SameDocument(docs: seq<Document>, d: Document)
    requires HasDistinctIds(docs) && d in docs
    ensures DocOf(docs, d.id) == Some(d)
  {
    DocOfSome(docs, d.id);
    var i :| 0 <= i < |docs| && docs[i] == d;
    var j :| 0 <= j < |docs| && docs[j] == DocOf(docs, d.id).value;
  }

  /** A document that mentions an entity holds the form of its name that the linter looks for. */
  lemma MentionHolds(c: Corpus, d: Document, id: string)
    requires NamesDeclared(c) && d in c.docs && Mentions(d, c.names, id)
    ensures Includes(Lower(d.text), Normalise(NameIn(c.names, id)))
  {
    if id in d.entityIds {
      NamedFormsAreIncluded(d.text, NameIn(c.names, id));
    } else {
      MentionedForm(d.text, c.names[id]);
    }
  }

  lemma EasyDocument(w: World, c: Corpus, r: Edge, docId: string) returns (d: Document)
    requires Summarises(w, c) && HasDistinctIds(c.docs) && NamesDeclared(c)
    requires docId in Filter(At(w.docsForEntity, r.subject), Declaring(w.docs, r.obj))
    ensures DocOf(c.docs, docId) == Some(d) && Includes(Lower(d.text), Normalise(NameIn(c.names, r.subject)))
    ensures NamedIn(d.text, NameIn(c.names, r.obj))
  {
    d := ListedMentions(c.docs, c.names, r.subject, docId);
    SameDocument(c.docs, d);
    MentionHolds(c, d, r.subject);
  }

  lemma EasyQuestionIsAnchored(w: World, c: Corpus, number: nat, r: Edge, docId: string)
    requires Summarises(w, c) && HasDistinctIds(c.docs) && NamesDeclared(c)
    requires docId in Filter(At(w.docsForEntity, r.subject), Declaring(w.docs, r.obj))
    ensures IsAnchored(c.docs, EasyQuestion(w, number, r, docId).question)
  {
    hide Summarises, NamesDeclared, Normalise, Canonical, UngroundedHops, UngroundedHop, Evidence, DocOf;
    var q := EasyQuestion(w, number, r, docId).question;
    var d := EasyDocument(w, c, r, docId);
    NamesAgree(w, c, r.subject);
    NamesAgree(w, c, r.obj);
    NamedHop(c.docs, q.hopChain[0], d);
    OneHop(c.docs, q.hopChain[0]);
    LastHolds(c.docs, q.evidenceDocIds, d, NameIn(c.names, r.obj));
  }

  lemma NamesAgree(w: World, c: Corpus, id: string)
    requires Summarises(w, c)
    ensures Label(w, id) == NameIn(c.names, id)
  {
  }

  lemma EasyIsAnchored(s: Setting, c: Corpus, number: nat, st: Progress)
    requires IsFullyGrounded(c) && Summarises(s.world, c) && EasyAttempt(s, number, st).Made?
    ensures IsAnchored(c.docs, EasyAttempt(s, number, st).made.question)
  {
    hide IsAnchored, Summarises, EasyQuestion, NamesDeclared;
    var w := s.world;
    var r := PickEdge(s, st.drawn, EasyEdges(w));
    var docs := Filter(At(w.docsForEntity, r.subject), Declaring(w.docs, r.obj));
    assert docs[0] in docs;
    EasyQuestionIsAnchored(w, c, number, r, docs[0]);
  }

  // ----- supersession -----

  lemma LinkNames(w: World, c: Corpus, link: Edge) returns (d: Document)
    requires Summarises(w, c) && IsGrounded(c) && link in w.positive && DocOf(c.docs, link.docId).Some?
    ensures DocOf(c.docs, link.docId) == Some(d)
    ensures NamedIn(d.text, NameIn(c.names, link.subject)) && NamedIn(d.text, NameIn(c.names, link.obj))
  {
    DocOfSome(c.docs, link.docId);
    d := DocOf(c.docs, link.docId).value;
  }

  lemma MemoNames(c: Corpus, corr: Correction) returns (d: Document)
    requires CorrectionsName(c) && corr in c.corrections && DocOf(c.docs, corr.correctDocId).Some?
    ensures DocOf(c.docs, corr.correctDocId) == Some(d) && NamedIn(d.text, NameIn(c.names, corr.deliveryId))
    ensures IsDescriptive(corr.correctAssertion) || NamedIn(d.text, corr.correctAssertion)
  {
    DocOfSome(c.docs, corr.correctDocId);
    d := DocOf(c.docs, corr.correctDocId).value;
  }

  lemma SupersessionQuestionIsAnchored(
      s: Setting, c: Corpus, number: nat, corr: Correction, candidate: Candidate, link: Edge)
    requires IsFullyGrounded(c) && Summarises(s.world, c) && corr in c.corrections && link in s.world.positive
    requires Links(corr, candidate)(link)
    requires DocOf(c.docs, corr.correctDocId).Some? && DocOf(c.docs, link.docId).Some?
    ensures IsAnchored(c.docs, SupersessionQuestion(s, number, corr, candidate, link).question)
  {
    hide Summarises, IsWellFormed, NamesDeclared, CorrectionsName, NegativesName, IsGrounded, HasDistinctIds, Normalise,
      Canonical, UngroundedHops, UngroundedHop, Evidence, DocOf, IsDescriptive, NamedIn;
    var q := SupersessionQuestion(s, number, corr, candidate, link).question;
    var memo := MemoNames(c, corr);
    var d := LinkNames(s.world, c, link);
    NamesAgree(s.world, c, corr.deliveryId);
    NamesAgree(s.world, c, candidate.id);
    NamedFormsAreIncluded(memo.text, q.hopChain[0].from);
    NamedFormsAreIncluded(d.text, q.hopChain[1].from);
    NamedHop(c.docs, q.hopChain[0], memo);
    NamedHop(c.docs, q.hopChain[1], d);
    TwoHops(c.docs, q.hopChain[0], q.hopChain[1]);
    LastHolds(c.docs, q.evidenceDocIds, d, NameIn(c.names, candidate.id));
  }

  lemma SupersedeIsAnchored(s: Setting, c: Corpus, number: nat, st: Progress, corr: Correction)
    requires IsFullyGrounded(c) && Summarises(s.world, c) && corr in c.corrections
    requires Supersede(s, number, st, corr).Made?
    ensures IsAnchored(c.docs, Supersede(s, number, st, corr).made.question)
  {
    hide SupersessionQuestion, IsAnchored, IsFullyGrounded;
    var picks := Candidates(corr);
    var candidate := ChooseFrom(s.world, picks, |st.used| % |picks|, 0).value;
    FirstFits(s.world.positive, Links(corr, candidate));
    var link := First(s.world.positive, Links(corr, candidate));
    SupersessionQuestionIsAnchored(s, c, number, corr, candidate, link[0]);
  }

  lemma SupersessionIsAnchored(s: Setting, c: Corpus, number: nat, st: Progress)
    requires IsFullyGrounded(c) && Summarises(s.world, c) && SupersessionAttempt(s, number, st).Made?
    ensures IsAnchored(c.docs, SupersessionAttempt(s, number, st).made.question)
  {
    hide IsAnchored, Supersede, IsFullyGrounded;
    var corrections := s.world.corrections;
    SupersedeIsAnchored(
      s, c, number, st.(drawn := st.drawn + 1), corrections[Rng.Below(s.words(st.drawn), |corrections|)]);
  }

  // ----- negative evidence, disambiguation, multi-hop -----

  lemma NegativeIsAnchored(s: Setting, c: Corpus, number: nat, st: Progress)
    requires IsFullyGrounded(c) && Summarises(s.world, c) && NegativeAttempt(s, number, st).Made?
    ensures IsAnchored(c.docs, NegativeAttempt(s, number, st).made.question)
  {
    hide IsAnchored, NegativeQuestion;
    var edges := At(s.world.byPredicate, "no_record_for");
    var neg := PickEdge(s, st.drawn, edges);
    assert neg in edges;
    NegativeQuestionIsAnchored(s.world, c, number, neg);
  }

  lemma NegativeQuestionIsAnchored(w: World, c: Corpus, number: nat, neg: Edge)
    requires IsFullyGrounded(c) && Summarises(w, c) && neg in At(w.byPredicate, "no_record_for")
    ensures IsAnchored(c.docs, NegativeQuestion(w, number, neg).question)
  {
    hide Normalise, UngroundedHops, UngroundedHop, DocOf, IsDescriptive, NamedIn;
    var q := NegativeQuestion(w, number, neg).question;
    IndexedIsGrounded(w, c, "no_record_for", neg);
    DocOfSome(c.docs, neg.docId);
    var d := DocOf(c.docs, neg.docId).value;
    assert At(w.byPredicate, "no_record_for") == Filter(EveryEdge(c.entries), HasPredicate("no_record_for"));
    NamedFormsAreIncluded(d.text, q.hopChain[0].from);
    NamedHop(c.docs, q.hopChain[0], d);
    OneHop(c.docs, q.hopChain[0]);
  }

  lemma {:induction false} HopsAnchored(s: Setting, c: Corpus, tier: Tier, limit: nat, st: Progress, number: nat)
    requires IsFullyGrounded(c) && Summarises(s.world, c) && MultiHop(tier) && Build(s, tier, st, number, limit).Made?
    ensures IsAnchored(c.docs, Build(s, tier, st, number, limit).made.question)
    ensures IsAnchored(c.docs, Retag(Build(s, tier, st, number, limit).made.question))
  {
    BuildIsSound(s, c, tier, limit, st, number);
    SoundIsAnchored(s.world, c, tier, Build(s, tier, st, number, limit).made);
  }

  // ----- the whole run -----

  ghost function Anchored(c: Corpus): Judgement {
    (q: Question) => Settles(c, q) && IsAnchored(c.docs, q)
  }

  lemma EasyAnchored(s: Setting, c: Corpus)
    requires IsFullyGrounded(c) && Summarises(s.world, c)
    ensures EasyMakes(s, Anchored(c))
  {
    hide Settles, IsAnchored, Summarises, EasyAttempt, IsFullyGrounded;
    forall number: nat, st | EasyAttempter(s, number)(st).Made?
      ensures Anchored(c)(EasyAttempter(s, number)(st).made.question)
    {
      EasySettles(s, c, number, st);
      EasyIsAnchored(s, c, number, st);
    }
  }

  lemma SupersessionAnchored(s: Setting, c: Corpus, number: nat)
    requires IsFullyGrounded(c) && Summarises(s.world, c)
    ensures AttemptsAre(SupersessionAttempter(s, number), Anchored(c))
  {
    hide Settles, IsAnchored, SupersessionAttempt, IsFullyGrounded;
    forall st | SupersessionAttempter(s, number)(st).Made?
      ensures Anchored(c)(SupersessionAttempter(s, number)(st).made.question)
    {
      SupersessionSettles(s, c, number, st);
      SupersessionIsAnchored(s, c, number, st);
    }
  }

  lemma NegativeAnchored(s: Setting, c: Corpus, number: nat)
    requires IsFullyGrounded(c) && Summarises(s.world, c)
    ensures AttemptsAre(NegativeAttempter(s, number), Anchored(c))
  {
    hide Settles, IsAnchored, NegativeAttempt, IsWellFormed;
    forall st | NegativeAttempter(s, number)(st).Made?
      ensures Anchored(c)(NegativeAttempter(s, number)(st).made.question)
    {
      NegativeSettles(s, c, number, st);
      NegativeIsAnchored(s, c, number, st);
    }
  }

  lemma DisambiguationAnchored(s: Setting, c: Corpus, number: nat, limit: nat)
    requires IsFullyGrounded(c) && Summarises(s.world, c)
    ensures AttemptsAre(MediumAttempter(s, number, limit), Retagging(Anchored(c)))
  {
    hide Settles, IsAnchored, Build, IsWellFormed;
    forall st | MediumAttempter(s, number, limit)(st).Made?
      ensures Anchored(c)(Retag(MediumAttempter(s, number, limit)(st).made.question))
    {
      MediumSettles(s, c, limit, st, number);
      HopsAnchored(s, c, Medium, limit, st, number);
    }
  }

  lemma ComplexAnchored(s: Setting, c: Corpus, limits: Limits)
    requires IsFullyGrounded(c) && Summarises(s.world, c)
    ensures ComplexMakes(s, limits, Anchored(c))
  {
    hide AttemptsAre, IsFullyGrounded, Summarises;
    forall number: nat
      ensures AttemptsAre(SupersessionAttempter(s, number), Anchored(c))
      ensures AttemptsAre(NegativeAttempter(s, number), Anchored(c))
      ensures AttemptsAre(MediumAttempter(s, number, limits.medium), Retagging(Anchored(c)))
    {
      SupersessionAnchored(s, c, number);
      NegativeAnchored(s, c, number);
      DisambiguationAnchored(s, c, number, limits.medium);
    }
  }

  lemma MultiHopAnchored(s: Setting, c: Corpus, tier: Tier, limit: nat)
    requires IsFullyGrounded(c) && Summarises(s.world, c) && MultiHop(tier)
    ensures BuildsAre(BuilderOf(s, tier, limit), Anchored(c))
  {
    hide Settles, IsAnchored, Summarises, IsWellFormed, Build, IsSound;
    forall st, number | BuilderOf(s, tier, limit)(st, number).Made?
      ensures Anchored(c)(BuilderOf(s, tier, limit)(st, number).made.question)
    {
      HopsSettle(s, c, tier, limit, st, number);
      HopsAnchored(s, c, tier, limit, st, number);
    }
  }

  lemma MakesAnchored(s: Setting, c: Corpus, limits: Limits)
    requires IsFullyGrounded(c) && Summarises(s.world, c)
    ensures Makes(s, limits, Anchored(c))
  {
    hide BuildsAre, EasyMakes, ComplexMakes, IsFullyGrounded, Summarises;
    EasyAnchored(s, c);
    ComplexAnchored(s, c, limits);
    MultiHopAnchored(s, c, Medium, limits.medium);
    MultiHopAnchored(s, c, Hard, limits.hard);
  }

  /**
   * On such a corpus, for every random stream and whatever numbers of questions are wanted of the four tiers, the
   * linter can report a question of the whole output for its wording only.
   */
  lemma {:induction false} GroundedRunPassesLint(
      s: Setting, c: Corpus, rules: Rules, limits: Limits, st: Progress, wants: seq<(Tier, nat)>)
    requires IsFullyGrounded(c) && Summarises(s.world, c) && FillTiers(s, limits, st, wants).Filled?
    ensures forall v :: v in Report(c.docs, rules, Questions(FillTiers(s, limits, st, wants).made)) ==>
              OnlySurface()(v.check)
  {
    hide Settles, IsAnchored, Makes, FillTiers, Report, Passes;
    MakesAnchored(s, c, limits);
    forall q | Anchored(c)(q) ensures Passes(c.docs, rules, q, OnlySurface()) {
      AnchoredPasses(c, rules, q);
    }
    RunPasses(s, c.docs, rules, limits, st, wants, Anchored(c), OnlySurface());
  }
}
