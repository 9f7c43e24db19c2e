/** The whole generator against the whole linter: all four tiers. */
module TierTheorems {
  import opened Sequences
  import opened QuestionWorld
  import opened QuestionSpec
  import opened QuestionTheorems
  import opened QuestionTiers
  import opened GroundTruthLint
  import opened LintTheorems
  import Rng

  lemma {:induction false} Exists(docs: seq<Document>, id: string)
    requires DocOf(docs, id).Some?
    ensures exists d :: d in docs && d.id == id
  {
    DocOfSome(docs, id);
  }

  lemma EasySettles(s: Setting, c: Corpus, number: nat, st: Progress)
    requires Summarises(s.world, c) && EasyAttempt(s, number, st).Made?
    ensures Settles(c, EasyAttempt(s, number, st).made.question)
  {
    var w := s.world;
    var r := PickEdge(s, st.drawn, EasyEdges(w));
    var docs := Filter(At(w.docsForEntity, r.subject), Declaring(w.docs, r.obj));
    assert docs[0] in docs;
    Exists(w.docs, docs[0]);
  }

  lemma LateIsPositive()
    ensures !IsNegative("was_late")
  {
    InnocentIsPositive("was_late");
  }

  lemma LinkIsPositive(candidate: Candidate)
    ensures !IsNegative(LinkingPredicate(candidate))
  {
    assert POSITIVE_CHAIN_PREDICATES[0] == "from_vendor" && POSITIVE_CHAIN_PREDICATES[6] == "for_project";
    AllowListIsPositive(LinkingPredicate(candidate));
  }

  lemma SupersessionQuestionSettles(
      s: Setting, c: Corpus, number: nat, corr: Correction, candidate: Candidate, link: Edge)
    requires s.world.docs == c.docs && |CanonicalAnswer(s.world, candidate.id)| >= 5
    requires DocOf(c.docs, corr.correctDocId).Some? && DocOf(c.docs, link.docId).Some?
    ensures Settles(c, SupersessionQuestion(s, number, corr, candidate, link).question)
  {
    hide Canonical, LinkingPredicate, NegativeHops, IsNegative;
    var q := SupersessionQuestion(s, number, corr, candidate, link).question;
    LateIsPositive();
    LinkIsPositive(candidate);
    NoNegativeHops(q.hopChain);
    Exists(c.docs, corr.correctDocId);
    Exists(c.docs, link.docId);
  }

  lemma SupersedeSettles(s: Setting, c: Corpus, number: nat, st: Progress, corr: Correction)
    requires s.world.docs == c.docs && Supersede(s, number, st, corr).Made?
    ensures Settles(c, Supersede(s, number, st, corr).made.question)
  {
    hide SupersessionQuestion;
    var picks := Candidates(corr);
    var candidate := ChooseFrom(s.world, picks, |st.used| % |picks|, 0).value;
    var link := First(s.world.positive, Links(corr, candidate));
    SupersessionQuestionSettles(s, c, number, corr, candidate, link[0]);
  }

  lemma NegativeSettles(s: Setting, c: Corpus, number: nat, st: Progress)
    requires IsWellFormed(c) && Summarises(s.world, c) && NegativeAttempt(s, number, st).Made?
    ensures Settles(c, NegativeAttempt(s, number, st).made.question)
  {
    hide Summarises, IsWellFormed, Settles, NegativeQuestion;
    var neg := PickEdge(s, st.drawn, At(s.world.byPredicate, "no_record_for"));
    IndexedIsGrounded(s.world, c, "no_record_for", neg);
    NegativeQuestionSettles(s.world, c, number, neg);
  }

  /** The document of an edge found by predicate exists. */
  lemma IndexedIsGrounded(w: World, c: Corpus, pred: string, e: Edge)
    requires IsWellFormed(c) && Summarises(w, c) && e in At(w.byPredicate, pred)
    ensures exists d :: d in c.docs && d.id == e.docId
  {
    assert At(w.byPredicate, pred) == Filter(EveryEdge(c.entries), HasPredicate(pred));
    EdgesComeFromEntries(c);
    assert e.docId in DocIds(c);
  }

  lemma NegativeQuestionSettles(w: World, c: Corpus, number: nat, neg: Edge)
    requires exists d :: d in c.docs && d.id == neg.docId
    ensures Settles(c, NegativeQuestion(w, number, neg).question)
  {
  }

  lemma {:induction false} MediumSettles(s: Setting, c: Corpus, limit: nat, st: Progress, number: nat)
    requires IsWellFormed(c) && Summarises(s.world, c) && Build(s, Medium, st, number, limit).Made?
    ensures var q := Build(s, Medium, st, number, limit).made.question; Settles(c, q) && Settles(c, Retag(q))
  {
    BuildIsSound(s, c, Medium, limit, st, number);
    SoundSettles(s.world, c, Medium, Build(s, Medium, st, number, limit).made);
  }

  // ----- from attempts to the whole run, for any judgement of questions -----

  type Judgement = Question -> bool

  function Retag(q: Question): Question {
    q.(tier := Complex, submechanism := "disambiguation")
  }

  function Retagging(good: Judgement): Judgement {
    (q: Question) => good(Retag(q))
  }

  ghost predicate AttemptsAre(attempt: Attempter, good: Judgement) {
    forall st :: attempt(st).Made? ==> good(attempt(st).made.question)
  }

  lemma {:induction false} RepeatIs(attempt: Attempter, good: Judgement, st: Progress, left: nat)
    requires AttemptsAre(attempt, good)
    ensures var r := Repeat(attempt, st, left); r.Made? ==> good(r.made.question)
    decreases left
  {
    if left > 0 && attempt(st).Nothing? {
      RepeatIs(attempt, good, attempt(st).st, left - 1);
    }
  }

  ghost predicate BuildsAre(build: Builder, good: Judgement) {
    forall st, number :: build(st, number).Made? ==> good(build(st, number).made.question)
  }

  ghost predicate AllAre(made: seq<Accepted>, good: Judgement) {
    forall i :: 0 <= i < |made| ==> good(made[i].question)
  }

  lemma {:induction false} FillIs(build: Builder, good: Judgement, st: Progress, want: nat, made: nat, tries: nat)
    requires BuildsAre(build, good)
    ensures var f := Fill(build, st, want, made, tries); f.Filled? ==> AllAre(f.made, good)
    decreases tries
  {
    if made < want && tries > 0 {
      match build(st, made + 1)
      case Crashed =>
      case Nothing(st') => FillIs(build, good, st', want, made, tries - 1);
      case Made(q, st') => FillIs(build, good, st', want, made + 1, tries - 1);
    }
  }

  ghost predicate EasyMakes(s: Setting, good: Judgement) {
    forall number: nat :: AttemptsAre(EasyAttempter(s, number), good)
  }

  ghost predicate ComplexMakes(s: Setting, limits: Limits, good: Judgement) {
    && (forall number: nat :: AttemptsAre(SupersessionAttempter(s, number), good))
    && (forall number: nat :: AttemptsAre(NegativeAttempter(s, number), good))
    && (forall number: nat :: AttemptsAre(MediumAttempter(s, number, limits.medium), Retagging(good)))
  }

  /** Every mechanism of every tier makes good questions only. */
  ghost predicate Makes(s: Setting, limits: Limits, good: Judgement) {
    && EasyMakes(s, good) && ComplexMakes(s, limits, good)
    && BuildsAre(BuilderOf(s, Medium, limits.medium), good) && BuildsAre(BuilderOf(s, Hard, limits.hard), good)
  }

  /** The three mechanisms of the complex tier, one after the other. */
  lemma InTurn(good: Judgement, first: Attempter, second: Attempter, third: Attempter, limits: Limits, st: Progress)
    requires AttemptsAre(first, good) && AttemptsAre(second, good) && AttemptsAre(third, Retagging(good))
    ensures var r := Turns(first, second, third, limits, st); r.Made? ==> good(r.made.question)
  {
    RepeatIs(first, good, st, limits.supersession);
    var r1 := Repeat(first, st, limits.supersession);
    if r1.Nothing? {
      RepeatIs(second, good, r1.st, limits.negative);
      var r2 := Repeat(second, r1.st, limits.negative);
      if r2.Nothing? {
        RepeatIs(third, Retagging(good), r2.st, limits.disambiguation);
        var r3 := Repeat(third, r2.st, limits.disambiguation);
        assert r3.Made? ==> Retagging(good)(r3.made.question) && Retagged(r3).made.question == Retag(r3.made.question);
      }
    }
  }

  lemma EasyBuilds(s: Setting, limits: Limits, good: Judgement)
    requires EasyMakes(s, good)
    ensures BuildsAre(EasyBuilder(s, limits), good)
  {
    forall st, number | EasyBuilder(s, limits)(st, number).Made?
      ensures good(EasyBuilder(s, limits)(st, number).made.question)
    {
      RepeatIs(EasyAttempter(s, number), good, st, limits.easy);
    }
  }

  lemma ComplexBuilds(s: Setting, limits: Limits, good: Judgement)
    requires ComplexMakes(s, limits, good)
    ensures BuildsAre(ComplexBuilder(s, limits), good)
  {
    hide AttemptsAre, Turns;
    forall st, number | ComplexBuilder(s, limits)(st, number).Made?
      ensures good(ComplexBuilder(s, limits)(st, number).made.question)
    {
      InTurn(good, SupersessionAttempter(s, number), NegativeAttempter(s, number),
             MediumAttempter(s, number, limits.medium), limits, st);
    }
  }

  lemma TierBuilds(s: Setting, limits: Limits, good: Judgement, tier: Tier)
    requires Makes(s, limits, good)
    ensures BuildsAre(TierBuilder(s, limits, tier), good)
  {
    hide BuildsAre, EasyMakes, ComplexMakes;
    match tier
    case Easy => EasyBuilds(s, limits, good);
    case Medium =>
    case Hard =>
    case Complex => ComplexBuilds(s, limits, good);
  }

  /** Whatever holds of every question a mechanism makes holds of every question of the whole run. */
  lemma {:induction false} FillTiersAre(
      s: Setting, limits: Limits, good: Judgement, st: Progress, wants: seq<(Tier, nat)>)
    requires Makes(s, limits, good)
    ensures var f := FillTiers(s, limits, st, wants); f.Filled? ==> AllAre(f.made, good)
    decreases |wants|
  {
    hide Makes, BuildsAre;
    if wants != [] {
      var before := FillTiers(s, limits, st, wants[..|wants| - 1]);
      FillTiersAre(s, limits, good, st, wants[..|wants| - 1]);
      if before.Filled? {
        var (tier, want) := wants[|wants| - 1];
        TierBuilds(s, limits, good, tier);
        FillIs(TierBuilder(s, limits, tier), good, before.st, want, 0, want * TRIES_PER_QUESTION);
      }
    }
  }

  // ----- the four checks -----

  ghost function Settled(c: Corpus): Judgement {
    (q: Question) => Settles(c, q)
  }

  lemma EasySettled(s: Setting, c: Corpus)
    requires Summarises(s.world, c)
    ensures EasyMakes(s, Settled(c))
  {
    hide Settles, Summarises, EasyAttempt;
    forall number: nat, st | EasyAttempter(s, number)(st).Made?
      ensures Settles(c, EasyAttempter(s, number)(st).made.question)
    {
      EasySettles(s, c, number, st);
    }
  }

  lemma SupersessionSettles(s: Setting, c: Corpus, number: nat, st: Progress)
    requires s.world.docs == c.docs && SupersessionAttempt(s, number, st).Made?
    ensures Settles(c, SupersessionAttempt(s, number, st).made.question)
  {
    hide Settles, Supersede;
    var corrections := s.world.corrections;
    SupersedeSettles(s, c, number, st.(drawn := st.drawn + 1),
                     corrections[Rng.Below(s.words(st.drawn), |corrections|)]);
  }

  lemma SupersessionSettled(s: Setting, c: Corpus, number: nat)
    requires s.world.docs == c.docs
    ensures AttemptsAre(SupersessionAttempter(s, number), Settled(c))
  {
    hide Settles, SupersessionAttempt;
    forall st | SupersessionAttempter(s, number)(st).Made?
      ensures Settles(c, SupersessionAttempter(s, number)(st).made.question)
    {
      SupersessionSettles(s, c, number, st);
    }
  }

  lemma NegativeSettled(s: Setting, c: Corpus, number: nat)
    requires IsWellFormed(c) && Summarises(s.world, c)
    ensures AttemptsAre(NegativeAttempter(s, number), Settled(c))
  {
    hide Settles, Summarises, NegativeAttempt, IsWellFormed;
    forall st | NegativeAttempter(s, number)(st).Made?
      ensures Settles(c, NegativeAttempter(s, number)(st).made.question)
    {
      NegativeSettles(s, c, number, st);
    }
  }

  lemma DisambiguationSettled(s: Setting, c: Corpus, number: nat, limit: nat)
    requires IsWellFormed(c) && Summarises(s.world, c)
    ensures AttemptsAre(MediumAttempter(s, number, limit), Retagging(Settled(c)))
  {
    hide Settles, Summarises, Build, IsWellFormed;
    forall st | MediumAttempter(s, number, limit)(st).Made?
      ensures Settles(c, Retag(MediumAttempter(s, number, limit)(st).made.question))
    {
      MediumSettles(s, c, limit, st, number);
    }
  }

  lemma ComplexSettled(s: Setting, c: Corpus, limits: Limits)
    requires IsWellFormed(c) && Summarises(s.world, c)
    ensures ComplexMakes(s, limits, Settled(c))
  {
    hide AttemptsAre, IsWellFormed;
    forall number: nat
      ensures AttemptsAre(SupersessionAttempter(s, number), Settled(c))
      ensures AttemptsAre(NegativeAttempter(s, number), Settled(c))
      ensures AttemptsAre(MediumAttempter(s, number, limits.medium), Retagging(Settled(c)))
    {
      SupersessionSettled(s, c, number);
      NegativeSettled(s, c, number);
      DisambiguationSettled(s, c, number, limits.medium);
    }
  }

  /** Whatever the complex tier returns settles the four checks. */
  lemma ComplexSettles(s: Setting, c: Corpus, limits: Limits, st: Progress, number: nat)
    requires IsWellFormed(c) && Summarises(s.world, c)
    ensures var r := BuildComplex(s, limits, st, number); r.Made? ==> Settles(c, r.made.question)
  {
    ComplexSettled(s, c, limits);
    ComplexBuilds(s, limits, Settled(c));
    assert ComplexBuilder(s, limits)(st, number) == BuildComplex(s, limits, st, number);
  }

  lemma MultiHopSettled(s: Setting, c: Corpus, tier: Tier, limit: nat)
    requires IsWellFormed(c) && Summarises(s.world, c) && MultiHop(tier)
    ensures BuildsAre(BuilderOf(s, tier, limit), Settled(c))
  {
    hide Settles, Summarises, IsWellFormed, Build, IsSound;
    forall st, number | BuilderOf(s, tier, limit)(st, number).Made?
      ensures Settles(c, BuilderOf(s, tier, limit)(st, number).made.question)
    {
      HopsSettle(s, c, tier, limit, st, number);
    }
  }

  lemma {:induction false} HopsSettle(s: Setting, c: Corpus, tier: Tier, limit: nat, st: Progress, number: nat)
    requires IsWellFormed(c) && Summarises(s.world, c) && MultiHop(tier) && Build(s, tier, st, number, limit).Made?
    ensures Settles(c, Build(s, tier, st, number, limit).made.question)
  {
    BuildIsSound(s, c, tier, limit, st, number);
    SoundSettles(s.world, c, tier, Build(s, tier, st, number, limit).made);
  }

  lemma MakesSettled(s: Setting, c: Corpus, limits: Limits)
    requires IsWellFormed(c) && Summarises(s.world, c)
    ensures Makes(s, limits, Settled(c))
  {
    hide BuildsAre, EasyMakes, ComplexMakes, IsWellFormed, Summarises;
    EasySettled(s, c);
    ComplexSettled(s, c, limits);
    MultiHopSettled(s, c, Medium, limits.medium);
    MultiHopSettled(s, c, Hard, limits.hard);
  }

  /** If the linter reports every good question for allowed checks only, it does so for the whole run. */
  lemma {:induction false} RunPasses(
      s: Setting, docs: seq<Document>, rules: Rules, limits: Limits, st: Progress, wants: seq<(Tier, nat)>,
      good: Judgement, allowed: Check -> bool)
    requires Makes(s, limits, good) && FillTiers(s, limits, st, wants).Filled?
    requires forall q :: good(q) ==> Passes(docs, rules, q, allowed)
    ensures forall v :: v in Report(docs, rules, Questions(FillTiers(s, limits, st, wants).made)) ==> allowed(v.check)
  {
    hide Passes, Makes;
    var made := FillTiers(s, limits, st, wants).made;
    FillTiersAre(s, limits, good, st, wants);
    forall i | 0 <= i < |made| ensures Passes(docs, rules, made[i].question, allowed) {
      assert good(made[i].question);
    }
    ReportPasses(docs, rules, made, allowed);
  }

  /**
   * For every well-formed corpus, every random stream and whatever numbers of questions are wanted of the four tiers,
   * the linter's report on the whole output names no negative relation, no missing document, no premature answer and
   * no short answer.
   */
  lemma {:induction false} GeneratedQuestionsPassLint(
      s: Setting, c: Corpus, rules: Rules, limits: Limits, st: Progress, wants: seq<(Tier, nat)>)
    requires IsWellFormed(c) && Summarises(s.world, c) && FillTiers(s, limits, st, wants).Filled?
    ensures forall v :: v in Report(c.docs, rules, Questions(FillTiers(s, limits, st, wants).made)) ==>
            !IsSettled(v.check)
  {
    hide Settles, Makes, FillTiers, Report, Passes;
    MakesSettled(s, c, limits);
    forall q | Settled(c)(q) ensures Passes(c.docs, rules, q, Unsettled()) {
      SettlesPasses(c, rules, q);
    }
    RunPasses(s, c.docs, rules, limits, st, wants, Settled(c), Unsettled());
  }
}
