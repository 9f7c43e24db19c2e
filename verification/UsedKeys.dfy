/** What the questions of a run use up: no key is used twice, and no document for two easy or negative questions. */
module UsedKeys {
  import opened Sequences
  import opened QuestionWorld
  import opened QuestionSpec
  import opened QuestionTheorems
  import opened QuestionTiers
  import Rng

  /** What an accepted question uses up: its key, and for an easy one its evidence as well. */
  function Marks(a: Accepted): set<string> {
    {a.key} + if a.question.tier.Easy? then Elements(a.question.evidenceDocIds) else {}
  }

  lemma MarksHold(a: Accepted)
    ensures a.key in Marks(a)
    ensures a.question.tier.Easy? ==> forall id :: id in a.question.evidenceDocIds ==> id in Marks(a)
  {
  }

  /** Nothing used is ever given back, and what a question uses up was not used before and is afterwards. */
  ghost predicate UsesUp(st: Progress, r: Outcome) {
    match r
    case Crashed => true
    case Nothing(st') => st.used <= st'.used
    case Made(a, st') => st.used <= st'.used && Marks(a) !! st.used && Marks(a) <= st'.used
  }

  ghost predicate AttemptUsesUp(attempt: Attempter) {
    forall st :: UsesUp(st, attempt(st))
  }

  ghost predicate BuilderUsesUp(build: Builder) {
    forall st, number :: UsesUp(st, build(st, number))
  }

  lemma EasyUsesUp(s: Setting, number: nat, st: Progress)
    ensures UsesUp(st, EasyAttempt(s, number, st))
  {
    hide PickEdge, EasyEdges, Key, IsResolvable;
    var r := EasyAttempt(s, number, st);
    if r.Made? {
      assert Elements(r.made.question.evidenceDocIds) == {r.made.question.evidenceDocIds[0]};
    }
  }

  lemma SupersedeUsesUp(s: Setting, number: nat, st: Progress, corr: Correction)
    ensures UsesUp(st, Supersede(s, number, st, corr))
  {
    hide ChooseFrom, First, CanonicalAnswer;
  }

  lemma SupersessionUsesUp(s: Setting, number: nat, st: Progress)
    ensures UsesUp(st, SupersessionAttempt(s, number, st))
  {
    hide Supersede;
    var corrections := s.world.corrections;
    if corrections != [] {
      SupersedeUsesUp(s, number, st.(drawn := st.drawn + 1), corrections[Rng.Below(s.words(st.drawn), |corrections|)]);
    }
  }

  lemma NegativeUsesUp(s: Setting, number: nat, st: Progress)
    ensures UsesUp(st, NegativeAttempt(s, number, st))
  {
    hide PickEdge;
  }

  lemma MultiHopUsesUp(s: Setting, tier: Tier, st: Progress, number: nat)
    requires MultiHop(tier)
    ensures UsesUp(st, Attempt(s, tier, st, number))
  {
    hide Choose, IsAcceptable, Key;
    var r := Attempt(s, tier, st, number);
    AttemptUsesKey(s, tier, st, number);
    if r.Made? {
      AttemptTier(s, tier, st, number);
    }
  }

  lemma AttemptTier(s: Setting, tier: Tier, st: Progress, number: nat)
    requires Attempt(s, tier, st, number).Made?
    ensures Attempt(s, tier, st, number).made.question.tier == tier
  {
    hide Choose, IsAcceptable, Key;
  }

  lemma {:induction false} RepeatUsesUp(attempt: Attempter, st: Progress, left: nat)
    requires AttemptUsesUp(attempt)
    ensures UsesUp(st, Repeat(attempt, st, left))
    decreases left
  {
    if left > 0 && attempt(st).Nothing? {
      RepeatUsesUp(attempt, attempt(st).st, left - 1);
    }
  }

  lemma {:induction false} BuildUsesUp(s: Setting, tier: Tier, st: Progress, number: nat, left: nat)
    requires MultiHop(tier)
    ensures UsesUp(st, Build(s, tier, st, number, left))
    decreases left
  {
    hide Attempt;
    MultiHopUsesUp(s, tier, st, number);
    if left > 0 && Attempt(s, tier, st, number).Nothing? {
      BuildUsesUp(s, tier, Attempt(s, tier, st, number).st, number, left - 1);
    }
  }

  lemma RetaggedUsesUp(st: Progress, r: Outcome)
    requires UsesUp(st, r)
    ensures UsesUp(st, Retagged(r))
  {
  }

  lemma TurnsUseUp(first: Attempter, second: Attempter, third: Attempter, limits: Limits, st: Progress)
    requires AttemptUsesUp(first) && AttemptUsesUp(second) && AttemptUsesUp(third)
    ensures UsesUp(st, Turns(first, second, third, limits, st))
  {
    RepeatUsesUp(first, st, limits.supersession);
    var r1 := Repeat(first, st, limits.supersession);
    if r1.Nothing? {
      RepeatUsesUp(second, r1.st, limits.negative);
      var r2 := Repeat(second, r1.st, limits.negative);
      if r2.Nothing? {
        RepeatUsesUp(third, r2.st, limits.disambiguation);
        RetaggedUsesUp(r2.st, Repeat(third, r2.st, limits.disambiguation));
      }
    }
  }

  lemma EasyBuilderUsesUp(s: Setting, limits: Limits)
    ensures BuilderUsesUp(EasyBuilder(s, limits))
  {
    hide UsesUp, EasyAttempt;
    forall st, number ensures UsesUp(st, EasyBuilder(s, limits)(st, number)) {
      forall at ensures UsesUp(at, EasyAttempter(s, number)(at)) {
        EasyUsesUp(s, number, at);
      }
      RepeatUsesUp(EasyAttempter(s, number), st, limits.easy);
    }
  }

  lemma ComplexAttemptsUseUp(s: Setting, number: nat, limit: nat)
    ensures AttemptUsesUp(SupersessionAttempter(s, number)) && AttemptUsesUp(NegativeAttempter(s, number))
    ensures AttemptUsesUp(MediumAttempter(s, number, limit))
  {
    hide UsesUp, SupersessionAttempt, NegativeAttempt, Build;
    forall st
      ensures UsesUp(st, SupersessionAttempter(s, number)(st)) && UsesUp(st, NegativeAttempter(s, number)(st))
      ensures UsesUp(st, MediumAttempter(s, number, limit)(st))
    {
      SupersessionUsesUp(s, number, st);
      NegativeUsesUp(s, number, st);
      BuildUsesUp(s, Medium, st, number, limit);
    }
  }

  lemma ComplexBuilderUsesUp(s: Setting, limits: Limits)
    ensures BuilderUsesUp(ComplexBuilder(s, limits))
  {
    hide UsesUp, Turns, AttemptUsesUp;
    forall st, number ensures UsesUp(st, ComplexBuilder(s, limits)(st, number)) {
      ComplexAttemptsUseUp(s, number, limits.medium);
      TurnsUseUp(SupersessionAttempter(s, number), NegativeAttempter(s, number),
                 MediumAttempter(s, number, limits.medium), limits, st);
    }
  }

  lemma MultiHopBuilderUsesUp(s: Setting, tier: Tier, limit: nat)
    requires MultiHop(tier)
    ensures BuilderUsesUp(BuilderOf(s, tier, limit))
  {
    hide UsesUp, Build;
    forall st, number ensures UsesUp(st, BuilderOf(s, tier, limit)(st, number)) {
      BuildUsesUp(s, tier, st, number, limit);
    }
  }

  lemma TierUsesUp(s: Setting, limits: Limits, tier: Tier)
    ensures BuilderUsesUp(TierBuilder(s, limits, tier))
  {
    hide BuilderUsesUp;
    match tier
    case Easy => EasyBuilderUsesUp(s, limits);
    case Medium => MultiHopBuilderUsesUp(s, Medium, limits.medium);
    case Hard => MultiHopBuilderUsesUp(s, Hard, limits.hard);
    case Complex => ComplexBuilderUsesUp(s, limits);
  }

  // ----- over a run -----

  /** Questions made from here on use up new things, no two of them the same. */
  ghost predicate KeepsApart(used: set<string>, made: seq<Accepted>, after: set<string>) {
    && used <= after
    && (forall i :: 0 <= i < |made| ==> Marks(made[i]) !! used && Marks(made[i]) <= after)
    && (forall i, j :: 0 <= i < j < |made| ==> Marks(made[i]) !! Marks(made[j]))
  }

  lemma ApartInTwoParts(used: set<string>, a: seq<Accepted>, between: set<string>, b: seq<Accepted>, after: set<string>)
    requires KeepsApart(used, a, between) && KeepsApart(between, b, after)
    ensures KeepsApart(used, a + b, after)
  {
    hide Marks;
    forall i, j | 0 <= i < j < |a + b| ensures Marks((a + b)[i]) !! Marks((a + b)[j]) {
      if i < |a| && j >= |a| {
        assert Marks((a + b)[i]) <= between;
      }
    }
  }

  lemma {:induction false} FillKeepsApart(build: Builder, st: Progress, want: nat, made: nat, tries: nat)
    requires BuilderUsesUp(build)
    ensures var f := Fill(build, st, want, made, tries); f.Filled? ==> KeepsApart(st.used, f.made, f.st.used)
    decreases tries
  {
    hide KeepsApart, Marks;
    if made >= want || tries == 0 {
      NothingMade(st.used);
    } else {
      var r := build(st, made + 1);
      match r
      case Crashed =>
      case Nothing(st') =>
        FillKeepsApart(build, st', want, made, tries - 1);
        var f := Fill(build, st', want, made, tries - 1);
        if f.Filled? {
          NothingBefore(st.used, st'.used, f.made, f.st.used);
        }
      case Made(q, st') =>
        FillKeepsApart(build, st', want, made + 1, tries - 1);
        var f := Fill(build, st', want, made + 1, tries - 1);
        if f.Filled? {
          OneMade(st.used, q, st'.used);
          ApartInTwoParts(st.used, [q], st'.used, f.made, f.st.used);
        }
    }
  }

  lemma NothingMade(used: set<string>)
    ensures KeepsApart(used, [], used)
  {
  }

  lemma NothingBefore(used: set<string>, between: set<string>, made: seq<Accepted>, after: set<string>)
    requires used <= between && KeepsApart(between, made, after)
    ensures KeepsApart(used, made, after)
  {
  }

  lemma OneMade(used: set<string>, a: Accepted, after: set<string>)
    requires used <= after && Marks(a) !! used && Marks(a) <= after
    ensures KeepsApart(used, [a], after)
  {
  }

  lemma {:induction false} TiersKeepApart(s: Setting, limits: Limits, st: Progress, wants: seq<(Tier, nat)>)
    ensures var f := FillTiers(s, limits, st, wants); f.Filled? ==> KeepsApart(st.used, f.made, f.st.used)
    decreases |wants|
  {
    hide KeepsApart, BuilderUsesUp;
    if wants == [] {
      NothingMade(st.used);
    } else {
      TiersKeepApart(s, limits, st, wants[..|wants| - 1]);
      var before := FillTiers(s, limits, st, wants[..|wants| - 1]);
      if before.Filled? {
        var (tier, want) := wants[|wants| - 1];
        TierUsesUp(s, limits, tier);
        FillKeepsApart(TierBuilder(s, limits, tier), before.st, want, 0, want * TRIES_PER_QUESTION);
        var more := Fill(TierBuilder(s, limits, tier), before.st, want, 0, want * TRIES_PER_QUESTION);
        if more.Filled? {
          ApartInTwoParts(st.used, before.made, before.st.used, more.made, more.st.used);
        }
      }
    }
  }

  /**
   * Main result: over a whole run, for every corpus, demand, random stream and history, all questions of all tiers have
   * different keys, and no document is the evidence of two easy questions or the key of a negative one besides.
   */
  lemma {:induction false} NothingIsUsedTwice(
      s: Setting, limits: Limits, st: Progress, wants: seq<(Tier, nat)>, i: nat, j: nat)
    requires FillTiers(s, limits, st, wants).Filled? && i < j < |FillTiers(s, limits, st, wants).made|
    ensures var made := FillTiers(s, limits, st, wants).made;
            && made[i].key != made[j].key && made[i].key !in st.used
            && (made[i].question.tier.Easy? ==> made[j].key !in made[i].question.evidenceDocIds)
            && (made[j].question.tier.Easy? ==> made[i].key !in made[j].question.evidenceDocIds)
            && (made[i].question.tier.Easy? && made[j].question.tier.Easy? ==>
                  forall id :: id in made[i].question.evidenceDocIds ==> id !in made[j].question.evidenceDocIds)
  {
    TiersKeepApart(s, limits, st, wants);
    var made := FillTiers(s, limits, st, wants).made;
    assert Marks(made[i]) !! Marks(made[j]) && Marks(made[i]) !! st.used;
    MarksHold(made[i]);
    MarksHold(made[j]);
  }
}
