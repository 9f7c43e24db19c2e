/** The question generator in its own form: a random source and a set of used keys that the builders update. */
module QuestionBuilder {
  import opened Sequences
  import opened QuestionWorld
  import opened QuestionSpec
  import opened QuestionTiers
  import Rng

  /** A result and the state after it, as the specification writes them; an exception leaves no state to speak of. */
  function AsOutcome(crashed: bool, r: Option<Accepted>, st: Progress): Outcome {
    if crashed then Crashed
    else
      match r
      case None => Nothing(st)
      case Some(a) => Made(a, st)
  }

  class Generator {
    const setting: Setting
    var drawn: nat
    var used: set<string>

    constructor (setting: Setting)
      ensures this.setting == setting && State() == Progress(0, {})
    {
      this.setting := setting;
      drawn, used := 0, {};
    }

    ghost function State(): Progress
      reads this
    {
      Progress(drawn, used)
    }

    method NextEdge(edges: seq<Edge>) returns (e: Edge)
      requires edges != []
      modifies this`drawn
      ensures e == PickEdge(setting, old(drawn), edges) && drawn == old(drawn) + 1
    {
      e := edges[Rng.Below(setting.words(drawn), |edges|)];
      drawn := drawn + 1;
    }

    /** The loops of the minimality check. */
    static method CheckMinimal(hops: seq<Hop>, answerDocs: seq<string>) returns (ok: bool)
      ensures ok == IsMinimal(hops, answerDocs)
    {
      if |hops| < 2 {
        return true;
      }
      var seen: set<string> := {};
      for i := 0 to |hops|
        invariant forall id :: id in seen <==> exists j :: 0 <= j < i && hops[j].docId == id
        invariant forall j, k :: 0 <= j < k < i ==> hops[j].docId != hops[k].docId
      {
        if hops[i].docId in seen {
          return false;
        }
        seen := seen + {hops[i].docId};
      }
      for i := 0 to |hops| - 1
        invariant forall j :: 0 <= j < i ==> hops[j].docId !in answerDocs
      {
        if hops[i].docId == hops[|hops| - 1].docId || hops[i].docId in answerDocs {
          return false;
        }
      }
      return true;
    }

    /** The last checks, and remembering the key. */
    method Accept(tier: Tier, number: nat, chain: seq<Edge>, wording: Wording) returns (r: Option<Accepted>)
      requires chain != []
      modifies this`used
      ensures AsOutcome(false, r, State()) == Judge(setting, old(State()), tier, number, chain, wording)
    {
      var w, last := setting.world, chain[|chain| - 1].obj;
      if !IsResolvable(w, last) {
        return None;
      }
      var minimal := CheckMinimal(Hops(w, chain), At(w.docsForEntity, last));
      if !minimal {
        return None;
      }
      var key, answer := Key(Prefix(tier), Route(chain)), CanonicalAnswer(w, last);
      if key in used || |answer| < 5 || setting.common(answer) {
        return None;
      }
      used := used + {key};
      r := Some(Write(w, tier, number, chain, wording));
    }

    /** Draw two edges; `None` when the chain is abandoned. */
    method DrawMedium() returns (r: Choice)
      modifies this`drawn
      ensures r == ChooseMedium(setting, old(drawn))
      ensures r.DeadEnd? || r.Chosen? ==> drawn == r.drawn
    {
      var w := setting.world;
      if w.withSeconds == [] {
        return NoEdges;
      }
      var a := NextEdge(w.withSeconds);
      var seconds := Continuations(w, a, [a.docId]);
      if seconds == [] {
        return DeadEnd(drawn);
      }
      var b := NextEdge(seconds);
      if a.subject == b.obj || b.obj == a.obj {
        return DeadEnd(drawn);
      }
      return Chosen([a, b], MediumWording(w, a, b), drawn);
    }

    method DrawHard() returns (r: Choice)
      modifies this`drawn
      ensures r == ChooseHard(setting, old(drawn))
      ensures r.DeadEnd? || r.Chosen? ==> drawn == r.drawn
    {
      var w := setting.world;
      if w.withThirds == [] {
        return NoEdges;
      }
      var a := NextEdge(w.withThirds);
      var seconds := Continuations(w, a, [a.docId]);
      if seconds == [] {
        return DeadEnd(drawn);
      }
      var b := NextEdge(seconds);
      if b.obj == a.obj {
        return DeadEnd(drawn);
      }
      var thirds := Continuations(w, b, [a.docId, b.docId]);
      if thirds == [] {
        return DeadEnd(drawn);
      }
      var c := NextEdge(thirds);
      if a.subject == c.obj || c.obj == b.obj || c.obj == a.obj {
        return DeadEnd(drawn);
      }
      return Chosen([a, b, c], HardWording(w, a, b, c), drawn);
    }

    method TryChain(tier: Tier, number: nat) returns (crashed: bool, r: Option<Accepted>)
      modifies this
      ensures AsOutcome(crashed, r, State()) == Attempt(setting, tier, old(State()), number)
    {
      var choice: Choice;
      if tier.Hard? {
        choice := DrawHard();
      } else {
        choice := DrawMedium();
      }
      crashed, r := choice.NoEdges?, None;
      if choice.Chosen? {
        r := Accept(tier, number, choice.chain, choice.wording);
      }
    }

    /** `buildMedium` and `buildHard`: attempts until a chain is accepted. */
    method BuildChain(tier: Tier, number: nat, attempts: nat) returns (crashed: bool, r: Option<Accepted>)
      modifies this
      ensures AsOutcome(crashed, r, State()) == Build(setting, tier, old(State()), number, attempts)
    {
      hide Attempt;
      for attempt := 0 to attempts
        invariant Build(setting, tier, State(), number, attempts - attempt)
                  == Build(setting, tier, old(State()), number, attempts)
      {
        crashed, r := TryChain(tier, number);
        if crashed || r.Some? {
          return;
        }
      }
      return false, None;
    }

    method TryEasy(number: nat) returns (crashed: bool, r: Option<Accepted>)
      modifies this
      ensures AsOutcome(crashed, r, State()) == EasyAttempt(setting, number, old(State()))
    {
      hide EasyQuestion, EasyEdges, Declares, IsResolvable, Canonical;
      var w := setting.world;
      crashed, r := EasyEdges(w) == [], None;
      if crashed {
        return;
      }
      var e := NextEdge(EasyEdges(w));
      var docs := Filter(At(w.docsForEntity, e.subject), Declaring(w.docs, e.obj));
      if docs == [] || docs[0] in used {
        return;
      }
      var key := Key("easy", [e.subject, e.obj]);
      if key in used {
        return;
      }
      used := used + {docs[0], key};
      if IsResolvable(w, e.obj) && |CanonicalAnswer(w, e.obj)| >= 5 {
        r := Some(EasyQuestion(w, number, e, docs[0]));
      }
    }

    method BuildEasy(number: nat, attempts: nat) returns (crashed: bool, r: Option<Accepted>)
      modifies this
      ensures AsOutcome(crashed, r, State()) == Repeat(EasyAttempter(setting, number), old(State()), attempts)
    {
      hide EasyAttempt;
      for attempt := 0 to attempts
        invariant Repeat(EasyAttempter(setting, number), State(), attempts - attempt)
                  == Repeat(EasyAttempter(setting, number), old(State()), attempts)
      {
        crashed, r := TryEasy(number);
        if crashed || r.Some? {
          return;
        }
      }
      return false, None;
    }

    method ChooseCandidate(picks: seq<Candidate>) returns (r: Option<Candidate>)
      requires picks != []
      ensures r == ChooseFrom(setting.world, picks, |used| % |picks|, 0)
    {
      var start := |used| % |picks|;
      for k := 0 to |picks|
        invariant ChooseFrom(setting.world, picks, start, 0) == ChooseFrom(setting.world, picks, start, k)
      {
        var candidate := picks[(start + k) % |picks|];
        if IsResolvable(setting.world, candidate.id) {
          return Some(candidate);
        }
      }
      return None;
    }

    method TrySupersession(number: nat) returns (r: Option<Accepted>)
      requires setting.world.corrections != []
      modifies this
      ensures AsOutcome(false, r, State()) == SupersessionAttempt(setting, number, old(State()))
    {
      hide Supersede;
      var corrections := setting.world.corrections;
      var corr := corrections[Rng.Below(setting.words(drawn), |corrections|)];
      drawn := drawn + 1;
      r := SupersedeWith(number, corr);
    }

    method SupersedeWith(number: nat, corr: Correction) returns (r: Option<Accepted>)
      modifies this`used
      ensures AsOutcome(false, r, State()) == Supersede(setting, number, old(State()), corr)
    {
      hide SupersessionQuestion, IsResolvable, Canonical;
      var w := setting.world;
      var picks := Candidates(corr);
      if DocOf(w.docs, corr.correctDocId).None? || picks == [] {
        return None;
      }
      var chosen := ChooseCandidate(picks);
      if chosen.None? {
        return None;
      }
      var key, answer := SupersessionKey(corr, chosen.value), CanonicalAnswer(w, chosen.value.id);
      if key in used || |answer| < 5 || setting.common(answer) {
        return None;
      }
      used := used + {key};
      var link := First(w.positive, Links(corr, chosen.value));
      if link == [] || DocOf(w.docs, link[0].docId).None? {
        return None;
      }
      r := Some(SupersessionQuestion(setting, number, corr, chosen.value, link[0]));
    }

    method BuildSupersession(number: nat, attempts: nat) returns (r: Option<Accepted>)
      modifies this
      ensures AsOutcome(false, r, State()) == Repeat(SupersessionAttempter(setting, number), old(State()), attempts)
    {
      hide SupersessionAttempt;
      var attempt := 0;
      while attempt < attempts && setting.world.corrections != []
        invariant attempt <= attempts
        invariant Repeat(SupersessionAttempter(setting, number), State(), attempts - attempt)
                  == Repeat(SupersessionAttempter(setting, number), old(State()), attempts)
        decreases attempts - attempt
      {
        r := TrySupersession(number);
        if r.Some? {
          return;
        }
        attempt := attempt + 1;
      }
      NoCorrections(setting, number, State(), attempts - attempt);
      return None;
    }

    method TryNegative(number: nat) returns (r: Option<Accepted>)
      requires At(setting.world.byPredicate, "no_record_for") != []
      modifies this
      ensures AsOutcome(false, r, State()) == NegativeAttempt(setting, number, old(State()))
    {
      hide NegativeQuestion;
      var neg := NextEdge(At(setting.world.byPredicate, "no_record_for"));
      if neg.docId in used || |Label(setting.world, neg.subject)| < 5 {
        return None;
      }
      used := used + {neg.docId};
      r := Some(NegativeQuestion(setting.world, number, neg));
    }

    method BuildNegative(number: nat, attempts: nat) returns (r: Option<Accepted>)
      modifies this
      ensures AsOutcome(false, r, State()) == Repeat(NegativeAttempter(setting, number), old(State()), attempts)
    {
      hide NegativeAttempt;
      var attempt := 0;
      while attempt < attempts && At(setting.world.byPredicate, "no_record_for") != []
        invariant attempt <= attempts
        invariant Repeat(NegativeAttempter(setting, number), State(), attempts - attempt)
                  == Repeat(NegativeAttempter(setting, number), old(State()), attempts)
        decreases attempts - attempt
      {
        r := TryNegative(number);
        if r.Some? {
          return;
        }
        attempt := attempt + 1;
      }
      NoNegatives(setting, number, State(), attempts - attempt);
      return None;
    }

    /** The fallback: a medium question under another name. */
    method BuildDisambiguation(number: nat, limits: Limits) returns (crashed: bool, r: Option<Accepted>)
      modifies this
      ensures AsOutcome(crashed, r, State())
              == Retagged(Repeat(MediumAttempter(setting, number, limits.medium), old(State()), limits.disambiguation))
    {
      hide Build;
      for attempt := 0 to limits.disambiguation
        invariant Repeat(MediumAttempter(setting, number, limits.medium), State(), limits.disambiguation - attempt)
                  == Repeat(MediumAttempter(setting, number, limits.medium), old(State()), limits.disambiguation)
      {
        crashed, r := BuildChain(Medium, number, limits.medium);
        if crashed {
          return;
        }
        if r.Some? {
          var base := r.value.question;
          r := Some(r.value.(question := base.(tier := Complex, submechanism := "disambiguation")));
          return;
        }
      }
      return false, None;
    }

    method BuildComplexOne(number: nat, limits: Limits) returns (crashed: bool, r: Option<Accepted>)
      modifies this
      ensures AsOutcome(crashed, r, State()) == BuildComplex(setting, limits, old(State()), number)
    {
      hide Repeat;
      crashed := false;
      r := BuildSupersession(number, limits.supersession);
      if r.Some? {
        return;
      }
      r := BuildNegative(number, limits.negative);
      if r.Some? {
        return;
      }
      crashed, r := BuildDisambiguation(number, limits);
    }

    method BuildFor(tier: Tier, number: nat, limits: Limits) returns (crashed: bool, r: Option<Accepted>)
      modifies this
      ensures AsOutcome(crashed, r, State()) == TierBuilder(setting, limits, tier)(old(State()), number)
    {
      hide Repeat, Build, BuildComplex;
      match tier {
        case Easy => crashed, r := BuildEasy(number, limits.easy);
        case Medium => crashed, r := BuildChain(Medium, number, limits.medium);
        case Hard => crashed, r := BuildChain(Hard, number, limits.hard);
        case Complex => crashed, r := BuildComplexOne(number, limits);
      }
    }

    /** The main loop of one tier: at most fifty tries per wanted question; an exception ends the run. */
    method FillTier(tier: Tier, limits: Limits, want: nat) returns (crashed: bool, made: seq<Accepted>)
      modifies this
      ensures var f := Fill(TierBuilder(setting, limits, tier), old(State()), want, 0, want * TRIES_PER_QUESTION);
              crashed == f.FillCrashed? && (!crashed ==> f == Filled(made, State()))
    {
      hide TierBuilder;
      made := [];
      var tries, most := 0, want * TRIES_PER_QUESTION;
      ghost var build := TierBuilder(setting, limits, tier);
      while |made| < want && tries < most
        invariant tries <= most
        invariant Extended(made, Fill(build, State(), want, |made|, most - tries))
                  == Fill(build, old(State()), want, 0, most)
        decreases most - tries
      {
        ghost var before := State();
        var q;
        crashed, q := BuildFor(tier, |made| + 1, limits);
        FillStep(build, before, want, made, most - tries);
        tries := tries + 1;
        if crashed {
          return;
        }
        if q.Some? {
          made := made + [q.value];
        }
      }
      crashed := false;
    }

    /** The tiers in turn. */
    method Run(limits: Limits, wants: seq<(Tier, nat)>) returns (crashed: bool, questions: seq<Accepted>)
      modifies this
      ensures var f := FillTiers(setting, limits, old(State()), wants);
              crashed == f.FillCrashed? && (!crashed ==> f == Filled(questions, State()))
    {
      hide Fill, TierBuilder;
      questions := [];
      for i := 0 to |wants|
        invariant FillTiers(setting, limits, old(State()), wants[..i]) == Filled(questions, State())
      {
        assert wants[..i + 1][..i] == wants[..i];
        var made;
        crashed, made := FillTier(wants[i].0, limits, wants[i].1);
        if crashed {
          CrashStays(setting, limits, old(State()), wants, i + 1);
          return;
        }
        questions := questions + made;
      }
      assert wants[..|wants|] == wants;
      crashed := false;
    }

    /** The main program: the four tiers in their order, under the limits of the builders. */
    method Generate(easy: nat, medium: nat, hard: nat, complex: nat) returns (crashed: bool, questions: seq<Accepted>)
      modifies this
      ensures var f := FillTiers(setting, LIMITS, old(State()), Wanted(easy, medium, hard, complex));
              crashed == f.FillCrashed? && (!crashed ==> f == Filled(questions, State()))
    {
      hide FillTiers;
      crashed, questions := Run(LIMITS, Wanted(easy, medium, hard, complex));
    }
  }

  lemma {:induction false} CrashStays(s: Setting, limits: Limits, st: Progress, wants: seq<(Tier, nat)>, n: nat)
    requires n <= |wants| && FillTiers(s, limits, st, wants[..n]).FillCrashed?
    ensures FillTiers(s, limits, st, wants).FillCrashed?
    decreases |wants|
  {
    if n == |wants| {
      assert wants[..n] == wants;
    } else {
      var front := wants[..|wants| - 1];
      assert front[..n] == wants[..n];
      CrashStays(s, limits, st, front, n);
    }
  }

  lemma {:induction false} NoCorrections(s: Setting, number: nat, st: Progress, left: nat)
    requires left == 0 || s.world.corrections == []
    ensures Repeat(SupersessionAttempter(s, number), st, left) == Nothing(st)
    decreases left
  {
    if left > 0 {
      NoCorrections(s, number, st, left - 1);
    }
  }

  lemma {:induction false} NoNegatives(s: Setting, number: nat, st: Progress, left: nat)
    requires left == 0 || At(s.world.byPredicate, "no_record_for") == []
    ensures Repeat(NegativeAttempter(s, number), st, left) == Nothing(st)
    decreases left
  {
    if left > 0 {
      NoNegatives(s, number, st, left - 1);
    }
  }

  /** One turn of the main loop. */
  lemma FillStep(build: Builder, st: Progress, want: nat, made: seq<Accepted>, tries: nat)
    requires |made| < want && tries > 0
    ensures Extended(made, Fill(build, st, want, |made|, tries)) ==
            match build(st, |made| + 1)
            case Crashed => FillCrashed
            case Nothing(st') => Extended(made, Fill(build, st', want, |made|, tries - 1))
            case Made(q, st') => Extended(made + [q], Fill(build, st', want, |made| + 1, tries - 1))
  {
    var r := build(st, |made| + 1);
    if r.Made? {
      ExtendStep(made, r.made, Fill(build, r.st, want, |made| + 1, tries - 1));
    }
  }

  lemma ExtendStep(made: seq<Accepted>, q: Accepted, rest: Filled)
    ensures Extended(made, Prepend(q, rest)) == Extended(made + [q], rest)
  {
    if rest.Filled? {
      assert made + ([q] + rest.made) == made + [q] + rest.made;
    }
  }
}
