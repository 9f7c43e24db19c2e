/** The easy and the complex tier, and the whole run over the four tiers. */
module QuestionTiers {
  import opened Sequences
  import opened QuestionWorld
  import opened QuestionSpec
  import Rng

  const EASY_ATTEMPTS := 40
  const SUPERSESSION_ATTEMPTS := 400
  const NEGATIVE_ATTEMPTS := 60
  const DISAMBIGUATION_ATTEMPTS := 60
  const TRIES_PER_QUESTION := 50

  type Attempter = Progress -> Outcome

  /** Attempts until one succeeds or raises an exception, at most `left`. */
  function Repeat(attempt: Attempter, st: Progress, left: nat): Outcome
    decreases left
  {
    if left == 0 then Nothing(st)
    else
      match attempt(st)
      case Nothing(st') => Repeat(attempt, st', left - 1)
      case done => done
  }

  function FirstOf(ids: seq<string>): seq<string> {
    if ids == [] then [] else [ids[0]]
  }

  function Single(tier: Tier, number: nat, submechanism: string, text: string, answer: string, hops: seq<Hop>,
      docs: seq<string>, distractorDocs: seq<string>, distractors: seq<string>, negative: bool, key: string): Accepted
  {
    Accepted([], key, Question(tier, number, submechanism, text, answer, docs, hops, distractorDocs, distractors,
                               negative))
  }

  // ----- easy -----

  function EasyEdges(w: World): seq<Edge> {
    At(w.byPredicate, "raised_against") + At(w.byPredicate, "from_vendor") + At(w.byPredicate, "carried_batch")
    + At(w.byPredicate, "scoped_to_project")
  }

  predicate Declares(docs: seq<Document>, id: string, entity: string) {
    match DocOf(docs, id) case Some(d) => entity in d.entityIds case None => false
  }

  function Declaring(docs: seq<Document>, entity: string): string -> bool {
    (id: string) => Declares(docs, id, entity)
  }

  function Sibling(r: Edge): Edge -> bool {
    (x: Edge) => x.pred == r.pred && x.subject == r.subject && x.obj != r.obj
  }

  /** The question about one edge, answered by the first document that declares its object. */
  function EasyQuestion(w: World, number: nat, r: Edge, docId: string): Accepted {
    var sib := First(EasyEdges(w), Sibling(r));
    Single(Easy, number, "", "Which " + NounFor(r.pred) + " is " + Label(w, r.subject) + " associated with?",
           CanonicalAnswer(w, r.obj), [Hop(Label(w, r.subject), r.pred, Label(w, r.obj), docId)], [docId],
           if sib == [] then [] else FirstOf(At(w.docsForEntity, sib[0].obj)), Answers(w, sib), false,
           Key("easy", [r.subject, r.obj]))
  }

  /** One attempt; the document and the key count as used even when the answer is then refused. */
  function EasyAttempt(s: Setting, number: nat, st: Progress): Outcome {
    var w := s.world;
    if EasyEdges(w) == [] then Crashed
    else
      var r := PickEdge(s, st.drawn, EasyEdges(w));
      var st' := st.(drawn := st.drawn + 1);
      var docs := Filter(At(w.docsForEntity, r.subject), Declaring(w.docs, r.obj));
      var key := Key("easy", [r.subject, r.obj]);
      if docs == [] || docs[0] in st.used || key in st.used then Nothing(st')
      else
        var st'' := st'.(used := st.used + {docs[0], key});
        if IsResolvable(w, r.obj) && |CanonicalAnswer(w, r.obj)| >= 5
        then Made(EasyQuestion(w, number, r, docs[0]), st'')
        else Nothing(st'')
  }

  function EasyAttempter(s: Setting, number: nat): Attempter {
    (st: Progress) => EasyAttempt(s, number, st)
  }

  // ----- complex: supersession -----

  datatype Candidate = Candidate(id: string, kind: string)

  function Candidates(c: Correction): seq<Candidate> {
    (if c.vendorId != "" then [Candidate(c.vendorId, "vendor")] else [])
    + (if c.projectId != "" then [Candidate(c.projectId, "project")] else [])
  }

  /** The first resolvable candidate, beginning at a place that depends on how many keys are used. */
  function ChooseFrom(w: World, picks: seq<Candidate>, start: nat, k: nat): Option<Candidate>
    requires picks != []
    decreases |picks| - k
  {
    if k >= |picks| then None
    else
      var candidate := picks[(start + k) % |picks|];
      if IsResolvable(w, candidate.id) then Some(candidate) else ChooseFrom(w, picks, start, k + 1)
  }

  function LinkingPredicate(c: Candidate): string {
    if c.kind == "vendor" then "from_vendor" else "for_project"
  }

  function Links(corr: Correction, c: Candidate): Edge -> bool {
    (e: Edge) => e.subject == corr.deliveryId && e.pred == LinkingPredicate(c) && e.obj == c.id
  }

  function LinksElsewhere(corr: Correction, c: Candidate): Edge -> bool {
    (e: Edge) => e.pred == LinkingPredicate(c) && e.subject != corr.deliveryId && e.obj != c.id
  }

  function SupersessionKey(corr: Correction, c: Candidate): string {
    Key("complex-sup", [corr.deliveryId, c.id])
  }

  function SupersessionQuestion(s: Setting, number: nat, corr: Correction, c: Candidate, link: Edge): Accepted {
    var w := s.world;
    var delivery := Label(w, corr.deliveryId);
    var sib := First(w.positive, LinksElsewhere(corr, c));
    var stale :=
      match DocOf(w.docs, corr.incorrectDocId) case Some(d) => s.staleDay(d.text) case None => s.staleDay("");
    Single(Complex, number, "supersession",
           "A later memo corrects the arrival timing for " + delivery
           + " but states other details are unchanged. Which " + c.kind + " does that corrected record still apply to?",
           CanonicalAnswer(w, c.id),
           [Hop(delivery, "was_late", corr.correctAssertion, corr.correctDocId),
            Hop(delivery, LinkingPredicate(c), Label(w, c.id), link.docId)],
           [corr.correctDocId, link.docId],
           Filter([corr.incorrectDocId] + Ids(sib), NonEmpty()),
           Filter(Answers(w, sib), NonEmpty()) + (if stale == "" then [] else ["day " + stale]), false,
           SupersessionKey(corr, c))
  }

  /** What follows once a correction was drawn; the key counts as used even when the linking document is missing. */
  function Supersede(s: Setting, number: nat, st: Progress, corr: Correction): Outcome {
    var w, picks := s.world, Candidates(corr);
    if DocOf(w.docs, corr.correctDocId).None? || picks == [] then Nothing(st)
    else
      match ChooseFrom(w, picks, |st.used| % |picks|, 0)
      case None => Nothing(st)
      case Some(c) =>
        var key, answer := SupersessionKey(corr, c), CanonicalAnswer(w, c.id);
        if key in st.used || |answer| < 5 || s.common(answer) then Nothing(st)
        else
          var st', link := st.(used := st.used + {key}), First(w.positive, Links(corr, c));
          if link == [] || DocOf(w.docs, link[0].docId).None? then Nothing(st')
          else Made(SupersessionQuestion(s, number, corr, c, link[0]), st')
  }

  function SupersessionAttempt(s: Setting, number: nat, st: Progress): Outcome {
    var corrections := s.world.corrections;
    if corrections == [] then Nothing(st)
    else
      Supersede(s, number, st.(drawn := st.drawn + 1), corrections[Rng.Below(s.words(st.drawn), |corrections|)])
  }

  function SupersessionAttempter(s: Setting, number: nat): Attempter {
    (st: Progress) => SupersessionAttempt(s, number, st)
  }

  // ----- complex: negative evidence -----

  function NegativeQuestion(w: World, number: nat, neg: Edge): Accepted {
    Single(Complex, number, "negative",
           "Was any incident recorded against " + Label(w, neg.subject)
           + " in the review window, and if a positive record exists elsewhere, does it apply here?",
           "not recorded", [Hop(Label(w, neg.subject), neg.pred, Label(w, neg.obj), neg.docId)], [neg.docId],
           FirstOf(At(w.docsForEntity, neg.obj)), [CanonicalAnswer(w, neg.obj)], true, neg.docId)
  }

  function NegativeAttempt(s: Setting, number: nat, st: Progress): Outcome {
    var edges := At(s.world.byPredicate, "no_record_for");
    if edges == [] then Nothing(st)
    else
      var neg, st' := PickEdge(s, st.drawn, edges), st.(drawn := st.drawn + 1);
      if neg.docId in st.used || |Label(s.world, neg.subject)| < 5 then Nothing(st')
      else Made(NegativeQuestion(s.world, number, neg), st'.(used := st.used + {neg.docId}))
  }

  function NegativeAttempter(s: Setting, number: nat): Attempter {
    (st: Progress) => NegativeAttempt(s, number, st)
  }

  // ----- complex: disambiguation, and the three in turn -----

  function MediumAttempter(s: Setting, number: nat, limit: nat): Attempter {
    (st: Progress) => Build(s, Medium, st, number, limit)
  }

  function Retagged(r: Outcome): Outcome {
    match r
    case Made(a, st) => Made(a.(question := a.question.(tier := Complex, submechanism := "disambiguation")), st)
    case other => other
  }

  /** How often each of the loops of a build may go round. */
  datatype Limits = Limits(easy: nat, medium: nat, hard: nat, supersession: nat, negative: nat, disambiguation: nat)

  const LIMITS := Limits(EASY_ATTEMPTS, MEDIUM_ATTEMPTS, HARD_ATTEMPTS, SUPERSESSION_ATTEMPTS, NEGATIVE_ATTEMPTS,
                         DISAMBIGUATION_ATTEMPTS)

  /** The three mechanisms, each tried only when the ones before it made nothing. */
  function Turns(first: Attempter, second: Attempter, third: Attempter, limits: Limits, st: Progress): Outcome {
    match Repeat(first, st, limits.supersession)
    case Nothing(st1) =>
      (match Repeat(second, st1, limits.negative)
       case Nothing(st2) => Retagged(Repeat(third, st2, limits.disambiguation))
       case done => done)
    case done => done
  }

  function BuildComplex(s: Setting, limits: Limits, st: Progress, number: nat): Outcome {
    Turns(SupersessionAttempter(s, number), NegativeAttempter(s, number), MediumAttempter(s, number, limits.medium),
          limits, st)
  }

  function EasyBuilder(s: Setting, limits: Limits): Builder {
    (st: Progress, number: nat) => Repeat(EasyAttempter(s, number), st, limits.easy)
  }

  function ComplexBuilder(s: Setting, limits: Limits): Builder {
    (st: Progress, number: nat) => BuildComplex(s, limits, st, number)
  }

  function TierBuilder(s: Setting, limits: Limits, tier: Tier): Builder {
    match tier
    case Easy => EasyBuilder(s, limits)
    case Medium => BuilderOf(s, Medium, limits.medium)
    case Hard => BuilderOf(s, Hard, limits.hard)
    case Complex => ComplexBuilder(s, limits)
  }

  /** The tiers in turn, sharing the random source and the used keys; an exception ends the run. */
  function FillTiers(s: Setting, limits: Limits, st: Progress, wants: seq<(Tier, nat)>): Filled {
    if wants == [] then Filled([], st)
    else
      match FillTiers(s, limits, st, wants[..|wants| - 1])
      case FillCrashed => FillCrashed
      case Filled(made, st') =>
        var (tier, want) := wants[|wants| - 1];
        Extended(made, Fill(TierBuilder(s, limits, tier), st', want, 0, want * TRIES_PER_QUESTION))
  }

  /** The order of the main loop. */
  function Wanted(easy: nat, medium: nat, hard: nat, complex: nat): seq<(Tier, nat)> {
    [(Easy, easy), (Medium, medium), (Hard, hard), (Complex, complex)]
  }
}
