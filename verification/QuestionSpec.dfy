/** What one attempt, one build and one tier of the question generator compute, as functions of the random draws. */
module QuestionSpec {
  import opened Sequences
  import opened Text
  import opened QuestionWorld
  import Rng

  const MEDIUM_ATTEMPTS := 60
  const HARD_ATTEMPTS := 120

  /** The world, the frequent-token test, the day number read from a stale text (if any), and the random stream. */
  datatype Setting = Setting(
    world: World, common: string -> bool, staleDay: string -> string, words: Rng.Stream)

  datatype Progress = Progress(drawn: nat, used: set<string>)

  /** An accepted question with the edges it was built from and the key it is remembered under. */
  datatype Accepted = Accepted(chain: seq<Edge>, key: string, question: Question)

  /** `Crashed` is the exception raised by picking from an empty list. */
  datatype Outcome = Crashed | Nothing(st: Progress) | Made(made: Accepted, st: Progress)

  function Label(w: World, id: string): string {
    if id in w.names then w.names[id] else id
  }

  function CanonicalAnswer(w: World, id: string): string {
    Canonical(Label(w, id))
  }

  predicate IsDayId(id: string) {
    |id| > 4 && Lower(id)[..4] == "day-" && forall i :: 4 <= i < |id| ==> '0' <= id[i] <= '9'
  }

  predicate IsResolvable(w: World, id: string) {
    id in w.names && w.names[id] != id && !IsDayId(id) && |w.names[id]| >= 5
  }

  function HopOf(w: World, e: Edge): Hop {
    Hop(Label(w, e.subject), e.pred, Label(w, e.obj), e.docId)
  }

  function Hops(w: World, chain: seq<Edge>): seq<Hop> {
    if chain == [] then [] else Hops(w, chain[..|chain| - 1]) + [HopOf(w, chain[|chain| - 1])]
  }

  /** Every hop in a document of its own, and no document before the last one mentions the answer. */
  predicate IsMinimal(hops: seq<Hop>, answerDocs: seq<string>) {
    |hops| < 2 ||
    (&& (forall i, j :: 0 <= i < j < |hops| ==> hops[i].docId != hops[j].docId)
     && forall i :: 0 <= i < |hops| - 1 ==> hops[i].docId !in answerDocs)
  }

  function NounFor(pred: string): string {
    if pred in ["raised_against", "from_vendor", "against_vendor"] then "vendor"
    else if pred in ["carried_batch", "involved_batch"] then "batch"
    else if pred in ["scoped_to_project", "for_project"] then "project"
    else if pred in ["approved", "covers"] then "invoice"
    else if pred == "signed_off" then "purchase order"
    else if pred == "contains_serial" then "serial"
    else if pred == "received_delivery" then "delivery"
    else if pred == "at_warehouse" then "warehouse"
    else if pred == "filed" then "incident"
    else if pred == "raised" then "audit finding"
    else "entity"
  }

  function MediumText(w: World, a: Edge, b: Edge): string {
    "Which " + NounFor(b.pred) + " is reached from the " + NounFor(a.pred) + " that " + Label(w, a.subject)
    + " is recorded with?"
  }

  function HardText(w: World, a: Edge, c: Edge): string {
    "Starting from " + Label(w, a.subject) + ", follow two intermediate records: which " + NounFor(c.pred)
    + " is reached at the end of that chain?"
  }

  function First(edges: seq<Edge>, keep: Edge -> bool): seq<Edge> {
    if edges == [] then [] else if keep(edges[0]) then [edges[0]] else First(edges[1..], keep)
  }

  function Ids(edges: seq<Edge>): seq<string> {
    if edges == [] then [] else [edges[0].docId] + Ids(edges[1..])
  }

  function Answers(w: World, edges: seq<Edge>): seq<string> {
    if edges == [] then [] else [CanonicalAnswer(w, edges[0].obj)] + Answers(w, edges[1..])
  }

  /** The entities a chain passes through, in order. */
  function Route(chain: seq<Edge>): seq<string> {
    if chain == [] then []
    else if |chain| == 1 then [chain[0].subject, chain[0].obj]
    else Route(chain[..|chain| - 1]) + [chain[|chain| - 1].obj]
  }

  function Key(prefix: string, route: seq<string>): string {
    if route == [] then prefix else Key(prefix, route[..|route| - 1]) + "|" + route[|route| - 1]
  }

  function Prefix(tier: Tier): string {
    if tier.Hard? then "hard" else "medium"
  }

  /** The final checks on a chain. */
  predicate IsAcceptable(s: Setting, used: set<string>, tier: Tier, chain: seq<Edge>)
    requires chain != []
  {
    var last := chain[|chain| - 1].obj;
    && IsResolvable(s.world, last)
    && IsMinimal(Hops(s.world, chain), At(s.world.docsForEntity, last))
    && Key(Prefix(tier), Route(chain)) !in used
    && |CanonicalAnswer(s.world, last)| >= 5 && !s.common(CanonicalAnswer(s.world, last))
  }

  /** Everything of a question but its chain: the wording and the distractors. */
  datatype Wording = Wording(text: string, siblings: seq<Edge>, siblingDocs: seq<string>)

  function Write(w: World, tier: Tier, number: nat, chain: seq<Edge>, wording: Wording): Accepted
    requires chain != []
  {
    var answer := CanonicalAnswer(w, chain[|chain| - 1].obj);
    Accepted(chain, Key(Prefix(tier), Route(chain)),
             Question(tier, number, "", wording.text, answer, Ids(chain), Hops(w, chain), wording.siblingDocs,
                      Answers(w, wording.siblings), false))
  }

  function Judge(s: Setting, st: Progress, tier: Tier, number: nat, chain: seq<Edge>, wording: Wording): Outcome
    requires chain != []
  {
    if IsAcceptable(s, st.used, tier, chain) then
      Made(Write(s.world, tier, number, chain, wording), st.(used := st.used + {Key(Prefix(tier), Route(chain))}))
    else Nothing(st)
  }

  function PickEdge(s: Setting, drawn: nat, edges: seq<Edge>): (e: Edge)
    requires edges != []
    ensures e in edges
  {
    edges[Rng.Below(s.words(drawn), |edges|)]
  }

  /** The edges that continue from `a` without returning to a document already used. */
  function Continuations(w: World, a: Edge, docs: seq<string>): seq<Edge> {
    Filter(At(w.startingAt, a.obj), OutsideOf(docs))
  }

  function OutsideOf(docs: seq<string>): Edge -> bool {
    (e: Edge) => e.docId !in docs
  }

  function Rival(pred: string, obj: string): Edge -> bool {
    (e: Edge) => e.pred == pred && e.obj != obj
  }

  function EndsElsewhere(obj: string): Edge -> bool {
    (e: Edge) => e.obj != obj
  }

  function NonEmpty(): string -> bool {
    (id: string) => id != ""
  }

  /** One distractor: the same relation of the middle entity with another object. */
  function MediumWording(w: World, a: Edge, b: Edge): Wording {
    var sib := First(At(w.startingAt, a.obj), Rival(b.pred, b.obj));
    Wording(MediumText(w, a, b), sib, Ids(sib))
  }

  /** Two distractors: each ends the chain one edge early. */
  function HardWording(w: World, a: Edge, b: Edge, c: Edge): Wording {
    var early := First(At(w.startingAt, a.obj), EndsElsewhere(b.obj))
      + First(At(w.startingAt, b.obj), EndsElsewhere(c.obj));
    Wording(HardText(w, a, c), early, Filter(Ids(early), NonEmpty()))
  }

  /** The chain drawn by one attempt; `NoEdges` is a pick from an empty list, `DeadEnd` a chain abandoned. */
  datatype Choice = NoEdges | DeadEnd(drawn: nat) | Chosen(chain: seq<Edge>, wording: Wording, drawn: nat)

  function ChooseMedium(s: Setting, drawn: nat): Choice {
    var w := s.world;
    if w.withSeconds == [] then NoEdges
    else
      var a := PickEdge(s, drawn, w.withSeconds);
      var seconds := Continuations(w, a, [a.docId]);
      if seconds == [] then DeadEnd(drawn + 1)
      else
        var b := PickEdge(s, drawn + 1, seconds);
        if a.subject == b.obj || b.obj == a.obj then DeadEnd(drawn + 2)
        else Chosen([a, b], MediumWording(w, a, b), drawn + 2)
  }

  function ChooseHard(s: Setting, drawn: nat): Choice {
    var w := s.world;
    if w.withThirds == [] then NoEdges
    else
      var a := PickEdge(s, drawn, w.withThirds);
      var seconds := Continuations(w, a, [a.docId]);
      if seconds == [] then DeadEnd(drawn + 1)
      else
        var b := PickEdge(s, drawn + 1, seconds);
        var thirds := Continuations(w, b, [a.docId, b.docId]);
        if b.obj == a.obj || thirds == [] then DeadEnd(drawn + 2)
        else
          var c := PickEdge(s, drawn + 2, thirds);
          if a.subject == c.obj || c.obj == b.obj || c.obj == a.obj then DeadEnd(drawn + 3)
          else Chosen([a, b, c], HardWording(w, a, b, c), drawn + 3)
  }

  function Choose(s: Setting, tier: Tier, drawn: nat): (r: Choice)
    ensures r.Chosen? ==> r.chain != []
  {
    if tier.Hard? then ChooseHard(s, drawn) else ChooseMedium(s, drawn)
  }

  function Attempt(s: Setting, tier: Tier, st: Progress, number: nat): Outcome {
    match Choose(s, tier, st.drawn)
    case NoEdges => Crashed
    case DeadEnd(drawn) => Nothing(st.(drawn := drawn))
    case Chosen(chain, wording, drawn) => Judge(s, st.(drawn := drawn), tier, number, chain, wording)
  }

  /** Attempts until one succeeds, at most `left`. */
  function Build(s: Setting, tier: Tier, st: Progress, number: nat, left: nat): Outcome
    decreases left
  {
    if left == 0 then Nothing(st)
    else
      match Attempt(s, tier, st, number)
      case Nothing(st') => Build(s, tier, st', number, left - 1)
      case done => done
  }

  datatype Filled = Filled(made: seq<Accepted>, st: Progress) | FillCrashed

  function Prepend(q: Accepted, rest: Filled): Filled {
    match rest
    case FillCrashed => FillCrashed
    case Filled(made, st) => Filled([q] + made, st)
  }

  /** Questions already made, in front of the rest. */
  function Extended(made: seq<Accepted>, rest: Filled): Filled {
    match rest
    case FillCrashed => FillCrashed
    case Filled(more, st) => Filled(made + more, st)
  }
  /** The builder of a tier: the question with this number, from the progress made so far. */
  type Builder = (Progress, nat) -> Outcome

  function BuilderOf(s: Setting, tier: Tier, limit: nat): Builder {
    (st: Progress, number: nat) => Build(s, tier, st, number, limit)
  }

  /** One tier of the main loop: build until enough are made or the tries run out. */
  function Fill(build: Builder, st: Progress, want: nat, made: nat, tries: nat): Filled
    decreases tries
  {
    if made >= want || tries == 0 then Filled([], st)
    else
      match build(st, made + 1)
      case Crashed => FillCrashed
      case Nothing(st') => Fill(build, st', want, made, tries - 1)
      case Made(q, st') => Prepend(q, Fill(build, st', want, made + 1, tries - 1))
  }
}