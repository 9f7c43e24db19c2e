/** The ground-truth linter: an independent re-reading of the questions against the documents. */
module GroundTruthLint {
  import opened Sequences
  import opened Text
  import opened QuestionWorld

  datatype Check =
    | QuestionLeaksAnswer | RawIdInQuestion | NegativeRelationInChain | MissingHopDocument | HopMissingFrom
    | HopMissingTo | AnswerNotInEvidence | PrematureAnswerInChain | AnswerTooShort

  datatype Violation = Violation(number: nat, tier: Tier, check: Check)

  /** The linter's raw-identifier pattern: one of six entity prefixes, a hyphen and digits, as a whole word. */
  datatype Rules = Rules(hasRawId: string -> bool)

  const KIND_WORDS: seq<string> := [
    "delivery", "invoice", "incident", "finding", "project", "warehouse", "batch", "serial"
  ]

  predicate LeadsWith(name: string, word: string) {
    |name| > |word| && Lower(name)[..|word|] == word && IsSpace(name[|word|])
  }

  /** The first of the words that leads the name, and the white space after it, cut off. */
  function StripWord(name: string, words: seq<string>): string {
    if words == [] then name
    else if LeadsWith(name, words[0]) then TrimStart(name[|words[0]|..])
    else StripWord(name, words[1..])
  }

  /** The form of an entity that is looked for in a hop's document. */
  function Normalise(name: string): string {
    Lower(Trim(StripWord(StripPt(name), KIND_WORDS)))
  }

  function TextOrEmpty(docs: seq<Document>, id: string): string {
    match DocOf(docs, id) case Some(d) => d.text case None => ""
  }

  predicate ChecksNegatives(q: Question) {
    q.tier.Medium? || q.tier.Hard? || (q.tier.Complex? && q.submechanism != "negative")
  }

  predicate IsNegative(via: string) {
    via == "no_record_for" || Includes(Lower(via), "negative")
  }

  function If(b: bool, c: Check): seq<Check> {
    if b then [c] else []
  }

  function NegativeHops(hops: seq<Hop>): seq<Check> {
    if hops == [] then []
    else NegativeHops(hops[..|hops| - 1]) + If(IsNegative(hops[|hops| - 1].via), NegativeRelationInChain)
  }

  /** Too long, or too much of a sentence, to be looked for in the document. */
  predicate IsDescriptive(to: string) {
    |to| > 30 || ';' in to
  }

  function UngroundedHop(docs: seq<Document>, hop: Hop): seq<Check> {
    match DocOf(docs, hop.docId)
    case None => [MissingHopDocument]
    case Some(d) =>
      If(!Includes(Lower(d.text), Normalise(hop.from)), HopMissingFrom)
      + If(!IsDescriptive(hop.to) && !Includes(Lower(d.text), Normalise(hop.to)), HopMissingTo)
  }

  function UngroundedHops(docs: seq<Document>, hops: seq<Hop>): seq<Check> {
    if hops == [] then []
    else UngroundedHops(docs, hops[..|hops| - 1]) + UngroundedHop(docs, hops[|hops| - 1])
  }

  function Evidence(docs: seq<Document>, ids: seq<string>): string {
    if ids == [] then ""
    else if |ids| == 1 then TextOrEmpty(docs, ids[0])
    else Evidence(docs, ids[..|ids| - 1]) + " " + TextOrEmpty(docs, ids[|ids| - 1])
  }

  function Premature(docs: seq<Document>, answer: string, ids: seq<string>): seq<Check> {
    if ids == [] then []
    else
      Premature(docs, answer, ids[..|ids| - 1])
      + If(Includes(Lower(TextOrEmpty(docs, ids[|ids| - 1])), Lower(answer)), PrematureAnswerInChain)
  }

  function SurfaceViolations(rules: Rules, q: Question): seq<Check> {
    If(!q.answerIsNegative && Includes(Lower(q.question), Lower(q.answer)), QuestionLeaksAnswer)
    + If(rules.hasRawId(q.question), RawIdInQuestion)
  }

  function AnswerViolations(docs: seq<Document>, q: Question): seq<Check> {
    If(!q.answerIsNegative && !Includes(Lower(Evidence(docs, q.evidenceDocIds)), Lower(q.answer)), AnswerNotInEvidence)
    + (if (q.tier.Medium? || q.tier.Hard?) && |q.evidenceDocIds| >= 2
       then Premature(docs, q.answer, q.evidenceDocIds[..|q.evidenceDocIds| - 1]) else [])
    + If(!q.answerIsNegative && |q.answer| < 3, AnswerTooShort)
  }

  /** What the linter reports about one question, in the order it reports it. */
  function Violations(docs: seq<Document>, rules: Rules, q: Question): seq<Check> {
    SurfaceViolations(rules, q)
    + (if ChecksNegatives(q) then NegativeHops(q.hopChain) else [])
    + UngroundedHops(docs, q.hopChain)
    + AnswerViolations(docs, q)
  }

  function Labelled(q: Question, checks: seq<Check>): seq<Violation> {
    if checks == [] then []
    else Labelled(q, checks[..|checks| - 1]) + [Violation(q.number, q.tier, checks[|checks| - 1])]
  }

  function Report(docs: seq<Document>, rules: Rules, qs: seq<Question>): seq<Violation> {
    if qs == [] then []
    else
      var q := qs[|qs| - 1];
      Report(docs, rules, qs[..|qs| - 1]) + Labelled(q, Violations(docs, rules, q))
  }

  function InTier(t: Tier): Question -> bool {
    (q: Question) => q.tier == t
  }

  function Tally(counts: map<Tier, nat>, t: Tier): nat {
    if t in counts then counts[t] else 0
  }

  /** The negative-relation check over the hops. */
  method LintNegatives(hops: seq<Hop>) returns (checks: seq<Check>)
    ensures checks == NegativeHops(hops)
  {
    checks := [];
    for i := 0 to |hops|
      invariant checks == NegativeHops(hops[..i])
    {
      assert hops[..i + 1][..i] == hops[..i];
      if IsNegative(hops[i].via) {
        checks := checks + [NegativeRelationInChain];
      }
    }
    assert hops[..|hops|] == hops;
  }

  /** The grounding check of one hop; a missing document ends it. */
  method LintHop(docs: seq<Document>, hop: Hop) returns (checks: seq<Check>)
    ensures checks == UngroundedHop(docs, hop)
  {
    var doc := DocOf(docs, hop.docId);
    if doc.None? {
      return [MissingHopDocument];
    }
    checks := [];
    var lower := Lower(doc.value.text);
    if !Includes(lower, Normalise(hop.from)) {
      checks := checks + [HopMissingFrom];
    }
    if !IsDescriptive(hop.to) && !Includes(lower, Normalise(hop.to)) {
      checks := checks + [HopMissingTo];
    }
  }

  method LintHops(docs: seq<Document>, hops: seq<Hop>) returns (checks: seq<Check>)
    ensures checks == UngroundedHops(docs, hops)
  {
    checks := [];
    for i := 0 to |hops|
      invariant checks == UngroundedHops(docs, hops[..i])
    {
      assert hops[..i + 1][..i] == hops[..i];
      var found := LintHop(docs, hops[i]);
      checks := checks + found;
    }
    assert hops[..|hops|] == hops;
  }

  method LintQuestion(docs: seq<Document>, rules: Rules, q: Question) returns (checks: seq<Check>)
    ensures checks == Violations(docs, rules, q)
  {
    var surface := LintSurface(rules, q);
    var chain: seq<Check> := [];
    if ChecksNegatives(q) {
      chain := LintNegatives(q.hopChain);
    }
    var hops := LintHops(docs, q.hopChain);
    var answer := LintAnswer(docs, q);
    checks := surface + chain + hops + answer;
  }

  method LintSurface(rules: Rules, q: Question) returns (checks: seq<Check>)
    ensures checks == SurfaceViolations(rules, q)
  {
    checks := [];
    if !q.answerIsNegative && Includes(Lower(q.question), Lower(q.answer)) {
      checks := checks + [QuestionLeaksAnswer];
    }
    if rules.hasRawId(q.question) {
      checks := checks + [RawIdInQuestion];
    }
  }

  method LintAnswer(docs: seq<Document>, q: Question) returns (checks: seq<Check>)
    ensures checks == AnswerViolations(docs, q)
  {
    checks := [];
    if !q.answerIsNegative && !Includes(Lower(Evidence(docs, q.evidenceDocIds)), Lower(q.answer)) {
      checks := checks + [AnswerNotInEvidence];
    }
    if (q.tier.Medium? || q.tier.Hard?) && |q.evidenceDocIds| >= 2 {
      var early := LintEarly(docs, q.answer, q.evidenceDocIds[..|q.evidenceDocIds| - 1]);
      checks := checks + early;
    }
    if !q.answerIsNegative && |q.answer| < 3 {
      checks := checks + [AnswerTooShort];
    }
  }

  method LintEarly(docs: seq<Document>, answer: string, ids: seq<string>) returns (checks: seq<Check>)
    ensures checks == Premature(docs, answer, ids)
  {
    checks := [];
    for i := 0 to |ids|
      invariant checks == Premature(docs, answer, ids[..i])
    {
      assert ids[..i + 1][..i] == ids[..i];
      if Includes(Lower(TextOrEmpty(docs, ids[i])), Lower(answer)) {
        checks := checks + [PrematureAnswerInChain];
      }
    }
    assert ids[..|ids|] == ids;
  }

  method LintGroundTruth(docs: seq<Document>, rules: Rules, qs: seq<Question>)
    returns (violations: seq<Violation>, tierCounts: map<Tier, nat>, passed: bool)
    ensures violations == Report(docs, rules, qs) && passed == (violations == [])
    ensures forall t :: Tally(tierCounts, t) == CountIf(qs, InTier(t))
  {
    violations, tierCounts := [], map[];
    for i := 0 to |qs|
      invariant violations == Report(docs, rules, qs[..i])
      invariant forall t :: Tally(tierCounts, t) == CountIf(qs[..i], InTier(t))
    {
      assert qs[..i + 1][..i] == qs[..i];
      tierCounts := tierCounts[qs[i].tier := Tally(tierCounts, qs[i].tier) + 1];
      var checks := LintQuestion(docs, rules, qs[i]);
      violations := violations + Labelled(qs[i], checks);
    }
    assert qs[..|qs|] == qs;
    passed := violations == [];
  }

  // ----- what it takes for a check not to fire -----

  lemma {:induction false} NoNegativeHops(hops: seq<Hop>)
    requires forall i :: 0 <= i < |hops| ==> !IsNegative(hops[i].via)
    ensures NegativeHops(hops) == []
  {
    if hops != [] {
      NoNegativeHops(hops[..|hops| - 1]);
    }
  }

  predicate NamesNoDocument(docs: seq<Document>, hop: Hop) {
    forall d :: d in docs ==> d.id != hop.docId
  }

  lemma UngroundedHopKinds(docs: seq<Document>, hop: Hop)
    ensures MissingHopDocument in UngroundedHop(docs, hop) <==> NamesNoDocument(docs, hop)
    ensures forall c :: c in UngroundedHop(docs, hop) ==> c in [MissingHopDocument, HopMissingFrom, HopMissingTo]
  {
    DocOfSome(docs, hop.docId);
  }

  /** The grounding check reports a missing document exactly for a hop whose document is not in the corpus. */
  lemma {:induction false} NoMissingDocument(docs: seq<Document>, hops: seq<Hop>)
    ensures MissingHopDocument in UngroundedHops(docs, hops)
            <==> exists i :: 0 <= i < |hops| && NamesNoDocument(docs, hops[i])
  {
    if hops != [] {
      hide UngroundedHop, NamesNoDocument;
      var front, last := hops[..|hops| - 1], hops[|hops| - 1];
      assert hops == front + [last];
      NoMissingDocument(docs, front);
      UngroundedHopKinds(docs, last);
    }
  }

  lemma {:induction false} GroundingKinds(docs: seq<Document>, hops: seq<Hop>)
    ensures forall c :: c in UngroundedHops(docs, hops) ==> c in [MissingHopDocument, HopMissingFrom, HopMissingTo]
  {
    if hops != [] {
      hide UngroundedHop;
      GroundingKinds(docs, hops[..|hops| - 1]);
      UngroundedHopKinds(docs, hops[|hops| - 1]);
    }
  }

  lemma {:induction false} NotPremature(docs: seq<Document>, answer: string, ids: seq<string>)
    requires forall i :: 0 <= i < |ids| ==> !Includes(Lower(TextOrEmpty(docs, ids[i])), Lower(answer))
    ensures Premature(docs, answer, ids) == []
  {
    if ids != [] {
      NotPremature(docs, answer, ids[..|ids| - 1]);
    }
  }

  // ----- no allow-listed predicate is negative -----

  /** A text that includes "negative" has a 'g' right after an 'e'. */
  lemma NegativeHasEg(hay: string)
    ensures Includes(hay, "negative") ==> exists i :: 0 <= i < |hay| - 1 && hay[i] == 'e' && hay[i + 1] == 'g'
  {
    if Includes(hay, "negative") {
      var i :| 0 <= i <= |hay| && OccursAt(hay, "negative", i);
      assert hay[i..i + 8][1] == hay[i + 1] && hay[i..i + 8][2] == hay[i + 2];
    }
  }

  /** Lower-case letters and underscores, and no 'g' right after an 'e'. */
  predicate IsInnocent(via: string) {
    && (forall i :: 0 <= i < |via| ==> 'a' <= via[i] <= 'z' || via[i] == '_')
    && (forall i :: 0 <= i < |via| - 1 ==> via[i] != 'e' || via[i + 1] != 'g')
  }

  lemma InnocentIsPositive(via: string)
    requires IsInnocent(via) && via != "no_record_for"
    ensures !IsNegative(via)
  {
    assert Lower(via) == via;
    NegativeHasEg(via);
  }

  lemma FirstFive(via: string)
    requires via in POSITIVE_CHAIN_PREDICATES[..5]
    ensures !IsNegative(via)
  {
    hide Lower, IsNegative;
    assert POSITIVE_CHAIN_PREDICATES[..5] == ["from_vendor", "received_delivery", "raised_against", "signed_off",
                                              "covers"];
    InnocentIsPositive(via);
  }

  lemma MiddleFive(via: string)
    requires via in POSITIVE_CHAIN_PREDICATES[5..10]
    ensures !IsNegative(via)
  {
    assert POSITIVE_CHAIN_PREDICATES[5..10] == ["approved", "for_project", "carried_batch", "contains_serial",
                                                "raised"];
    InnocentIsPositive(via);
  }

  lemma LastFive(via: string)
    requires via in POSITIVE_CHAIN_PREDICATES[10..]
    ensures !IsNegative(via)
  {
    assert POSITIVE_CHAIN_PREDICATES[10..]
        == ["scoped_to_project", "against_vendor", "filed", "at_warehouse", "involved_batch"];
    InnocentIsPositive(via);
  }

  lemma AllowListIsPositive(via: string)
    requires via in POSITIVE_CHAIN_PREDICATES
    ensures !IsNegative(via)
  {
    var all := POSITIVE_CHAIN_PREDICATES;
    assert all == all[..5] + all[5..10] + all[10..];
    if via in all[..5] {
      FirstFive(via);
    } else if via in all[5..10] {
      MiddleFive(via);
    } else {
      LastFive(via);
    }
  }
}
