/** When the ground-truth linter reports what, written from the conditions of its checks. */
module LintExactness {
  import opened Sequences
  import opened Text
  import opened QuestionWorld
  import opened GroundTruthLint

  function TextsOf(docs: seq<Document>, ids: seq<string>): seq<string> {
    if ids == [] then [] else TextsOf(docs, ids[..|ids| - 1]) + [TextOrEmpty(docs, ids[|ids| - 1])]
  }

  predicate Names(text: string, entity: string) {
    Includes(Lower(text), Normalise(entity))
  }

  function AssertsAbsence(): Hop -> bool {
    (hop: Hop) => hop.via == "no_record_for" || Includes(Lower(hop.via), "negative")
  }

  function LacksDocument(docs: seq<Document>): Hop -> bool {
    (hop: Hop) => forall d :: d in docs ==> d.id != hop.docId
  }

  function LacksFrom(docs: seq<Document>): Hop -> bool {
    (hop: Hop) => !LacksDocument(docs)(hop) && !Names(TextOrEmpty(docs, hop.docId), hop.from)
  }

  function LacksTo(docs: seq<Document>): Hop -> bool {
    (hop: Hop) =>
      && !LacksDocument(docs)(hop) && |hop.to| <= 30 && ';' !in hop.to
      && !Names(TextOrEmpty(docs, hop.docId), hop.to)
  }

  predicate HasAnswer(docs: seq<Document>, answer: string, id: string) {
    Includes(Lower(TextOrEmpty(docs, id)), Lower(answer))
  }

  function Holds(docs: seq<Document>, answer: string): string -> bool {
    (id: string) => HasAnswer(docs, answer, id)
  }

  function One(b: bool): nat {
    if b then 1 else 0
  }

  /** How often each check has reason to report a question. */
  function Occasions(docs: seq<Document>, rules: Rules, q: Question, check: Check): nat {
    match check
    case QuestionLeaksAnswer => One(!q.answerIsNegative && Includes(Lower(q.question), Lower(q.answer)))
    case RawIdInQuestion => One(rules.hasRawId(q.question))
    case NegativeRelationInChain =>
      if q.tier in [Medium, Hard] || (q.tier == Complex && q.submechanism != "negative")
      then CountIf(q.hopChain, AssertsAbsence()) else 0
    case MissingHopDocument => CountIf(q.hopChain, LacksDocument(docs))
    case HopMissingFrom => CountIf(q.hopChain, LacksFrom(docs))
    case HopMissingTo => CountIf(q.hopChain, LacksTo(docs))
    case AnswerNotInEvidence =>
      One(!q.answerIsNegative && !Includes(Lower(Join(TextsOf(docs, q.evidenceDocIds), " ")), Lower(q.answer)))
    case PrematureAnswerInChain =>
      if q.tier in [Medium, Hard] && |q.evidenceDocIds| >= 2
      then CountIf(q.evidenceDocIds[..|q.evidenceDocIds| - 1], Holds(docs, q.answer)) else 0
    case AnswerTooShort => One(!q.answerIsNegative && |q.answer| < 3)
  }

  // ----- the parts of a question's report -----

  lemma {:induction false} CountOfIf(b: bool, c: Check, check: Check)
    ensures Count(If(b, c), check) == if b && c == check then 1 else 0
  {
    assert [c][..0] == [];
  }

  lemma {:induction false} CountNegatives(hops: seq<Hop>, check: Check)
    ensures Count(NegativeHops(hops), check)
         == if check.NegativeRelationInChain? then CountIf(hops, AssertsAbsence()) else 0
  {
    if hops != [] {
      var front, last := hops[..|hops| - 1], hops[|hops| - 1];
      CountNegatives(front, check);
      CountOfIf(IsNegative(last.via), NegativeRelationInChain, check);
      CountConcat(NegativeHops(front), If(IsNegative(last.via), NegativeRelationInChain), check);
    }
  }

  /** How often a hop has reason to be reported for a check. */
  function HopOccasions(docs: seq<Document>, hop: Hop, check: Check): nat {
    match check
    case MissingHopDocument => One(LacksDocument(docs)(hop))
    case HopMissingFrom => One(LacksFrom(docs)(hop))
    case HopMissingTo => One(LacksTo(docs)(hop))
    case _ => 0
  }

  lemma {:induction false} LacksExactly(docs: seq<Document>, hop: Hop)
    ensures LacksDocument(docs)(hop) <==> DocOf(docs, hop.docId).None?
  {
    DocOfSome(docs, hop.docId);
    if d :| d in docs && d.id == hop.docId {
      assert !LacksDocument(docs)(hop);
    }
  }

  lemma {:induction false} CountHop(docs: seq<Document>, hop: Hop, check: Check)
    ensures Count(UngroundedHop(docs, hop), check) == HopOccasions(docs, hop, check)
  {
    hide Includes, Normalise, Lower, LacksDocument, DocOf;
    LacksExactly(docs, hop);
    if DocOf(docs, hop.docId).None? {
      CountOfIf(true, MissingHopDocument, check);
    } else {
      CountNames(docs, hop, DocOf(docs, hop.docId).value.text, check);
    }
  }

  lemma {:induction false} CountNames(docs: seq<Document>, hop: Hop, text: string, check: Check)
    requires !LacksDocument(docs)(hop) && TextOrEmpty(docs, hop.docId) == text
    ensures Count(If(!Names(text, hop.from), HopMissingFrom)
                  + If(!IsDescriptive(hop.to) && !Names(text, hop.to), HopMissingTo), check)
         == HopOccasions(docs, hop, check)
  {
    hide Includes, Normalise, Lower, LacksDocument, TextOrEmpty, Names;
    var lacksFrom, lacksTo := !Names(text, hop.from), !IsDescriptive(hop.to) && !Names(text, hop.to);
    CountOfIf(lacksFrom, HopMissingFrom, check);
    CountOfIf(lacksTo, HopMissingTo, check);
    CountConcat(If(lacksFrom, HopMissingFrom), If(lacksTo, HopMissingTo), check);
  }

  function AllHopOccasions(docs: seq<Document>, hops: seq<Hop>, check: Check): nat {
    match check
    case MissingHopDocument => CountIf(hops, LacksDocument(docs))
    case HopMissingFrom => CountIf(hops, LacksFrom(docs))
    case HopMissingTo => CountIf(hops, LacksTo(docs))
    case _ => 0
  }

  lemma {:induction false} CountHops(docs: seq<Document>, hops: seq<Hop>, check: Check)
    ensures Count(UngroundedHops(docs, hops), check) == AllHopOccasions(docs, hops, check)
  {
    if hops != [] {
      hide UngroundedHop, LacksDocument, LacksFrom, LacksTo;
      var front, last := hops[..|hops| - 1], hops[|hops| - 1];
      CountHops(docs, front, check);
      CountHop(docs, last, check);
      CountConcat(UngroundedHops(docs, front), UngroundedHop(docs, last), check);
    }
  }

  lemma HasAnswerIs(docs: seq<Document>, answer: string, id: string)
    ensures HasAnswer(docs, answer, id) == Includes(Lower(TextOrEmpty(docs, id)), Lower(answer))
  {
    hide Includes;
  }

  lemma {:induction false} CountPremature(docs: seq<Document>, answer: string, ids: seq<string>, check: Check)
    ensures Count(Premature(docs, answer, ids), check)
         == if check.PrematureAnswerInChain? then CountIf(ids, Holds(docs, answer)) else 0
  {
    if ids != [] {
      hide HasAnswer, Includes, Lower, TextOrEmpty;
      var front, last := ids[..|ids| - 1], ids[|ids| - 1];
      var held := Includes(Lower(TextOrEmpty(docs, last)), Lower(answer));
      assert held == HasAnswer(docs, answer, last) by { HasAnswerIs(docs, answer, last); }
      CountPremature(docs, answer, front, check);
      CountOfIf(held, PrematureAnswerInChain, check);
      CountConcat(Premature(docs, answer, front), If(held, PrematureAnswerInChain), check);
    }
  }

  /** The evidence is the texts of the evidence documents, joined by blanks. */
  lemma {:induction false} EvidenceIsJoined(docs: seq<Document>, ids: seq<string>)
    ensures |TextsOf(docs, ids)| == |ids| && Evidence(docs, ids) == Join(TextsOf(docs, ids), " ")
    ensures forall i :: 0 <= i < |ids| ==> TextsOf(docs, ids)[i] == TextOrEmpty(docs, ids[i])
  {
    if ids != [] {
      EvidenceIsJoined(docs, ids[..|ids| - 1]);
      JoinSnoc(TextsOf(docs, ids[..|ids| - 1]), TextOrEmpty(docs, ids[|ids| - 1]), " ");
    }
  }

  lemma {:induction false} CountSurface(docs: seq<Document>, rules: Rules, q: Question, check: Check)
    ensures Count(SurfaceViolations(rules, q), check)
         == if check.QuestionLeaksAnswer? || check.RawIdInQuestion? then Occasions(docs, rules, q, check) else 0
  {
    hide Includes;
    var leaks, raw := !q.answerIsNegative && Includes(Lower(q.question), Lower(q.answer)), rules.hasRawId(q.question);
    CountOfIf(leaks, QuestionLeaksAnswer, check);
    CountOfIf(raw, RawIdInQuestion, check);
    CountConcat(If(leaks, QuestionLeaksAnswer), If(raw, RawIdInQuestion), check);
  }

  /** The reports about answers that come too early. */
  function EarlyReports(docs: seq<Document>, q: Question): seq<Check> {
    var ids := q.evidenceDocIds;
    if (q.tier.Medium? || q.tier.Hard?) && |ids| >= 2 then Premature(docs, q.answer, ids[..|ids| - 1]) else []
  }

  lemma {:induction false} CountEarly(docs: seq<Document>, rules: Rules, q: Question, check: Check)
    ensures Count(EarlyReports(docs, q), check)
         == if check.PrematureAnswerInChain? then Occasions(docs, rules, q, check) else 0
  {
    hide Holds, Premature;
    if |q.evidenceDocIds| >= 2 {
      CountPremature(docs, q.answer, q.evidenceDocIds[..|q.evidenceDocIds| - 1], check);
    }
  }

  lemma {:induction false} CountAnswer(docs: seq<Document>, rules: Rules, q: Question, check: Check)
    ensures Count(AnswerViolations(docs, q), check)
         == if check.AnswerNotInEvidence? || check.PrematureAnswerInChain? || check.AnswerTooShort?
            then Occasions(docs, rules, q, check) else 0
  {
    hide Includes, Lower, EarlyReports, Evidence;
    var missing := !q.answerIsNegative && !Includes(Lower(Evidence(docs, q.evidenceDocIds)), Lower(q.answer));
    var short := !q.answerIsNegative && |q.answer| < 3;
    AnswerParts(docs, q);
    EvidenceIsJoined(docs, q.evidenceDocIds);
    CountOfIf(missing, AnswerNotInEvidence, check);
    CountOfIf(short, AnswerTooShort, check);
    CountEarly(docs, rules, q, check);
    CountConcat(If(missing, AnswerNotInEvidence), EarlyReports(docs, q), check);
    CountConcat(If(missing, AnswerNotInEvidence) + EarlyReports(docs, q), If(short, AnswerTooShort), check);
  }

  lemma {:induction false} AnswerParts(docs: seq<Document>, q: Question)
    ensures AnswerViolations(docs, q)
         == If(!q.answerIsNegative && !Includes(Lower(Evidence(docs, q.evidenceDocIds)), Lower(q.answer)),
               AnswerNotInEvidence)
            + EarlyReports(docs, q) + If(!q.answerIsNegative && |q.answer| < 3, AnswerTooShort)
  {
  }

  lemma {:induction false} CountParts(a: seq<Check>, b: seq<Check>, c: seq<Check>, d: seq<Check>, check: Check)
    ensures Count(a + b + c + d, check) == Count(a, check) + Count(b, check) + Count(c, check) + Count(d, check)
  {
    CountConcat(a, b, check);
    CountConcat(a + b, c, check);
    CountConcat(a + b + c, d, check);
  }

  /** Each check is reported exactly as often as it has reason to be. */
  lemma {:induction false} ReportedExactly(docs: seq<Document>, rules: Rules, q: Question, check: Check)
    ensures Count(Violations(docs, rules, q), check) == Occasions(docs, rules, q, check)
  {
    hide SurfaceViolations, UngroundedHops, AnswerViolations, NegativeHops;
    var negatives := if ChecksNegatives(q) then NegativeHops(q.hopChain) else [];
    CountSurface(docs, rules, q, check);
    CountNegatives(q.hopChain, check);
    CountHops(docs, q.hopChain, check);
    CountAnswer(docs, rules, q, check);
    CountParts(SurfaceViolations(rules, q), negatives, UngroundedHops(docs, q.hopChain), AnswerViolations(docs, q),
               check);
  }

  lemma {:induction false} CountIfAny<T(!new)>(s: seq<T>, f: T -> bool)
    ensures CountIf(s, f) > 0 <==> exists i :: 0 <= i < |s| && f(s[i])
  {
    if s != [] {
      CountIfAny(s[..|s| - 1], f);
      if i :| 0 <= i < |s| && f(s[i]) {
        assert i < |s| - 1 ==> s[..|s| - 1][i] == s[i];
      }
    }
  }

  lemma {:induction false} CountAny(checks: seq<Check>, check: Check)
    ensures Count(checks, check) > 0 <==> check in checks
  {
    if checks != [] {
      CountAny(checks[..|checks| - 1], check);
      assert checks == checks[..|checks| - 1] + [checks[|checks| - 1]];
    }
  }

  /**
   * A premature answer is reported exactly on a medium or hard question with the answer in some document but the
   * last.
   */
  lemma PrematureExactly(docs: seq<Document>, rules: Rules, q: Question)
    ensures PrematureAnswerInChain in Violations(docs, rules, q)
       <==> && q.tier in [Medium, Hard]
            && exists i :: 0 <= i < |q.evidenceDocIds| - 1
                 && Includes(Lower(TextOrEmpty(docs, q.evidenceDocIds[i])), Lower(q.answer))
  {
    hide Violations, Occasions, Includes;
    ReportedWhenever(docs, rules, q, PrematureAnswerInChain);
    EarlyOccasions(docs, rules, q);
  }

  lemma EarlyOccasions(docs: seq<Document>, rules: Rules, q: Question)
    ensures Occasions(docs, rules, q, PrematureAnswerInChain) > 0
       <==> && q.tier in [Medium, Hard]
            && exists i :: 0 <= i < |q.evidenceDocIds| - 1
                 && Includes(Lower(TextOrEmpty(docs, q.evidenceDocIds[i])), Lower(q.answer))
  {
    hide HasAnswer, Includes, Lower, TextOrEmpty;
    if |q.evidenceDocIds| >= 2 {
      var early := q.evidenceDocIds[..|q.evidenceDocIds| - 1];
      CountIfAny(early, Holds(docs, q.answer));
      forall i | 0 <= i < |early|
        ensures Holds(docs, q.answer)(early[i])
           <==> Includes(Lower(TextOrEmpty(docs, q.evidenceDocIds[i])), Lower(q.answer))
      {
        HasAnswerIs(docs, q.answer, early[i]);
      }
    }
  }

  /** A check is reported exactly when it has an occasion. */
  lemma ReportedWhenever(docs: seq<Document>, rules: Rules, q: Question, check: Check)
    ensures check in Violations(docs, rules, q) <==> Occasions(docs, rules, q, check) > 0
  {
    ReportedExactly(docs, rules, q, check);
    CountAny(Violations(docs, rules, q), check);
  }

  // ----- the whole report -----

  lemma {:induction false} LabelledHolds(q: Question, checks: seq<Check>, v: Violation)
    ensures v in Labelled(q, checks) <==> v.number == q.number && v.tier == q.tier && v.check in checks
  {
    if checks != [] {
      LabelledHolds(q, checks[..|checks| - 1], v);
      assert checks == checks[..|checks| - 1] + [checks[|checks| - 1]];
    }
  }

  ghost predicate Concerns(docs: seq<Document>, rules: Rules, q: Question, v: Violation) {
    v.number == q.number && v.tier == q.tier && Occasions(docs, rules, q, v.check) > 0
  }

  /** The report names exactly the checks that have an occasion in some question, under its number and tier. */
  lemma {:induction false} ReportHolds(docs: seq<Document>, rules: Rules, qs: seq<Question>, v: Violation)
    ensures v in Report(docs, rules, qs) <==> exists i :: 0 <= i < |qs| && Concerns(docs, rules, qs[i], v)
  {
    hide Violations, Occasions;
    if qs != [] {
      var front, q := qs[..|qs| - 1], qs[|qs| - 1];
      ReportHolds(docs, rules, front, v);
      LabelledHolds(q, Violations(docs, rules, q), v);
      ReportedWhenever(docs, rules, q, v.check);
      assert qs == front + [q];
    }
  }

  // ----- the form of an entity that is looked for -----

  ghost predicate AreLetters(word: string) {
    forall i :: 0 <= i < |word| ==> 'a' <= word[i] <= 'z'
  }

  /** The name begins with the word, in any case, and white space. */
  ghost predicate IsLedBy(name: string, word: string) {
    |name| > |word| && Lower(name[..|word|]) == word && IsSpace(name[|word|])
  }

  lemma LedExactly(name: string, word: string)
    ensures LeadsWith(name, word) <==> IsLedBy(name, word)
  {
    if |name| > |word| {
      assert Lower(name)[..|word|] == Lower(name[..|word|]);
    }
  }

  /** Two words of letters cannot both lead a name. */
  lemma OneWordLeads(name: string, a: string, b: string)
    requires AreLetters(a) && AreLetters(b) && IsLedBy(name, a) && IsLedBy(name, b)
    ensures a == b
  {
    LetterAfter(name, a, b);
    LetterAfter(name, b, a);
    assert |a| == |b|;
  }

  lemma LetterAfter(name: string, a: string, b: string)
    requires AreLetters(b) && IsLedBy(name, a) && IsLedBy(name, b)
    ensures |a| >= |b|
  {
    assert forall i :: 0 <= i < |b| ==> b[i] == Lower(name[..|b|])[i] == LowerChar(name[i]);
  }

  lemma {:induction false} StripWordExactly(name: string, words: seq<string>)
    requires forall i :: 0 <= i < |words| ==> AreLetters(words[i])
    ensures forall word :: word in words && IsLedBy(name, word) ==> StripWord(name, words) == TrimStart(name[|word|..])
    ensures (forall word :: word in words ==> !IsLedBy(name, word)) ==> StripWord(name, words) == name
  {
    if words != [] {
      assert words == [words[0]] + words[1..];
      assert forall i :: 0 <= i < |words[1..]| ==> words[1..][i] == words[i + 1];
      LedExactly(name, words[0]);
      StripWordExactly(name, words[1..]);
      forall word | word in words && IsLedBy(name, word) ensures StripWord(name, words) == TrimStart(name[|word|..]) {
        if IsLedBy(name, words[0]) {
          var i :| 0 <= i < |words| && words[i] == word;
          OneWordLeads(name, words[0], word);
        }
      }
    }
  }

  /**
   * The linter looks for an entity's name without a leading PT and without a leading word for its kind, trimmed and in
   * lower case.
   */
  lemma NormaliseExactly(name: string)
    ensures forall word ::
              word in ["delivery", "invoice", "incident", "finding", "project", "warehouse", "batch", "serial"]
              && IsLedBy(StripPt(name), word) ==>
              Normalise(name) == Lower(Trim(TrimStart(StripPt(name)[|word|..])))
    ensures (forall word :: word in KIND_WORDS ==> !IsLedBy(StripPt(name), word)) ==>
              Normalise(name) == Lower(Trim(StripPt(name)))
  {
    StripWordExactly(StripPt(name), KIND_WORDS);
  }

  /** A missing document has no text; of several documents with one id the last one counts. */
  lemma TextExactly(docs: seq<Document>, id: string)
    ensures (forall d :: d in docs ==> d.id != id) ==> TextOrEmpty(docs, id) == ""
    ensures forall i :: IsLastWith(docs, id, i) ==> TextOrEmpty(docs, id) == docs[i].text
  {
    DocOfSome(docs, id);
    forall i | IsLastWith(docs, id, i) ensures TextOrEmpty(docs, id) == docs[i].text {
      DocOfIsLast(docs, id, i);
    }
  }
}
