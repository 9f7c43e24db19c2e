/** What the generator accepts, the linter cannot reject on the checks about chains. */
module LintTheorems {
  import opened Sequences
  import opened Text
  import opened QuestionWorld
  import opened QuestionSpec
  import opened QuestionTheorems
  import opened GroundTruthLint

  function DocIds(c: Corpus): set<string> {
    set d | d in c.docs :: d.id
  }

  /** Names carry no white space around their distinctive part, and the index speaks of documents of the corpus. */
  ghost predicate IsWellFormed(c: Corpus) {
    && (forall id :: id in c.names ==> Canonical(c.names[id]) == StripPt(c.names[id]))
    && EntryIds(c) <= DocIds(c)
  }

  /** The documents of a sound chain exist. */
  lemma ChainIsGrounded(c: Corpus, chain: seq<Edge>, i: nat)
    requires IsWellFormed(c) && IsChain(c, chain) && i < |chain|
    ensures exists d :: d in c.docs && d.id == chain[i].docId
  {
    EdgesComeFromEntries(c);
    assert chain[i] in AllEdges(c);
    assert chain[i].docId in DocIds(c);
  }

  lemma NoNegativeRelation(w: World, c: Corpus, tier: Tier, a: Accepted)
    requires IsSound(w, c, tier, a)
    ensures NegativeHops(a.question.hopChain) == []
  {
    var hops := a.question.hopChain;
    forall i | 0 <= i < |hops| ensures !IsNegative(hops[i].via) {
      assert a.chain[i] in PositiveEdges(c);
      AllowListIsPositive(a.chain[i].pred);
    }
    NoNegativeHops(hops);
  }

  /** An early document of a local chain does not hold the answer. */
  lemma EarlyTextLacksAnswer(w: World, c: Corpus, chain: seq<Edge>, i: nat)
    requires IsWellFormed(c) && w.names == c.names && IsChain(c, chain) && IsLocal(c, chain) && i < |chain| - 1
    requires chain[|chain| - 1].obj in c.names && |Canonical(c.names[chain[|chain| - 1].obj])| >= 5
    ensures !Includes(Lower(TextOrEmpty(c.docs, chain[i].docId)), Lower(Canonical(c.names[chain[|chain| - 1].obj])))
  {
    var last := chain[|chain| - 1].obj;
    ChainIsGrounded(c, chain, i);
    DocOfSome(c.docs, chain[i].docId);
    var text := TextOrEmpty(c.docs, chain[i].docId);
    var d :| d in c.docs && d.id == chain[i].docId && d.text == text;
    assert !Mentions(d, c.names, last);
    NotMentioned(text, c.names[last]);
  }

  lemma NotMentioned(text: string, name: string)
    requires |Canonical(name)| >= 5 && Canonical(name) == StripPt(name) && !TextMentions(text, name)
    ensures !Includes(Lower(text), Lower(Canonical(name)))
  {
    IndexIsSoundExactlyWhenTrimmed(name);
  }

  lemma EarlyEvidenceLacksAnswer(w: World, c: Corpus, tier: Tier, a: Accepted, i: nat)
    requires IsWellFormed(c) && w.names == c.names && IsSound(w, c, tier, a) && i < |a.chain| - 1
    ensures !Includes(Lower(TextOrEmpty(c.docs, a.question.evidenceDocIds[i])), Lower(a.question.answer))
  {
    hide IsWellFormed, IsChain, IsLocal, Includes, TextOrEmpty;
    EarlyTextLacksAnswer(w, c, a.chain, i);
  }

  lemma NoPrematureAnswer(w: World, c: Corpus, tier: Tier, a: Accepted)
    requires IsWellFormed(c) && w.names == c.names && IsSound(w, c, tier, a)
    ensures Premature(c.docs, a.question.answer, AllButLast(a.question.evidenceDocIds)) == []
  {
    var answer, ids := a.question.answer, a.question.evidenceDocIds;
    forall i | 0 <= i < |ids| - 1 ensures !Includes(Lower(TextOrEmpty(c.docs, ids[i])), Lower(answer)) {
      EarlyEvidenceLacksAnswer(w, c, tier, a, i);
    }
    NotPrematureBefore(c.docs, answer, ids);
  }

  function AllButLast(ids: seq<string>): seq<string> {
    if ids == [] then [] else ids[..|ids| - 1]
  }

  lemma {:induction false} NotPrematureBefore(docs: seq<Document>, answer: string, ids: seq<string>)
    requires forall i :: 0 <= i < |ids| - 1 ==> !Includes(Lower(TextOrEmpty(docs, ids[i])), Lower(answer))
    ensures Premature(docs, answer, AllButLast(ids)) == []
  {
    NotPremature(docs, answer, AllButLast(ids));
  }

  /** The checks that can never fire on an accepted question. */
  predicate IsSettled(check: Check) {
    check.NegativeRelationInChain? || check.MissingHopDocument? || check.PrematureAnswerInChain?
      || check.AnswerTooShort?
  }

  function Unsettled(): Check -> bool {
    (check: Check) => !IsSettled(check)
  }

  /** Only allowed checks are reported about this question. */
  ghost predicate Passes(docs: seq<Document>, rules: Rules, q: Question, allowed: Check -> bool) {
    forall check :: check in Violations(docs, rules, q) ==> allowed(check)
  }

  /** What it takes for none of the settled checks to fire. */
  ghost predicate Settles(c: Corpus, q: Question) {
    && (ChecksNegatives(q) ==> NegativeHops(q.hopChain) == [])
    && (forall i :: 0 <= i < |q.hopChain| ==> !NamesNoDocument(c.docs, q.hopChain[i]))
    && (q.tier.Medium? || q.tier.Hard? ==> Premature(c.docs, q.answer, AllButLast(q.evidenceDocIds)) == [])
    && (q.answerIsNegative || |q.answer| >= 5)
  }

  lemma SettlesPasses(c: Corpus, rules: Rules, q: Question)
    requires Settles(c, q)
    ensures Passes(c.docs, rules, q, Unsettled())
  {
    PresentHopsPass(c.docs, q.hopChain);
    AnswerChecksPass(c.docs, q);
    HopChecksPass(c.docs, rules, q);
  }

  /** Hops whose documents exist are reported for the names they lack only. */
  lemma {:induction false} PresentHopsPass(docs: seq<Document>, hops: seq<Hop>)
    requires forall i :: 0 <= i < |hops| ==> !NamesNoDocument(docs, hops[i])
    ensures forall check :: check in UngroundedHops(docs, hops) ==> !IsSettled(check)
  {
    hide UngroundedHops, NamesNoDocument;
    NoMissingDocument(docs, hops);
    GroundingKinds(docs, hops);
  }

  lemma {:induction false} AnswerChecksPass(docs: seq<Document>, q: Question)
    requires q.answerIsNegative || |q.answer| >= 5
    requires q.tier.Medium? || q.tier.Hard? ==> Premature(docs, q.answer, AllButLast(q.evidenceDocIds)) == []
    ensures forall check :: check in AnswerViolations(docs, q) ==> check == AnswerNotInEvidence
  {
  }

  lemma {:induction false} HopChecksPass(docs: seq<Document>, rules: Rules, q: Question)
    requires ChecksNegatives(q) ==> NegativeHops(q.hopChain) == []
    requires forall check :: check in UngroundedHops(docs, q.hopChain) ==> !IsSettled(check)
    requires forall check :: check in AnswerViolations(docs, q) ==> !IsSettled(check)
    ensures Passes(docs, rules, q, Unsettled())
  {
  }

  /** An accepted medium or hard question settles them all. */
  lemma SoundSettles(w: World, c: Corpus, tier: Tier, a: Accepted)
    requires IsWellFormed(c) && w.names == c.names && IsSound(w, c, tier, a)
    ensures Settles(c, a.question) && NegativeHops(a.question.hopChain) == []
  {
    NoNegativeRelation(w, c, tier, a);
    NoPrematureAnswer(w, c, tier, a);
    forall i | 0 <= i < |a.question.hopChain| ensures !NamesNoDocument(c.docs, a.question.hopChain[i]) {
      ChainIsGrounded(c, a.chain, i);
    }
  }

  function Questions(made: seq<Accepted>): seq<Question> {
    if made == [] then [] else Questions(made[..|made| - 1]) + [made[|made| - 1].question]
  }

  lemma {:induction false} LabelledChecks(q: Question, checks: seq<Check>, check: Check)
    ensures (exists v :: v in Labelled(q, checks) && v.check == check) ==> check in checks
  {
    if checks != [] {
      LabelledChecks(q, checks[..|checks| - 1], check);
    }
  }

  /** The report on a list of such questions holds only allowed checks. */
  lemma {:induction false} ReportPasses(docs: seq<Document>, rules: Rules, made: seq<Accepted>, allowed: Check -> bool)
    requires forall i :: 0 <= i < |made| ==> Passes(docs, rules, made[i].question, allowed)
    ensures forall v :: v in Report(docs, rules, Questions(made)) ==> allowed(v.check)
  {
    hide Violations;
    if made != [] {
      var front, q := made[..|made| - 1], made[|made| - 1].question;
      ReportPasses(docs, rules, front, allowed);
      assert Questions(made)[..|made| - 1] == Questions(front) by { QuestionsLength(front); }
      QuestionsLength(made);
      forall v | v in Labelled(q, Violations(docs, rules, q)) ensures allowed(v.check) {
        LabelledChecks(q, Violations(docs, rules, q), v.check);
      }
    }
  }

  lemma {:induction false} QuestionsLength(made: seq<Accepted>)
    ensures |Questions(made)| == |made|
  {
    if made != [] {
      QuestionsLength(made[..|made| - 1]);
    }
  }

  // ----- corpora whose documents name what their relations relate -----

  function NameIn(names: map<string, string>, id: string): string {
    if id in names then names[id] else id
  }

  predicate NamedIn(text: string, name: string) {
    Includes(Lower(text), Lower(name))
  }

  /** Every document that asserts a chainable relation holds the names of both its ends. */
  ghost predicate IsGrounded(c: Corpus) {
    forall e, d :: e in PositiveEdges(c) && d in c.docs && d.id == e.docId
      ==> NamedIn(d.text, NameIn(c.names, e.subject)) && NamedIn(d.text, NameIn(c.names, e.obj))
  }

  lemma {:induction false} StripWordIncluded(name: string, words: seq<string>)
    ensures Includes(name, StripWord(name, words))
  {
    if words == [] {
      IncludesSelf(name);
    } else if LeadsWith(name, words[0]) {
      var rest := name[|words[0]|..];
      SuffixIncluded(name, |words[0]|);
      TrimIncluded(rest);
      IncludesTransitive(name, rest, TrimStart(rest));
    } else {
      StripWordIncluded(name, words[1..]);
    }
  }

  lemma StripPtIncluded(name: string)
    ensures Includes(name, StripPt(name))
  {
    if StripPt(name) == name {
      IncludesSelf(name);
    } else {
      SuffixIncluded(name, 2);
      TrimIncluded(name[2..]);
      IncludesTransitive(name, name[2..], TrimStart(name[2..]));
    }
  }

  /** The normalised form and the answer both occur in the lower-cased name. */
  lemma FormsAreIncluded(name: string)
    ensures Includes(Lower(name), Normalise(name)) && Includes(Lower(name), Lower(Canonical(name)))
  {
    var bare := StripPt(name);
    var core := StripWord(bare, KIND_WORDS);
    StripPtIncluded(name);
    StripWordIncluded(bare, KIND_WORDS);
    TrimIncluded(core);
    TrimIncluded(bare);
    IncludesTransitive(bare, core, Trim(core));
    IncludesTransitive(name, bare, Trim(core));
    IncludesTransitive(name, bare, Trim(bare));
    LowerIncludes(name, Trim(core));
    LowerIncludes(name, Trim(bare));
  }

  lemma NamedFormsAreIncluded(text: string, name: string)
    requires NamedIn(text, name)
    ensures Includes(Lower(text), Normalise(name)) && Includes(Lower(text), Lower(Canonical(name)))
  {
    FormsAreIncluded(name);
    IncludesTransitive(Lower(text), Lower(name), Normalise(name));
    IncludesTransitive(Lower(text), Lower(name), Lower(Canonical(name)));
  }

  /** The document of a chain's hop, as the linter looks it up, names both ends of the hop. */
  lemma HopDocument(c: Corpus, chain: seq<Edge>, i: nat) returns (d: Document)
    requires IsWellFormed(c) && IsGrounded(c) && IsChain(c, chain) && i < |chain|
    ensures DocOf(c.docs, chain[i].docId) == Some(d)
    ensures NamedIn(d.text, NameIn(c.names, chain[i].subject)) && NamedIn(d.text, NameIn(c.names, chain[i].obj))
  {
    ChainIsGrounded(c, chain, i);
    DocOfSome(c.docs, chain[i].docId);
    d := DocOf(c.docs, chain[i].docId).value;
    assert chain[i] in PositiveEdges(c);
  }

  lemma HopIsGrounded(w: World, c: Corpus, chain: seq<Edge>, i: nat, hop: Hop)
    requires IsWellFormed(c) && IsGrounded(c) && w.names == c.names && IsChain(c, chain) && i < |chain|
    requires hop.docId == chain[i].docId && hop.from == Label(w, chain[i].subject) && hop.to == Label(w, chain[i].obj)
    ensures UngroundedHop(c.docs, hop) == []
  {
    var d := HopDocument(c, chain, i);
    NamedFormsAreIncluded(d.text, hop.from);
    NamedFormsAreIncluded(d.text, hop.to);
  }

  lemma {:induction false} HopsAreGrounded(docs: seq<Document>, hops: seq<Hop>)
    requires forall i :: 0 <= i < |hops| ==> UngroundedHop(docs, hops[i]) == []
    ensures UngroundedHops(docs, hops) == []
  {
    if hops != [] {
      HopsAreGrounded(docs, hops[..|hops| - 1]);
    }
  }

  /** The joined evidence includes whatever its last document includes. */
  lemma {:induction false} EvidenceIncludesLast(docs: seq<Document>, ids: seq<string>, needle: string)
    requires ids != [] && Includes(Lower(TextOrEmpty(docs, ids[|ids| - 1])), needle)
    ensures Includes(Lower(Evidence(docs, ids)), needle)
  {
    var all, last := Evidence(docs, ids), TextOrEmpty(docs, ids[|ids| - 1]);
    assert all[|all| - |last|..] == last;
    SuffixIncluded(all, |all| - |last|);
    LowerIncludes(all, last);
    IncludesTransitive(Lower(all), Lower(last), needle);
  }

  lemma AnswerIsInEvidence(w: World, c: Corpus, tier: Tier, a: Accepted)
    requires IsWellFormed(c) && IsGrounded(c) && w.names == c.names && IsSound(w, c, tier, a)
    ensures Includes(Lower(Evidence(c.docs, a.question.evidenceDocIds)), Lower(a.question.answer))
  {
    var n, ids := |a.chain|, a.question.evidenceDocIds;
    var d := HopDocument(c, a.chain, n - 1);
    NamedFormsAreIncluded(d.text, NameIn(c.names, a.chain[n - 1].obj));
    assert ids[n - 1] == a.chain[n - 1].docId;
    EvidenceIncludesLast(c.docs, ids, Lower(a.question.answer));
  }

  /** The two checks that depend on the wording of the question. */
  function OnlySurface(): Check -> bool {
    (check: Check) => check.QuestionLeaksAnswer? || check.RawIdInQuestion?
  }

  /** Every hop is grounded in its document, and an answer that is not negative occurs in the evidence. */
  ghost predicate IsAnchored(docs: seq<Document>, q: Question) {
    && UngroundedHops(docs, q.hopChain) == []
    && (q.answerIsNegative || Includes(Lower(Evidence(docs, q.evidenceDocIds)), Lower(q.answer)))
  }

  lemma SoundIsAnchored(w: World, c: Corpus, tier: Tier, a: Accepted)
    requires IsWellFormed(c) && IsGrounded(c) && w.names == c.names && IsSound(w, c, tier, a)
    ensures IsAnchored(c.docs, a.question)
  {
    var q := a.question;
    forall i | 0 <= i < |q.hopChain| ensures UngroundedHop(c.docs, q.hopChain[i]) == [] {
      HopIsGrounded(w, c, a.chain, i, q.hopChain[i]);
    }
    HopsAreGrounded(c.docs, q.hopChain);
    AnswerIsInEvidence(w, c, tier, a);
  }

  /**
   * On a corpus whose documents name what their relations relate, an accepted medium or hard question can only be
   * reported for its wording.
   */
  lemma GroundedPasses(w: World, c: Corpus, rules: Rules, tier: Tier, a: Accepted)
    requires IsWellFormed(c) && IsGrounded(c) && w.names == c.names && IsSound(w, c, tier, a)
    ensures Passes(c.docs, rules, a.question, OnlySurface())
  {
    SoundIsAnchored(w, c, tier, a);
    SoundSettles(w, c, tier, a);
    AnchoredPasses(c, rules, a.question);
  }

  /** Whatever settles the four checks and is anchored can only be reported for its wording. */
  lemma AnchoredPasses(c: Corpus, rules: Rules, q: Question)
    requires Settles(c, q) && IsAnchored(c.docs, q)
    ensures Passes(c.docs, rules, q, OnlySurface())
  {
    AnswerChecksPass(c.docs, q);
    NoAnswerViolations(c.docs, q);
  }

  lemma {:induction false} NoAnswerViolations(docs: seq<Document>, q: Question)
    requires q.answerIsNegative || Includes(Lower(Evidence(docs, q.evidenceDocIds)), Lower(q.answer))
    requires forall check :: check in AnswerViolations(docs, q) ==> check == AnswerNotInEvidence
    ensures forall check :: check !in AnswerViolations(docs, q)
  {
    assert forall check :: check in AnswerViolations(docs, q) ==> check != AnswerNotInEvidence by {
      if |q.evidenceDocIds| >= 2 {
        PrematureOnly(docs, q.answer, q.evidenceDocIds[..|q.evidenceDocIds| - 1]);
      }
    }
  }

  lemma {:induction false} PrematureOnly(docs: seq<Document>, answer: string, ids: seq<string>)
    ensures forall check :: check in Premature(docs, answer, ids) ==> check == PrematureAnswerInChain
  {
    if ids != [] {
      PrematureOnly(docs, answer, ids[..|ids| - 1]);
    }
  }

  /** The report on a whole medium or hard tier of a grounded corpus names nothing but the wording of questions. */
  lemma {:induction false} GroundedTiersPassLint(
      s: Setting, c: Corpus, rules: Rules, tier: Tier, limit: nat, st: Progress, want: nat, tries: nat)
    requires IsWellFormed(c) && IsGrounded(c) && Summarises(s.world, c) && MultiHop(tier)
    requires Fill(BuilderOf(s, tier, limit), st, want, 0, tries).Filled?
    ensures var made := Fill(BuilderOf(s, tier, limit), st, want, 0, tries).made;
            forall v :: v in Report(c.docs, rules, Questions(made)) ==> OnlySurface()(v.check)
  {
    hide Passes;
    FillIsSound(s, c, tier, limit, st, want, tries);
    var made := Fill(BuilderOf(s, tier, limit), st, want, 0, tries).made;
    forall i | 0 <= i < |made| ensures Passes(c.docs, rules, made[i].question, OnlySurface()) {
      assert IsSound(s.world, c, tier, made[i]);
      GroundedPasses(s.world, c, rules, tier, made[i]);
    }
    ReportPasses(c.docs, rules, made, OnlySurface());
  }
}
