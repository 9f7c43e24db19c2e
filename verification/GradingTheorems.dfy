/** How the generated medium and hard questions grade: their rank metrics have an exact floor, and it is attained. */
module GradingTheorems {
  import opened Sequences
  import opened QuestionWorld
  import opened QuestionSpec
  import opened QuestionTheorems
  import opened RetrievalVerdict

  /** The number of hops a medium or hard question asks for. */
  function HopsOf(tier: Tier): nat {
    if tier.Hard? then 3 else 2
  }

  lemma EvidenceIsDistinct(w: World, c: Corpus, tier: Tier, a: Accepted)
    requires IsSound(w, c, tier, a)
    ensures Distinct(a.question.evidenceDocIds) && |a.question.evidenceDocIds| == HopsOf(tier)
  {
    var ids := a.question.evidenceDocIds;
    forall i, j | 0 <= i < j < |ids| ensures ids[i] != ids[j] {
      assert a.chain[i].docId != a.chain[j].docId;
    }
  }

  /**
   * On every question a medium or hard tier holds, the reversed evidence ranks the final hop first and completes the
   * evidence at exactly the number of hops, and no ranking of one-document chunks completes it earlier.
   */
  lemma {:induction false} OracleIsOptimalOnTier(
      s: Setting, c: Corpus, tier: Tier, limit: nat, st: Progress, want: nat, tries: nat, i: nat, chunks: seq<Chunk>)
    requires Summarises(s.world, c) && MultiHop(tier) && OneEach(chunks)
    requires Fill(BuilderOf(s, tier, limit), st, want, 0, tries).Filled?
    requires i < |Fill(BuilderOf(s, tier, limit), st, want, 0, tries).made|
    ensures var evidence := Fill(BuilderOf(s, tier, limit), st, want, 0, tries).made[i].question.evidenceDocIds;
            && FinalHopRank(Oracle(evidence), evidence) == 1
            && AllEvidenceRank(Oracle(evidence), evidence) == HopsOf(tier)
            && (AllEvidenceRank(chunks, evidence) == 0 || AllEvidenceRank(chunks, evidence) >= HopsOf(tier))
  {
    var a := Fill(BuilderOf(s, tier, limit), st, want, 0, tries).made[i];
    FillIsSound(s, c, tier, limit, st, want, tries);
    EvidenceIsDistinct(s.world, c, tier, a);
    OracleIsOptimal(a.question.evidenceDocIds);
    RankIsAtLeastHops(chunks, a.question.evidenceDocIds);
  }
}
