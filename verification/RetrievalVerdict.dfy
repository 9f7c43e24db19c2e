/** Grading a ranking against the evidence: hit, coverage and precision per cut-off, and the two ranks. */
module RetrievalVerdict {
  import opened Sequences

  /** A chunk, by the ids of the documents its text carries. */
  type Chunk = seq<string>

  function Window(chunks: seq<Chunk>, k: nat): seq<Chunk> {
    if k < |chunks| then chunks[..k] else chunks
  }

  /** The documents seen in some chunks. */
  function Present(chunks: seq<Chunk>): set<string> {
    if chunks == [] then {} else Present(chunks[..|chunks| - 1]) + Elements(chunks[|chunks| - 1])
  }

  function In(present: set<string>): string -> bool {
    (id: string) => id in present
  }

  function Covered(evidence: seq<string>, chunks: seq<Chunk>): nat {
    CountIf(evidence, In(Present(chunks)))
  }

  predicate HitAt(chunks: seq<Chunk>, evidence: seq<string>, k: nat) {
    Window(chunks, k) != [] && Covered(evidence, Window(chunks, k)) == |evidence|
  }

  function CoverageAt(chunks: seq<Chunk>, evidence: seq<string>, k: nat): real {
    if Window(chunks, k) == [] || evidence == [] then 0.0
    else Covered(evidence, Window(chunks, k)) as real / |evidence| as real
  }

  predicate Carries(chunk: Chunk, evidence: seq<string>) {
    exists id :: id in chunk && id in evidence
  }

  function CarriesAny(evidence: seq<string>): Chunk -> bool {
    (chunk: Chunk) => Carries(chunk, evidence)
  }

  function PrecisionAt(chunks: seq<Chunk>, evidence: seq<string>, k: nat): real {
    var window := Window(chunks, k);
    if window == [] then 0.0 else CountIf(window, CarriesAny(evidence)) as real / |window| as real
  }

  predicate AllPresent(evidence: seq<string>, chunks: seq<Chunk>) {
    forall i :: 0 <= i < |evidence| ==> evidence[i] in Present(chunks)
  }

  /** The first rank, from `from` on, at which every evidence document has been seen; 0 if there is none. */
  function RankFrom(chunks: seq<Chunk>, evidence: seq<string>, from: nat): nat
    decreases |chunks| + 1 - from
  {
    if from > |chunks| then 0
    else if AllPresent(evidence, chunks[..from]) then from
    else RankFrom(chunks, evidence, from + 1)
  }

  function AllEvidenceRank(chunks: seq<Chunk>, evidence: seq<string>): nat {
    RankFrom(chunks, evidence, 1)
  }

  /** The rank of the first chunk that carries the last evidence document; 0 if there is none. */
  function FinalHopFrom(chunks: seq<Chunk>, evidence: seq<string>, from: nat): nat
    decreases |chunks| - from
  {
    if evidence == [] || from >= |chunks| then 0
    else if evidence[|evidence| - 1] in chunks[from] then from + 1
    else FinalHopFrom(chunks, evidence, from + 1)
  }

  function FinalHopRank(chunks: seq<Chunk>, evidence: seq<string>): nat {
    FinalHopFrom(chunks, evidence, 0)
  }

  lemma {:induction false} FinalHopFromIsFirst(chunks: seq<Chunk>, evidence: seq<string>, from: nat)
    requires evidence != []
    ensures var last, r := evidence[|evidence| - 1], FinalHopFrom(chunks, evidence, from);
            && (r == 0 ==> forall i :: from <= i < |chunks| ==> last !in chunks[i])
            && (r > 0 ==> from < r <= |chunks| && last in chunks[r - 1])
            && (r > 0 ==> forall i :: from <= i < r - 1 ==> last !in chunks[i])
    decreases |chunks| - from
  {
    if from < |chunks| && evidence[|evidence| - 1] !in chunks[from] {
      FinalHopFromIsFirst(chunks, evidence, from + 1);
    }
  }

  /**
   * In every ranking the final-hop rank is that of the first chunk that carries the last evidence document, counted
   * from 1, and 0 exactly when no chunk does or there is no evidence.
   */
  lemma FinalHopIsFirst(chunks: seq<Chunk>, evidence: seq<string>, rank: nat)
    ensures FinalHopRank(chunks, evidence) == rank
       <==> if evidence == [] || forall i :: 0 <= i < |chunks| ==> evidence[|evidence| - 1] !in chunks[i] then rank == 0
            else && 0 < rank <= |chunks| && evidence[|evidence| - 1] in chunks[rank - 1]
                 && forall i :: 0 <= i < rank - 1 ==> evidence[|evidence| - 1] !in chunks[i]
  {
    if evidence != [] {
      FinalHopFromIsFirst(chunks, evidence, 0);
    }
  }

  // ----- what the numbers count -----

  /** The chunks within the cut-off. */
  ghost predicate IsTop(chunks: seq<Chunk>, k: nat, i: nat) {
    i < k && i < |chunks|
  }

  /** Some chunk within the cut-off carries the document. */
  ghost predicate SeenInTop(chunks: seq<Chunk>, k: nat, id: string) {
    exists i: nat :: IsTop(chunks, k, i) && id in chunks[i]
  }

  lemma {:induction false} PresentExactly(chunks: seq<Chunk>, id: string)
    ensures id in Present(chunks) <==> exists i: nat :: i < |chunks| && id in chunks[i]
  {
    if chunks != [] {
      var front, last: nat := chunks[..|chunks| - 1], |chunks| - 1;
      PresentExactly(front, id);
      if i: nat :| i < |front| && id in front[i] {
        assert id in chunks[i];
      }
      if i: nat :| i < |chunks| && id in chunks[i] {
        assert i < last ==> id in front[i];
      }
    }
  }

  lemma SeenExactly(chunks: seq<Chunk>, k: nat, id: string)
    ensures id in Present(Window(chunks, k)) <==> SeenInTop(chunks, k, id)
  {
    PresentExactly(Window(chunks, k), id);
    if i: nat :| i < |Window(chunks, k)| && id in Window(chunks, k)[i] {
      assert IsTop(chunks, k, i) && id in chunks[i];
    }
    if i: nat :| IsTop(chunks, k, i) && id in chunks[i] {
      assert id in Window(chunks, k)[i];
    }
  }

  ghost function SeenEvidence(chunks: seq<Chunk>, evidence: seq<string>, k: nat): set<nat> {
    set j: nat | j < |evidence| && SeenInTop(chunks, k, evidence[j])
  }

  /** The chunks within the cut-off that carry some evidence. */
  ghost function UsefulChunks(chunks: seq<Chunk>, evidence: seq<string>, k: nat): set<nat> {
    set i: nat | i < |chunks| && i < k && exists j: nat :: j < |evidence| && evidence[j] in chunks[i]
  }

  lemma CoveredExactly(chunks: seq<Chunk>, evidence: seq<string>, k: nat)
    ensures Covered(evidence, Window(chunks, k)) == |SeenEvidence(chunks, evidence, k)|
  {
    var seen := In(Present(Window(chunks, k)));
    CountIfPositions(evidence, seen);
    forall j: nat | j < |evidence| ensures seen(evidence[j]) <==> SeenInTop(chunks, k, evidence[j]) {
      SeenExactly(chunks, k, evidence[j]);
    }
    assert Positions(evidence, seen) == SeenEvidence(chunks, evidence, k);
  }

  /**
   * The three numbers at a cut-off: a hit is that every evidence document is in some chunk within it; coverage is the
   * share of the evidence documents that are; precision is the share of those chunks that carry evidence.
   */
  lemma GradesCount(chunks: seq<Chunk>, evidence: seq<string>, k: nat)
    ensures HitAt(chunks, evidence, k)
       <==> k > 0 && chunks != [] && forall j :: 0 <= j < |evidence| ==> SeenInTop(chunks, k, evidence[j])
    ensures k > 0 && chunks != [] && evidence != [] ==>
              CoverageAt(chunks, evidence, k) * |evidence| as real == |SeenEvidence(chunks, evidence, k)| as real
    ensures k == 0 || chunks == [] || evidence == [] ==> CoverageAt(chunks, evidence, k) == 0.0
    ensures k > 0 && chunks != [] ==>
              PrecisionAt(chunks, evidence, k) * (if k < |chunks| then k else |chunks|) as real
              == |UsefulChunks(chunks, evidence, k)| as real
    ensures k == 0 || chunks == [] ==> PrecisionAt(chunks, evidence, k) == 0.0
  {
    hide HitAt, CoverageAt, PrecisionAt, SeenInTop, UsefulChunks, SeenEvidence;
    HitExactly(chunks, evidence, k);
    CoverageExactly(chunks, evidence, k);
    PrecisionExactly(chunks, evidence, k);
  }

  lemma CoverageExactly(chunks: seq<Chunk>, evidence: seq<string>, k: nat)
    ensures k > 0 && chunks != [] && evidence != [] ==>
              CoverageAt(chunks, evidence, k) * |evidence| as real == |SeenEvidence(chunks, evidence, k)| as real
    ensures k == 0 || chunks == [] || evidence == [] ==> CoverageAt(chunks, evidence, k) == 0.0
  {
    hide SeenInTop, Present, SeenEvidence, Covered;
    CoveredExactly(chunks, evidence, k);
  }

  lemma PrecisionExactly(chunks: seq<Chunk>, evidence: seq<string>, k: nat)
    ensures k > 0 && chunks != [] ==>
              PrecisionAt(chunks, evidence, k) * (if k < |chunks| then k else |chunks|) as real
              == |UsefulChunks(chunks, evidence, k)| as real
    ensures k == 0 || chunks == [] ==> PrecisionAt(chunks, evidence, k) == 0.0
  {
    hide UsefulChunks, CountIf, Carries;
    UsefulExactly(chunks, evidence, k);
  }

  lemma HitExactly(chunks: seq<Chunk>, evidence: seq<string>, k: nat)
    ensures HitAt(chunks, evidence, k)
       <==> k > 0 && chunks != [] && forall j :: 0 <= j < |evidence| ==> SeenInTop(chunks, k, evidence[j])
  {
    hide SeenInTop, Present;
    CoveredIsAll(evidence, Present(Window(chunks, k)));
    forall j | 0 <= j < |evidence|
      ensures evidence[j] in Present(Window(chunks, k)) <==> SeenInTop(chunks, k, evidence[j])
    {
      SeenExactly(chunks, k, evidence[j]);
    }
  }

  lemma UsefulExactly(chunks: seq<Chunk>, evidence: seq<string>, k: nat)
    ensures CountIf(Window(chunks, k), CarriesAny(evidence)) == |UsefulChunks(chunks, evidence, k)|
  {
    var window := Window(chunks, k);
    CountIfPositions(window, CarriesAny(evidence));
    forall i: nat | i < |window|
      ensures CarriesAny(evidence)(window[i]) <==> exists j: nat :: j < |evidence| && evidence[j] in chunks[i]
    {
      CarriesExactly(window[i], evidence);
    }
    assert Positions(window, CarriesAny(evidence)) == UsefulChunks(chunks, evidence, k);
  }

  lemma CarriesExactly(chunk: Chunk, evidence: seq<string>)
    ensures Carries(chunk, evidence) <==> exists j: nat :: j < |evidence| && evidence[j] in chunk
  {
    if id :| id in chunk && id in evidence {
      var j: nat :| j < |evidence| && evidence[j] == id;
    }
    if j: nat :| j < |evidence| && evidence[j] in chunk {
      assert evidence[j] in evidence;
    }
  }

  // ----- hits against ranks -----

  lemma {:induction false} PresentGrows(chunks: seq<Chunk>, a: nat, b: nat)
    requires a <= b <= |chunks|
    ensures Present(chunks[..a]) <= Present(chunks[..b])
    decreases b
  {
    if a < b {
      assert chunks[..b][..b - 1] == chunks[..b - 1];
      PresentGrows(chunks, a, b - 1);
    }
  }

  lemma {:induction false} CoveredIsAll(evidence: seq<string>, present: set<string>)
    ensures CountIf(evidence, In(present)) == |evidence| <==> forall i :: 0 <= i < |evidence| ==> evidence[i] in present
  {
    if evidence != [] {
      CoveredIsAll(evidence[..|evidence| - 1], present);
    }
  }

  lemma {:induction false} CoveredMonotone(evidence: seq<string>, small: set<string>, large: set<string>)
    requires small <= large
    ensures CountIf(evidence, In(small)) <= CountIf(evidence, In(large))
  {
    if evidence != [] {
      CoveredMonotone(evidence[..|evidence| - 1], small, large);
    }
  }

  lemma {:induction false} RankFromIsLeast(chunks: seq<Chunk>, evidence: seq<string>, from: nat)
    requires from > 0
    ensures var r := RankFrom(chunks, evidence, from);
            && (r > 0 ==> from <= r <= |chunks| && AllPresent(evidence, chunks[..r]))
            && forall i :: from <= i <= |chunks| && (r == 0 || i < r) ==> !AllPresent(evidence, chunks[..i])
    decreases |chunks| + 1 - from
  {
    if from <= |chunks| && !AllPresent(evidence, chunks[..from]) {
      RankFromIsLeast(chunks, evidence, from + 1);
    }
  }

  /** For every cut-off: the evidence is hit exactly when its rank lies within the cut-off. */
  lemma HitIsRank(chunks: seq<Chunk>, evidence: seq<string>, k: nat)
    ensures HitAt(chunks, evidence, k) <==> 1 <= AllEvidenceRank(chunks, evidence) <= k
  {
    var r := AllEvidenceRank(chunks, evidence);
    RankFromIsLeast(chunks, evidence, 1);
    CoveredIsAll(evidence, Present(Window(chunks, k)));
    assert chunks[..|chunks|] == chunks;
    if 1 <= r <= k {
      WindowHoldsRank(chunks, evidence, k, r);
    } else if Window(chunks, k) != [] {
      assert Window(chunks, k) == chunks[..|Window(chunks, k)|];
    }
  }

  lemma WindowHoldsRank(chunks: seq<Chunk>, evidence: seq<string>, k: nat, r: nat)
    requires 1 <= r <= k && r <= |chunks| && AllPresent(evidence, chunks[..r])
    ensures AllPresent(evidence, Window(chunks, k))
  {
    assert chunks[..|chunks|] == chunks;
    PresentGrows(chunks, r, |Window(chunks, k)|);
  }

  /** A larger cut-off never lowers the coverage. */
  lemma CoverageMonotone(chunks: seq<Chunk>, evidence: seq<string>, k: nat, k': nat)
    requires k <= k'
    ensures CoverageAt(chunks, evidence, k) <= CoverageAt(chunks, evidence, k')
  {
    var a, b := |Window(chunks, k)|, |Window(chunks, k')|;
    assert chunks[..|chunks|] == chunks;
    assert Window(chunks, k) == chunks[..a] && Window(chunks, k') == chunks[..b];
    PresentGrows(chunks, a, b);
    CoveredMonotone(evidence, Present(chunks[..a]), Present(chunks[..b]));
    if evidence != [] {
      QuotientMonotone(Covered(evidence, chunks[..a]), Covered(evidence, chunks[..b]), |evidence|);
    }
  }

  lemma QuotientMonotone(a: nat, b: nat, n: nat)
    requires a <= b && n > 0
    ensures 0.0 <= a as real / n as real <= b as real / n as real
  {
  }

  // ----- how early the evidence can be complete -----

  /** Every chunk carries at most one document. */
  ghost predicate OneEach(chunks: seq<Chunk>) {
    forall i :: 0 <= i < |chunks| ==> |chunks[i]| <= 1
  }

  lemma {:induction false} PresentIsSmall(chunks: seq<Chunk>)
    requires OneEach(chunks)
    ensures |Present(chunks)| <= |chunks|
  {
    if chunks != [] {
      PresentIsSmall(chunks[..|chunks| - 1]);
      ElementsCardinality(chunks[|chunks| - 1]);
      UnionBound(Present(chunks[..|chunks| - 1]), Elements(chunks[|chunks| - 1]));
    }
  }

  lemma UnionBound<T>(a: set<T>, b: set<T>)
    ensures |a + b| <= |a| + |b|
  {
    assert a + b == a + (b - a);
    SubsetCardinality(b - a, b);
  }

  /** In any ordering, h distinct evidence documents are not all seen before rank h. */
  lemma RankIsAtLeastHops(chunks: seq<Chunk>, evidence: seq<string>)
    requires OneEach(chunks) && Distinct(evidence)
    ensures var r := AllEvidenceRank(chunks, evidence); r == 0 || r >= |evidence|
  {
    var r := AllEvidenceRank(chunks, evidence);
    RankFromIsLeast(chunks, evidence, 1);
    if r > 0 {
      PresentIsSmall(chunks[..r]);
      DistinctCardinality(evidence);
      assert Elements(evidence) <= Present(chunks[..r]);
      SubsetCardinality(Elements(evidence), Present(chunks[..r]));
    }
  }

  /** One chunk per document of a ranking. */
  function Singles(ranked: seq<string>): seq<Chunk> {
    if ranked == [] then [] else Singles(ranked[..|ranked| - 1]) + [[ranked[|ranked| - 1]]]
  }

  function Reversed(s: seq<string>): seq<string> {
    if s == [] then [] else Reversed(s[1..]) + [s[0]]
  }

  /** The oracle's ranking: the evidence, final hop first. */
  function Oracle(evidence: seq<string>): seq<Chunk> {
    Singles(Reversed(evidence))
  }

  lemma {:induction false} SinglesAt(ranked: seq<string>)
    ensures |Singles(ranked)| == |ranked| && OneEach(Singles(ranked))
    ensures forall i :: 0 <= i < |ranked| ==> Singles(ranked)[i] == [ranked[i]]
    ensures Present(Singles(ranked)) == Elements(ranked)
  {
    if ranked != [] {
      var front, last := ranked[..|ranked| - 1], ranked[|ranked| - 1];
      SinglesAt(front);
      assert Singles(ranked)[..|ranked| - 1] == Singles(front);
      assert Elements(ranked) == Elements(front) + {last};
      assert Elements([last]) == {last};
    }
  }

  lemma {:induction false} SinglesPrefix(ranked: seq<string>, n: nat)
    requires n <= |ranked|
    ensures |Singles(ranked)| == |ranked| && Singles(ranked)[..n] == Singles(ranked[..n])
  {
    SinglesAt(ranked);
    SinglesAt(ranked[..n]);
    assert forall i :: 0 <= i < n ==> Singles(ranked)[..n][i] == Singles(ranked[..n])[i];
  }

  lemma {:induction false} ReversedLaws(s: seq<string>)
    ensures |Reversed(s)| == |s| && Elements(Reversed(s)) == Elements(s)
    ensures s != [] ==> Reversed(s)[0] == s[|s| - 1]
  {
    if s != [] {
      ReversedLaws(s[1..]);
      assert Elements(s) == Elements(s[1..]) + {s[0]} by { assert s == [s[0]] + s[1..]; }
      assert Elements(Reversed(s[1..]) + [s[0]]) == Elements(Reversed(s[1..])) + {s[0]};
    }
  }

  /**
   * The oracle ranks the final hop first and completes h distinct evidence documents exactly at rank h, which no
   * ordering of one-document chunks can beat.
   */
  lemma OracleIsOptimal(evidence: seq<string>)
    requires evidence != [] && Distinct(evidence)
    ensures FinalHopRank(Oracle(evidence), evidence) == 1
    ensures AllEvidenceRank(Oracle(evidence), evidence) == |evidence|
  {
    var chunks := Oracle(evidence);
    ReversedLaws(evidence);
    SinglesAt(Reversed(evidence));
    RankIsAtLeastHops(chunks, evidence);
    RankFromIsLeast(chunks, evidence, 1);
    assert chunks[..|chunks|] == chunks;
    assert AllPresent(evidence, chunks) by {
      forall i | 0 <= i < |evidence| ensures evidence[i] in Present(chunks) {
        assert evidence[i] in Elements(evidence);
      }
    }
  }

  // ----- the baseline grades by the same rule, up to the empty cases -----

  predicate EvidenceHitAtK(ranked: seq<string>, evidence: seq<string>, k: nat) {
    forall i :: 0 <= i < |evidence| ==> evidence[i] in (if k < |ranked| then ranked[..k] else ranked)
  }

  /** The report and the baseline agree on a hit except when there is neither evidence nor anything in the window. */
  lemma {:induction false} GradersAgreeExactly(ranked: seq<string>, evidence: seq<string>, k: nat)
    ensures (HitAt(Singles(ranked), evidence, k) == EvidenceHitAtK(ranked, evidence, k))
            <==> evidence != [] || (k > 0 && ranked != [])
  {
    var top := if k < |ranked| then ranked[..k] else ranked;
    SinglesPrefix(ranked, |top|);
    SinglesAt(top);
    assert ranked[..|top|] == top;
    assert Window(Singles(ranked), k) == Singles(top);
    CoveredIsAll(evidence, Present(Singles(top)));
    assert EvidenceHitAtK(ranked, evidence, k) <==> forall i :: 0 <= i < |evidence| ==> evidence[i] in Elements(top);
    if evidence != [] {
      assert evidence[0] in Elements(top) ==> evidence[0] in top;
    }
  }

  // ----- the loops -----

  method CollectPresent(chunks: seq<Chunk>) returns (present: set<string>)
    ensures present == Present(chunks)
  {
    present := {};
    for i := 0 to |chunks|
      invariant present == Present(chunks[..i])
    {
      assert chunks[..i + 1][..i] == chunks[..i];
      present := present + Elements(chunks[i]);
    }
    assert chunks[..|chunks|] == chunks;
  }

  method FindAllEvidenceRank(chunks: seq<Chunk>, evidence: seq<string>) returns (r: nat)
    ensures r == AllEvidenceRank(chunks, evidence)
  {
    for i := 1 to |chunks| + 1
      invariant AllEvidenceRank(chunks, evidence) == RankFrom(chunks, evidence, i)
    {
      var present := CollectPresent(chunks[..i]);
      if forall j :: 0 <= j < |evidence| ==> evidence[j] in present {
        return i;
      }
    }
    return 0;
  }

  method FindFinalHop(chunks: seq<Chunk>, evidence: seq<string>) returns (r: nat)
    ensures r == FinalHopRank(chunks, evidence)
  {
    if evidence == [] {
      return 0;
    }
    for i := 0 to |chunks|
      invariant FinalHopRank(chunks, evidence) == FinalHopFrom(chunks, evidence, i)
    {
      if evidence[|evidence| - 1] in chunks[i] {
        return i + 1;
      }
    }
    return 0;
  }

  datatype Verdict = Verdict(hitAt: map<nat, bool>, coverageAt: map<nat, real>, precisionAt: map<nat, real>,
                             finalHopRank: nat, allEvidenceRank: nat)

  method GradeAt(chunks: seq<Chunk>, evidence: seq<string>, k: nat) returns (hit: bool, coverage: real, precision: real)
    ensures hit == HitAt(chunks, evidence, k)
    ensures coverage == CoverageAt(chunks, evidence, k) && precision == PrecisionAt(chunks, evidence, k)
  {
    var window := Window(chunks, k);
    if window == [] {
      return false, 0.0, 0.0;
    }
    var present := CollectPresent(window);
    var covered := CountIf(evidence, In(present));
    hit := covered == |evidence|;
    coverage := if |evidence| > 0 then covered as real / |evidence| as real else 0.0;
    precision := CountIf(window, CarriesAny(evidence)) as real / |window| as real;
  }

  method RetrievalVerdict(chunks: seq<Chunk>, evidence: seq<string>, ks: seq<nat>) returns (v: Verdict)
    ensures v.hitAt.Keys == v.coverageAt.Keys == v.precisionAt.Keys == Elements(ks)
    ensures forall k :: k in ks ==>
              && v.hitAt[k] == HitAt(chunks, evidence, k) && v.coverageAt[k] == CoverageAt(chunks, evidence, k)
              && v.precisionAt[k] == PrecisionAt(chunks, evidence, k)
    ensures v.finalHopRank == FinalHopRank(chunks, evidence) && v.allEvidenceRank == AllEvidenceRank(chunks, evidence)
  {
    var hits: map<nat, bool>, coverages: map<nat, real>, precisions: map<nat, real> := map[], map[], map[];
    for i := 0 to |ks|
      invariant hits.Keys == coverages.Keys == precisions.Keys == Elements(ks[..i])
      invariant forall k :: k in ks[..i] ==>
                  && hits[k] == HitAt(chunks, evidence, k) && coverages[k] == CoverageAt(chunks, evidence, k)
                  && precisions[k] == PrecisionAt(chunks, evidence, k)
    {
      var hit, coverage, precision := GradeAt(chunks, evidence, ks[i]);
      assert ks[..i + 1] == ks[..i] + [ks[i]];
      hits, coverages, precisions := hits[ks[i] := hit], coverages[ks[i] := coverage], precisions[ks[i] := precision];
    }
    assert ks[..|ks|] == ks;
    var finalHop := FindFinalHop(chunks, evidence);
    var rank := FindAllEvidenceRank(chunks, evidence);
    v := Verdict(hits, coverages, precisions, finalHop, rank);
  }
}
