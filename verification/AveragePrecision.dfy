/** Rank-aware average precision over 0/1 verdicts (`contextAveragePrecision`). */
module AveragePrecision {
  import opened Fractions
  import opened Sequences

  predicate IsBinary(v: seq<int>) {
    forall i :: 0 <= i < |v| ==> v[i] == 0 || v[i] == 1
  }

  /** How many of the verdicts are positive. */
  function Relevant(v: seq<int>): (r: nat)
    ensures r <= |v|
  {
    if v == [] then 0 else Relevant(v[..|v| - 1]) + if v[|v| - 1] == 1 then 1 else 0
  }

  /** The sum of the precisions at the positive ranks. */
  function Precisions(v: seq<int>): real {
    if v == [] then 0.0
    else Precisions(v[..|v| - 1]) + Term(Relevant(v), |v|, v[|v| - 1])
  }

  /** What one verdict adds: the precision at its rank if it is positive. */
  function Term(relevant: nat, rank: nat, verdict: int): real
    requires rank > 0
  {
    if verdict == 1 then Share(relevant, rank) else 0.0
  }

  /** `None` stands for NaN, the answer to verdicts other than 0 and 1. */
  function Average(v: seq<int>): Option<real> {
    if !IsBinary(v) then None
    else if Relevant(v) == 0 then Some(0.0)
    else Some(Precisions(v) / Relevant(v) as real)
  }

  method ContextAveragePrecision(verdicts: seq<int>) returns (r: Option<real>)
    ensures r == Average(verdicts)
  {
    if exists i :: 0 <= i < |verdicts| && verdicts[i] != 0 && verdicts[i] != 1 {
      return None;
    }
    var relevant, sum := 0, 0.0;
    for i := 0 to |verdicts|
      invariant relevant == Relevant(verdicts[..i]) && sum == Precisions(verdicts[..i])
    {
      assert verdicts[..i + 1][..i] == verdicts[..i];
      relevant := relevant + verdicts[i];
      if verdicts[i] == 1 {
        sum := sum + relevant as real / (i + 1) as real;
      }
    }
    assert verdicts[..|verdicts|] == verdicts;
    r := Some(if relevant != 0 then sum / relevant as real else 0.0);
  }

  /** All positive verdicts come before all others. */
  ghost predicate PositivesFirst(v: seq<int>) {
    forall i, j :: 0 <= i < j < |v| && v[j] == 1 ==> v[i] == 1
  }

  lemma {:induction false} RelevantIsAll(v: seq<int>)
    ensures Relevant(v) == |v| <==> forall i :: 0 <= i < |v| ==> v[i] == 1
  {
    if v != [] {
      RelevantIsAll(v[..|v| - 1]);
    }
  }

  lemma {:induction false} PrecisionsBound(v: seq<int>)
    ensures 0.0 <= Precisions(v) <= Relevant(v) as real
    ensures Relevant(v) > 0 ==> Precisions(v) > 0.0
    ensures Precisions(v) == Relevant(v) as real <==> PositivesFirst(v)
  {
    if v != [] {
      var front, n := v[..|v| - 1], |v|;
      PrecisionsBound(front);
      if v[n - 1] == 1 {
        QuotientBound(Relevant(v) as real, n);
        RelevantIsAll(v);
        LastPositive(v);
      } else {
        assert PositivesFirst(v) <==> PositivesFirst(front);
      }
    }
  }

  lemma LastPositive(v: seq<int>)
    requires v != [] && v[|v| - 1] == 1
    ensures PositivesFirst(v) <==> forall i :: 0 <= i < |v| ==> v[i] == 1
    ensures PositivesFirst(v) ==> PositivesFirst(v[..|v| - 1])
  {
  }

  /**
   * The average lies between 0 and 1, and is 1 exactly when something is relevant and everything relevant comes
   * first.
   */
  lemma {:induction false} AverageIsNormalised(v: seq<int>)
    requires IsBinary(v)
    ensures 0.0 <= Average(v).value <= 1.0
    ensures Average(v).value == 1.0 <==> Relevant(v) > 0 && PositivesFirst(v)
    ensures Average(v).value == 0.0 <==> Relevant(v) == 0
  {
    PrecisionsBound(v);
    if Relevant(v) > 0 {
      QuotientBound(Precisions(v), Relevant(v));
    }
  }

  lemma {:induction false} RelevantSnoc(v: seq<int>, x: int)
    ensures Relevant(v + [x]) == Relevant(v) + if x == 1 then 1 else 0
  {
    assert (v + [x])[..|v|] == v;
  }

  lemma {:induction false} PrecisionsSnoc(v: seq<int>, x: int)
    ensures Precisions(v + [x]) == Precisions(v) + Term(Relevant(v + [x]), |v| + 1, x)
  {
    assert (v + [x])[..|v|] == v;
  }

  lemma {:induction false} Snoc(v: seq<int>, x: int)
    ensures Relevant(v + [x]) == Relevant(v) + if x == 1 then 1 else 0
    ensures Precisions(v + [x]) == Precisions(v) + Term(Relevant(v) + 1, |v| + 1, x)
  {
    hide Relevant, Precisions;
    RelevantSnoc(v, x);
    PrecisionsSnoc(v, x);
  }

  /** Moving a relevant item one place up raises the sum and keeps the count, whatever follows. */
  lemma {:induction false} SwapRaises(before: seq<int>, after: seq<int>)
    ensures Relevant(before + [1, 0] + after) == Relevant(before + [0, 1] + after)
    ensures Precisions(before + [1, 0] + after) > Precisions(before + [0, 1] + after)
  {
    if after == [] {
      SwapAtEnd(before);
      assert before + [1, 0] + after == before + [1, 0] && before + [0, 1] + after == before + [0, 1];
    } else {
      var front, last := after[..|after| - 1], after[|after| - 1];
      SwapRaises(before, front);
      assert before + [1, 0] + after == before + [1, 0] + front + [last];
      assert before + [0, 1] + after == before + [0, 1] + front + [last];
      Snoc(before + [1, 0] + front, last);
      Snoc(before + [0, 1] + front, last);
    }
  }

  lemma {:induction false} SwapAtEnd(before: seq<int>)
    ensures Relevant(before + [1, 0]) == Relevant(before + [0, 1])
    ensures Precisions(before + [1, 0]) > Precisions(before + [0, 1])
  {
    assert before + [1, 0] == before + [1] + [0] && before + [0, 1] == before + [0] + [1];
    Snoc(before, 1);
    Snoc(before + [1], 0);
    Snoc(before, 0);
    Snoc(before + [0], 1);
    LargerDivisor((Relevant(before) + 1) as real, |before| + 1, |before| + 2);
  }

  /** Swapping an adjacent (0, 1) to (1, 0) strictly raises the average. */
  lemma SwapRaisesAverage(before: seq<int>, after: seq<int>)
    requires IsBinary(before) && IsBinary(after)
    ensures IsBinary(before + [1, 0] + after) && IsBinary(before + [0, 1] + after)
    ensures Average(before + [1, 0] + after).value > Average(before + [0, 1] + after).value
  {
    SwapRaises(before, after);
    var v, w := before + [0, 1] + after, before + [1, 0] + after;
    assert v[|before| + 1] == 1;
    OneMeansRelevant(v, |before| + 1);
    SameDivisor(Precisions(v), Precisions(w), Relevant(v));
  }

  lemma {:induction false} OneMeansRelevant(v: seq<int>, i: nat)
    requires i < |v| && v[i] == 1
    ensures Relevant(v) > 0
  {
    if i < |v| - 1 {
      OneMeansRelevant(v[..|v| - 1], i);
    }
  }
}
