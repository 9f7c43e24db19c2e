/** The round-robin walk that turns per-kind counts into a plan (`CorpusBuilder.buildPlan`). */
module RoundRobin {
  import opened Sequences

  ghost predicate Wellformed<K>(kinds: seq<K>, units: seq<nat>) {
    |kinds| == |units| && Distinct(kinds)
  }

  /** What round `r` has placed once the first `c` kinds were visited. */
  function Row<K>(kinds: seq<K>, units: seq<nat>, r: nat, c: nat): seq<K>
    requires |kinds| == |units| && c <= |kinds|
  {
    if c == 0 then []
    else Row(kinds, units, r, c - 1) + if units[c - 1] > r then [kinds[c - 1]] else []
  }

  /** The first `r` full rounds. */
  function Rounds<K>(kinds: seq<K>, units: seq<nat>, r: nat): seq<K>
    requires |kinds| == |units|
  {
    if r == 0 then [] else Rounds(kinds, units, r - 1) + Row(kinds, units, r - 1, |kinds|)
  }

  /** The plan as it stands when round `r` has visited the first `c` kinds. */
  function At<K>(kinds: seq<K>, units: seq<nat>, r: nat, c: nat): seq<K>
    requires |kinds| == |units| && c <= |kinds|
  {
    Rounds(kinds, units, r) + Row(kinds, units, r, c)
  }

  function Largest(units: seq<nat>): (m: nat)
    ensures forall i :: 0 <= i < |units| ==> units[i] <= m
  {
    if units == [] then 0
    else
      var m := Largest(units[..|units| - 1]);
      if units[|units| - 1] > m then units[|units| - 1] else m
  }

  /** Every unit of every kind, round by round, cut off at the budget. */
  function Plan<K>(kinds: seq<K>, units: seq<nat>, budget: nat): seq<K>
    requires |kinds| == |units|
  {
    var all := Rounds(kinds, units, Largest(units));
    if |all| <= budget then all else all[..budget]
  }

  function Min(a: nat, b: nat): nat {
    if a < b then a else b
  }

  function Placed(unit: nat, r: nat, visited: bool): nat {
    Min(unit, r) + if visited && unit > r then 1 else 0
  }

  lemma {:induction false} CountRow<K>(kinds: seq<K>, units: seq<nat>, r: nat, c: nat, i: nat)
    requires Wellformed(kinds, units) && c <= |kinds| && i < |kinds|
    ensures Count(Row(kinds, units, r, c), kinds[i]) == if i < c && units[i] > r then 1 else 0
  {
    if c > 0 {
      CountRow(kinds, units, r, c - 1, i);
      CountConcat(Row(kinds, units, r, c - 1), if units[c - 1] > r then [kinds[c - 1]] else [], kinds[i]);
    }
  }

  lemma {:induction false} CountRounds<K>(kinds: seq<K>, units: seq<nat>, r: nat, i: nat)
    requires Wellformed(kinds, units) && i < |kinds|
    ensures Count(Rounds(kinds, units, r), kinds[i]) == Min(units[i], r)
  {
    if r > 0 {
      CountRounds(kinds, units, r - 1, i);
      CountRow(kinds, units, r - 1, |kinds|, i);
      CountConcat(Rounds(kinds, units, r - 1), Row(kinds, units, r - 1, |kinds|), kinds[i]);
    }
  }

  /** How many units of a kind the walk has placed at any moment. */
  lemma CountAt<K>(kinds: seq<K>, units: seq<nat>, r: nat, c: nat, i: nat)
    requires Wellformed(kinds, units) && c <= |kinds| && i < |kinds|
    ensures Count(At(kinds, units, r, c), kinds[i]) == Placed(units[i], r, i < c)
  {
    CountRounds(kinds, units, r, i);
    CountRow(kinds, units, r, c, i);
    CountConcat(Rounds(kinds, units, r), Row(kinds, units, r, c), kinds[i]);
  }

  lemma {:induction false} RowOnlyKinds<K>(kinds: seq<K>, units: seq<nat>, r: nat, c: nat)
    requires |kinds| == |units| && c <= |kinds|
    ensures forall k :: k in Row(kinds, units, r, c) ==> k in kinds
  {
    if c > 0 {
      RowOnlyKinds(kinds, units, r, c - 1);
    }
  }

  lemma {:induction false} RoundsOnlyKinds<K>(kinds: seq<K>, units: seq<nat>, r: nat)
    requires |kinds| == |units|
    ensures forall k :: k in Rounds(kinds, units, r) ==> k in kinds
  {
    if r > 0 {
      RoundsOnlyKinds(kinds, units, r - 1);
      RowOnlyKinds(kinds, units, r - 1, |kinds|);
    }
  }

  /** Each planned entry was placed by one visit: the plan before it is the plan at that visit. */
  lemma {:induction false} Visit<K>(
      kinds: seq<K>, units: seq<nat>, rEnd: nat, cEnd: nat, t: nat) returns (r: nat, c: nat)
    requires |kinds| == |units| && cEnd <= |kinds| && t < |At(kinds, units, rEnd, cEnd)|
    ensures c < |kinds| && units[c] > r
    ensures At(kinds, units, rEnd, cEnd)[..t] == At(kinds, units, r, c)
    ensures At(kinds, units, rEnd, cEnd)[t] == kinds[c]
    decreases rEnd, cEnd
  {
    if cEnd == 0 {
      assert At(kinds, units, rEnd, 0) == Rounds(kinds, units, rEnd);
      assert At(kinds, units, rEnd - 1, |kinds|) == Rounds(kinds, units, rEnd);
      r, c := Visit(kinds, units, rEnd - 1, |kinds|, t);
    } else {
      var before, whole := At(kinds, units, rEnd, cEnd - 1), At(kinds, units, rEnd, cEnd);
      assert whole == before + if units[cEnd - 1] > rEnd then [kinds[cEnd - 1]] else [];
      if t < |before| {
        r, c := Visit(kinds, units, rEnd, cEnd - 1, t);
        assert whole[..t] == before[..t];
      } else {
        r, c := rEnd, cEnd - 1;
        assert whole[..t] == before;
      }
    }
  }

  lemma {:induction false} RoundsGrow<K>(kinds: seq<K>, units: seq<nat>, r: nat, r': nat)
    requires |kinds| == |units| && r <= r'
    ensures Rounds(kinds, units, r) <= Rounds(kinds, units, r')
  {
    if r < r' {
      RoundsGrow(kinds, units, r, r' - 1);
    }
  }

  lemma {:induction false} RowGrows<K>(kinds: seq<K>, units: seq<nat>, r: nat, c: nat, c': nat)
    requires |kinds| == |units| && c <= c' <= |kinds|
    ensures Row(kinds, units, r, c) <= Row(kinds, units, r, c')
  {
    if c < c' {
      RowGrows(kinds, units, r, c, c' - 1);
    }
  }

  lemma {:induction false} EmptyRow<K>(kinds: seq<K>, units: seq<nat>, r: nat, c: nat)
    requires |kinds| == |units| && c <= |kinds| && forall i :: 0 <= i < c ==> units[i] <= r
    ensures Row(kinds, units, r, c) == []
  {
    if c > 0 {
      EmptyRow(kinds, units, r, c - 1);
    }
  }

  /** Once every kind is used up, further rounds add nothing. */
  lemma {:induction false} RoundsSettle<K>(kinds: seq<K>, units: seq<nat>, r: nat, r': nat)
    requires |kinds| == |units| && r <= r' && forall i :: 0 <= i < |units| ==> units[i] <= r
    ensures Rounds(kinds, units, r') == Rounds(kinds, units, r)
  {
    if r < r' {
      RoundsSettle(kinds, units, r, r' - 1);
      EmptyRow(kinds, units, r' - 1, |kinds|);
    }
  }

  /** Every moment of the walk is a prefix of the full plan. */
  lemma {:induction false} AtIsPrefix<K>(kinds: seq<K>, units: seq<nat>, r: nat, c: nat)
    requires |kinds| == |units| && c <= |kinds|
    ensures At(kinds, units, r, c) <= Rounds(kinds, units, Largest(units))
  {
    if r < Largest(units) {
      UnfinishedRound(kinds, units, r, c);
      RoundsGrow(kinds, units, r + 1, Largest(units));
    } else {
      RoundsSettle(kinds, units, Largest(units), r);
      EmptyRow(kinds, units, r, c);
    }
  }

  lemma {:induction false} UnfinishedRound<K>(kinds: seq<K>, units: seq<nat>, r: nat, c: nat)
    requires |kinds| == |units| && c <= |kinds|
    ensures At(kinds, units, r, c) <= Rounds(kinds, units, r + 1)
  {
    RowGrows(kinds, units, r, c, |kinds|);
  }

  /** Where the walk stops is the plan: out of budget, or out of units. */
  lemma StopIsPlan<K>(kinds: seq<K>, units: seq<nat>, r: nat, c: nat, budget: nat)
    requires |kinds| == |units| && c <= |kinds| && |At(kinds, units, r, c)| <= budget
    requires |At(kinds, units, r, c)| == budget || (c == 0 && forall i :: 0 <= i < |units| ==> units[i] <= r)
    ensures At(kinds, units, r, c) == Plan(kinds, units, budget)
  {
    AtIsPrefix(kinds, units, r, c);
    if |At(kinds, units, r, c)| < budget {
      if r <= Largest(units) {
        RoundsSettle(kinds, units, r, Largest(units));
      } else {
        RoundsSettle(kinds, units, Largest(units), r);
      }
    }
  }

  /** What the first `r` rounds have placed, kind by kind. */
  function PlacedBy(units: seq<nat>, r: nat): (p: seq<nat>)
    ensures |p| == |units|
  {
    seq(|units|, i requires 0 <= i < |units| => Min(units[i], r))
  }

  lemma {:induction false} RowLength<K>(kinds: seq<K>, units: seq<nat>, r: nat, c: nat)
    requires |kinds| == |units| && c <= |kinds|
    ensures Sum(PlacedBy(units, r + 1)[..c]) == Sum(PlacedBy(units, r)[..c]) + |Row(kinds, units, r, c)|
  {
    if c > 0 {
      RowLength(kinds, units, r, c - 1);
      PrefixSum(PlacedBy(units, r + 1), c);
      PrefixSum(PlacedBy(units, r), c);
    }
  }

  lemma {:induction false} RoundsLength<K>(kinds: seq<K>, units: seq<nat>, r: nat)
    requires |kinds| == |units|
    ensures |Rounds(kinds, units, r)| == Sum(PlacedBy(units, r))
  {
    var p := PlacedBy(units, r);
    assert p[..|units|] == p;
    if r == 0 {
      SumMonotone(p, seq(|units|, _ => 0));
      SumOfZeros(|units|);
    } else {
      RoundsLength(kinds, units, r - 1);
      RowLength(kinds, units, r - 1, |kinds|);
      var p' := PlacedBy(units, r - 1);
      assert p'[..|units|] == p';
    }
  }

  lemma {:induction false} SumOfZeros(n: nat)
    ensures Sum(seq(n, _ => 0)) == 0
  {
    if n > 0 {
      assert seq(n, _ => 0)[..n - 1] == seq(n - 1, _ => 0);
      SumOfZeros(n - 1);
    }
  }

  /** The untruncated plan has one entry per unit. */
  lemma {:induction false} FullLength<K>(kinds: seq<K>, units: seq<nat>)
    requires |kinds| == |units|
    ensures |Rounds(kinds, units, Largest(units))| == Sum(units)
  {
    RoundsLength(kinds, units, Largest(units));
    assert PlacedBy(units, Largest(units)) == units;
  }

  /** A full plan holds every unit of every kind. */
  lemma {:induction false} PlanCounts<K>(kinds: seq<K>, units: seq<nat>, budget: nat, i: nat)
    requires Wellformed(kinds, units) && i < |kinds| && |Rounds(kinds, units, Largest(units))| <= budget
    ensures Count(Plan(kinds, units, budget), kinds[i]) == units[i]
  {
    CountRounds(kinds, units, Largest(units), i);
  }

  /**
   * When a unit is placed, every kind listed earlier with at least as many units is already one ahead.
   * This is what lets a later kind refer to the document an earlier kind placed in the same round.
   */
  lemma EarlierKindLeads<K>(kinds: seq<K>, units: seq<nat>, budget: nat, t: nat, a: nat, c: nat)
    requires Wellformed(kinds, units) && a < c < |kinds| && units[a] >= units[c]
    requires t < |Plan(kinds, units, budget)| && Plan(kinds, units, budget)[t] == kinds[c]
    ensures var before := Plan(kinds, units, budget)[..t];
            Count(before, kinds[a]) > Count(before, kinds[c]) && Count(before, kinds[c]) < units[c]
  {
    var m := Largest(units);
    assert At(kinds, units, m, 0) == Rounds(kinds, units, m);
    var r, v := Visit(kinds, units, m, 0, t);
    assert Plan(kinds, units, budget)[..t] == Rounds(kinds, units, m)[..t];
    assert v == c;
    CountAt(kinds, units, r, c, a);
    CountAt(kinds, units, r, c, c);
  }

  lemma NothingPlaced<K>(kinds: seq<K>, units: seq<nat>)
    requires |kinds| == |units|
    ensures At(kinds, units, 0, 0) == []
  {
  }

  lemma NextVisit<K>(kinds: seq<K>, units: seq<nat>, r: nat, c: nat)
    requires |kinds| == |units| && c < |kinds|
    ensures At(kinds, units, r, c + 1) == At(kinds, units, r, c) + if units[c] > r then [kinds[c]] else []
  {
  }

  lemma NextRound<K>(kinds: seq<K>, units: seq<nat>, r: nat)
    requires |kinds| == |units|
    ensures At(kinds, units, r + 1, 0) == At(kinds, units, r, |kinds|)
  {
  }

  lemma IdleRound<K>(kinds: seq<K>, units: seq<nat>, r: nat)
    requires |kinds| == |units| && forall i :: 0 <= i < |units| ==> units[i] <= r
    ensures At(kinds, units, r, 0) == At(kinds, units, r, |kinds|)
  {
    EmptyRow(kinds, units, r, |kinds|);
  }

  /** The walk itself: visit the kinds in order, one unit each, until the budget or the units run out. */
  method BuildPlan<K>(kinds: seq<K>, units: seq<nat>, budget: nat) returns (out: seq<K>)
    requires |kinds| == |units|
    ensures out == Plan(kinds, units, budget)
  {
    hide Plan, At;
    out := [];
    var remaining := units;
    ghost var r := 0;
    NothingPlaced(kinds, units);
    while |out| < budget
      invariant |remaining| == |units| && |out| <= budget
      invariant out == At(kinds, units, r, 0) || (|out| == budget && out == Plan(kinds, units, budget))
      invariant forall i :: 0 <= i < |units| ==> remaining[i] == units[i] - Min(units[i], r)
      decreases budget - |out|
    {
      var placed := false;
      ghost var start := |out|;
      var c := 0;
      while c < |kinds|
        invariant c <= |kinds| && |remaining| == |units| && |out| <= budget
        invariant out == At(kinds, units, r, c)
        invariant forall i :: 0 <= i < |units| ==> remaining[i] == units[i] - Placed(units[i], r, i < c)
        invariant |out| == start ==> !placed
        invariant |out| >= start && (placed ==> |out| > start)
        invariant !placed ==> forall i :: 0 <= i < c ==> units[i] <= r
        invariant |out| < budget
        decreases |kinds| - c
      {
        NextVisit(kinds, units, r, c);
        if remaining[c] > 0 {
          out := out + [kinds[c]];
          remaining := remaining[c := remaining[c] - 1];
          placed := true;
          if |out| >= budget {
            StopIsPlan(kinds, units, r, c + 1, budget);
            return;
          }
        }
        c := c + 1;
      }
      NextRound(kinds, units, r);
      if !placed {
        IdleRound(kinds, units, r);
        StopIsPlan(kinds, units, r, 0, budget);
        return;
      }
      r := r + 1;
    }
    if out == At(kinds, units, r, 0) {
      StopIsPlan(kinds, units, r, 0, budget);
    }
  }
}
