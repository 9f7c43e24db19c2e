/** Largest-remainder apportionment of a document budget over weighted kinds (`CorpusBuilder.buildQuotas`). */
module Apportionment {
  import opened Sequences
  import Text
  import Sorting

  ghost predicate Wellformed(weights: seq<nat>, names: seq<string>) {
    |weights| == |names| && Distinct(names) && Sum(weights) > 0
  }

  /** The whole part of the exact share `weights[i] / total * budget`. */
  function Floor(weights: seq<nat>, budget: nat, i: nat): nat
    requires i < |weights| && Sum(weights) > 0
  {
    weights[i] * budget / Sum(weights)
  }

  /** The fractional part of the exact share, as a numerator over the total weight. */
  function Fraction(weights: seq<nat>, budget: nat, i: nat): (r: nat)
    requires i < |weights| && Sum(weights) > 0
    ensures r < Sum(weights)
  {
    weights[i] * budget % Sum(weights)
  }

  /** The order the remainders are served in: larger fraction, then heavier, then the smaller name. */
  predicate Before(weights: seq<nat>, names: seq<string>, budget: nat, i: nat, j: nat)
    requires |weights| == |names| && i < |weights| && j < |weights| && Sum(weights) > 0
  {
    var fi, fj := Fraction(weights, budget, i), Fraction(weights, budget, j);
    fi > fj || (fi == fj && (weights[i] > weights[j] || (weights[i] == weights[j] && Text.Less(names[i], names[j]))))
  }

  lemma BeforeTransitive(weights: seq<nat>, names: seq<string>, budget: nat, i: nat, j: nat, k: nat)
    requires Wellformed(weights, names) && i < |weights| && j < |weights| && k < |weights|
    requires Before(weights, names, budget, i, j) && Before(weights, names, budget, j, k)
    ensures Before(weights, names, budget, i, k)
  {
    if Text.Less(names[i], names[j]) && Text.Less(names[j], names[k]) {
      Text.LessTransitive(names[i], names[j], names[k]);
    }
  }

  lemma BeforeTotal(weights: seq<nat>, names: seq<string>, budget: nat, i: nat, j: nat)
    requires Wellformed(weights, names) && i < |weights| && j < |weights| && i != j
    ensures Before(weights, names, budget, i, j) || Before(weights, names, budget, j, i)
    ensures !(Before(weights, names, budget, i, j) && Before(weights, names, budget, j, i))
  {
    Text.LessTotal(names[i], names[j]);
    if Text.Less(names[i], names[j]) && Text.Less(names[j], names[i]) {
      Text.LessTransitive(names[i], names[j], names[i]);
      Text.LessIrreflexive(names[i]);
    }
  }

  function Serving(weights: seq<nat>, names: seq<string>, budget: nat): (nat, nat) -> bool
    requires Wellformed(weights, names)
  {
    (i: nat, j: nat) => i < |weights| && j < |weights| && Before(weights, names, budget, i, j)
  }

  function Kinds(weights: seq<nat>): seq<nat> {
    seq(|weights|, i => i)
  }

  function Ranked(weights: seq<nat>, names: seq<string>, budget: nat): (order: seq<nat>)
    requires Wellformed(weights, names)
    ensures |order| == |weights|
  {
    Sorting.Sort(Serving(weights, names, budget), Kinds(weights))
  }

  lemma ServingIsTotal(weights: seq<nat>, names: seq<string>, budget: nat)
    requires Wellformed(weights, names)
    ensures Sorting.StrictTotalOrder(Serving(weights, names, budget), Elements(Kinds(weights)))
  {
    var before, kinds := Serving(weights, names, budget), Elements(Kinds(weights));
    forall i, j | i in kinds && j in kinds && i != j ensures before(i, j) != before(j, i) {
      BeforeTotal(weights, names, budget, i, j);
    }
    forall i | i in kinds ensures !before(i, i) {
      Text.LessIrreflexive(names[i]);
    }
    forall i, j, k | i in kinds && j in kinds && k in kinds && before(i, j) && before(j, k) ensures before(i, k) {
      BeforeTransitive(weights, names, budget, i, j, k);
    }
  }

  /** The ranking lists every kind once, each before all kinds it is served ahead of. */
  lemma RankedOrders(weights: seq<nat>, names: seq<string>, budget: nat)
    requires Wellformed(weights, names)
    ensures Distinct(Ranked(weights, names, budget))
    ensures forall i: nat :: i in Ranked(weights, names, budget) <==> i < |weights|
    ensures Sorting.Ordered(Serving(weights, names, budget), Ranked(weights, names, budget))
  {
    var order := Ranked(weights, names, budget);
    ServingIsTotal(weights, names, budget);
    Sorting.SortOrders(Serving(weights, names, budget), Kinds(weights));
    forall i: nat ensures i in order <==> i < |weights| {
      assert i in order <==> i in Elements(order);
      assert i in Kinds(weights) <==> i in Elements(Kinds(weights));
      assert i < |weights| ==> Kinds(weights)[i] == i;
    }
  }

  /** A kind served ahead of another stands earlier in the ranking. */
  lemma ServedEarlier(weights: seq<nat>, names: seq<string>, budget: nat, p: nat, q: nat)
    requires Wellformed(weights, names) && p < |weights| && q < |weights|
    requires var order := Ranked(weights, names, budget);
             order[p] < |weights| && order[q] < |weights| && Before(weights, names, budget, order[p], order[q])
    ensures p < q
  {
    var order := Ranked(weights, names, budget);
    RankedOrders(weights, names, budget);
    ServingIsTotal(weights, names, budget);
    forall i | i in Elements(order) ensures i in Elements(Kinds(weights)) {
      assert Kinds(weights)[i] == i;
    }
    Sorting.EarlierWins(Serving(weights, names, budget), order, Elements(Kinds(weights)), p, q);
  }

  function Floors(weights: seq<nat>, budget: nat): (r: seq<nat>)
    requires Sum(weights) > 0
    ensures |r| == |weights|
  {
    seq(|weights|, i requires 0 <= i < |weights| => Floor(weights, budget, i))
  }

  /** `base` with one more for every listed kind. */
  function WithOneMore(base: seq<nat>, chosen: seq<nat>): (r: seq<nat>)
    ensures |r| == |base|
  {
    seq(|base|, i requires 0 <= i < |base| => base[i] + if i in chosen then 1 else 0)
  }

  /** The documents that the whole parts leave unassigned. */
  function Leftover(weights: seq<nat>, budget: nat): (t: nat)
    requires Sum(weights) > 0
    ensures t <= |weights| && Sum(Floors(weights, budget)) + t == budget
  {
    LeftoverBound(weights, budget);
    budget - Sum(Floors(weights, budget))
  }

  function Quotas(weights: seq<nat>, names: seq<string>, budget: nat): (r: seq<nat>)
    requires Wellformed(weights, names)
    ensures |r| == |weights|
  {
    WithOneMore(Floors(weights, budget), Ranked(weights, names, budget)[..Leftover(weights, budget)])
  }

  function Fractions(weights: seq<nat>, budget: nat): (r: seq<nat>)
    requires Sum(weights) > 0
    ensures |r| == |weights|
  {
    seq(|weights|, i requires 0 <= i < |weights| => Fraction(weights, budget, i))
  }

  lemma {:induction false} SharesAddUp(weights: seq<nat>, budget: nat, c: nat)
    requires Sum(weights) > 0 && c <= |weights|
    ensures Sum(weights) * Sum(Floors(weights, budget)[..c]) + Sum(Fractions(weights, budget)[..c])
            == Sum(weights[..c]) * budget
  {
    if c > 0 {
      var fl, fr := Floors(weights, budget), Fractions(weights, budget);
      SharesAddUp(weights, budget, c - 1);
      PrefixSum(fl, c);
      PrefixSum(fr, c);
      PrefixSum(weights, c);
      ShareSplits(Sum(weights), weights[c - 1] * budget);
      AddShare(Sum(weights), budget, Sum(fl[..c - 1]), fl[c - 1], Sum(fr[..c - 1]), fr[c - 1], Sum(weights[..c - 1]),
               weights[c - 1]);
    }
  }

  lemma ShareSplits(total: nat, share: nat)
    requires total > 0
    ensures share == total * (share / total) + share % total
  {
  }

  lemma AddShare(
      total: nat, budget: nat, floors: nat, floor: nat, fractions: nat, fraction: nat, weights: nat, weight: nat)
    requires total * floors + fractions == weights * budget
    requires total * floor + fraction == weight * budget
    ensures total * (floors + floor) + (fractions + fraction) == (weights + weight) * budget
  {
    Distribute(total, floors, floor);
    Distribute(budget, weights, weight);
  }

  lemma Distribute(k: int, a: int, b: int)
    ensures k * (a + b) == k * a + k * b
  {
  }

  function Positive(s: seq<nat>): set<nat> {
    set i | 0 <= i < |s| && s[i] > 0
  }

  /** Entries below `bound` add up to at most (bound - 1) for each positive one. */
  lemma {:induction false} FractionSumBound(s: seq<nat>, bound: nat)
    requires bound > 0 && forall i :: 0 <= i < |s| ==> s[i] < bound
    ensures Sum(s) <= |Positive(s)| * (bound - 1)
  {
    if s != [] {
      var front, last := s[..|s| - 1], |s| - 1;
      FractionSumBound(front, bound);
      PositiveStep(s);
      OneMoreFraction(Sum(front), s[last], |Positive(front)|, bound - 1);
    }
  }

  lemma OneMoreFraction(sum: nat, x: nat, positive: nat, most: nat)
    requires sum <= positive * most && x <= most
    ensures sum + x <= (positive + if x > 0 then 1 else 0) * most
  {
    Distribute(most, positive, 1);
  }

  lemma PositiveStep(s: seq<nat>)
    requires s != []
    ensures |Positive(s)| == |Positive(s[..|s| - 1])| + if s[|s| - 1] > 0 then 1 else 0
  {
    var front, last := s[..|s| - 1], |s| - 1;
    if s[last] > 0 {
      assert Positive(s) == Positive(front) + {last};
    } else {
      assert Positive(s) == Positive(front);
    }
  }

  lemma SumOfFractions(weights: seq<nat>, budget: nat) returns (t: nat)
    requires Sum(weights) > 0
    ensures Sum(Floors(weights, budget)) + t == budget
    ensures Sum(Fractions(weights, budget)) == Sum(weights) * t
  {
    var total, fl, fr := Sum(weights), Floors(weights, budget), Fractions(weights, budget);
    SharesAddUp(weights, budget, |weights|);
    assert fl[..|weights|] == fl && fr[..|weights|] == fr && weights[..|weights|] == weights;
    Distribute(total, Sum(fl), budget - Sum(fl));
    assert total * (budget - Sum(fl)) == Sum(fr);
    t := budget - Sum(fl);
  }

  /**
   * Serving one document each to `t` kinds worth `total` can only be needed when more than `t` kinds have a fraction.
   */
  lemma FewerThanPositive(total: nat, t: nat, positive: nat)
    requires total > 0 && total * t <= positive * (total - 1)
    ensures t == 0 || t < positive
  {
    Distribute(positive, total, -1);
    if t >= positive {
      assert total * t >= total * positive;
      assert positive == 0;
      assert total * t == 0;
    }
  }

  /**
   * The leftover is smaller than the number of kinds with a fractional share, so serving them never runs out of
   * kinds.
   */
  lemma {:induction false} LeftoverBound(weights: seq<nat>, budget: nat)
    requires Sum(weights) > 0
    ensures Sum(Floors(weights, budget)) <= budget
    ensures var t := budget - Sum(Floors(weights, budget));
            (t == 0 || t < |Positive(Fractions(weights, budget))|) && t <= |weights|
  {
    var fr := Fractions(weights, budget);
    var t := SumOfFractions(weights, budget);
    FractionSumBound(fr, Sum(weights));
    BoundLeftover(Sum(weights), t, Sum(fr), |Positive(fr)|);
    PositiveCount(fr);
  }

  lemma BoundLeftover(total: nat, t: nat, fractions: nat, positive: nat)
    requires total > 0 && fractions == total * t && fractions <= positive * (total - 1)
    ensures t == 0 || t < positive
  {
    FewerThanPositive(total, t, positive);
  }

  lemma {:induction false} PositiveCount(s: seq<nat>)
    ensures |Positive(s)| <= |s|
  {
    if s != [] {
      PositiveStep(s);
      PositiveCount(s[..|s| - 1]);
    }
  }

  /** The quotas sum to the budget exactly, for every budget. */
  lemma QuotasSumToBudget(weights: seq<nat>, names: seq<string>, budget: nat)
    requires Wellformed(weights, names)
    ensures Sum(Quotas(weights, names, budget)) == budget
  {
    RankedOrders(weights, names, budget);
    SumWithOneMore(Floors(weights, budget), Ranked(weights, names, budget), Leftover(weights, budget));
  }

  lemma {:induction false} SumWithOneMore(base: seq<nat>, order: seq<nat>, t: nat)
    requires Distinct(order) && t <= |order| && forall i :: i in order ==> i < |base|
    ensures Sum(WithOneMore(base, order[..t])) == Sum(base) + t
  {
    if t == 0 {
      assert WithOneMore(base, order[..0]) == base;
    } else {
      SumWithOneMore(base, order, t - 1);
      OneMoreStep(base, order, t - 1);
      SumUpdate(WithOneMore(base, order[..t - 1]), order[t - 1], base[order[t - 1]] + 1);
    }
  }

  lemma OneMoreStep(base: seq<nat>, order: seq<nat>, t: nat)
    requires Distinct(order) && t < |order| && forall i :: i in order ==> i < |base|
    ensures order[t] < |base| && WithOneMore(base, order[..t])[order[t]] == base[order[t]]
    ensures WithOneMore(base, order[..t + 1]) == WithOneMore(base, order[..t])[order[t] := base[order[t]] + 1]
  {
    assert order[t] in order;
    assert order[t] !in order[..t];
    assert order[..t + 1] == order[..t] + [order[t]];
  }

  /**
   * Each quota is the whole part of the exact share, or one more when the share has a fraction: its floor or its
   * ceiling.
   */
  lemma QuotaIsFloorOrCeiling(weights: seq<nat>, names: seq<string>, budget: nat, i: nat)
    requires Wellformed(weights, names) && i < |weights|
    ensures var floor := Floor(weights, budget, i);
            floor <= Quotas(weights, names, budget)[i] <= floor + if Fraction(weights, budget, i) == 0 then 0 else 1
  {
    var order, t := Ranked(weights, names, budget), Leftover(weights, budget);
    if i in order[..t] {
      var p :| 0 <= p < t && order[p] == i;
      ServedHaveFractions(weights, names, budget, p);
    }
  }

  /** Only kinds with a fractional share are served from the leftover. */
  lemma ServedHaveFractions(weights: seq<nat>, names: seq<string>, budget: nat, p: nat)
    requires Wellformed(weights, names) && p < Leftover(weights, budget)
    ensures Ranked(weights, names, budget)[p] < |weights|
    ensures Fraction(weights, budget, Ranked(weights, names, budget)[p]) > 0
  {
    RankedOrders(weights, names, budget);
    LeftoverBound(weights, budget);
    var order := Ranked(weights, names, budget);
    assert order[p] in order;
    var positive := Positive(Fractions(weights, budget));
    if Fraction(weights, budget, order[p]) == 0 {
      PositivesComeFirst(weights, names, budget, p);
      ElementsCardinality(order[..p]);
      SubsetCardinality(positive, Elements(order[..p]));
    }
  }

  lemma PositivesComeFirst(weights: seq<nat>, names: seq<string>, budget: nat, p: nat)
    requires Wellformed(weights, names) && p < |weights|
    requires Ranked(weights, names, budget)[p] < |weights|
             && Fraction(weights, budget, Ranked(weights, names, budget)[p]) == 0
    ensures Positive(Fractions(weights, budget)) <= Elements(Ranked(weights, names, budget)[..p])
  {
    RankedOrders(weights, names, budget);
    var order := Ranked(weights, names, budget);
    forall i | i in Positive(Fractions(weights, budget)) ensures i in Elements(order[..p]) {
      assert i in order;
      var q :| 0 <= q < |order| && order[q] == i;
      ServedEarlier(weights, names, budget, q, p);
      assert order[..p][q] == i;
    }
  }

  /**
   * Of two kinds, the one with the larger remainder of the exact share has the better claim; on equal remainders the
   * heavier one, and on equal weights the one with the smaller name.
   */
  ghost predicate HasBetterClaim(weights: seq<nat>, names: seq<string>, budget: nat, i: nat, j: nat)
    requires |weights| == |names| && i < |weights| && j < |weights| && Sum(weights) > 0
  {
    var ri, rj := weights[i] * budget % Sum(weights), weights[j] * budget % Sum(weights);
    ri >= rj && (ri == rj ==> weights[i] >= weights[j] && (weights[i] == weights[j] ==> Text.Less(names[i], names[j])))
  }

  /** Whole shares, one more for some kinds, and nobody served before a better claim. */
  ghost predicate ServesLargestRemainders(weights: seq<nat>, names: seq<string>, budget: nat, quotas: seq<nat>)
    requires |weights| == |names| && Sum(weights) > 0
  {
    && |quotas| == |weights|
    && (forall i: nat :: i < |quotas| ==>
          quotas[i] == weights[i] * budget / Sum(weights) || quotas[i] == weights[i] * budget / Sum(weights) + 1)
    && forall i: nat, j: nat ::
         (&& i < |quotas| && quotas[i] == weights[i] * budget / Sum(weights) + 1
          && j < |quotas| && quotas[j] == weights[j] * budget / Sum(weights))
         ==> HasBetterClaim(weights, names, budget, i, j)
  }

  lemma {:induction false} ServedHaveBetterClaims(weights: seq<nat>, names: seq<string>, budget: nat, i: nat, j: nat)
    requires Wellformed(weights, names) && i < |weights| && j < |weights|
    requires Quotas(weights, names, budget)[i] == weights[i] * budget / Sum(weights) + 1
    requires Quotas(weights, names, budget)[j] == weights[j] * budget / Sum(weights)
    ensures HasBetterClaim(weights, names, budget, i, j)
  {
    var order, t := Ranked(weights, names, budget), Leftover(weights, budget);
    RankedOrders(weights, names, budget);
    assert Floors(weights, budget)[i] == weights[i] * budget / Sum(weights);
    assert Floors(weights, budget)[j] == weights[j] * budget / Sum(weights);
    assert forall k :: 0 <= k < t ==> order[k] in order[..t];
    assert i in order[..t] && j !in order[..t] && j in order;
    var p :| 0 <= p < t && order[p] == i;
    var q :| 0 <= q < |order| && order[q] == j;
    assert Serving(weights, names, budget)(order[p], order[q]);
  }

  /** The quotas serve the leftover documents to the largest remainders. */
  lemma QuotasServeLargestRemainders(weights: seq<nat>, names: seq<string>, budget: nat)
    requires Wellformed(weights, names)
    ensures ServesLargestRemainders(weights, names, budget, Quotas(weights, names, budget))
  {
    hide Quotas, HasBetterClaim;
    var quotas := Quotas(weights, names, budget);
    forall i: nat | i < |quotas|
      ensures quotas[i] == weights[i] * budget / Sum(weights) || quotas[i] == weights[i] * budget / Sum(weights) + 1
    {
      QuotaIsFloorOrCeiling(weights, names, budget, i);
    }
    forall i: nat, j: nat | i < |quotas| && j < |quotas| && quotas[i] == weights[i] * budget / Sum(weights) + 1
        && quotas[j] == weights[j] * budget / Sum(weights)
      ensures HasBetterClaim(weights, names, budget, i, j)
    {
      ServedHaveBetterClaims(weights, names, budget, i, j);
    }
  }

  /** The kinds a list of quotas serves. */
  ghost function Served(weights: seq<nat>, budget: nat, quotas: seq<nat>): set<nat>
    requires Sum(weights) > 0 && |quotas| == |weights|
  {
    set i: nat | i < |weights| && quotas[i] == weights[i] * budget / Sum(weights) + 1
  }

  lemma {:induction false} ServedCount(base: seq<nat>, quotas: seq<nat>, served: set<nat>)
    requires |quotas| == |base| && forall i :: i in served ==> i < |base|
    requires forall i: nat :: i < |base| ==> quotas[i] == base[i] + if i in served then 1 else 0
    ensures Sum(quotas) == Sum(base) + |served|
  {
    if base == [] {
      assert served == {};
    } else {
      var last: nat := |base| - 1;
      ServedCount(base[..last], quotas[..last], served - {last});
      if last !in served {
        assert served - {last} == served;
      }
    }
  }

  lemma {:induction false} ServedFill(weights: seq<nat>, names: seq<string>, budget: nat, quotas: seq<nat>)
    requires Wellformed(weights, names) && ServesLargestRemainders(weights, names, budget, quotas)
    ensures Sum(quotas) == Sum(Floors(weights, budget)) + |Served(weights, budget, quotas)|
  {
    ServedCount(Floors(weights, budget), quotas, Served(weights, budget, quotas));
  }

  lemma ClaimsAreStrict(weights: seq<nat>, names: seq<string>, budget: nat, i: nat, j: nat)
    requires Wellformed(weights, names) && i < |weights| && j < |weights| && i != j
    ensures !(HasBetterClaim(weights, names, budget, i, j) && HasBetterClaim(weights, names, budget, j, i))
  {
    BeforeTotal(weights, names, budget, i, j);
  }

  lemma SameSizeSets(a: set<nat>, b: set<nat>)
    requires |a| == |b| && a != b
    ensures a - b != {} && b - a != {}
  {
    assert forall x :: x in a && x !in b ==> x in a - b;
    assert forall x :: x in b && x !in a ==> x in b - a;
    if a <= b {
      SubsetCardinality(a, b);
    } else if b <= a {
      SubsetCardinality(b, a);
    }
  }

  /** Largest-remainder apportionment has one solution: whatever serves that way and spends the budget is the quotas. */
  lemma {:induction false} QuotasAreUnique(weights: seq<nat>, names: seq<string>, budget: nat, quotas: seq<nat>)
    requires Wellformed(weights, names)
    requires ServesLargestRemainders(weights, names, budget, quotas) && Sum(quotas) == budget
    ensures quotas == Quotas(weights, names, budget)
  {
    hide Quotas, HasBetterClaim;
    var right := Quotas(weights, names, budget);
    QuotasServeLargestRemainders(weights, names, budget);
    QuotasSumToBudget(weights, names, budget);
    ServedFill(weights, names, budget, quotas);
    ServedFill(weights, names, budget, right);
    var a, b := Served(weights, budget, quotas), Served(weights, budget, right);
    if a != b {
      SameSizeSets(a, b);
      var i := Pick(a - b);
      var j := Pick(b - a);
      assert quotas[i] == right[i] + 1 && right[j] == quotas[j] + 1;
      ClaimsAreStrict(weights, names, budget, i, j);
    }
    assert forall i: nat :: i < |quotas| ==> (i in a <==> quotas[i] == weights[i] * budget / Sum(weights) + 1);
    assert forall i: nat :: i < |right| ==> (i in b <==> right[i] == weights[i] * budget / Sum(weights) + 1);
  }

  /** A strictly heavier kind never gets less than a lighter one. */
  lemma HeavierNeverGetsLess(weights: seq<nat>, names: seq<string>, budget: nat, i: nat, j: nat)
    requires Wellformed(weights, names) && i < |weights| && j < |weights|
    requires weights[i] > weights[j]
    ensures Quotas(weights, names, budget)[i] >= Quotas(weights, names, budget)[j]
  {
    HeavierShare(weights[i], weights[j], budget, Sum(weights));
    RankedOrders(weights, names, budget);
    var order, t := Ranked(weights, names, budget), Leftover(weights, budget);
    if Floor(weights, budget, i) == Floor(weights, budget, j) && j in order[..t] {
      var p :| 0 <= p < t && order[p] == j;
      assert i in order;
      var q :| 0 <= q < |order| && order[q] == i;
      ServedEarlier(weights, names, budget, q, p);
      assert order[..t][q] == i;
    }
  }

  /** Equal whole parts leave the heavier share with the larger fraction. */
  lemma HeavierShare(heavy: nat, light: nat, budget: nat, total: nat)
    requires heavy > light && total > 0
    ensures heavy * budget / total >= light * budget / total
    ensures heavy * budget / total == light * budget / total ==> heavy * budget % total >= light * budget % total
  {
    var a, b := heavy * budget, light * budget;
    assert a >= b;
    ShareSplits(total, a);
    ShareSplits(total, b);
    QuotientMonotone(a, b, total);
  }

  lemma QuotientMonotone(a: nat, b: nat, total: nat)
    requires a >= b && total > 0
    ensures a / total >= b / total
  {
    ShareSplits(total, a);
    ShareSplits(total, b);
    QuotientOrder(total, a / total, a % total, b / total, b % total);
  }

  lemma QuotientOrder(total: nat, qa: nat, ra: nat, qb: nat, rb: nat)
    requires total * qa + ra >= total * qb + rb && ra < total
    ensures qa >= qb
  {
    Distribute(total, qa, qb - qa);
    assert qb - qa >= 1 ==> total * (qb - qa) >= total;
  }

  /** The apportionment loop of the generator, whose result is the specification above. */
  method BuildQuotas(weights: seq<nat>, names: seq<string>, budget: nat) returns (quotas: seq<nat>)
    requires Wellformed(weights, names)
    ensures quotas == Quotas(weights, names, budget)
  {
    quotas := [];
    var placed := 0;
    for k := 0 to |weights|
      invariant |quotas| == k
      invariant quotas == Floors(weights, budget)[..k]
      invariant placed == Sum(quotas)
    {
      var floor := Floor(weights, budget, k);
      SumAppend(quotas, floor);
      quotas := quotas + [floor];
      placed := placed + floor;
    }
    assert quotas == Floors(weights, budget);
    ghost var floors := quotas;
    var order := Ranked(weights, names, budget);
    RankedOrders(weights, names, budget);
    assert quotas == WithOneMore(floors, order[..0]);
    ghost var t := Leftover(weights, budget);
    var i := 0;
    while i < |order| && placed < budget
      invariant i <= |order| && i <= t
      invariant placed == Sum(floors) + i
      invariant quotas == WithOneMore(floors, order[..i])
    {
      OneMoreStep(floors, order, i);
      quotas := quotas[order[i] := quotas[order[i]] + 1];
      placed := placed + 1;
      i := i + 1;
    }
  }
}
