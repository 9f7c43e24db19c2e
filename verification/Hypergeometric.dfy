/**
 * The chance that k documents drawn at random hold a whole evidence set: a loop product, a quotient of binomials, a
 * count.
 */
module Hypergeometric {
  import Fractions
  import opened Sequences

  /** Binomial coefficients by Pascal's rule. */
  function Choose(n: nat, k: nat): nat {
    if k == 0 then 1 else if n == 0 then 0 else Choose(n - 1, k - 1) + Choose(n - 1, k)
  }

  lemma {:induction false} ChoosePositive(n: nat, k: nat)
    ensures Choose(n, k) > 0 <==> k <= n
  {
    if k > 0 && n > 0 {
      ChoosePositive(n - 1, k - 1);
      ChoosePositive(n - 1, k);
    }
  }

  /** Absorption: k C(n, k) = n C(n - 1, k - 1). */
  lemma {:induction false} Absorption(n: nat, k: nat)
    requires 0 < k && 0 < n
    ensures k * Choose(n, k) == n * Choose(n - 1, k - 1)
  {
    if n == 1 {
      ChoosePositive(0, k);
      if k > 1 {
        ChoosePositive(0, k - 1);
      }
    } else {
      Absorption(n - 1, k);
      if k > 1 {
        Absorption(n - 1, k - 1);
      }
      AbsorptionStep(n, k, Choose(n - 1, k - 1), Choose(n - 1, k), Choose(n - 2, k - 1),
                     if k > 1 then Choose(n - 2, k - 2) else 0);
    }
  }

  lemma AbsorptionStep(n: nat, k: nat, a: nat, b: nat, c: nat, d: nat)
    requires n >= 2 && k >= 1
    requires k * b == (n - 1) * c
    requires k > 1 ==> (k - 1) * a == (n - 1) * d && a == d + c
    requires k == 1 ==> a == 1 && c == 1
    ensures k * (a + b) == n * a
  {
    if k > 1 {
      assert k * (a + b) == a + (k - 1) * a + k * b;
      assert (n - 1) * d + (n - 1) * c == (n - 1) * a by { assert (n - 1) * (d + c) == (n - 1) * d + (n - 1) * c; }
      assert a + (n - 1) * a == n * a;
    }
  }

  /** The product the report multiplies up. */
  function Product(n: nat, k: nat, h: nat): real
    requires h <= k <= n
  {
    if h == 0 then 1.0 else Product(n, k, h - 1) * ((k - (h - 1)) as real / (n - (h - 1)) as real)
  }

  /** The loop product equals C(n - h, k - h) / C(n, k). */
  lemma {:induction false} ProductIsQuotient(n: nat, k: nat, h: nat)
    requires h <= k <= n
    ensures Times(Product(n, k, h), Choose(n, k)) == Choose(n - h, k - h) as real
  {
    hide Choose;
    if h > 0 {
      ProductIsQuotient(n, k, h - 1);
      ProductStep(n, k, h, Product(n, k, h - 1), Choose(n, k));
    }
  }

  function Times(p: real, n: nat): real {
    p * n as real
  }

  lemma ProductStep(n: nat, k: nat, h: nat, p: real, whole: nat)
    requires 0 < h <= k <= n && Times(p, whole) == Choose(n - h + 1, k - h + 1) as real
    ensures Times(p * ((k - (h - 1)) as real / (n - (h - 1)) as real), whole) == Choose(n - h, k - h) as real
  {
    var m, j := n - (h - 1), k - (h - 1);
    Absorption(m, j);
    QuotientStep(p, whole, m, j, Choose(m, j), Choose(m - 1, j - 1));
  }

  lemma QuotientStep(p: real, whole: nat, m: nat, j: nat, before: nat, after: nat)
    requires m > 0 && p * whole as real == before as real && j * before == m * after
    ensures p * (j as real / m as real) * whole as real == after as real
  {
    var q := j as real / m as real;
    assert q * m as real == j as real;
    assert (j * before) as real == j as real * before as real && (m * after) as real == m as real * after as real;
    assert p * q * whole as real == q * (p * whole as real);
    Cancel(q * before as real, after as real, m as real, q, before as real, j as real);
  }

  lemma Cancel(x: real, y: real, m: real, q: real, b: real, j: real)
    requires m > 0.0 && x == q * b && q * m == j && j * b == m * y
    ensures x == y
  {
    assert m * x == (q * m) * b;
    assert m * (x - y) == 0.0;
  }

  // ----- counting subsets -----

  ghost function Subsets(u: set<string>, k: nat): set<set<string>> {
    set s | s <= u && |s| == k
  }

  ghost function Supersets(u: set<string>, k: nat, core: set<string>): set<set<string>> {
    set s | s <= u && |s| == k && core <= s
  }

  ghost function Adding(family: set<set<string>>, x: string): set<set<string>> {
    set s | s in family :: s + {x}
  }

  lemma {:induction false} AddingKeepsSize(family: set<set<string>>, x: string)
    requires forall s :: s in family ==> x !in s
    ensures |Adding(family, x)| == |family|
    decreases |family|
  {
    if family != {} {
      var s :| s in family;
      var rest := family - {s};
      AddingKeepsSize(rest, x);
      assert Adding(family, x) == Adding(rest, x) + {s + {x}};
      forall t | t in rest ensures t + {x} != s + {x} {
        assert t == (t + {x}) - {x} && s == (s + {x}) - {x};
      }
    }
  }

  /** Subsets with and without one element. */
  lemma SubsetsSplit(u: set<string>, k: nat, x: string)
    requires x in u && k > 0
    ensures Subsets(u, k) == Subsets(u - {x}, k) + Adding(Subsets(u - {x}, k - 1), x)
  {
    var without, including := Subsets(u - {x}, k), Adding(Subsets(u - {x}, k - 1), x);
    forall s | s in Subsets(u, k) ensures s in without + including {
      if x in s {
        assert s - {x} in Subsets(u - {x}, k - 1) && s == (s - {x}) + {x};
      }
    }
  }

  /** An n-set has C(n, k) subsets of size k. */
  lemma {:induction false} CountSubsets(u: set<string>, k: nat)
    ensures |Subsets(u, k)| == Choose(|u|, k)
    decreases |u|
  {
    if k == 0 || u == {} {
      CountTrivial(u, k);
    } else {
      var x :| x in u;
      CountSubsets(u - {x}, k);
      CountSubsets(u - {x}, k - 1);
      CountSplit(u, k, x);
    }
  }

  lemma {:induction false} CountTrivial(u: set<string>, k: nat)
    requires k == 0 || u == {}
    ensures |Subsets(u, k)| == Choose(|u|, k)
  {
    if k == 0 {
      assert Subsets(u, 0) == {{}};
    } else {
      assert Subsets(u, k) == {};
    }
  }

  lemma CountSplit(u: set<string>, k: nat, x: string)
    requires x in u && k > 0
    ensures |Subsets(u, k)| == |Subsets(u - {x}, k)| + |Subsets(u - {x}, k - 1)|
  {
    var including := Adding(Subsets(u - {x}, k - 1), x);
    SubsetsSplit(u, k, x);
    AddingKeepsSize(Subsets(u - {x}, k - 1), x);
    DisjointSum(Subsets(u - {x}, k), including);
  }

  lemma DisjointSum(a: set<set<string>>, b: set<set<string>>)
    requires a !! b
    ensures |a + b| == |a| + |b|
  {
  }

  /** Fixing one element of the core: it is in every superset, so it can be taken out of both. */
  lemma SupersetsDrop(u: set<string>, k: nat, core: set<string>, x: string)
    requires x in core && core <= u && k > 0
    ensures Supersets(u, k, core) == Adding(Supersets(u - {x}, k - 1, core - {x}), x)
  {
    forall s | s in Supersets(u, k, core) ensures s in Adding(Supersets(u - {x}, k - 1, core - {x}), x) {
      assert s - {x} in Supersets(u - {x}, k - 1, core - {x}) && s == (s - {x}) + {x};
    }
  }

  /** C(n - h, k - h) of the k-subsets contain a fixed set of h. */
  lemma {:induction false} CountSupersets(u: set<string>, k: nat, core: set<string>)
    requires core <= u && |core| <= k
    ensures |u| >= |core| && |Supersets(u, k, core)| == Choose(|u| - |core|, k - |core|)
    decreases |core|
  {
    if core == {} {
      assert Supersets(u, k, core) == Subsets(u, k);
      CountSubsets(u, k);
    } else {
      var x :| x in core;
      CountSupersets(u - {x}, k - 1, core - {x});
      SupersetsDrop(u, k, core, x);
      AddingKeepsSize(Supersets(u - {x}, k - 1, core - {x}), x);
    }
  }

  /**
   * The printed expectation is a count: of all the ways to draw k of the n documents, the fraction that holds the whole
   * evidence set.
   */
  lemma {:induction false} ProductIsFraction(docs: set<string>, evidence: set<string>, k: nat)
    requires evidence <= docs && |evidence| <= k <= |docs|
    ensures |Subsets(docs, k)| > 0
    ensures Product(|docs|, k, |evidence|) == |Supersets(docs, k, evidence)| as real / |Subsets(docs, k)| as real
  {
    var n, h := |docs|, |evidence|;
    CountSubsets(docs, k);
    CountSupersets(docs, k, evidence);
    QuotientOf(n, k, h, |Subsets(docs, k)|, |Supersets(docs, k, evidence)|);
  }

  lemma {:induction false} QuotientOf(n: nat, k: nat, h: nat, whole: nat, part: nat)
    requires h <= k <= n && whole == Choose(n, k) && part == Choose(n - h, k - h)
    ensures whole > 0 && Product(n, k, h) == part as real / whole as real
  {
    ChoosePositive(n, k);
    ProductIsQuotient(n, k, h);
    DivideBoth(Product(n, k, h), whole, part);
  }

  lemma DivideBoth(p: real, whole: nat, part: nat)
    requires whole > 0 && Times(p, whole) == part as real
    ensures p == part as real / whole as real
  {
  }

  // ----- the printed average -----

  lemma {:induction false} ProductPositive(n: nat, k: nat, h: nat)
    requires h <= k <= n
    ensures Product(n, k, h) > 0.0
  {
    if h > 0 {
      ProductPositive(n, k, h - 1);
      FactorPositive(Product(n, k, h - 1), k - (h - 1), n - (h - 1));
    }
  }

  lemma FactorPositive(p: real, j: nat, m: nat)
    requires p > 0.0 && 0 < j && 0 < m
    ensures p * (j as real / m as real) > 0.0
  {
    assert j as real / m as real > 0.0;
  }

  /** The sum of the ratios over the questions whose evidence fits the cut-off; `sizes` are their evidence sizes. */
  function Expected(n: nat, k: nat, sizes: seq<nat>): real
    requires k <= n
  {
    if sizes == [] then 0.0
    else
      var last := sizes[|sizes| - 1];
      Expected(n, k, sizes[..|sizes| - 1]) + if last <= k then Product(n, k, last) else 0.0
  }

  function Fits(k: nat): nat -> bool {
    (h: nat) => h <= k
  }

  /** Only the questions that fit contribute, each with the chance of its own evidence. */
  lemma {:induction false} ExpectedAdds(n: nat, k: nat, sizes: seq<nat>, h: nat)
    requires k <= n
    ensures Expected(n, k, []) == 0.0
    ensures Expected(n, k, sizes + [h]) == Expected(n, k, sizes) + if h > k then 0.0 else Product(n, k, h)
    ensures CountIf(sizes + [h], Fits(k)) == CountIf(sizes, Fits(k)) + if h > k then 0 else 1
  {
    assert (sizes + [h])[..|sizes|] == sizes;
  }

  lemma {:induction false} ExpectedPositive(n: nat, k: nat, sizes: seq<nat>)
    requires k <= n
    ensures Expected(n, k, sizes) >= 0.0 && (CountIf(sizes, Fits(k)) > 0 ==> Expected(n, k, sizes) > 0.0)
  {
    if sizes != [] {
      ExpectedPositive(n, k, sizes[..|sizes| - 1]);
      if sizes[|sizes| - 1] <= k {
        ProductPositive(n, k, sizes[|sizes| - 1]);
      }
    }
  }

  /**
   * The report divides by the questions that fit, so what it prints exceeds the expected recall over all questions, and
   * equals it exactly when every question fits.
   */
  lemma {:induction false} PrintedExpectationIsConditional(n: nat, k: nat, sizes: seq<nat>)
    requires k <= n && CountIf(sizes, Fits(k)) > 0
    ensures var printed := Expected(n, k, sizes) / CountIf(sizes, Fits(k)) as real;
            var overall := Expected(n, k, sizes) / |sizes| as real;
            printed >= overall && (printed == overall <==> CountIf(sizes, Fits(k)) == |sizes|)
  {
    ExpectedPositive(n, k, sizes);
    if CountIf(sizes, Fits(k)) < |sizes| {
      Fractions.LargerDivisor(Expected(n, k, sizes), CountIf(sizes, Fits(k)), |sizes|);
    }
  }

  /** The loop of the report. */
  method Ratio(n: nat, k: nat, h: nat) returns (ratio: real)
    requires h <= k <= n
    ensures ratio == Product(n, k, h)
  {
    ratio := 1.0;
    for i := 0 to h
      invariant ratio == Product(n, k, i)
    {
      ratio := ratio * ((k - i) as real / (n - i) as real);
    }
  }
}
