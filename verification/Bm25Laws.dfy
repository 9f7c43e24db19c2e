/** What the scores mean: the documented formula, and which term and which document earns more. */
module Bm25Laws {
  import opened Sequences
  import opened Bm25

  /** The logarithm also increases above 1. */
  ghost predicate IncreasesAboveOne(ln: real -> real) {
    forall x, y :: 1.0 < x < y ==> ln(x) < ln(y)
  }

  // ----- quotients -----

  lemma QuotientLess(a: real, b: real, c: real, d: real)
    requires b > 0.0 && d > 0.0 && a * d < c * b
    ensures a / b < c / d
  {
    assert a / b * (b * d) == a * d;
    assert c / d * (b * d) == c * b;
    CancelFactor(a / b, c / d, b * d);
  }

  lemma CancelFactor(x: real, y: real, m: real)
    requires m > 0.0 && x * m < y * m
    ensures x < y
  {
  }

  /** The odds fall as a term is found in more documents. */
  lemma OddsFall(n: real, rare: real, common: real)
    requires 0.0 <= rare < common <= n
    ensures 1.0 < 1.0 + (n - common + 0.5) / (common + 0.5) < 1.0 + (n - rare + 0.5) / (rare + 0.5)
  {
    QuotientSign(n - common + 0.5, common + 0.5);
    OddsCross(n, rare, common);
    QuotientLess(n - common + 0.5, common + 0.5, n - rare + 0.5, rare + 0.5);
  }

  lemma OddsCross(n: real, rare: real, common: real)
    requires 0.0 <= rare < common <= n
    ensures (n - common + 0.5) * (rare + 0.5) < (n - rare + 0.5) * (common + 0.5)
  {
    assert (n - rare + 0.5) * (common + 0.5) - (n - common + 0.5) * (rare + 0.5) == (common - rare) * (n + 1.0);
  }

  /** Saturation grows with the count and falls with the damping. */
  lemma SaturationGrows(f: real, f': real, d: real, k: real)
    requires 0.0 < f < f' && d > 0.0 && k > 0.0
    ensures Saturated(f, d, k) < Saturated(f', d, k)
  {
    SaturationCross(f, f', d, k);
    QuotientLess(f * k, f + d, f' * k, f' + d);
  }

  lemma SaturationCross(f: real, f': real, d: real, k: real)
    requires 0.0 < f < f' && d > 0.0 && k > 0.0
    ensures (f * k) * (f' + d) < (f' * k) * (f + d)
  {
    Distributes(f * k, f', d);
    Distributes(f' * k, f, d);
    Swap(f, k, f');
    ScaleGrows(k, f, f');
    ScaleGrows(d, k * f, k * f');
  }

  lemma Distributes(a: real, b: real, c: real)
    ensures a * (b + c) == a * b + a * c
  {
  }

  lemma Swap(a: real, k: real, b: real)
    ensures (a * k) * b == (b * k) * a
  {
  }

  lemma SaturationFalls(f: real, d: real, d': real, k: real)
    requires 0.0 < f && 0.0 <= d < d' && k > 0.0
    ensures Saturated(f, d', k) < Saturated(f, d, k)
  {
    ScaleGrows(k, 0.0, f);
    ScaleGrows(f * k, f + d, f + d');
    QuotientLess(f * k, f + d', f * k, f + d);
  }

  lemma ScaleGrows(k: real, a: real, b: real)
    requires k > 0.0 && a < b
    ensures k * a < k * b
  {
  }

  // ----- one term -----

  lemma {:induction false} IdfFalls(ln: real -> real, index: Index, corpus: seq<Entry>, rare: string, common: string)
    requires IncreasesAboveOne(ln) && Summarises(index, corpus)
    requires DocFrequency(corpus, rare) < DocFrequency(corpus, common)
    ensures Idf(ln, index, rare) > Idf(ln, index, common)
  {
    assert corpus[..|corpus|] == corpus;
    OddsFall(index.n as real, Lookup(index.df, rare) as real, Lookup(index.df, common) as real);
  }

  lemma DampingGrows(index: Index, short: nat, long: nat, p: Params)
    requires Sane(p) && p.k1 > 0.0 && p.b > 0.0 && index.avgdl >= 0.0 && short < long
    ensures Damping(index, short, p) < Damping(index, long, p)
  {
    LengthGrows(index, short, long, p);
    ScaledGrows(p.k1, Length(index, short, p), Length(index, long, p));
    assert Damping(index, short, p) == Scale(p.k1, Length(index, short, p));
    assert Damping(index, long, p) == Scale(p.k1, Length(index, long, p));
  }

  lemma ScaledGrows(k: real, a: real, b: real)
    requires k > 0.0 && 0.0 <= a < b
    ensures Scale(k, a) < Scale(k, b)
  {
    var d := b - a;
    Distributes(k, a, d);
    assert a + d == b;
    assert Scale(k, b) == k * (a + d) == Scale(k, a) + Scale(k, d);
  }

  lemma LengthGrows(index: Index, short: nat, long: nat, p: Params)
    requires Sane(p) && p.b > 0.0 && index.avgdl >= 0.0 && short < long
    ensures Length(index, short, p) < Length(index, long, p)
  {
    ScaleGrows(p.b, short as real, long as real);
    SameDivisorLess(p.b * (short as real), p.b * (long as real), Norm(index));
  }

  lemma SameDivisorLess(a: real, b: real, m: real)
    requires a < b && m > 0.0
    ensures a / m < b / m
  {
    ScaleGrows(m, a, b);
    QuotientLess(a, m, b, m);
  }

  lemma DampingIgnoresLength(index: Index, a: nat, b: nat, p: Params)
    requires Sane(p) && p.b == 0.0 && index.avgdl >= 0.0
    ensures Damping(index, a, p) == Damping(index, b, p)
  {
    assert p.b * (a as real) == 0.0 && p.b * (b as real) == 0.0;
  }

  lemma CountsAre(index: Index, corpus: seq<Entry>, i: nat)
    requires Summarises(index, corpus) && i < |corpus|
    ensures var e := corpus[i];
            && e.id in index.tf && Lookup(index.len, e.id) == |e.tokens|
            && forall t :: Lookup(index.tf[e.id], t) == Count(e.tokens, t)
  {
    var e := corpus[i];
    assert CountsOf(index.tf[e.id], e.tokens);
    forall t ensures Lookup(index.tf[e.id], t) == Count(e.tokens, t) {
      CountPositive(e.tokens, t);
    }
  }

  lemma {:induction false} CountBelowLength(tokens: seq<string>, t: string)
    ensures Count(tokens, t) <= |tokens|
  {
    if tokens != [] {
      CountBelowLength(tokens[..|tokens| - 1], t);
    }
  }

  // ----- the documented formula -----

  /** The mean length of the documents, 1 standing in for 0. */
  function MeanLength(corpus: seq<Entry>): (r: real)
    ensures corpus != [] ==> r > 0.0
  {
    assert corpus != [] ==> |corpus| as real > 0.0;
    if TotalLength(corpus) == 0 then 1.0 else (TotalLength(corpus) as real) / (|corpus| as real)
  }

  lemma MeanIsNorm(index: Index, corpus: seq<Entry>)
    requires Summarises(index, corpus) && corpus != []
    ensures Norm(index) == MeanLength(corpus) > 0.0
  {
    QuotientSign(TotalLength(corpus) as real, |corpus| as real);
  }

  /** How much a term says: the logarithm of the odds against finding it in a document. */
  ghost function Rarity(ln: real -> real, corpus: seq<Entry>, t: string): real {
    var n, nq := |corpus| as real, DocFrequency(corpus, t) as real;
    ln(1.0 + (n - nq + 0.5) / (nq + 0.5))
  }

  /** The saturated count of a term that occurs `f` times among `dl` tokens. */
  ghost function Saturation(corpus: seq<Entry>, f: nat, dl: nat, p: Params): real
    requires f > 0 && Sane(p) && corpus != []
  {
    var damping := p.k1 * RelativeLength(corpus, dl, p);
    (f as real * (p.k1 + 1.0)) / (f as real + damping)
  }

  function RelativeLength(corpus: seq<Entry>, dl: nat, p: Params): (r: real)
    requires Sane(p) && corpus != []
    ensures r >= 0.0
  {
    QuotientSign(p.b * (dl as real), MeanLength(corpus));
    1.0 - p.b + p.b * (dl as real) / MeanLength(corpus)
  }

  /** One term earns one document what the documentation of the score says: its rarity times its saturated count. */
  lemma {:induction false} ScoreIsDocumented(
      ln: real -> real, index: Index, corpus: seq<Entry>, i: nat, t: string, p: Params)
    requires Summarises(index, corpus) && Sane(p) && i < |corpus|
    ensures var f := Count(corpus[i].tokens, t);
            ScoreOf(ln, index, corpus[i].id, [t], p)
            == if f == 0 then 0.0 else Rarity(ln, corpus, t) * Saturation(corpus, f, |corpus[i].tokens|, p)
  {
    hide ScoreOf, Term, Count, Idf, Gain, Rarity, Saturation;
    CountsAre(index, corpus, i);
    OneTerm(ln, index, corpus, i, t, p);
    IdfIs(ln, index, corpus, t);
    TermIs(ln, index, index.tf[corpus[i].id], |corpus[i].tokens|, t, p);
    if Count(corpus[i].tokens, t) > 0 {
      GainIs(Count(corpus[i].tokens, t), index, corpus, |corpus[i].tokens|, p);
    }
  }

  lemma TermIs(ln: real -> real, index: Index, counts: map<string, nat>, dl: nat, t: string, p: Params)
    requires Sane(p) && index.avgdl >= 0.0
    ensures Lookup(counts, t) == 0 ==> Term(ln, index, counts, dl, t, p) == 0.0
    ensures Lookup(counts, t) > 0 ==>
              Term(ln, index, counts, dl, t, p) == Idf(ln, index, t) * Gain(Lookup(counts, t), index, dl, p)
  {
    hide Idf;
  }

  lemma IdfIs(ln: real -> real, index: Index, corpus: seq<Entry>, t: string)
    requires Summarises(index, corpus)
    ensures Idf(ln, index, t) == Rarity(ln, corpus, t)
  {
    hide Summarises, DocFrequency;
    FiguresAre(index, corpus, t);
  }

  lemma {:induction false} FiguresAre(index: Index, corpus: seq<Entry>, t: string)
    requires Summarises(index, corpus)
    ensures index.n == |corpus| && Lookup(index.df, t) == DocFrequency(corpus, t)
  {
    assert corpus[..|corpus|] == corpus;
  }

  lemma LengthIs(index: Index, corpus: seq<Entry>, dl: nat, p: Params)
    requires Summarises(index, corpus) && Sane(p) && corpus != []
    ensures Length(index, dl, p) == RelativeLength(corpus, dl, p)
  {
    hide Norm, MeanLength;
    MeanIsNorm(index, corpus);
  }

  lemma GainIs(f: nat, index: Index, corpus: seq<Entry>, dl: nat, p: Params)
    requires f > 0 && Summarises(index, corpus) && Sane(p) && corpus != []
    ensures Gain(f, index, dl, p) == Saturation(corpus, f, dl, p)
  {
    hide Summarises, RelativeLength, Length;
    LengthIs(index, corpus, dl, p);
  }

  lemma OneTerm(ln: real -> real, index: Index, corpus: seq<Entry>, i: nat, t: string, p: Params)
    requires Summarises(index, corpus) && Sane(p) && i < |corpus|
    ensures corpus[i].id in index.tf
    ensures ScoreOf(ln, index, corpus[i].id, [t], p)
         == Term(ln, index, index.tf[corpus[i].id], |corpus[i].tokens|, t, p)
  {
    hide Term;
    CountsAre(index, corpus, i);
    assert [t][..0] == [];
    assert Dedupe([t]) == [t];
    assert SumTerms(ln, index, index.tf[corpus[i].id], |corpus[i].tokens|, [], p) == 0.0;
  }

  /** A further term adds its own contribution, unless the query has it already. */
  lemma ScoresAdd(ln: real -> real, index: Index, corpus: seq<Entry>, i: nat, query: seq<string>, t: string, p: Params)
    requires Summarises(index, corpus) && Sane(p) && i < |corpus|
    ensures ScoreOf(ln, index, corpus[i].id, [], p) == 0.0
    ensures ScoreOf(ln, index, corpus[i].id, query + [t], p)
         == ScoreOf(ln, index, corpus[i].id, query, p)
            + if t in query then 0.0 else ScoreOf(ln, index, corpus[i].id, [t], p)
  {
    OneTerm(ln, index, corpus, i, t, p);
    assert (query + [t])[..|query|] == query;
    if t !in query {
      assert (Dedupe(query) + [t])[..|Dedupe(query)|] == Dedupe(query);
    }
  }

  /** A term that occurs once in a document of mean length earns exactly its rarity. */
  lemma {:induction false} OnceAtMeanLengthEarnsRarity(
      ln: real -> real, index: Index, corpus: seq<Entry>, i: nat, t: string, p: Params)
    requires Summarises(index, corpus) && Sane(p) && i < |corpus| && Count(corpus[i].tokens, t) == 1
    requires |corpus[i].tokens| * |corpus| == TotalLength(corpus)
    ensures ScoreOf(ln, index, corpus[i].id, [t], p) == Rarity(ln, corpus, t)
  {
    hide ScoreOf, DocFrequency, TotalLength, Count, Rarity, Saturation;
    ScoreIsDocumented(ln, index, corpus, i, t, p);
    CountBelowLength(corpus[i].tokens, t);
    OnceAtMeanLength(corpus, |corpus[i].tokens|, p);
  }

  lemma {:induction false} OnceAtMeanLength(corpus: seq<Entry>, dl: nat, p: Params)
    requires Sane(p) && corpus != [] && dl > 0 && dl * |corpus| == TotalLength(corpus)
    ensures Saturation(corpus, 1, dl, p) == 1.0
  {
    hide RelativeLength;
    AtMeanLength(corpus, dl, p);
    AtOne(p.k1);
  }

  lemma {:induction false} AtMeanLength(corpus: seq<Entry>, dl: nat, p: Params)
    requires Sane(p) && corpus != [] && dl > 0 && dl * |corpus| == TotalLength(corpus)
    ensures RelativeLength(corpus, dl, p) == 1.0
  {
    hide TotalLength;
    MeanOf(dl, |corpus|, TotalLength(corpus));
    AtTheMean(p.b, dl as real);
  }

  lemma MeanOf(dl: nat, n: nat, total: nat)
    requires dl > 0 && n > 0 && dl * n == total
    ensures total > 0 && (total as real) / (n as real) == dl as real
  {
    assert (dl as real) * (n as real) == (dl * n) as real;
    assert ((dl as real) * (n as real)) / (n as real) == dl as real;
  }

  lemma AtTheMean(b: real, dl: real)
    requires dl > 0.0
    ensures 1.0 - b + b * dl / dl == 1.0
  {
    assert (b * dl) / dl == b;
  }

  lemma AtOne(k1: real)
    requires k1 >= 0.0
    ensures (1.0 * (k1 + 1.0)) / (1.0 + k1 * 1.0) == 1.0
  {
  }

  // ----- which term, which document -----

  /** At equal counts and lengths, a term found in fewer documents earns more. */
  lemma {:induction false} RarerEarnsMore(
      ln: real -> real, index: Index, corpus: seq<Entry>, i: nat, j: nat, rare: string, common: string, p: Params)
    requires IncreasesAboveOne(ln) && Summarises(index, corpus) && Sane(p) && i < |corpus| && j < |corpus|
    requires Count(corpus[i].tokens, rare) == Count(corpus[j].tokens, common) > 0
    requires |corpus[i].tokens| == |corpus[j].tokens|
    requires DocFrequency(corpus, rare) < DocFrequency(corpus, common)
    ensures ScoreOf(ln, index, corpus[i].id, [rare], p) > ScoreOf(ln, index, corpus[j].id, [common], p)
  {
    hide ScoreOf, Idf, Gain, DocFrequency;
    CountsAre(index, corpus, i);
    CountsAre(index, corpus, j);
    OneTerm(ln, index, corpus, i, rare, p);
    OneTerm(ln, index, corpus, j, common, p);
    IdfFalls(ln, index, corpus, rare, common);
    var gain := Gain(Count(corpus[i].tokens, rare), index, |corpus[i].tokens|, p);
    WeightedFalls(Idf(ln, index, common), Idf(ln, index, rare), gain);
  }

  lemma WeightedFalls(idf: real, idf': real, gain: real)
    requires idf < idf' && gain > 0.0
    ensures Weighted(idf, gain) < Weighted(idf', gain)
  {
  }

  lemma {:induction false} SumsCompare(
      ln: real -> real, index: Index, a: map<string, nat>, da: nat, b: map<string, nat>, db: nat, terms: seq<string>,
      p: Params)
    requires Sane(p) && index.avgdl >= 0.0
    requires forall t :: t in terms ==> Term(ln, index, a, da, t, p) <= Term(ln, index, b, db, t, p)
    ensures SumTerms(ln, index, a, da, terms, p) <= SumTerms(ln, index, b, db, terms, p)
    ensures (exists t :: t in terms && Term(ln, index, a, da, t, p) < Term(ln, index, b, db, t, p))
            ==> SumTerms(ln, index, a, da, terms, p) < SumTerms(ln, index, b, db, terms, p)
  {
    hide Term;
    if terms != [] {
      var front, last := terms[..|terms| - 1], terms[|terms| - 1];
      assert terms == front + [last];
      SumsCompare(ln, index, a, da, b, db, front, p);
    }
  }

  lemma MoreEarnsMore(
      ln: real -> real, index: Index, corpus: seq<Entry>, few: map<string, nat>, many: map<string, nat>, dl: nat,
      t: string, p: Params)
    requires PositiveAboveOne(ln) && Summarises(index, corpus) && Sane(p) && p.k1 > 0.0 && dl > 0
    requires Lookup(few, t) <= Lookup(many, t)
    ensures Lookup(few, t) == Lookup(many, t) ==> Term(ln, index, few, dl, t, p) == Term(ln, index, many, dl, t, p)
    ensures Lookup(few, t) < Lookup(many, t) ==> Term(ln, index, few, dl, t, p) < Term(ln, index, many, dl, t, p)
  {
    hide Idf, Damping;
    IdfIsPositive(ln, index, corpus, t);
    var f, f', d := Lookup(few, t), Lookup(many, t), Damping(index, dl, p);
    if 0 < f < f' {
      SaturationGrows(f as real, f' as real, d, p.k1 + 1.0);
      WeightedGrows(Idf(ln, index, t), Gain(f, index, dl, p), Gain(f', index, dl, p));
    }
  }

  /**
   * Of two documents of the same length, the one with at least as many occurrences of every query term, and more of
   * some, scores strictly higher.
   */
  lemma MoreOccurrencesScoreHigher(
      ln: real -> real, index: Index, corpus: seq<Entry>, i: nat, j: nat, query: seq<string>, p: Params)
    requires PositiveAboveOne(ln) && Summarises(index, corpus) && Sane(p) && p.k1 > 0.0
    requires i < |corpus| && j < |corpus| && |corpus[i].tokens| == |corpus[j].tokens|
    requires forall t :: t in query ==> Count(corpus[i].tokens, t) <= Count(corpus[j].tokens, t)
    requires exists t :: t in query && Count(corpus[i].tokens, t) < Count(corpus[j].tokens, t)
    ensures ScoreOf(ln, index, corpus[i].id, query, p) < ScoreOf(ln, index, corpus[j].id, query, p)
  {
    hide Term, SumTerms;
    CountsAre(index, corpus, i);
    CountsAre(index, corpus, j);
    var few, many, dl := index.tf[corpus[i].id], index.tf[corpus[j].id], |corpus[i].tokens|;
    var u :| u in query && Count(corpus[i].tokens, u) < Count(corpus[j].tokens, u);
    CountBelowLength(corpus[j].tokens, u);
    assert u in Dedupe(query);
    forall t | t in Dedupe(query)
      ensures Term(ln, index, few, dl, t, p) <= Term(ln, index, many, dl, t, p)
      ensures t == u ==> Term(ln, index, few, dl, t, p) < Term(ln, index, many, dl, t, p)
    {
      MoreEarnsMore(ln, index, corpus, few, many, dl, t, p);
    }
    SumsCompare(ln, index, few, dl, many, dl, Dedupe(query), p);
  }

  lemma LongerEarnsLess(
      ln: real -> real, index: Index, corpus: seq<Entry>, a: map<string, nat>, short: nat, b: map<string, nat>,
      long: nat, t: string, p: Params)
    requires PositiveAboveOne(ln) && Summarises(index, corpus) && Sane(p) && p.k1 > 0.0 && p.b > 0.0 && short < long
    requires Lookup(a, t) == Lookup(b, t)
    ensures Term(ln, index, b, long, t, p) <= Term(ln, index, a, short, t, p)
    ensures Lookup(a, t) > 0 ==> Term(ln, index, b, long, t, p) < Term(ln, index, a, short, t, p)
  {
    hide Idf, Damping;
    IdfIsPositive(ln, index, corpus, t);
    var f := Lookup(a, t);
    if f > 0 {
      DampingGrows(index, short, long, p);
      SaturationFalls(f as real, Damping(index, short, p), Damping(index, long, p), p.k1 + 1.0);
      WeightedGrows(Idf(ln, index, t), Gain(f, index, long, p), Gain(f, index, short, p));
    }
  }

  /** The same number of occurrences in a longer document earns strictly less. */
  lemma LongerScoresLower(
      ln: real -> real, index: Index, corpus: seq<Entry>, i: nat, j: nat, query: seq<string>, p: Params)
    requires PositiveAboveOne(ln) && Summarises(index, corpus) && Sane(p) && p.k1 > 0.0 && p.b > 0.0
    requires i < |corpus| && j < |corpus| && |corpus[i].tokens| < |corpus[j].tokens|
    requires forall t :: t in query ==> Count(corpus[i].tokens, t) == Count(corpus[j].tokens, t)
    requires Shares(corpus[i], query)
    ensures ScoreOf(ln, index, corpus[j].id, query, p) < ScoreOf(ln, index, corpus[i].id, query, p)
  {
    hide Term, SumTerms;
    CountsAre(index, corpus, i);
    CountsAre(index, corpus, j);
    var a, b := index.tf[corpus[i].id], index.tf[corpus[j].id];
    var short, long := |corpus[i].tokens|, |corpus[j].tokens|;
    var u :| u in query && u in corpus[i].tokens;
    CountPositive(corpus[i].tokens, u);
    assert u in Dedupe(query);
    forall t | t in Dedupe(query)
      ensures Term(ln, index, b, long, t, p) <= Term(ln, index, a, short, t, p)
      ensures t == u ==> Term(ln, index, b, long, t, p) < Term(ln, index, a, short, t, p)
    {
      LongerEarnsLess(ln, index, corpus, a, short, b, long, t, p);
    }
    SumsCompare(ln, index, b, long, a, short, Dedupe(query), p);
  }

  lemma LengthIsIgnored(
      ln: real -> real, index: Index, a: map<string, nat>, da: nat, b: map<string, nat>, db: nat, t: string, p: Params)
    requires Sane(p) && p.b == 0.0 && index.avgdl >= 0.0 && Lookup(a, t) == Lookup(b, t)
    ensures Term(ln, index, a, da, t, p) == Term(ln, index, b, db, t, p)
  {
    hide Idf, Damping;
    DampingIgnoresLength(index, da, db, p);
  }

  /** Without length normalisation only the counts matter. */
  lemma LengthDoesNotMatter(
      ln: real -> real, index: Index, corpus: seq<Entry>, i: nat, j: nat, query: seq<string>, p: Params)
    requires Summarises(index, corpus) && Sane(p) && p.b == 0.0 && i < |corpus| && j < |corpus|
    requires forall t :: t in query ==> Count(corpus[i].tokens, t) == Count(corpus[j].tokens, t)
    ensures ScoreOf(ln, index, corpus[i].id, query, p) == ScoreOf(ln, index, corpus[j].id, query, p)
  {
    hide Term, SumTerms;
    CountsAre(index, corpus, i);
    CountsAre(index, corpus, j);
    var a, b := index.tf[corpus[i].id], index.tf[corpus[j].id];
    var da, db := |corpus[i].tokens|, |corpus[j].tokens|;
    forall t | t in Dedupe(query) ensures Term(ln, index, a, da, t, p) == Term(ln, index, b, db, t, p) {
      LengthIsIgnored(ln, index, a, da, b, db, t, p);
    }
    SumsCompare(ln, index, a, da, b, db, Dedupe(query), p);
    SumsCompare(ln, index, b, db, a, da, Dedupe(query), p);
  }

  lemma KnownExactly(index: Index, corpus: seq<Entry>, id: string)
    requires Summarises(index, corpus)
    ensures id in index.tf <==> exists i :: 0 <= i < |corpus| && corpus[i].id == id
  {
  }

  /** A document the index does not know scores nothing. */
  lemma UnknownScoresNothing(
      ln: real -> real, index: Index, corpus: seq<Entry>, id: string, query: seq<string>, p: Params)
    requires Summarises(index, corpus) && Sane(p) && forall i :: 0 <= i < |corpus| ==> corpus[i].id != id
    ensures ScoreOf(ln, index, id, query, p) == 0.0
  {
    KnownExactly(index, corpus, id);
  }
}
