/** The Okapi BM25 index and its scores (`buildIndex`, `score`), over exact reals; tokenising is done by the caller. */
module Bm25 {
  import Fractions
  import opened Sequences

  /** One corpus entry: ids are the keys of an object, so they are distinct. */
  datatype Entry = Entry(id: string, tokens: seq<string>)

  datatype Index = Index(
    ids: seq<string>, tf: map<string, map<string, nat>>, len: map<string, nat>, df: map<string, nat>, avgdl: real,
    n: nat)

  datatype Params = Params(k1: real, b: real)

  const DEFAULT_PARAMS := Params(1.2, 0.75)

  ghost predicate DistinctIds(corpus: seq<Entry>) {
    forall i, j :: 0 <= i < j < |corpus| ==> corpus[i].id != corpus[j].id
  }

  predicate Contains(e: Entry, t: string) {
    t in e.tokens
  }

  /** The number of documents that contain a term. */
  function DocFrequency(corpus: seq<Entry>, t: string): (n: nat)
    ensures n <= |corpus|
  {
    if corpus == [] then 0
    else DocFrequency(corpus[..|corpus| - 1], t) + if Contains(corpus[|corpus| - 1], t) then 1 else 0
  }

  function TotalLength(corpus: seq<Entry>): nat {
    if corpus == [] then 0 else TotalLength(corpus[..|corpus| - 1]) + |corpus[|corpus| - 1].tokens|
  }

  function Lookup(m: map<string, nat>, t: string): nat {
    if t in m then m[t] else 0
  }

  ghost predicate CountsOf(counts: map<string, nat>, tokens: seq<string>) {
    && (forall t :: t in counts <==> t in tokens)
    && (forall t :: t in counts ==> counts[t] == Count(tokens, t) && counts[t] > 0)
  }

  // The three maps, each against the first `c` corpus entries.

  ghost predicate TermsAgree(corpus: seq<Entry>, c: nat, tf: map<string, map<string, nat>>)
    requires c <= |corpus|
  {
    && (forall i :: 0 <= i < c ==> corpus[i].id in tf && CountsOf(tf[corpus[i].id], corpus[i].tokens))
    && (forall id :: id in tf ==> exists i :: 0 <= i < c && corpus[i].id == id)
  }

  ghost predicate LengthsAgree(corpus: seq<Entry>, c: nat, len: map<string, nat>)
    requires c <= |corpus|
  {
    forall i :: 0 <= i < c ==> corpus[i].id in len && len[corpus[i].id] == |corpus[i].tokens|
  }

  ghost predicate FrequenciesAgree(corpus: seq<Entry>, c: nat, df: map<string, nat>)
    requires c <= |corpus|
  {
    forall t :: Lookup(df, t) == DocFrequency(corpus[..c], t)
  }

  /** The index says of the corpus what the corpus says of itself. */
  ghost predicate Summarises(index: Index, corpus: seq<Entry>) {
    && DistinctIds(corpus)
    && index.n == |corpus|
    && index.ids == Ids(corpus)
    && TermsAgree(corpus, |corpus|, index.tf)
    && LengthsAgree(corpus, |corpus|, index.len)
    && FrequenciesAgree(corpus, |corpus|, index.df)
    && index.avgdl == Mean(TotalLength(corpus), |corpus|)
  }

  function Ids(corpus: seq<Entry>): (r: seq<string>)
    ensures |r| == |corpus|
  {
    seq(|corpus|, i requires 0 <= i < |corpus| => corpus[i].id)
  }

  /** Mean document length; an empty corpus has none. */
  function Mean(total: nat, n: nat): (r: real)
    ensures r >= 0.0 && (n > 0 ==> r * (n as real) == total as real)
  {
    if n == 0 then 0.0 else (total as real) / (n as real)
  }

  lemma {:induction false} CountPositive(tokens: seq<string>, t: string)
    ensures Count(tokens, t) > 0 <==> t in tokens
  {
    if tokens != [] {
      CountPositive(tokens[..|tokens| - 1], t);
      assert tokens == tokens[..|tokens| - 1] + [tokens[|tokens| - 1]];
    }
  }

  method CountTokens(tokens: seq<string>) returns (counts: map<string, nat>)
    ensures CountsOf(counts, tokens)
  {
    counts := map[];
    for i := 0 to |tokens|
      invariant forall t :: Lookup(counts, t) == Count(tokens[..i], t)
      invariant forall t :: t in counts ==> counts[t] > 0
    {
      assert tokens[..i + 1][..i] == tokens[..i];
      counts := counts[tokens[i] := Lookup(counts, tokens[i]) + 1];
    }
    assert tokens[..|tokens|] == tokens;
    forall t ensures t in counts <==> t in tokens {
      CountPositive(tokens, t);
      assert Lookup(counts, t) == Count(tokens, t);
    }
    forall t | t in counts ensures counts[t] == Count(tokens, t) {
      assert Lookup(counts, t) == Count(tokens, t);
    }
  }

  /** Raise the document frequency of every term of one document by one, each term once. */
  method RaiseAll(df: map<string, nat>, terms: set<string>) returns (df': map<string, nat>)
    ensures forall t :: Lookup(df', t) == Lookup(df, t) + if t in terms then 1 else 0
  {
    df' := df;
    var rest := terms;
    while rest != {}
      invariant rest <= terms
      invariant forall t :: Lookup(df', t) == Lookup(df, t) + if t in terms && t !in rest then 1 else 0
      decreases |rest|
    {
      var t :| t in rest;
      df' := df'[t := Lookup(df', t) + 1];
      rest := rest - {t};
    }
  }

  method BuildIndex(corpus: seq<Entry>) returns (index: Index)
    requires DistinctIds(corpus)
    ensures Summarises(index, corpus)
  {
    var tf: map<string, map<string, nat>> := map[];
    var len: map<string, nat> := map[];
    var df: map<string, nat> := map[];
    var total := 0;
    for c := 0 to |corpus|
      invariant total == TotalLength(corpus[..c])
      invariant TermsAgree(corpus, c, tf) && LengthsAgree(corpus, c, len) && FrequenciesAgree(corpus, c, df)
    {
      assert corpus[..c + 1][..c] == corpus[..c];
      tf, len, df := AddDocument(corpus, c, tf, len, df);
      total := total + |corpus[c].tokens|;
    }
    assert corpus[..|corpus|] == corpus;
    index := Index(Ids(corpus), tf, len, df, Mean(total, |corpus|), |corpus|);
  }

  method AddDocument(
    corpus: seq<Entry>, c: nat, tf: map<string, map<string, nat>>, len: map<string, nat>, df: map<string, nat>)
    returns (tf': map<string, map<string, nat>>, len': map<string, nat>, df': map<string, nat>)
    requires DistinctIds(corpus) && c < |corpus|
    requires TermsAgree(corpus, c, tf) && LengthsAgree(corpus, c, len) && FrequenciesAgree(corpus, c, df)
    ensures TermsAgree(corpus, c + 1, tf') && LengthsAgree(corpus, c + 1, len') && FrequenciesAgree(corpus, c + 1, df')
  {
    var e := corpus[c];
    var counts := CountTokens(e.tokens);
    df' := RaiseAll(df, counts.Keys);
    TermsStep(corpus, c, tf, counts);
    LengthsStep(corpus, c, len);
    FrequencyStep(corpus, c, df, counts.Keys, df');
    tf', len' := tf[e.id := counts], len[e.id := |e.tokens|];
  }

  lemma FrequencyStep(corpus: seq<Entry>, c: nat, df: map<string, nat>, terms: set<string>, df': map<string, nat>)
    requires c < |corpus| && FrequenciesAgree(corpus, c, df)
    requires forall t :: t in terms <==> t in corpus[c].tokens
    requires forall t :: Lookup(df', t) == Lookup(df, t) + if t in terms then 1 else 0
    ensures FrequenciesAgree(corpus, c + 1, df')
  {
    forall t ensures Lookup(df', t) == DocFrequency(corpus[..c + 1], t) {
      assert corpus[..c + 1][..c] == corpus[..c];
    }
  }

  lemma LengthsStep(corpus: seq<Entry>, c: nat, len: map<string, nat>)
    requires DistinctIds(corpus) && c < |corpus| && LengthsAgree(corpus, c, len)
    ensures LengthsAgree(corpus, c + 1, len[corpus[c].id := |corpus[c].tokens|])
  {
  }

  lemma TermsStep(corpus: seq<Entry>, c: nat, tf: map<string, map<string, nat>>, counts: map<string, nat>)
    requires DistinctIds(corpus) && c < |corpus| && TermsAgree(corpus, c, tf) && CountsOf(counts, corpus[c].tokens)
    ensures TermsAgree(corpus, c + 1, tf[corpus[c].id := counts])
  {
    var tf' := tf[corpus[c].id := counts];
    forall id | id in tf' ensures exists i :: 0 <= i < c + 1 && corpus[i].id == id {
      if id != corpus[c].id {
        var i :| 0 <= i < c && corpus[i].id == id;
      }
    }
  }

  // ---------------------------------------------------------------------------------------------
  // Scores
  // ---------------------------------------------------------------------------------------------

  /** A query without its repeated terms, in order of first occurrence. */
  function Dedupe(terms: seq<string>): (r: seq<string>)
    ensures forall t :: t in r <==> t in terms
  {
    if terms == [] then []
    else
      var front, last := Dedupe(terms[..|terms| - 1]), terms[|terms| - 1];
      assert terms == terms[..|terms| - 1] + [last];
      if last in front then front else front + [last]
  }

  /** Natural logarithm, of which only its sign above 1 is used. */
  ghost predicate PositiveAboveOne(ln: real -> real) {
    forall x :: x > 1.0 ==> ln(x) > 0.0
  }

  function Idf(ln: real -> real, index: Index, t: string): real {
    var nqi := Lookup(index.df, t) as real;
    ln(1.0 + (index.n as real - nqi + 0.5) / (nqi + 0.5))
  }

  predicate Sane(p: Params) {
    p.k1 >= 0.0 && 0.0 <= p.b <= 1.0
  }

  function Norm(index: Index): real {
    if index.avgdl == 0.0 then 1.0 else index.avgdl
  }

  /** The length normalisation `1 - b + b * dl / avgdl`. */
  function Length(index: Index, dl: nat, p: Params): (r: real)
    requires Sane(p) && index.avgdl >= 0.0
    ensures r >= 0.0 && (dl > 0 ==> r > 0.0)
  {
    QuotientSign(p.b * (dl as real), Norm(index));
    1.0 - p.b + (p.b * (dl as real)) / Norm(index)
  }

  lemma QuotientSign(a: real, d: real)
    requires a >= 0.0 && d > 0.0
    ensures a / d >= 0.0 && (a > 0.0 ==> a / d > 0.0)
  {
  }

  /** The length-normalised part of the denominator. */
  function Damping(index: Index, dl: nat, p: Params): (r: real)
    requires Sane(p) && index.avgdl >= 0.0
    ensures r >= 0.0 && (p.k1 > 0.0 && dl > 0 ==> r > 0.0)
  {
    Scale(p.k1, Length(index, dl, p))
  }

  function Scale(a: real, b: real): (r: real)
    requires a >= 0.0 && b >= 0.0
    ensures r >= 0.0 && (a > 0.0 && b > 0.0 ==> r > 0.0)
  {
    a * b
  }

  function Gain(f: nat, index: Index, dl: nat, p: Params): (r: real)
    requires f > 0 && Sane(p) && index.avgdl >= 0.0
    ensures r > 0.0 && (p.k1 > 0.0 && dl > 0 ==> r < p.k1 + 1.0)
  {
    Saturated(f as real, Damping(index, dl, p), p.k1 + 1.0)
  }

  function Saturated(f: real, d: real, k: real): (r: real)
    requires f > 0.0 && d >= 0.0 && k > 0.0
    ensures r > 0.0 && (d > 0.0 ==> r < k)
  {
    SaturatedBound(f, d, k);
    (f * k) / (f + d)
  }

  lemma SaturatedBound(f: real, d: real, k: real)
    requires f > 0.0 && d >= 0.0 && k > 0.0
    ensures (f * k) / (f + d) > 0.0 && (d > 0.0 ==> (f * k) / (f + d) < k)
  {
    assert f * k > 0.0;
    QuotientSign(f * k, f + d);
    assert d > 0.0 ==> f * k < (f + d) * k;
  }

  function Weighted(idf: real, gain: real): (r: real)
    ensures idf > 0.0 && gain > 0.0 ==> r > 0.0
  {
    idf * gain
  }

  function Term(ln: real -> real, index: Index, counts: map<string, nat>, dl: nat, t: string, p: Params): real
    requires Sane(p) && index.avgdl >= 0.0
  {
    if Lookup(counts, t) == 0 then 0.0 else Weighted(Idf(ln, index, t), Gain(Lookup(counts, t), index, dl, p))
  }

  function SumTerms(
      ln: real -> real, index: Index, counts: map<string, nat>, dl: nat, terms: seq<string>, p: Params): real
    requires Sane(p) && index.avgdl >= 0.0
  {
    if terms == [] then 0.0
    else SumTerms(ln, index, counts, dl, terms[..|terms| - 1], p) + Term(ln, index, counts, dl, terms[|terms| - 1], p)
  }

  function ScoreOf(ln: real -> real, index: Index, id: string, query: seq<string>, p: Params): real
    requires Sane(p) && index.avgdl >= 0.0
  {
    if id !in index.tf then 0.0
    else SumTerms(ln, index, index.tf[id], Lookup(index.len, id), Dedupe(query), p)
  }

  method Score(
      ln: real -> real, index: Index, id: string, query: seq<string>, p: Params := DEFAULT_PARAMS) returns (score: real)
    requires Sane(p) && index.avgdl >= 0.0
    ensures score == ScoreOf(ln, index, id, query, p)
  {
    if id !in index.tf {
      return 0.0;
    }
    score := Accumulate(ln, index, index.tf[id], Lookup(index.len, id), Dedupe(query), p);
  }

  /** The accumulation loop over the distinct query terms. */
  method Accumulate(ln: real -> real, index: Index, counts: map<string, nat>, dl: nat, terms: seq<string>, p: Params)
    returns (score: real)
    requires Sane(p) && index.avgdl >= 0.0
    ensures score == SumTerms(ln, index, counts, dl, terms, p)
  {
    score := 0.0;
    for i := 0 to |terms|
      invariant score == SumTerms(ln, index, counts, dl, terms[..i], p)
    {
      assert terms[..i + 1][..i] == terms[..i];
      var f := Lookup(counts, terms[i]);
      if f > 0 {
        score := score + Weighted(Idf(ln, index, terms[i]), Gain(f, index, dl, p));
      }
    }
    assert terms[..|terms|] == terms;
  }

  /** Because document frequency counts documents, it never exceeds their number and every idf is positive. */
  lemma IdfIsPositive(ln: real -> real, index: Index, corpus: seq<Entry>, t: string)
    requires PositiveAboveOne(ln) && Summarises(index, corpus)
    ensures Idf(ln, index, t) > 0.0
  {
    assert corpus[..|corpus|] == corpus;
    assert Lookup(index.df, t) == DocFrequency(corpus, t) <= index.n;
    var nqi := Lookup(index.df, t) as real;
    QuotientSign(index.n as real - nqi + 0.5, nqi + 0.5);
  }

  lemma {:induction false} SumTermsPositive(
    ln: real -> real, index: Index, corpus: seq<Entry>, counts: map<string, nat>, dl: nat, terms: seq<string>,
    p: Params)
    requires PositiveAboveOne(ln) && Summarises(index, corpus) && Sane(p)
    ensures SumTerms(ln, index, counts, dl, terms, p) >= 0.0
    ensures SumTerms(ln, index, counts, dl, terms, p) > 0.0 <==> exists t :: t in terms && Lookup(counts, t) > 0
  {
    if terms != [] {
      var front, last := terms[..|terms| - 1], terms[|terms| - 1];
      SumTermsPositive(ln, index, corpus, counts, dl, front, p);
      assert forall t :: t in terms <==> t in front || t == last;
      if Lookup(counts, last) > 0 {
        IdfIsPositive(ln, index, corpus, last);
        assert last in terms;
      }
    }
  }

  ghost predicate Shares(e: Entry, query: seq<string>) {
    exists t :: t in query && t in e.tokens
  }

  /** A document scores above 0 exactly when it shares a token with the query; it never scores below 0. */
  lemma PositiveExactlyWhenSharing(
      ln: real -> real, index: Index, corpus: seq<Entry>, i: nat, query: seq<string>, p: Params)
    requires PositiveAboveOne(ln) && Summarises(index, corpus) && Sane(p) && i < |corpus|
    ensures ScoreOf(ln, index, corpus[i].id, query, p) >= 0.0
    ensures ScoreOf(ln, index, corpus[i].id, query, p) > 0.0 <==> Shares(corpus[i], query)
  {
    var counts, dl, terms := index.tf[corpus[i].id], Lookup(index.len, corpus[i].id), Dedupe(query);
    SumTermsPositive(ln, index, corpus, counts, dl, terms, p);
    assert CountsOf(counts, corpus[i].tokens);
    assert forall t :: Lookup(counts, t) > 0 <==> t in corpus[i].tokens;
    if t :| t in query && t in corpus[i].tokens {
      assert t in terms && Lookup(counts, t) > 0;
    }
  }

  /** (k1 + 1) times the idf of each term, summed: what the query could earn at most. */
  function Ceiling(ln: real -> real, index: Index, terms: seq<string>, p: Params): real {
    if terms == [] then 0.0
    else Ceiling(ln, index, terms[..|terms| - 1], p) + Weighted(Idf(ln, index, terms[|terms| - 1]), p.k1 + 1.0)
  }

  function SumIdf(ln: real -> real, index: Index, terms: seq<string>): real {
    if terms == [] then 0.0 else SumIdf(ln, index, terms[..|terms| - 1]) + Idf(ln, index, terms[|terms| - 1])
  }

  lemma {:induction false} CeilingIsScaledIdf(ln: real -> real, index: Index, terms: seq<string>, p: Params)
    ensures Ceiling(ln, index, terms, p) == (p.k1 + 1.0) * SumIdf(ln, index, terms)
  {
    if terms != [] {
      CeilingIsScaledIdf(ln, index, terms[..|terms| - 1], p);
      Fractions.ScaledSum(p.k1 + 1.0, SumIdf(ln, index, terms[..|terms| - 1]), Idf(ln, index, terms[|terms| - 1]));
    }
  }

  lemma WeightedGrows(idf: real, gain: real, gain': real)
    requires idf > 0.0 && gain < gain'
    ensures Weighted(idf, gain) < Weighted(idf, gain')
  {
  }

  lemma {:induction false} SumTermsBound(
    ln: real -> real, index: Index, corpus: seq<Entry>, counts: map<string, nat>, dl: nat, terms: seq<string>,
    p: Params)
    requires PositiveAboveOne(ln) && Summarises(index, corpus) && Sane(p) && p.k1 > 0.0 && dl > 0 && terms != []
    ensures SumTerms(ln, index, counts, dl, terms, p) < Ceiling(ln, index, terms, p)
  {
    var front, last := terms[..|terms| - 1], terms[|terms| - 1];
    OneTermBound(ln, index, corpus, counts, dl, last, p);
    if front != [] {
      SumTermsBound(ln, index, corpus, counts, dl, front, p);
    }
  }

  lemma OneTermBound(
    ln: real -> real, index: Index, corpus: seq<Entry>, counts: map<string, nat>, dl: nat, t: string, p: Params)
    requires PositiveAboveOne(ln) && Summarises(index, corpus) && Sane(p) && p.k1 > 0.0 && dl > 0
    ensures Term(ln, index, counts, dl, t, p) < Weighted(Idf(ln, index, t), p.k1 + 1.0)
  {
    IdfIsPositive(ln, index, corpus, t);
    if Lookup(counts, t) > 0 {
      WeightedGrows(Idf(ln, index, t), Gain(Lookup(counts, t), index, dl, p), p.k1 + 1.0);
    }
  }

  /** The saturation bound: a sharing document stays strictly below (k1 + 1) times the summed idf of the query. */
  lemma {:induction false} ScoreSaturates(
      ln: real -> real, index: Index, corpus: seq<Entry>, i: nat, query: seq<string>, p: Params)
    requires PositiveAboveOne(ln) && Summarises(index, corpus) && Sane(p) && p.k1 > 0.0 && i < |corpus|
    requires Shares(corpus[i], query)
    ensures ScoreOf(ln, index, corpus[i].id, query, p) < Ceiling(ln, index, Dedupe(query), p)
  {
    var t :| t in query && t in corpus[i].tokens;
    assert t in Dedupe(query);
    SumTermsBound(ln, index, corpus, index.tf[corpus[i].id], Lookup(index.len, corpus[i].id), Dedupe(query), p);
  }

  // ---------------------------------------------------------------------------------------------
  // The index does not depend on the order of the corpus
  // ---------------------------------------------------------------------------------------------

  /** The same entries, in any order. */
  ghost predicate Reordered(a: seq<Entry>, b: seq<Entry>) {
    Elements(a) == Elements(b)
  }

  function HasTerm(t: string): Entry -> nat {
    (e: Entry) => if Contains(e, t) then 1 else 0
  }

  function Size(): Entry -> nat {
    (e: Entry) => |e.tokens|
  }

  lemma {:induction false} FrequencyIsSum(corpus: seq<Entry>, t: string)
    ensures DocFrequency(corpus, t) == SumBy(corpus, HasTerm(t))
  {
    if corpus != [] {
      FrequencyIsSum(corpus[..|corpus| - 1], t);
    }
  }

  lemma {:induction false} LengthIsSum(corpus: seq<Entry>)
    ensures TotalLength(corpus) == SumBy(corpus, Size())
  {
    if corpus != [] {
      LengthIsSum(corpus[..|corpus| - 1]);
    }
  }

  /** Two indices give the same figures to the score. */
  ghost predicate SameFigures(a: Index, b: Index) {
    a.n == b.n && a.avgdl == b.avgdl && forall t :: Lookup(a.df, t) == Lookup(b.df, t)
  }

  lemma FiguresIgnoreOrder(a: Index, ca: seq<Entry>, b: Index, cb: seq<Entry>)
    requires Summarises(a, ca) && Summarises(b, cb) && Reordered(ca, cb)
    ensures SameFigures(a, b)
  {
    hide DocFrequency, TotalLength, Mean;
    DistinctCardinality(ca);
    DistinctCardinality(cb);
    LengthIsSum(ca);
    LengthIsSum(cb);
    SumByPermutation(ca, cb, Size());
    assert ca[..|ca|] == ca && cb[..|cb|] == cb;
    forall t ensures Lookup(a.df, t) == Lookup(b.df, t) {
      FrequencyIsSum(ca, t);
      FrequencyIsSum(cb, t);
      SumByPermutation(ca, cb, HasTerm(t));
    }
  }

  lemma CountsAreUnique(a: map<string, nat>, b: map<string, nat>, tokens: seq<string>)
    requires CountsOf(a, tokens) && CountsOf(b, tokens)
    ensures a == b
  {
    assert a.Keys == b.Keys;
  }

  /** Each document has the same term counts and length in both. */
  lemma DocumentsIgnoreOrder(a: Index, ca: seq<Entry>, b: Index, cb: seq<Entry>, id: string)
    requires Summarises(a, ca) && Summarises(b, cb) && Reordered(ca, cb)
    ensures id in a.tf <==> id in b.tf
    ensures id in a.tf ==> a.tf[id] == b.tf[id] && Lookup(a.len, id) == Lookup(b.len, id)
  {
    if id in a.tf {
      var i :| 0 <= i < |ca| && ca[i].id == id;
      assert ca[i] in Elements(cb);
      var j :| 0 <= j < |cb| && cb[j] == ca[i];
      CountsAreUnique(a.tf[id], b.tf[id], ca[i].tokens);
    }
    if id in b.tf {
      var j :| 0 <= j < |cb| && cb[j].id == id;
      assert cb[j] in Elements(ca);
      var i :| 0 <= i < |ca| && ca[i] == cb[j];
      assert ca[i].id in a.tf;
    }
  }

  lemma {:induction false} SumTermsAgree(
    ln: real -> real, a: Index, b: Index, counts: map<string, nat>, dl: nat, terms: seq<string>, p: Params)
    requires SameFigures(a, b) && Sane(p) && a.avgdl >= 0.0
    ensures SumTerms(ln, a, counts, dl, terms, p) == SumTerms(ln, b, counts, dl, terms, p)
  {
    if terms != [] {
      SumTermsAgree(ln, a, b, counts, dl, terms[..|terms| - 1], p);
    }
  }

  /** Indexing the same documents in another order gives every document the same score for every query. */
  lemma ScoreIgnoresOrder(
    ln: real -> real, a: Index, ca: seq<Entry>, b: Index, cb: seq<Entry>, id: string, query: seq<string>, p: Params)
    requires Summarises(a, ca) && Summarises(b, cb) && Reordered(ca, cb) && Sane(p)
    ensures ScoreOf(ln, a, id, query, p) == ScoreOf(ln, b, id, query, p)
  {
    FiguresIgnoreOrder(a, ca, b, cb);
    DocumentsIgnoreOrder(a, ca, b, cb, id);
    if id in a.tf {
      SumTermsAgree(ln, a, b, a.tf[id], Lookup(a.len, id), Dedupe(query), p);
    }
  }
}
