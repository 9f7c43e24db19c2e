/** From a returned chunk to the documents it carries, by text identity, and the corpus gate that makes this safe. */
module ChunkResolution {
  import opened Sequences
  import opened Text
  import RetrievalVerdict

  datatype Doc = Doc(id: string, text: string)

  /** The distinct non-empty texts, in order of first occurrence. */
  function Texts(docs: seq<Doc>): seq<string> {
    if docs == [] then []
    else
      var front, t := Texts(docs[..|docs| - 1]), docs[|docs| - 1].text;
      if t == "" || t in front then front else front + [t]
  }

  /** The ids of the documents with this text. */
  function IdsOf(docs: seq<Doc>, t: string): seq<string> {
    if docs == [] then []
    else
      var front, last := IdsOf(docs[..|docs| - 1], t), docs[|docs| - 1];
      if last.text == t then front + [last.id] else front
  }

  function Within(chunk: string): string -> bool {
    (t: string) => Includes(chunk, t)
  }

  datatype Resolution = Resolution(docIds: seq<string>, exact: bool)

  function Contained(docs: seq<Doc>, chunk: string): seq<string> {
    Filter(Texts(docs), Within(chunk))
  }

  /** An exact text first; otherwise the one document text the chunk contains, if it is the only one. */
  function Resolve(docs: seq<Doc>, chunk: string): Resolution {
    if chunk in Texts(docs) then Resolution(IdsOf(docs, chunk), true)
    else
      var contained := Contained(docs, chunk);
      if |contained| == 1 then Resolution(IdsOf(docs, contained[0]), false) else Resolution([], false)
  }

  datatype Problem = EmptyText(id: string) | IdenticalText(ids: seq<string>) | PrefixText(text: string)

  /** What the gate is for: no empty text, and no text that begins another one. */
  ghost predicate IsUnambiguous(docs: seq<Doc>) {
    && (forall i :: 0 <= i < |docs| ==> docs[i].text != "")
    && forall i, j :: 0 <= i < |docs| && 0 <= j < |docs| && i != j ==> !StartsWith(docs[j].text, docs[i].text)
  }

  // ----- the loops -----

  method IndexTexts(docs: seq<Doc>) returns (order: seq<string>, ids: map<string, seq<string>>)
    ensures order == Texts(docs) && ids.Keys == Elements(order)
    ensures forall t :: t in ids ==> ids[t] == IdsOf(docs, t)
  {
    order, ids := [], map[];
    for i := 0 to |docs|
      invariant order == Texts(docs[..i]) && ids.Keys == Elements(order)
      invariant forall t :: t in ids ==> t != "" && ids[t] == IdsOf(docs[..i], t)
    {
      assert docs[..i + 1][..i] == docs[..i];
      if docs[i].text == "" {
        continue;
      }
      if docs[i].text in ids {
        ids := ids[docs[i].text := ids[docs[i].text] + [docs[i].id]];
      } else {
        NoIds(docs[..i], docs[i].text);
        order, ids := order + [docs[i].text], ids[docs[i].text := [docs[i].id]];
      }
    }
    assert docs[..|docs|] == docs;
  }

  method ResolveChunk(docs: seq<Doc>, chunk: string) returns (r: Resolution)
    ensures r == Resolve(docs, chunk)
  {
    var order, ids := IndexTexts(docs);
    if chunk in ids {
      assert chunk in Elements(order);
      return Resolution(ids[chunk], true);
    }
    assert chunk !in Elements(order);
    var contained := Filter(order, Within(chunk));
    if |contained| == 1 {
      assert contained[0] in contained;
      assert contained[0] in Elements(order);
      return Resolution(ids[contained[0]], false);
    }
    return Resolution([], false);
  }

  method FindEmpty(docs: seq<Doc>) returns (r: Option<Problem>)
    ensures r.None? <==> forall i :: 0 <= i < |docs| ==> docs[i].text != ""
  {
    for i := 0 to |docs|
      invariant forall j :: 0 <= j < i ==> docs[j].text != ""
    {
      if docs[i].text == "" {
        return Some(EmptyText(docs[i].id));
      }
    }
    return None;
  }

  method FindShared(docs: seq<Doc>, order: seq<string>, ids: map<string, seq<string>>) returns (r: Option<Problem>)
    requires ids.Keys == Elements(order) && forall t :: t in ids ==> ids[t] == IdsOf(docs, t)
    ensures r.None? <==> forall t :: t in order ==> |IdsOf(docs, t)| <= 1
  {
    for i := 0 to |order|
      invariant forall j :: 0 <= j < i ==> |IdsOf(docs, order[j])| <= 1
    {
      assert order[i] in Elements(order);
      if |ids[order[i]]| > 1 {
        return Some(IdenticalText(ids[order[i]]));
      }
    }
    return None;
  }

  method FindPrefix(order: seq<string>) returns (r: Option<Problem>)
    ensures r.None? <==> forall a, b :: a in order && b in order && a != b ==> !StartsWith(b, a)
  {
    for i := 0 to |order|
      invariant forall j, b :: 0 <= j < i && b in order && order[j] != b ==> !StartsWith(b, order[j])
    {
      for k := 0 to |order|
        invariant forall m :: 0 <= m < k && order[i] != order[m] ==> !StartsWith(order[m], order[i])
      {
        if order[i] != order[k] && StartsWith(order[k], order[i]) {
          return Some(PrefixText(order[i]));
        }
      }
    }
    return None;
  }

  /** The gate before ingest: `None` lets the corpus through. */
  method CheckCorpusTexts(docs: seq<Doc>) returns (problem: Option<Problem>)
    ensures problem.None? <==> IsUnambiguous(docs)
  {
    GateIsExact(docs);
    problem := FindEmpty(docs);
    if problem.None? {
      var order, ids := IndexTexts(docs);
      problem := FindShared(docs, order, ids);
      if problem.None? {
        problem := FindPrefix(order);
      }
    }
  }

  // ----- the index -----

  lemma {:induction false} TextsLaws(docs: seq<Doc>)
    ensures Distinct(Texts(docs))
    ensures forall t :: t in Texts(docs) <==> t != "" && exists i :: 0 <= i < |docs| && docs[i].text == t
  {
    if docs != [] {
      TextsLaws(docs[..|docs| - 1]);
    }
  }

  lemma {:induction false} IdsLaws(docs: seq<Doc>, t: string)
    ensures forall id :: id in IdsOf(docs, t) <==> exists i :: 0 <= i < |docs| && docs[i].text == t && docs[i].id == id
    ensures IdsOf(docs, t) != [] <==> exists i :: 0 <= i < |docs| && docs[i].text == t
  {
    if docs != [] {
      IdsLaws(docs[..|docs| - 1], t);
    }
  }

  function HasText(t: string): Doc -> bool {
    (d: Doc) => d.text == t
  }

  function DocIds(docs: seq<Doc>): seq<string> {
    if docs == [] then [] else DocIds(docs[..|docs| - 1]) + [docs[|docs| - 1].id]
  }

  /** The ids of a text stand in corpus order. */
  lemma {:induction false} IdsInOrder(docs: seq<Doc>, t: string)
    ensures IdsOf(docs, t) == DocIds(Filter(docs, HasText(t)))
  {
    if docs != [] {
      IdsInOrder(docs[..|docs| - 1], t);
    }
  }

  /** The chunk holds this text of some document. */
  ghost predicate HoldsText(docs: seq<Doc>, chunk: string, t: string) {
    t != "" && Includes(chunk, t) && exists i :: 0 <= i < |docs| && docs[i].text == t
  }

  /**
   * A chunk that is the text of a document, or else holds the text of some document and of no other text, is
   * credited.
   */
  ghost predicate IsCredited(docs: seq<Doc>, chunk: string, t: string) {
    if chunk != "" && exists i :: 0 <= i < |docs| && docs[i].text == chunk then t == chunk
    else HoldsText(docs, chunk, t) && forall u :: HoldsText(docs, chunk, u) ==> u == t
  }

  lemma ContainedExactly(docs: seq<Doc>, chunk: string)
    ensures forall t :: t in Contained(docs, chunk) <==> HoldsText(docs, chunk, t)
    ensures Distinct(Contained(docs, chunk))
  {
    TextsLaws(docs);
    FilterDistinct(Texts(docs), Within(chunk));
  }

  /**
   * What a chunk is credited to: all documents, in corpus order, with the one text it is credited for, or nothing if
   * there is none; and it counts as exact exactly when it is such a text itself.
   */
  lemma {:induction false} ResolvesExactly(docs: seq<Doc>, chunk: string, t: string)
    ensures Resolve(docs, chunk).exact <==> chunk != "" && exists i :: 0 <= i < |docs| && docs[i].text == chunk
    ensures IsCredited(docs, chunk, t) ==> Resolve(docs, chunk).docIds == DocIds(Filter(docs, HasText(t)))
    ensures (forall u :: !IsCredited(docs, chunk, u)) ==> Resolve(docs, chunk).docIds == []
  {
    hide Includes, IdsOf, Texts, Contained;
    var contained := Contained(docs, chunk);
    TextsLaws(docs);
    ContainedExactly(docs, chunk);
    IdsInOrder(docs, t);
    if chunk in Texts(docs) {
      assert IsCredited(docs, chunk, chunk);
    } else if |contained| == 1 {
      assert contained[0] in contained;
      assert forall u :: HoldsText(docs, chunk, u) ==> u == contained[0];
      assert IsCredited(docs, chunk, contained[0]);
    } else if |contained| > 1 {
      assert contained[0] in contained && contained[1] in contained && contained[0] != contained[1];
    }
  }

  lemma {:induction false} NoIds(docs: seq<Doc>, t: string)
    requires t != "" && t !in Texts(docs)
    ensures IdsOf(docs, t) == []
  {
    TextsLaws(docs);
    IdsLaws(docs, t);
  }

  /** A text with two ids is the text of two documents. */
  lemma {:induction false} SharedText(docs: seq<Doc>, t: string)
    requires |IdsOf(docs, t)| > 1
    ensures !IsUnambiguous(docs)
  {
    var front, n := docs[..|docs| - 1], |docs|;
    if docs[n - 1].text == t {
      IdsLaws(front, t);
      var i :| 0 <= i < |front| && front[i].text == t;
      assert docs[i].text == t && StartsWith(docs[n - 1].text, docs[i].text);
    } else {
      SharedText(front, t);
      if IsUnambiguous(docs) {
        FrontIsUnambiguous(docs);
      }
    }
  }

  lemma FrontIsUnambiguous(docs: seq<Doc>)
    requires docs != [] && IsUnambiguous(docs)
    ensures IsUnambiguous(docs[..|docs| - 1])
  {
  }

  lemma {:induction false} OneId(docs: seq<Doc>, t: string)
    requires IsUnambiguous(docs)
    ensures |IdsOf(docs, t)| <= 1
  {
    if |IdsOf(docs, t)| > 1 {
      SharedText(docs, t);
    }
  }

  lemma {:induction false} TwoIds(docs: seq<Doc>, i: nat, j: nat)
    requires i < j < |docs|
    ensures docs[i].text == docs[j].text ==> |IdsOf(docs, docs[i].text)| >= 2
  {
    if j == |docs| - 1 {
      IdsLaws(docs[..j], docs[i].text);
      assert docs[..j][i].text == docs[i].text;
    } else {
      TwoIds(docs[..|docs| - 1], i, j);
    }
  }

  ghost predicate ScansFindNothing(docs: seq<Doc>) {
    && (forall i :: 0 <= i < |docs| ==> docs[i].text != "")
    && (forall t :: t in Texts(docs) ==> |IdsOf(docs, t)| <= 1)
    && (forall a, b :: a in Texts(docs) && b in Texts(docs) && a != b ==> !StartsWith(b, a))
  }

  /** The three scans together find nothing exactly on an unambiguous corpus. */
  lemma GateIsExact(docs: seq<Doc>)
    ensures IsUnambiguous(docs) <==> ScansFindNothing(docs)
  {
    if IsUnambiguous(docs) {
      forall t | t in Texts(docs) ensures |IdsOf(docs, t)| <= 1 {
        OneId(docs, t);
      }
      forall a, b | a in Texts(docs) && b in Texts(docs) && a != b ensures !StartsWith(b, a) {
        NotPrefix(docs, a, b);
      }
    }
    if ScansFindNothing(docs) {
      forall i, j | 0 <= i < |docs| && 0 <= j < |docs| && i != j ensures !StartsWith(docs[j].text, docs[i].text) {
        DifferentTexts(docs, i, j);
      }
    }
  }

  lemma {:induction false} NotPrefix(docs: seq<Doc>, a: string, b: string)
    requires IsUnambiguous(docs) && a in Texts(docs) && b in Texts(docs) && a != b
    ensures !StartsWith(b, a)
  {
    TextsLaws(docs);
    var i :| 0 <= i < |docs| && docs[i].text == a;
    var j :| 0 <= j < |docs| && docs[j].text == b;
    assert !StartsWith(docs[j].text, docs[i].text);
  }

  lemma {:induction false} DifferentTexts(docs: seq<Doc>, i: nat, j: nat)
    requires ScansFindNothing(docs)
    requires i < |docs| && j < |docs| && i != j
    ensures docs[i].text in Texts(docs) && docs[j].text in Texts(docs) && docs[i].text != docs[j].text
  {
    TextsLaws(docs);
    TwoIds(docs, if i < j then i else j, if i < j then j else i);
  }

  // ----- what grading may rely on -----

  /** A chunk is only ever attributed to documents whose whole text it contains. */
  lemma ResolutionIsSound(docs: seq<Doc>, chunk: string, id: string)
    requires id in Resolve(docs, chunk).docIds
    ensures exists i :: 0 <= i < |docs| && docs[i].id == id && docs[i].text != "" && Includes(chunk, docs[i].text)
  {
    TextsLaws(docs);
    IncludesSelf(chunk);
    var t := if chunk in Texts(docs) then chunk else Contained(docs, chunk)[0];
    assert t != chunk ==> t in Contained(docs, chunk);
    IdsLaws(docs, t);
  }

  /** On a corpus the gate lets through, every chunk carries at most one document. */
  lemma AtMostOneDocument(docs: seq<Doc>, chunk: string)
    requires IsUnambiguous(docs)
    ensures |Resolve(docs, chunk).docIds| <= 1
  {
    OneId(docs, chunk);
    if |Contained(docs, chunk)| == 1 {
      OneId(docs, Contained(docs, chunk)[0]);
    }
  }

  function ResolveAll(docs: seq<Doc>, chunks: seq<string>): seq<RetrievalVerdict.Chunk> {
    if chunks == [] then []
    else ResolveAll(docs, chunks[..|chunks| - 1]) + [Resolve(docs, chunks[|chunks| - 1]).docIds]
  }

  lemma {:induction false} ResolvedOneEach(docs: seq<Doc>, chunks: seq<string>)
    requires IsUnambiguous(docs)
    ensures RetrievalVerdict.OneEach(ResolveAll(docs, chunks))
  {
    if chunks != [] {
      ResolvedOneEach(docs, chunks[..|chunks| - 1]);
      AtMostOneDocument(docs, chunks[|chunks| - 1]);
    }
  }

  /** So no live ranking can complete h distinct evidence documents before rank h. */
  lemma {:induction false} LiveRankIsAtLeastHops(docs: seq<Doc>, chunks: seq<string>, evidence: seq<string>)
    requires IsUnambiguous(docs) && Distinct(evidence)
    ensures var r := RetrievalVerdict.AllEvidenceRank(ResolveAll(docs, chunks), evidence); r == 0 || r >= |evidence|
  {
    ResolvedOneEach(docs, chunks);
    RetrievalVerdict.RankIsAtLeastHops(ResolveAll(docs, chunks), evidence);
  }

  /** A document returned whole resolves to itself. */
  lemma WholeDocumentResolves(docs: seq<Doc>, i: nat)
    requires IsUnambiguous(docs) && i < |docs|
    ensures Resolve(docs, docs[i].text) == Resolution([docs[i].id], true)
  {
    TextsLaws(docs);
    IdsLaws(docs, docs[i].text);
    OneId(docs, docs[i].text);
    assert docs[i].id in IdsOf(docs, docs[i].text);
  }

  // ----- pieces of a document -----

  predicate IsPiece(text: string, m: nat, n: nat) {
    m <= n <= |text| && n - m < |text|
  }

  /** No contiguous piece of this text, short of the whole, is attributed to anything. */
  ghost predicate PiecesAreSafe(docs: seq<Doc>, text: string) {
    forall m: nat, n: nat :: IsPiece(text, m, n) ==> Resolve(docs, text[m..n]).docIds == []
  }

  /** No other document's text occurs inside this one's. */
  ghost predicate IsSeparate(docs: seq<Doc>, i: nat)
    requires i < |docs|
  {
    forall j :: 0 <= j < |docs| && j != i ==> !Includes(docs[i].text, docs[j].text)
  }

  lemma PieceIncludes(text: string, m: nat, n: nat, t: string)
    requires IsPiece(text, m, n) && Includes(text[m..n], t)
    ensures Includes(text, t) && |t| < |text|
  {
    IncludesLength(text[m..n], t);
    SliceIncluded(text, m, n);
    IncludesTransitive(text, text[m..n], t);
  }

  /** What a piece is attributed to is another document whose text occurs in the whole. */
  lemma PieceResolution(docs: seq<Doc>, text: string, m: nat, n: nat)
    requires IsPiece(text, m, n)
    ensures Resolve(docs, text[m..n]).docIds != [] ==>
              exists j :: 0 <= j < |docs| && docs[j].text != text && Includes(text, docs[j].text)
  {
    var ids := Resolve(docs, text[m..n]).docIds;
    if ids != [] {
      assert ids[0] in ids;
      ResolutionIsSound(docs, text[m..n], ids[0]);
      var j :| 0 <= j < |docs| && docs[j].text != "" && Includes(text[m..n], docs[j].text);
      PieceIncludes(text, m, n, docs[j].text);
    }
  }

  /** A document text inside another one is itself a piece, and resolves exactly. */
  lemma InnerTextResolves(docs: seq<Doc>, i: nat, j: nat)
    requires IsUnambiguous(docs) && i < |docs| && j < |docs| && i != j && Includes(docs[i].text, docs[j].text)
    ensures !PiecesAreSafe(docs, docs[i].text)
  {
    var text, t := docs[i].text, docs[j].text;
    var k :| 0 <= k <= |text| && OccursAt(text, t, k);
    assert text[k..k + |t|] == t;
    assert !StartsWith(text, t);
    IncludesLength(text, t);
    WholeDocumentResolves(docs, j);
    assert IsPiece(text, k, k + |t|);
  }

  /**
   * On a corpus the gate lets through, cutting or splitting a document never credits anything, so it can only lose a
   * hit, if and only if no other document's text occurs inside it.
   */
  lemma PiecesAreSafeExactly(docs: seq<Doc>, i: nat)
    requires IsUnambiguous(docs) && i < |docs|
    ensures PiecesAreSafe(docs, docs[i].text) <==> IsSeparate(docs, i)
  {
    if IsSeparate(docs, i) {
      forall m: nat, n: nat | IsPiece(docs[i].text, m, n) ensures Resolve(docs, docs[i].text[m..n]).docIds == [] {
        PieceResolution(docs, docs[i].text, m, n);
      }
    } else {
      var j :| 0 <= j < |docs| && j != i && Includes(docs[i].text, docs[j].text);
      InnerTextResolves(docs, i, j);
    }
  }

  /** In particular every proper beginning is safe then. */
  lemma SeparateTextsAreSafe(docs: seq<Doc>, i: nat)
    requires IsUnambiguous(docs) && i < |docs| && IsSeparate(docs, i)
    ensures TruncationIsSafe(docs, docs[i].text)
  {
    PiecesAreSafeExactly(docs, i);
    forall n | 0 <= n < |docs[i].text| ensures Resolve(docs, docs[i].text[..n]).docIds == [] {
      assert IsPiece(docs[i].text, 0, n) && docs[i].text[0..n] == docs[i].text[..n];
    }
  }

  // ----- beginnings of a document -----

  /** No proper beginning of this document is attributed to anything. */
  ghost predicate TruncationIsSafe(docs: seq<Doc>, text: string) {
    forall n :: 0 <= n < |text| ==> Resolve(docs, text[..n]).docIds == []
  }

  /** A document text ends inside `text`, before its end, and where the first one ends only one does. */
  ghost predicate FirstInsideIsAlone(docs: seq<Doc>, text: string) {
    exists n :: 0 <= n < |text| && |Contained(docs, text[..n])| == 1
                && forall m :: 0 <= m < n ==> Contained(docs, text[..m]) == []
  }

  lemma {:induction false} TruncationIsNotExact(docs: seq<Doc>, i: nat, n: nat)
    requires IsUnambiguous(docs) && i < |docs| && n < |docs[i].text|
    ensures docs[i].text[..n] !in Texts(docs)
  {
    TextsLaws(docs);
    var p := docs[i].text[..n];
    forall j | 0 <= j < |docs| ensures docs[j].text != p {
      assert StartsWith(docs[i].text, p);
    }
  }

  lemma ContainedGrows(docs: seq<Doc>, text: string, m: nat, n: nat, t: string)
    requires m <= n <= |text| && t in Contained(docs, text[..m])
    ensures t in Contained(docs, text[..n])
  {
    var k :| 0 <= k <= m && OccursAt(text[..m], t, k);
    assert text[..n][k..k + |t|] == text[..m][k..k + |t|];
    assert OccursAt(text[..n], t, k);
  }

  /** A longer beginning contains at least as many document texts. */
  lemma ContainedCount(docs: seq<Doc>, text: string, m: nat, n: nat)
    requires m <= n <= |text|
    ensures |Contained(docs, text[..m])| <= |Contained(docs, text[..n])|
  {
    var a, b := Contained(docs, text[..m]), Contained(docs, text[..n]);
    TextsLaws(docs);
    FilterDistinct(Texts(docs), Within(text[..m]));
    FilterDistinct(Texts(docs), Within(text[..n]));
    DistinctCardinality(a);
    DistinctCardinality(b);
    forall t | t in Elements(a) ensures t in Elements(b) {
      ContainedGrows(docs, text, m, n, t);
    }
    SubsetCardinality(Elements(a), Elements(b));
  }

  lemma {:induction false} FirstInside(docs: seq<Doc>, text: string, n: nat) returns (m: nat)
    requires n <= |text| && Contained(docs, text[..n]) != []
    ensures m <= n && Contained(docs, text[..m]) != [] && forall k :: 0 <= k < m ==> Contained(docs, text[..k]) == []
    decreases n
  {
    m := n;
    if k :| 0 <= k < n && Contained(docs, text[..k]) != [] {
      m := FirstInside(docs, text, k);
    }
  }

  /**
   * On a corpus the gate lets through, a truncated document is never credited to another one exactly when the first
   * document text that ends inside it is not alone there.
   */
  lemma TruncationIsSafeExactly(docs: seq<Doc>, i: nat)
    requires IsUnambiguous(docs) && i < |docs|
    ensures TruncationIsSafe(docs, docs[i].text) <==> !FirstInsideIsAlone(docs, docs[i].text)
  {
    var text := docs[i].text;
    forall n: nat | n < |text|
      ensures Resolve(docs, text[..n]).docIds != [] <==> |Contained(docs, text[..n])| == 1
    {
      TruncatedResolution(docs, i, n);
    }
    if n :| 0 <= n < |text| && Resolve(docs, text[..n]).docIds != [] {
      var m := FirstInside(docs, text, n);
      ContainedCount(docs, text, m, n);
      assert |Contained(docs, text[..m])| == 1;
    }
  }

  lemma TruncatedResolution(docs: seq<Doc>, i: nat, n: nat)
    requires IsUnambiguous(docs) && i < |docs| && n < |docs[i].text|
    ensures Resolve(docs, docs[i].text[..n]).docIds != [] <==> |Contained(docs, docs[i].text[..n])| == 1
  {
    var contained := Contained(docs, docs[i].text[..n]);
    TruncationIsNotExact(docs, i, n);
    if |contained| == 1 {
      assert contained[0] in contained;
      TextsLaws(docs);
      IdsLaws(docs, contained[0]);
    }
  }

  /** A corpus the gate lets through, whose second document, cut short, is credited to the first. */
  lemma TruncationExample()
    ensures var docs := [Doc("a", "xyz"), Doc("b", "0xyz1")];
            IsUnambiguous(docs) && Resolve(docs, "0xyz") == Resolution(["a"], false)
  {
    var docs := [Doc("a", "xyz"), Doc("b", "0xyz1")];
    ExampleTexts();
    ExampleContained();
    assert "0xyz1"[..3][0] == '0';
    assert !StartsWith("0xyz1", "xyz") && !StartsWith("xyz", "0xyz1");
    assert IsUnambiguous(docs);
    assert docs[..1] == [Doc("a", "xyz")] && docs[..1][..0] == [];
    assert IdsOf(docs[..1], "xyz") == ["a"];
    assert "0xyz" !in ["xyz", "0xyz1"];
  }

  lemma ExampleTexts()
    ensures Texts([Doc("a", "xyz"), Doc("b", "0xyz1")]) == ["xyz", "0xyz1"]
  {
    var docs := [Doc("a", "xyz"), Doc("b", "0xyz1")];
    assert docs[..1] == [Doc("a", "xyz")] && docs[..1][..0] == [];
    assert Texts(docs[..1]) == ["xyz"];
  }

  lemma ExampleContained()
    ensures Filter(["xyz", "0xyz1"], Within("0xyz")) == ["xyz"]
  {
    var texts := ["xyz", "0xyz1"];
    assert OccursAt("0xyz", "xyz", 1);
    assert Includes("0xyz", "xyz") && !Includes("0xyz", "0xyz1");
    assert texts[..1] == ["xyz"] && texts[..1][..0] == [];
    assert Filter(texts[..1], Within("0xyz")) == ["xyz"];
  }

  /** Safe against truncation, yet not against re-splitting: the tail of the third document is credited to the first. */
  lemma ResplitExample()
    ensures var docs := [Doc("a", "yz"), Doc("b", "xyz"), Doc("c", "0xyz1")];
            IsUnambiguous(docs) && TruncationIsSafe(docs, "0xyz1") && Resolve(docs, "yz1") == Resolution(["a"], false)
  {
    hide TruncationIsSafe;
    var docs := [Doc("a", "yz"), Doc("b", "xyz"), Doc("c", "0xyz1")];
    ResplitTexts();
    ResplitTail();
    ResplitIds();
    ResplitGate(docs);
    ResplitIsSafe(docs);
    assert "yz1" !in ["yz", "xyz", "0xyz1"];
  }

  lemma ResplitGate(docs: seq<Doc>)
    requires docs == [Doc("a", "yz"), Doc("b", "xyz"), Doc("c", "0xyz1")]
    ensures IsUnambiguous(docs)
  {
    assert docs[0].text == "yz" && docs[1].text == "xyz" && docs[2].text == "0xyz1";
    assert "xyz"[..2][0] == 'x' && "0xyz1"[..2][0] == '0' && "0xyz1"[..3][0] == '0';
  }

  lemma {:induction false} ResplitIsSafe(docs: seq<Doc>)
    requires IsUnambiguous(docs) && |docs| == 3 && docs[2].text == "0xyz1" && Texts(docs) == ["yz", "xyz", "0xyz1"]
    ensures TruncationIsSafe(docs, "0xyz1")
  {
    hide TruncationIsSafe, IsUnambiguous;
    forall n: nat | n < 5 ensures |Contained(docs, "0xyz1"[..n])| != 1 {
      ResplitBeginning(docs, n);
    }
    assert !FirstInsideIsAlone(docs, "0xyz1");
    TruncationIsSafeExactly(docs, 2);
  }

  lemma ResplitTexts()
    ensures Texts([Doc("a", "yz"), Doc("b", "xyz"), Doc("c", "0xyz1")]) == ["yz", "xyz", "0xyz1"]
  {
    var docs := [Doc("a", "yz"), Doc("b", "xyz"), Doc("c", "0xyz1")];
    assert docs[..2] == [Doc("a", "yz"), Doc("b", "xyz")] && docs[..2][..1] == [Doc("a", "yz")]
           && docs[..2][..1][..0] == [];
    assert Texts(docs[..2][..1]) == ["yz"];
    assert Texts(docs[..2]) == ["yz", "xyz"];
  }

  lemma ResplitIds()
    ensures IdsOf([Doc("a", "yz"), Doc("b", "xyz"), Doc("c", "0xyz1")], "yz") == ["a"]
  {
    var docs := [Doc("a", "yz"), Doc("b", "xyz"), Doc("c", "0xyz1")];
    assert docs[..2] == [Doc("a", "yz"), Doc("b", "xyz")] && docs[..2][..1] == [Doc("a", "yz")]
           && docs[..2][..1][..0] == [];
    assert IdsOf(docs[..2][..1], "yz") == ["a"];
    assert IdsOf(docs[..2], "yz") == ["a"];
  }

  lemma ResplitTail()
    ensures Filter(["yz", "xyz", "0xyz1"], Within("yz1")) == ["yz"]
  {
    var texts := ["yz", "xyz", "0xyz1"];
    assert OccursAt("yz1", "yz", 0);
    assert "yz1"[0..3][0] == 'y';
    assert Includes("yz1", "yz") && !Includes("yz1", "xyz") && !Includes("yz1", "0xyz1");
    assert texts[..2] == ["yz", "xyz"] && texts[..2][..1] == ["yz"] && texts[..2][..1][..0] == [];
    assert Filter(texts[..2][..1], Within("yz1")) == ["yz"];
    assert Filter(texts[..2], Within("yz1")) == ["yz"];
  }

  lemma InnerTextsOccur()
    ensures Includes("0xyz", "yz") && Includes("0xyz", "xyz")
  {
    var text := "0xyz";
    assert text[2..4] == [text[2], text[3]] == "yz";
    assert text[1..4] == [text[1], text[2], text[3]] == "xyz";
    assert OccursAt(text, "yz", 2) && OccursAt(text, "xyz", 1);
  }

  /** A beginning of the third text holds both inner texts or neither. */
  lemma {:induction false} ResplitBeginning(docs: seq<Doc>, n: nat)
    requires Texts(docs) == ["yz", "xyz", "0xyz1"] && n < 5
    ensures |Contained(docs, "0xyz1"[..n])| != 1
  {
    var text := "0xyz1";
    var contained := Contained(docs, text[..n]);
    if n == 4 {
      assert text[..4] == "0xyz";
      InnerTextsOccur();
      assert "yz" in contained && "xyz" in contained;
      TwoTexts(contained, "yz", "xyz");
    } else {
      forall t | t in Texts(docs) ensures !Within(text[..n])(t) {
        ShortBeginning(n, t);
      }
      FilterEmpty(Texts(docs), Within(text[..n]));
    }
  }

  lemma ShortBeginning(n: nat, t: string)
    requires n < 4 && t in ["yz", "xyz", "0xyz1"]
    ensures !Includes("0xyz1"[..n], t)
  {
    var text := "0xyz1";
    forall k: nat | k + |t| <= n ensures !OccursAt(text[..n], t, k) {
      if t == "yz" {
        assert text[..n][k..k + 2][0] == text[k] && text[..n][k..k + 2][1] == text[k + 1];
      } else if t == "xyz" {
        assert text[..n][k..k + 3][0] == text[k];
      }
    }
  }

  lemma TwoTexts(s: seq<string>, a: string, b: string)
    requires a in s && b in s && a != b
    ensures |s| >= 2
  {
    var i :| 0 <= i < |s| && s[i] == a;
    var j :| 0 <= j < |s| && s[j] == b;
  }
}
