/** The corpus as the question generator indexes it: mentions, positive edges, and the edges a chain can start from. */
module QuestionWorld {
  import opened Sequences
  import opened Text

  datatype Document = Document(id: string, text: string, entityIds: seq<string>)
  datatype Relation = Relation(subject: string, pred: string, obj: string, retracted: bool)
  datatype Entry = Entry(id: string, relations: seq<Relation>)
  /** A supersession record; an absent vendor or project is the empty string. */
  datatype Correction = Correction(
    deliveryId: string, incorrectDocId: string, correctDocId: string, correctAssertion: string, vendorId: string,
    projectId: string)

  datatype Corpus = Corpus(
    docs: seq<Document>, names: map<string, string>, entries: seq<Entry>, corrections: seq<Correction>)

  /** A relation with the document that asserts it. */
  datatype Edge = Edge(subject: string, pred: string, obj: string, retracted: bool, docId: string)

  datatype Tier = Easy | Medium | Hard | Complex
  datatype Hop = Hop(from: string, via: string, to: string, docId: string)

  /** A question as the generator writes it and the linter reads it; `number` is the counter in its id. */
  datatype Question = Question(
    tier: Tier, number: nat, submechanism: string, question: string, answer: string, evidenceDocIds: seq<string>,
    hopChain: seq<Hop>, distractorDocIds: seq<string>, distractorStrings: seq<string>, answerIsNegative: bool)

  const POSITIVE_CHAIN_PREDICATES: seq<string> := [
    "from_vendor", "received_delivery", "raised_against", "signed_off", "covers", "approved", "for_project",
    "carried_batch", "contains_serial", "raised", "scoped_to_project", "against_vendor", "filed", "at_warehouse",
    "involved_batch"
  ]

  /** The last document with this id. */
  function DocOf(docs: seq<Document>, id: string): Option<Document> {
    if docs == [] then None
    else if docs[|docs| - 1].id == id then Some(docs[|docs| - 1])
    else DocOf(docs[..|docs| - 1], id)
  }

  lemma {:induction false} DocOfSome(docs: seq<Document>, id: string)
    ensures DocOf(docs, id).Some? <==> exists d :: d in docs && d.id == id
    ensures DocOf(docs, id).Some? ==> DocOf(docs, id).value in docs && DocOf(docs, id).value.id == id
  {
    if docs != [] {
      DocOfSome(docs[..|docs| - 1], id);
      assert docs == docs[..|docs| - 1] + [docs[|docs| - 1]];
      assert docs[|docs| - 1] in docs;
    }
  }

  ghost predicate IsLastWith(docs: seq<Document>, id: string, i: int) {
    0 <= i < |docs| && docs[i].id == id && forall j :: i < j < |docs| ==> docs[j].id != id
  }

  lemma {:induction false} DocOfIsLast(docs: seq<Document>, id: string, i: int)
    requires IsLastWith(docs, id, i)
    ensures DocOf(docs, id) == Some(docs[i])
  {
    if i < |docs| - 1 {
      DocOfIsLast(docs[..|docs| - 1], id, i);
    }
  }

  // ----- mentions -----

  /** A leading "PT" and the white space after it, in any case, cut off. */
  function StripPt(name: string): string {
    if |name| >= 3 && Lower(name)[..2] == "pt" && IsSpace(name[2]) then TrimStart(name[2..]) else name
  }

  function Bare(name: string): string {
    Lower(StripPt(name))
  }

  /**
   * A text names an entity by its full name or by its distinctive part; names under five characters are not searched.
   */
  predicate TextMentions(text: string, name: string) {
    && |name| >= 5
    && (Includes(Lower(text), Lower(name)) || (|Bare(name)| >= 5 && Includes(Lower(text), Bare(name))))
  }

  predicate Mentions(d: Document, names: map<string, string>, id: string) {
    id in d.entityIds || (id in names && TextMentions(d.text, names[id]))
  }

  /** The documents that mention an entity, in corpus order. */
  function MentionDocs(docs: seq<Document>, names: map<string, string>, id: string): (r: seq<string>)
    ensures forall d :: d in docs && Mentions(d, names, id) ==> d.id in r
  {
    if docs == [] then []
    else
      var front, last := MentionDocs(docs[..|docs| - 1], names, id), docs[|docs| - 1];
      assert docs == docs[..|docs| - 1] + [last];
      if Mentions(last, names, id) then front + [last.id] else front
  }

  lemma {:induction false} ListedMentions(docs: seq<Document>, names: map<string, string>, id: string, docId: string)
      returns (d: Document)
    requires docId in MentionDocs(docs, names, id)
    ensures d in docs && d.id == docId && Mentions(d, names, id)
  {
    var last := docs[|docs| - 1];
    if Mentions(last, names, id) && last.id == docId {
      d := last;
    } else {
      d := ListedMentions(docs[..|docs| - 1], names, id, docId);
    }
  }

  // ----- edges -----

  function EntryEdges(id: string, relations: seq<Relation>): seq<Edge> {
    if relations == [] then []
    else
      var r := relations[|relations| - 1];
      EntryEdges(id, relations[..|relations| - 1]) + [Edge(r.subject, r.pred, r.obj, r.retracted, id)]
  }

  /** A table in insertion order; setting a known key keeps its place. */
  function Put(table: seq<(string, seq<Edge>)>, id: string, edges: seq<Edge>): seq<(string, seq<Edge>)> {
    if table == [] then [(id, edges)]
    else if table[0].0 == id then [(id, edges)] + table[1..]
    else [table[0]] + Put(table[1..], id, edges)
  }

  function ByDocument(entries: seq<Entry>): seq<(string, seq<Edge>)> {
    if entries == [] then []
    else
      var last := entries[|entries| - 1];
      Put(ByDocument(entries[..|entries| - 1]), last.id, EntryEdges(last.id, last.relations))
  }

  function TableEdges(table: seq<(string, seq<Edge>)>): seq<Edge> {
    if table == [] then [] else TableEdges(table[..|table| - 1]) + table[|table| - 1].1
  }

  /** The edges of every entry in turn, also of one that a later entry with the same id replaces. */
  function EveryEdge(entries: seq<Entry>): seq<Edge> {
    if entries == [] then []
    else
      var last := entries[|entries| - 1];
      EveryEdge(entries[..|entries| - 1]) + EntryEdges(last.id, last.relations)
  }

  function AllEdges(c: Corpus): seq<Edge> {
    TableEdges(ByDocument(c.entries))
  }

  /** On the allow-list and not retracted. */
  predicate Positive(e: Edge) {
    e.pred in POSITIVE_CHAIN_PREDICATES && !e.retracted
  }

  function StartsAt(id: string): Edge -> bool {
    (e: Edge) => e.subject == id
  }

  function HasPredicate(pred: string): Edge -> bool {
    (e: Edge) => e.pred == pred
  }

  /** The edges that can follow `a`: starting where it ends, in another document. */
  function Follows(a: Edge): Edge -> bool {
    (e: Edge) => e.subject == a.obj && e.docId != a.docId
  }

  predicate HasSecond(edges: seq<Edge>, a: Edge) {
    exists b :: b in edges && Follows(a)(b)
  }

  predicate HasThird(edges: seq<Edge>, a: Edge) {
    exists b, c :: b in edges && c in edges && Follows(a)(b) && Follows(b)(c) && c.docId != a.docId
  }

  function PositiveEdges(c: Corpus): seq<Edge> {
    Filter(AllEdges(c), Positive)
  }

  // ----- the indices -----

  datatype World = World(
    docs: seq<Document>,
    corrections: seq<Correction>,
    names: map<string, string>,
    docsForEntity: map<string, seq<string>>,
    byPredicate: map<string, seq<Edge>>,
    positive: seq<Edge>,
    startingAt: map<string, seq<Edge>>,
    withSeconds: seq<Edge>,
    withThirds: seq<Edge>)

  function At<T>(table: map<string, seq<T>>, key: string): seq<T> {
    if key in table then table[key] else []
  }

  function CanContinue(edges: seq<Edge>): Edge -> bool {
    (a: Edge) => HasSecond(edges, a)
  }

  function CanContinueTwice(edges: seq<Edge>): Edge -> bool {
    (a: Edge) => HasThird(edges, a)
  }

  ghost predicate ListsMentions(w: World, c: Corpus) {
    w.docs == c.docs && w.names == c.names && forall id :: At(w.docsForEntity, id) == MentionDocs(c.docs, c.names, id)
  }

  ghost predicate ListsEdges(w: World, c: Corpus) {
    && w.corrections == c.corrections
    && w.positive == PositiveEdges(c)
    && (forall p :: At(w.byPredicate, p) == Filter(EveryEdge(c.entries), HasPredicate(p)))
    && (forall id :: At(w.startingAt, id) == Filter(w.positive, StartsAt(id)))
    && w.withSeconds == Filter(w.positive, CanContinue(w.positive))
    && w.withThirds == Filter(w.withSeconds, CanContinueTwice(w.positive))
  }

  /** The indices agree with the corpus they summarise. */
  ghost predicate Summarises(w: World, c: Corpus) {
    ListsMentions(w, c) && ListsEdges(w, c)
  }

  function Push<T>(table: map<string, seq<T>>, key: string, x: T): (r: map<string, seq<T>>)
    ensures forall k :: At(r, k) == if k == key then At(table, k) + [x] else At(table, k)
  {
    table[key := At(table, key) + [x]]
  }

  /** The entities one document mentions: its declared ones, then every name found in its text. */
  method MentionedIn(d: Document, names: map<string, string>) returns (seen: set<string>)
    ensures forall id :: id in seen <==> Mentions(d, names, id)
  {
    seen := Elements(d.entityIds);
    var todo := names.Keys;
    while todo != {}
      invariant todo <= names.Keys
      invariant forall id ::
                  id in seen <==> id in d.entityIds || (id in names && id !in todo && TextMentions(d.text, names[id]))
      decreases |todo|
    {
      var id :| id in todo;
      todo := todo - {id};
      if id !in seen && TextMentions(d.text, names[id]) {
        seen := seen + {id};
      }
    }
  }

  method AddMentions(
      table: map<string, seq<string>>, seen: set<string>, docId: string) returns (r: map<string, seq<string>>)
    ensures forall id :: At(r, id) == if id in seen then At(table, id) + [docId] else At(table, id)
  {
    r := table;
    var todo := seen;
    while todo != {}
      invariant todo <= seen
      invariant forall id :: At(r, id) == if id in seen && id !in todo then At(table, id) + [docId] else At(table, id)
      decreases |todo|
    {
      var id :| id in todo;
      todo := todo - {id};
      r := Push(r, id, docId);
    }
  }

  method IndexMentions(docs: seq<Document>, names: map<string, string>) returns (r: map<string, seq<string>>)
    ensures forall id :: At(r, id) == MentionDocs(docs, names, id)
  {
    r := map[];
    for i := 0 to |docs|
      invariant forall id :: At(r, id) == MentionDocs(docs[..i], names, id)
    {
      var seen := MentionedIn(docs[i], names);
      r := AddMentions(r, seen, docs[i].id);
      assert docs[..i + 1][..i] == docs[..i];
    }
    assert docs[..|docs|] == docs;
  }

  method CollectEdges(entries: seq<Entry>) returns (r: seq<Edge>)
    ensures r == TableEdges(ByDocument(entries))
  {
    var table: seq<(string, seq<Edge>)> := [];
    for i := 0 to |entries|
      invariant table == ByDocument(entries[..i])
    {
      table := Put(table, entries[i].id, EntryEdges(entries[i].id, entries[i].relations));
      assert entries[..i + 1][..i] == entries[..i];
    }
    assert entries[..|entries|] == entries;
    r := [];
    for i := 0 to |table|
      invariant r == TableEdges(table[..i])
    {
      r := r + table[i].1;
      assert table[..i + 1][..i] == table[..i];
    }
    assert table[..|table|] == table;
  }

  method IndexStarts(edges: seq<Edge>) returns (r: map<string, seq<Edge>>)
    ensures forall id :: At(r, id) == Filter(edges, StartsAt(id))
  {
    r := map[];
    for i := 0 to |edges|
      invariant forall id :: At(r, id) == Filter(edges[..i], StartsAt(id))
    {
      r := Push(r, edges[i].subject, edges[i]);
      assert edges[..i + 1][..i] == edges[..i];
    }
    assert edges[..|edges|] == edges;
  }

  /** The predicate index is filled while the entries are read, before a repeated id can replace anything. */
  method IndexPredicates(entries: seq<Entry>) returns (r: map<string, seq<Edge>>)
    ensures forall p :: At(r, p) == Filter(EveryEdge(entries), HasPredicate(p))
  {
    r := map[];
    for i := 0 to |entries|
      invariant forall p :: At(r, p) == Filter(EveryEdge(entries[..i]), HasPredicate(p))
    {
      var edges := EntryEdges(entries[i].id, entries[i].relations);
      ghost var before := EveryEdge(entries[..i]);
      assert before + edges[..0] == before;
      for j := 0 to |edges|
        invariant forall p :: At(r, p) == Filter(before + edges[..j], HasPredicate(p))
      {
        PushNext(r, before + edges[..j], edges[j]);
        assert before + edges[..j] + [edges[j]] == before + edges[..j + 1];
        r := Push(r, edges[j].pred, edges[j]);
      }
      assert edges[..|edges|] == edges;
      assert entries[..i + 1][..i] == entries[..i];
    }
    assert entries[..|entries|] == entries;
  }

  lemma {:induction false} PushNext(r: map<string, seq<Edge>>, read: seq<Edge>, e: Edge)
    requires forall p :: At(r, p) == Filter(read, HasPredicate(p))
    ensures forall p :: At(Push(r, e.pred, e), p) == Filter(read + [e], HasPredicate(p))
  {
    assert (read + [e])[..|read|] == read;
  }

  method LoadWorld(c: Corpus) returns (w: World)
    ensures Summarises(w, c)
  {
    var mentions := IndexMentions(c.docs, c.names);
    var edges := CollectEdges(c.entries);
    var byPredicate := IndexPredicates(c.entries);
    var positive := Filter(edges, Positive);
    var starts := IndexStarts(positive);
    var seconds := Filter(positive, CanContinue(positive));
    var thirds := Filter(seconds, CanContinueTwice(positive));
    w := World(c.docs, c.corrections, c.names, mentions, byPredicate, positive, starts, seconds, thirds);
  }

  // ----- what the indices guarantee -----

  lemma {:induction false} EntryEdgesBelong(id: string, relations: seq<Relation>)
    ensures forall e :: e in EntryEdges(id, relations) ==> e.docId == id
  {
    if relations != [] {
      EntryEdgesBelong(id, relations[..|relations| - 1]);
    }
  }

  ghost predicate TableBelongs(table: seq<(string, seq<Edge>)>, ids: set<string>) {
    forall i, e :: 0 <= i < |table| && e in table[i].1 ==> e.docId in ids
  }

  lemma {:induction false} PutBelongs(table: seq<(string, seq<Edge>)>, id: string, edges: seq<Edge>, ids: set<string>)
    requires TableBelongs(table, ids) && forall e :: e in edges ==> e.docId in ids
    ensures TableBelongs(Put(table, id, edges), ids)
  {
    if table != [] && table[0].0 != id {
      PutBelongs(table[1..], id, edges, ids);
    }
  }

  lemma {:induction false} EveryEdgeBelongs(entries: seq<Entry>, ids: set<string>)
    requires forall entry :: entry in entries ==> entry.id in ids
    ensures forall e :: e in EveryEdge(entries) ==> e.docId in ids
  {
    if entries != [] {
      var last := entries[|entries| - 1];
      EveryEdgeBelongs(entries[..|entries| - 1], ids);
      EntryEdgesBelong(last.id, last.relations);
    }
  }

  function EntryIds(c: Corpus): set<string> {
    set entry | entry in c.entries :: entry.id
  }

  lemma {:induction false} TableOfEntries(entries: seq<Entry>, ids: set<string>)
    requires forall entry :: entry in entries ==> entry.id in ids
    ensures TableBelongs(ByDocument(entries), ids)
  {
    if entries != [] {
      var last := entries[|entries| - 1];
      TableOfEntries(entries[..|entries| - 1], ids);
      EntryEdgesBelong(last.id, last.relations);
      PutBelongs(ByDocument(entries[..|entries| - 1]), last.id, EntryEdges(last.id, last.relations), ids);
    }
  }

  lemma {:induction false} TableEdgesBelong(table: seq<(string, seq<Edge>)>, ids: set<string>)
    requires TableBelongs(table, ids)
    ensures forall e :: e in TableEdges(table) ==> e.docId in ids
  {
    if table != [] {
      TableEdgesBelong(table[..|table| - 1], ids);
    }
  }

  /** Every edge was asserted by a document of the index. */
  lemma EdgesComeFromEntries(c: Corpus)
    ensures forall e :: e in AllEdges(c) || e in EveryEdge(c.entries) ==> e.docId in EntryIds(c)
  {
    EveryEdgeBelongs(c.entries, EntryIds(c));
    TableOfEntries(c.entries, EntryIds(c));
    TableEdgesBelong(ByDocument(c.entries), EntryIds(c));
  }

  // ----- the mention index against the answer -----

  /** The answer a question about this entity expects. */
  function Canonical(name: string): string {
    Trim(StripPt(name))
  }

  lemma StripPtShortens(name: string)
    ensures |StripPt(name)| <= |name| && |Canonical(name)| <= |StripPt(name)|
    ensures |Canonical(name)| == |StripPt(name)| ==> Canonical(name) == StripPt(name)
  {
    if |name| >= 3 {
      TrimStartIsSuffix(name[2..]);
    }
    TrimShortens(StripPt(name));
  }

  lemma TrimShortens(s: string)
    ensures |Trim(s)| <= |s|
    ensures |Trim(s)| == |s| ==> Trim(s) == s
  {
    TrimStartIsSuffix(s);
    TrimEndIsPrefix(TrimStart(s));
  }

  /** The mention index sees every text that contains the answer, for a name whose stripped form is already trimmed. */
  lemma IndexSeesAnswer(text: string, name: string)
    requires |Canonical(name)| >= 5 && Canonical(name) == StripPt(name)
    requires Includes(Lower(text), Lower(Canonical(name)))
    ensures TextMentions(text, name)
  {
    StripPtShortens(name);
  }

  /**
   * For a name whose answer is long enough to be asked for, the index catches every text containing the answer exactly
   * when the stripped name carries no surrounding white space.
   */
  lemma IndexIsSoundExactlyWhenTrimmed(name: string)
    requires |Canonical(name)| >= 5
    ensures (forall text :: Includes(Lower(text), Lower(Canonical(name))) ==> TextMentions(text, name))
            <==> Canonical(name) == StripPt(name)
  {
    StripPtShortens(name);
    if Canonical(name) == StripPt(name) {
      forall text | Includes(Lower(text), Lower(Canonical(name))) ensures TextMentions(text, name) {
        IndexSeesAnswer(text, name);
      }
    } else {
      AnswerAloneIsMissed(name);
    }
  }

  /** A text that is just the answer escapes the index when the name had white space to trim. */
  lemma AnswerAloneIsMissed(name: string)
    requires Canonical(name) != StripPt(name)
    ensures Includes(Lower(Canonical(name)), Lower(Canonical(name))) && !TextMentions(Canonical(name), name)
  {
    StripPtShortens(name);
    var text := Canonical(name);
    IncludesSelf(Lower(text));
    if Includes(Lower(text), Lower(name)) {
      IncludesLength(Lower(text), Lower(name));
    }
    if Includes(Lower(text), Bare(name)) {
      IncludesLength(Lower(text), Bare(name));
    }
  }

  /** A name with a trailing blank: its answer appears in a text that the index does not list. */
  lemma UntrimmedNameExample()
    ensures var name := "Sinar Abadi ";
            && Canonical(name) == "Sinar Abadi"
            && Includes(Lower("Sinar Abadi"), Lower(Canonical(name))) && !TextMentions("Sinar Abadi", name)
  {
    var name := "Sinar Abadi ";
    assert Lower(name)[0] == 's';
    assert StripPt(name) == name;
    assert name[..|name| - 1] == "Sinar Abadi";
    assert TrimStart(name) == name;
    assert TrimEnd(name) == TrimEnd("Sinar Abadi") == "Sinar Abadi";
    AnswerAloneIsMissed(name);
  }

  // ----- what the indices hold, in order -----

  /** A leading PT in any case, with white space after it, is cut off together with that. */
  lemma StripPtExactly(name: string)
    ensures var led := |name| >= 3 && name[0] in "Pp" && name[1] in "Tt" && IsSpace(name[2]);
            StripPt(name) == if led then TrimStart(name[2..]) else name
  {
    if |name| >= 3 {
      assert Lower(name)[..2] == [LowerChar(name[0]), LowerChar(name[1])];
    }
  }

  function MentionsId(names: map<string, string>, id: string): Document -> bool {
    (d: Document) => Mentions(d, names, id)
  }

  function IdsOfAll(docs: seq<Document>): seq<string> {
    if docs == [] then [] else IdsOfAll(docs[..|docs| - 1]) + [docs[|docs| - 1].id]
  }

  /** The mention index lists the documents that mention an entity, each once and in corpus order. */
  lemma {:induction false} MentionsInOrder(docs: seq<Document>, names: map<string, string>, id: string)
    ensures MentionDocs(docs, names, id) == IdsOfAll(Filter(docs, MentionsId(names, id)))
  {
    hide TextMentions;
    if docs != [] {
      MentionsInOrder(docs[..|docs| - 1], names, id);
    }
  }

  /** A text mentions an entity whose name, or name without PT, it holds; short names are never looked for. */
  lemma MentionsExactly(d: Document, names: map<string, string>, id: string)
    ensures id in d.entityIds ==> Mentions(d, names, id)
    ensures id !in d.entityIds && id !in names ==> !Mentions(d, names, id)
    ensures id !in d.entityIds && id in names && |names[id]| < 5 ==> !Mentions(d, names, id)
    ensures id !in d.entityIds && id in names && |names[id]| >= 5 ==>
              (Mentions(d, names, id) <==>
               Includes(Lower(d.text), Lower(names[id]))
               || (|StripPt(names[id])| >= 5 && Includes(Lower(d.text), Lower(StripPt(names[id])))))
  {
    hide Includes;
  }

  /** The edges of an entry stand in the order of its relations. */
  lemma {:induction false} EntryEdgesInOrder(id: string, relations: seq<Relation>)
    ensures |EntryEdges(id, relations)| == |relations|
    ensures forall i :: 0 <= i < |relations| ==>
              var r := relations[i]; EntryEdges(id, relations)[i] == Edge(r.subject, r.pred, r.obj, r.retracted, id)
  {
    if relations != [] {
      EntryEdgesInOrder(id, relations[..|relations| - 1]);
    }
  }

  /** The edges of all entries stand in the order of the entries. */
  lemma {:induction false} EveryEdgeInOrder(a: seq<Entry>, b: seq<Entry>)
    ensures EveryEdge(a + b) == EveryEdge(a) + EveryEdge(b)
    ensures forall entry :: EveryEdge([entry]) == EntryEdges(entry.id, entry.relations)
  {
    forall entry ensures EveryEdge([entry]) == EntryEdges(entry.id, entry.relations) {
      assert [entry][..0] == [];
    }
    if b == [] {
      assert a + b == a;
    } else {
      assert (a + b)[..|a + b| - 1] == a + b[..|b| - 1];
      EveryEdgeInOrder(a, b[..|b| - 1]);
    }
  }

  /** The edges a chain may use: asserted, not retracted, and of one of the fifteen positive predicates. */
  lemma PositiveExactly(c: Corpus, e: Edge)
    ensures e in PositiveEdges(c) <==>
            && e in AllEdges(c) && !e.retracted
            && e.pred in ["from_vendor", "received_delivery", "raised_against", "signed_off", "covers", "approved",
                          "for_project", "carried_batch", "contains_serial", "raised", "scoped_to_project",
                          "against_vendor", "filed", "at_warehouse", "involved_batch"]
  {
  }

  /** An edge can start a chain of two when a positive edge goes on from its object in another document. */
  ghost predicate GoesOnFrom(c: Corpus, a: Edge, b: Edge) {
    b in PositiveEdges(c) && b.subject == a.obj && b.docId != a.docId
  }

  /**
   * The edges a medium or hard chain may start from are exactly those that go on once or twice, always in new
   * documents.
   */
  lemma StartersExactly(w: World, c: Corpus, a: Edge)
    requires Summarises(w, c)
    ensures a in w.withSeconds <==> a in PositiveEdges(c) && exists b :: GoesOnFrom(c, a, b)
    ensures a in w.withThirds <==>
            a in PositiveEdges(c) && exists b, e :: GoesOnFrom(c, a, b) && GoesOnFrom(c, b, e) && e.docId != a.docId
  {
    var edges := PositiveEdges(c);
    SecondExactly(c, a);
    assert CanContinue(edges)(a) == HasSecond(edges, a) && CanContinueTwice(edges)(a) == HasThird(edges, a);
    if HasThird(edges, a) {
      var b, e :| b in edges && e in edges && Follows(a)(b) && Follows(b)(e) && e.docId != a.docId;
      assert GoesOnFrom(c, a, b) && GoesOnFrom(c, b, e);
    }
    if b, e :| GoesOnFrom(c, a, b) && GoesOnFrom(c, b, e) && e.docId != a.docId {
      assert Follows(a)(b) && Follows(b)(e);
      assert HasThird(edges, a);
    }
  }

  lemma SecondExactly(c: Corpus, a: Edge)
    ensures HasSecond(PositiveEdges(c), a) <==> exists b :: GoesOnFrom(c, a, b)
  {
    if HasSecond(PositiveEdges(c), a) {
      var b :| b in PositiveEdges(c) && Follows(a)(b);
      assert GoesOnFrom(c, a, b);
    }
    if b :| GoesOnFrom(c, a, b) {
      assert Follows(a)(b);
    }
  }
}
