/** The dev/held-out split by distinct question text, deduplication by text, and the duplicate statistics. */
module QuestionSplit {
  import opened Sequences
  import opened Text

  datatype Row = Row(question: string, id: string, evidence: seq<string>)

  function HasText(t: string): Row -> bool {
    (q: Row) => q.question == t
  }

  /** The distinct texts, in order of first occurrence. */
  function Texts(rows: seq<Row>): seq<string> {
    if rows == [] then []
    else
      var front, last := Texts(rows[..|rows| - 1]), rows[|rows| - 1];
      if last.question in front then front else front + [last.question]
  }

  lemma {:induction false} TextsLaws(rows: seq<Row>)
    ensures Distinct(Texts(rows)) && forall t :: t in Texts(rows) <==> exists q :: q in rows && q.question == t
  {
    if rows != [] {
      var front, last := rows[..|rows| - 1], rows[|rows| - 1];
      TextsLaws(front);
      assert rows == front + [last] && last in rows;
    }
  }

  lemma {:induction false} TextOf(rows: seq<Row>, q: Row)
    requires q in rows
    ensures q.question in Texts(rows)
  {
    TextsLaws(rows);
  }

  function Group(rows: seq<Row>, t: string): seq<Row> {
    Filter(rows, HasText(t))
  }

  /** The rows of some texts, text by text. */
  function Gather(rows: seq<Row>, texts: seq<string>): seq<Row> {
    if texts == [] then [] else Gather(rows, texts[..|texts| - 1]) + Group(rows, texts[|texts| - 1])
  }

  /** Every other text, beginning with the first (`even`) or the second. */
  function Alternate(texts: seq<string>, even: bool): seq<string> {
    if texts == [] then []
    else
      var front := Alternate(texts[..|texts| - 1], even);
      if ((|texts| - 1) % 2 == 0) == even then front + [texts[|texts| - 1]] else front
  }

  function Side(rows: seq<Row>, even: bool): seq<Row> {
    Gather(rows, Alternate(Texts(rows), even))
  }

  /** The first row of every text. */
  function Dedupe(rows: seq<Row>): seq<Row> {
    if rows == [] then []
    else
      var front, last := rows[..|rows| - 1], rows[|rows| - 1];
      if last.question in Texts(front) then Dedupe(front) else Dedupe(front) + [last]
  }

  function Evidences(group: seq<Row>): set<string> {
    set q | q in group :: Join(q.evidence, "|")
  }

  /** The rows whose text also appears with other evidence. */
  function Conflicting(rows: seq<Row>, texts: seq<string>): nat {
    if texts == [] then 0
    else
      var group := Group(rows, texts[|texts| - 1]);
      Conflicting(rows, texts[..|texts| - 1]) + if |group| >= 2 && |Evidences(group)| > 1 then |group| else 0
  }

  // ----- the alternation -----

  lemma {:induction false} AlternateLength(texts: seq<string>)
    ensures |Alternate(texts, true)| == (|texts| + 1) / 2 && |Alternate(texts, false)| == |texts| / 2
  {
    if texts != [] {
      AlternateLength(texts[..|texts| - 1]);
    }
  }

  lemma {:induction false} AlternateSplits(texts: seq<string>)
    requires Distinct(texts)
    ensures Distinct(Alternate(texts, true)) && Distinct(Alternate(texts, false))
    ensures forall t :: t in texts <==> t in Alternate(texts, true) || t in Alternate(texts, false)
    ensures forall t :: !(t in Alternate(texts, true) && t in Alternate(texts, false))
  {
    if texts != [] {
      var front, last := texts[..|texts| - 1], texts[|texts| - 1];
      AlternateSplits(front);
      assert texts == front + [last] && last !in front;
    }
  }

  // ----- conservation -----

  lemma {:induction false} GroupCount(rows: seq<Row>, t: string, q: Row)
    ensures Count(Group(rows, t), q) == if q.question == t then Count(rows, q) else 0
  {
    if rows != [] {
      var front, last := rows[..|rows| - 1], rows[|rows| - 1];
      GroupCount(front, t, q);
      if last.question == t {
        assert (Group(front, t) + [last])[..|Group(front, t)|] == Group(front, t);
      }
    }
  }

  lemma {:induction false} GatherCount(rows: seq<Row>, texts: seq<string>, q: Row)
    requires Distinct(texts)
    ensures Count(Gather(rows, texts), q) == if q.question in texts then Count(rows, q) else 0
  {
    if texts != [] {
      var front, last := texts[..|texts| - 1], texts[|texts| - 1];
      GatherCount(rows, front, q);
      CountConcat(Gather(rows, front), Group(rows, last), q);
      GroupCount(rows, last, q);
      assert texts == front + [last];
    }
  }

  lemma {:induction false} CountAbsent(rows: seq<Row>, q: Row)
    requires q !in rows
    ensures Count(rows, q) == 0
  {
    if rows != [] {
      CountAbsent(rows[..|rows| - 1], q);
    }
  }

  /** Every row lands on one side, as often as it occurs. */
  lemma {:induction false} SplitConserves(rows: seq<Row>, q: Row)
    ensures Count(Side(rows, true), q) + Count(Side(rows, false), q) == Count(rows, q)
  {
    var texts := Texts(rows);
    TextsLaws(rows);
    AlternateSplits(texts);
    GatherCount(rows, Alternate(texts, true), q);
    GatherCount(rows, Alternate(texts, false), q);
    if q.question !in texts {
      CountAbsent(rows, q);
    }
  }

  // ----- the texts of a side -----

  /** Appending rows of one new text appends that text. */
  lemma {:induction false} TextsAppend(a: seq<Row>, g: seq<Row>, t: string)
    requires t !in Texts(a) && forall q :: q in g ==> q.question == t
    ensures Texts(a + g) == if g == [] then Texts(a) else Texts(a) + [t]
  {
    if g == [] {
      assert a + g == a;
    } else {
      var front, last := g[..|g| - 1], g[|g| - 1];
      TextsAppend(a, front, t);
      assert (a + g)[..|a + g| - 1] == a + front && (a + g)[|a + g| - 1] == last;
      assert last in g;
    }
  }

  lemma {:induction false} TextsSnoc(rows: seq<Row>, q: Row)
    ensures Texts(rows + [q]) == if q.question in Texts(rows) then Texts(rows) else Texts(rows) + [q.question]
  {
    assert (rows + [q])[..|rows|] == rows;
  }

  lemma {:induction false} GroupOccupied(rows: seq<Row>, t: string)
    ensures Group(rows, t) != [] <==> t in Texts(rows)
  {
    TextsLaws(rows);
    if Group(rows, t) != [] {
      var q := Group(rows, t)[0];
      assert q in Group(rows, t);
    }
    if t in Texts(rows) {
      var q :| q in rows && q.question == t;
      assert q in Group(rows, t);
    }
  }

  lemma {:induction false} GatherTexts(rows: seq<Row>, texts: seq<string>)
    requires Distinct(texts) && forall t :: t in texts ==> t in Texts(rows)
    ensures Texts(Gather(rows, texts)) == texts
  {
    if texts != [] {
      var front, last := texts[..|texts| - 1], texts[|texts| - 1];
      assert texts == front + [last] && last !in front;
      GatherTexts(rows, front);
      GroupOccupied(rows, last);
      TextsAppend(Gather(rows, front), Group(rows, last), last);
    }
  }

  /** Each side holds exactly every other text, in the order of first occurrence. */
  lemma {:induction false} SideTexts(rows: seq<Row>, even: bool)
    ensures Texts(Side(rows, even)) == Alternate(Texts(rows), even)
  {
    TextsLaws(rows);
    AlternateSplits(Texts(rows));
    GatherTexts(rows, Alternate(Texts(rows), even));
  }

  /** No text is on both sides, and dev has as many texts as held-out or one more. */
  lemma {:induction false} SplitIsDisjointAndBalanced(rows: seq<Row>)
    ensures forall p, q :: p in Side(rows, true) && q in Side(rows, false) ==> p.question != q.question
    ensures var d, h := |Texts(Side(rows, true))|, |Texts(Side(rows, false))|; d == h || d == h + 1
    ensures |Texts(Side(rows, true))| + |Texts(Side(rows, false))| == |Texts(rows)|
  {
    SideTexts(rows, true);
    SideTexts(rows, false);
    TextsLaws(rows);
    AlternateSplits(Texts(rows));
    AlternateLength(Texts(rows));
    forall p, q | p in Side(rows, true) && q in Side(rows, false) ensures p.question != q.question {
      TextOf(Side(rows, true), p);
      TextOf(Side(rows, false), q);
    }
  }

  // ----- deduplication -----

  lemma {:induction false} DedupeTexts(rows: seq<Row>)
    ensures Texts(Dedupe(rows)) == Texts(rows) && |Dedupe(rows)| == |Texts(rows)|
  {
    if rows != [] {
      var front, last := rows[..|rows| - 1], rows[|rows| - 1];
      DedupeTexts(front);
      if last.question !in Texts(front) {
        assert (Dedupe(front) + [last])[..|Dedupe(front)|] == Dedupe(front);
      }
    }
  }

  lemma {:induction false} DedupeSnoc(rows: seq<Row>, q: Row)
    ensures Dedupe(rows + [q]) == if q.question in Texts(rows) then Dedupe(rows) else Dedupe(rows) + [q]
  {
    assert (rows + [q])[..|rows|] == rows;
  }

  lemma DedupeNothing()
    ensures Dedupe([]) == []
  {
  }

  lemma {:induction false} DedupeAppend(a: seq<Row>, g: seq<Row>, t: string)
    requires t !in Texts(a) && forall q :: q in g ==> q.question == t
    ensures Dedupe(a + g) == Dedupe(a) + Dedupe(g)
  {
    hide Dedupe, Texts;
    if g == [] {
      DedupeNothing();
      assert a + g == a;
    } else {
      DedupeAppend(a, g[..|g| - 1], t);
      DedupeAppendLast(a, g[..|g| - 1], g[|g| - 1], t);
      assert g == g[..|g| - 1] + [g[|g| - 1]];
    }
  }

  lemma {:induction false} DedupeAppendLast(a: seq<Row>, front: seq<Row>, last: Row, t: string)
    requires t !in Texts(a) && last.question == t && forall q :: q in front ==> q.question == t
    requires Dedupe(a + front) == Dedupe(a) + Dedupe(front)
    ensures Dedupe(a + (front + [last])) == Dedupe(a) + Dedupe(front + [last])
  {
    hide Dedupe, Texts;
    TextsAppend(a, front, t);
    TextsOfOne(front, t);
    DedupeAppendOne(a, front, last);
    assert a + (front + [last]) == a + front + [last];
  }

  lemma {:induction false} DedupeAppendOne(a: seq<Row>, front: seq<Row>, last: Row)
    requires Dedupe(a + front) == Dedupe(a) + Dedupe(front)
    requires last.question in Texts(a + front) <==> last.question in Texts(front)
    ensures Dedupe(a + front + [last]) == Dedupe(a) + Dedupe(front + [last])
  {
    DedupeSnoc(a + front, last);
    DedupeSnoc(front, last);
  }

  lemma {:induction false} TextsOfOne(g: seq<Row>, t: string)
    requires forall q :: q in g ==> q.question == t
    ensures t in Texts(g) <==> g != []
  {
    if g != [] {
      TextOf(g, g[0]);
    }
    TextsLaws(g);
  }

  lemma GroupSnoc(rows: seq<Row>, q: Row, t: string)
    ensures Group(rows + [q], t) == if q.question == t then Group(rows, t) + [q] else Group(rows, t)
  {
    assert (rows + [q])[..|rows|] == rows;
  }

  lemma {:induction false} DedupeGroup(rows: seq<Row>, t: string)
    ensures Dedupe(Group(rows, t)) == Group(Dedupe(rows), t)
  {
    if rows != [] {
      var front, last := rows[..|rows| - 1], rows[|rows| - 1];
      DedupeGroup(front, t);
      GroupSnoc(Dedupe(front), last, t);
      if last.question == t {
        var g := Group(front, t);
        assert (g + [last])[..|g|] == g;
        TextsOfOne(g, t);
        GroupOccupied(front, t);
      }
    }
  }

  lemma {:induction false} DedupeGather(rows: seq<Row>, texts: seq<string>)
    requires Distinct(texts) && forall t :: t in texts ==> t in Texts(rows)
    ensures Dedupe(Gather(rows, texts)) == Gather(Dedupe(rows), texts)
  {
    if texts != [] {
      var front, last := texts[..|texts| - 1], texts[|texts| - 1];
      assert texts == front + [last] && last !in front;
      DedupeGather(rows, front);
      GatherTexts(rows, front);
      DedupeAppend(Gather(rows, front), Group(rows, last), last);
      DedupeGroup(rows, last);
    }
  }

  /** Deduplicating and then splitting is the same as splitting and then deduplicating each side. */
  lemma {:induction false} SplitCommutesWithDedupe(rows: seq<Row>, even: bool)
    ensures Side(Dedupe(rows), even) == Dedupe(Side(rows, even))
  {
    DedupeTexts(rows);
    TextsLaws(rows);
    AlternateSplits(Texts(rows));
    DedupeGather(rows, Alternate(Texts(rows), even));
  }

  // ----- conflicts -----

  ghost predicate Agree(rows: seq<Row>, t: string) {
    forall p, q :: p in rows && q in rows && p.question == q.question == t ==>
      Join(p.evidence, "|") == Join(q.evidence, "|")
  }

  lemma OneEvidence(rows: seq<Row>, t: string)
    ensures |Group(rows, t)| >= 2 && |Evidences(Group(rows, t))| > 1 <==> !Agree(rows, t)
  {
    var group := Group(rows, t);
    var all := Evidences(group);
    if Agree(rows, t) {
      if group != [] {
        assert group[0] in group;
        assert all == {Join(group[0].evidence, "|")};
      }
    } else {
      var p, q :| p in rows && q in rows && p.question == q.question == t
        && Join(p.evidence, "|") != Join(q.evidence, "|");
      assert p in group && q in group;
      assert {Join(p.evidence, "|"), Join(q.evidence, "|")} <= all;
      SubsetCardinality({Join(p.evidence, "|"), Join(q.evidence, "|")}, all);
      TwoMembers(group, p, q);
    }
  }

  lemma TwoMembers(group: seq<Row>, p: Row, q: Row)
    requires p in group && q in group && p != q
    ensures |group| >= 2
  {
    var i :| 0 <= i < |group| && group[i] == p;
    var j :| 0 <= j < |group| && group[j] == q;
  }

  lemma {:induction false} ConflictsAmong(rows: seq<Row>, texts: seq<string>)
    ensures Conflicting(rows, texts) == 0 <==> forall t :: t in texts ==> Agree(rows, t)
  {
    if texts != [] {
      var front, last := texts[..|texts| - 1], texts[|texts| - 1];
      ConflictsAmong(rows, front);
      OneEvidence(rows, last);
      assert texts == front + [last];
    }
  }

  /** No conflicts are counted exactly when rows of the same text always have the same joined evidence. */
  lemma {:induction false} NoConflictsExactly(rows: seq<Row>)
    ensures Conflicting(rows, Texts(rows)) == 0
            <==> forall p, q :: p in rows && q in rows && p.question == q.question ==>
                 Join(p.evidence, "|") == Join(q.evidence, "|")
  {
    ConflictsAmong(rows, Texts(rows));
    TextsLaws(rows);
    if forall t :: t in Texts(rows) ==> Agree(rows, t) {
      forall p, q | p in rows && q in rows && p.question == q.question
        ensures Join(p.evidence, "|") == Join(q.evidence, "|")
      {
        assert Agree(rows, p.question);
      }
    }
  }

  // ----- the loops -----

  /** An insertion-ordered map from text to rows. */
  ghost predicate IsGrouping(rows: seq<Row>, order: seq<string>, groups: map<string, seq<Row>>) {
    order == Texts(rows) && groups.Keys == Elements(order) && forall t :: t in groups ==> groups[t] == Group(rows, t)
  }

  method AddRow(ghost rows: seq<Row>, order: seq<string>, groups: map<string, seq<Row>>, q: Row)
    returns (order': seq<string>, groups': map<string, seq<Row>>)
    requires IsGrouping(rows, order, groups)
    ensures IsGrouping(rows + [q], order', groups')
  {
    hide Texts, Group;
    TextsSnoc(rows, q);
    forall t ensures Group(rows + [q], t) == if q.question == t then Group(rows, t) + [q] else Group(rows, t) {
      GroupSnoc(rows, q, t);
    }
    GroupOccupied(rows, q.question);
    if q.question in groups {
      order', groups' := order, groups[q.question := groups[q.question] + [q]];
    } else {
      order', groups' := order + [q.question], groups[q.question := [q]];
    }
  }

  method GroupByText(rows: seq<Row>) returns (order: seq<string>, groups: map<string, seq<Row>>)
    ensures IsGrouping(rows, order, groups)
  {
    order, groups := [], map[];
    for i := 0 to |rows|
      invariant IsGrouping(rows[..i], order, groups)
    {
      assert rows[..i + 1] == rows[..i] + [rows[i]];
      order, groups := AddRow(rows[..i], order, groups, rows[i]);
    }
    assert rows[..|rows|] == rows;
  }

  method SplitQuestions(rows: seq<Row>) returns (dev: seq<Row>, heldOut: seq<Row>)
    ensures dev == Side(rows, true) && heldOut == Side(rows, false)
  {
    var order, groups := GroupByText(rows);
    dev, heldOut := [], [];
    for i := 0 to |order|
      invariant dev == Gather(rows, Alternate(order[..i], true))
      invariant heldOut == Gather(rows, Alternate(order[..i], false))
    {
      AlternateSnoc(rows, order, i, true);
      AlternateSnoc(rows, order, i, false);
      assert order[i] in Elements(order);
      if i % 2 == 0 {
        dev := dev + groups[order[i]];
      } else {
        heldOut := heldOut + groups[order[i]];
      }
    }
    assert order[..|order|] == order;
  }

  lemma {:induction false} AlternateSnoc(rows: seq<Row>, texts: seq<string>, i: nat, even: bool)
    requires i < |texts|
    ensures Gather(rows, Alternate(texts[..i + 1], even))
            == Gather(rows, Alternate(texts[..i], even)) + if (i % 2 == 0) == even then Group(rows, texts[i]) else []
  {
    assert texts[..i + 1][..i] == texts[..i];
    GatherSnoc(rows, Alternate(texts[..i], even), texts[i]);
  }

  lemma {:induction false} GatherSnoc(rows: seq<Row>, texts: seq<string>, t: string)
    ensures Gather(rows, texts + [t]) == Gather(rows, texts) + Group(rows, t)
  {
    assert (texts + [t])[..|texts|] == texts;
  }

  method DedupeByText(rows: seq<Row>) returns (out: seq<Row>)
    ensures out == Dedupe(rows)
  {
    out := [];
    var seen: set<string> := {};
    for i := 0 to |rows|
      invariant out == Dedupe(rows[..i]) && seen == Elements(Texts(rows[..i]))
    {
      assert rows[..i + 1][..i] == rows[..i];
      if rows[i].question in seen {
        continue;
      }
      seen := seen + {rows[i].question};
      out := out + [rows[i]];
    }
    assert rows[..|rows|] == rows;
  }

  datatype Stats = Stats(rows: nat, distinctTexts: nat, collapsedRows: int, conflictingRows: nat, straddlingTexts: nat)

  method CountConflicts(rows: seq<Row>, order: seq<string>, groups: map<string, seq<Row>>) returns (n: nat)
    requires IsGrouping(rows, order, groups)
    ensures n == Conflicting(rows, order)
  {
    n := 0;
    for i := 0 to |order|
      invariant n == Conflicting(rows, order[..i])
    {
      assert order[..i + 1][..i] == order[..i];
      assert order[i] in Elements(order);
      var group := groups[order[i]];
      if |group| < 2 {
        continue;
      }
      if |Evidences(group)| > 1 {
        n := n + |group|;
      }
    }
    assert order[..|order|] == order;
  }

  lemma NoStraddling(rows: seq<Row>, dev: seq<Row>, heldOut: seq<Row>)
    requires dev == Side(rows, true) && heldOut == Side(rows, false)
    ensures forall q :: q in heldOut ==> q.question !in (set p | p in dev :: p.question)
  {
    SplitIsDisjointAndBalanced(rows);
  }

  /** The statistics every report prints; no text ever straddles the split. */
  method DuplicateStats(rows: seq<Row>) returns (s: Stats)
    ensures s.rows == |rows| && s.distinctTexts == |Texts(rows)| && s.collapsedRows == |rows| - |Dedupe(rows)|
    ensures s.conflictingRows == Conflicting(rows, Texts(rows)) && s.straddlingTexts == 0
  {
    var order, groups := GroupByText(rows);
    var conflicting := CountConflicts(rows, order, groups);
    var dev, heldOut := SplitQuestions(rows);
    var devTexts := set q | q in dev :: q.question;
    var straddling := set q | q in heldOut && q.question in devTexts :: q.question;
    NoStraddling(rows, dev, heldOut);
    DedupeTexts(rows);
    TextsLaws(rows);
    DistinctCardinality(order);
    assert straddling == {} && |groups| == |groups.Keys|;
    s := Stats(|rows|, |groups|, |rows| - |groups|, conflicting, |straddling|);
  }
}
