/**
 * Merging coverage reports (`parseLcov`) and totalling the merge.
 *
 * A report is given as its records; reading digits and paths out of the text is not part of this model.
 */
module LcovMerge {
  import opened Sequences

  datatype Record =
    | File(path: string) | Hits(line: int, count: int) | FunctionsFound(n: int) | FunctionsHit(n: int) | Other

  datatype FileCov = FileCov(lines: map<int, nat>, fFound: nat, fHit: nat)

  type Coverage = map<string, FileCov>

  const NOTHING := FileCov(map[], 0, 0)

  function Max(a: nat, b: int): nat {
    if b > a then b else a
  }

  /** The count a coverage map holds for a line, 0 when the line is unknown. */
  function LineHits(lines: map<int, nat>, line: int): nat {
    if line in lines then lines[line] else 0
  }

  function Apply(cov: FileCov, r: Record): FileCov {
    match r
    case Hits(line, count) => cov.(lines := cov.lines[line := Max(LineHits(cov.lines, line), count)])
    case FunctionsFound(n) => cov.(fFound := Max(cov.fFound, n))
    case FunctionsHit(n) => cov.(fHit := Max(cov.fHit, n))
    case _ => cov
  }

  function Entry(m: Coverage, path: string): FileCov {
    if path in m then m[path] else NOTHING
  }

  /** The file a report is talking about after its records so far. */
  function Current(records: seq<Record>): Option<string> {
    if records == [] then None
    else
      match records[|records| - 1]
      case File(path) => Some(path)
      case _ => Current(records[..|records| - 1])
  }

  /** The map after reading a report into it, record by record. */
  function Parse(records: seq<Record>, into: Coverage): Coverage {
    if records == [] then into
    else
      var m := Parse(records[..|records| - 1], into);
      var r := records[|records| - 1];
      match r
      case File(path) => m[path := Entry(m, path)]
      case _ =>
        match Current(records[..|records| - 1])
        case Some(path) => m[path := Apply(Entry(m, path), r)]
        case None => m
  }

  /** Read a report into the map, in the loop the script uses. */
  method ParseLcov(records: seq<Record>, into: Coverage) returns (m: Coverage)
    ensures m == Parse(records, into)
  {
    m := into;
    var current: Option<string> := None;
    for i := 0 to |records|
      invariant current == Current(records[..i])
      invariant m == Parse(records[..i], into)
    {
      assert records[..i + 1][..i] == records[..i];
      match records[i]
      case File(path) =>
        m := m[path := Entry(m, path)];
        current := Some(path);
      case _ =>
        if current.Some? {
          m := m[current.value := Apply(Entry(m, current.value), records[i])];
        }
    }
    assert records[..|records|] == records;
  }

  // ---------------------------------------------------------------------------------------------
  // The merge is a join
  // ---------------------------------------------------------------------------------------------

  function JoinLines(a: map<int, nat>, b: map<int, nat>): map<int, nat> {
    map line | line in a.Keys + b.Keys :: Max(LineHits(a, line), LineHits(b, line))
  }

  function JoinFile(a: FileCov, b: FileCov): FileCov {
    FileCov(JoinLines(a.lines, b.lines), Max(a.fFound, b.fFound), Max(a.fHit, b.fHit))
  }

  function Join(a: Coverage, b: Coverage): Coverage {
    map path | path in a.Keys + b.Keys :: JoinFile(Entry(a, path), Entry(b, path))
  }

  lemma JoinLinesAt(a: map<int, nat>, b: map<int, nat>, line: int)
    ensures line in JoinLines(a, b) <==> line in a || line in b
    ensures LineHits(JoinLines(a, b), line) == Max(LineHits(a, line), LineHits(b, line))
  {
  }

  lemma JoinLinesAssociatesAt(a: map<int, nat>, b: map<int, nat>, c: map<int, nat>, line: int)
    ensures var l, r := JoinLines(JoinLines(a, b), c), JoinLines(a, JoinLines(b, c));
            (line in l <==> line in r) && LineHits(l, line) == LineHits(r, line)
  {
    JoinLinesAt(JoinLines(a, b), c, line);
    JoinLinesAt(a, b, line);
    JoinLinesAt(a, JoinLines(b, c), line);
    JoinLinesAt(b, c, line);
  }

  lemma SameLines(l: map<int, nat>, r: map<int, nat>)
    requires forall line :: (line in l <==> line in r) && LineHits(l, line) == LineHits(r, line)
    ensures l == r
  {
    forall line ensures line in l <==> line in r {
      assert LineHits(l, line) == LineHits(r, line);
    }
    forall line | line in l ensures l[line] == r[line] {
      assert LineHits(l, line) == LineHits(r, line);
    }
  }

  lemma JoinLinesAssociates(a: map<int, nat>, b: map<int, nat>, c: map<int, nat>)
    ensures JoinLines(JoinLines(a, b), c) == JoinLines(a, JoinLines(b, c))
  {
    var l, r := JoinLines(JoinLines(a, b), c), JoinLines(a, JoinLines(b, c));
    forall line ensures (line in l <==> line in r) && LineHits(l, line) == LineHits(r, line) {
      JoinLinesAssociatesAt(a, b, c, line);
    }
    SameLines(l, r);
  }

  lemma JoinLinesLaws(a: map<int, nat>, b: map<int, nat>)
    ensures JoinLines(a, b) == JoinLines(b, a)
    ensures JoinLines(a, a) == a && JoinLines(a, map[]) == a
  {
  }

  lemma JoinFileLaws(a: FileCov, b: FileCov, c: FileCov)
    ensures JoinFile(a, b) == JoinFile(b, a)
    ensures JoinFile(a, a) == a && JoinFile(a, NOTHING) == a
    ensures JoinFile(JoinFile(a, b), c) == JoinFile(a, JoinFile(b, c))
  {
    JoinLinesLaws(a.lines, b.lines);
    JoinLinesAssociates(a.lines, b.lines, c.lines);
  }

  lemma JoinCommutes(a: Coverage, b: Coverage)
    ensures Join(a, b) == Join(b, a)
  {
    forall path | path in a.Keys + b.Keys ensures Join(a, b)[path] == Join(b, a)[path] {
      JoinFileLaws(Entry(a, path), Entry(b, path), NOTHING);
    }
  }

  lemma JoinIdempotent(a: Coverage)
    ensures Join(a, a) == a && Join(a, map[]) == a
  {
    forall path | path in a ensures Join(a, a)[path] == a[path] && Join(a, map[])[path] == a[path] {
      JoinFileLaws(a[path], a[path], NOTHING);
    }
  }

  lemma JoinAssociates(a: Coverage, b: Coverage, c: Coverage)
    ensures Join(Join(a, b), c) == Join(a, Join(b, c))
  {
    var l, r := Join(Join(a, b), c), Join(a, Join(b, c));
    forall path ensures (path in l <==> path in r) && Entry(l, path) == Entry(r, path) {
      JoinAssociatesAt(a, b, c, path);
    }
    SameFiles(l, r);
  }

  lemma SameFiles(l: Coverage, r: Coverage)
    requires forall path :: (path in l <==> path in r) && Entry(l, path) == Entry(r, path)
    ensures l == r
  {
    forall path ensures path in l <==> path in r {
      assert Entry(l, path) == Entry(r, path);
    }
    forall path | path in l ensures l[path] == r[path] {
      assert Entry(l, path) == Entry(r, path);
    }
  }

  lemma JoinAssociatesAt(a: Coverage, b: Coverage, c: Coverage, path: string)
    ensures path in Join(Join(a, b), c) <==> path in Join(a, Join(b, c))
    ensures Entry(Join(Join(a, b), c), path) == Entry(Join(a, Join(b, c)), path)
  {
    EntryJoin(Join(a, b), c, path);
    EntryJoin(a, Join(b, c), path);
    EntryJoin(a, b, path);
    EntryJoin(b, c, path);
    JoinFileLaws(Entry(a, path), Entry(b, path), Entry(c, path));
  }

  lemma EntryJoin(a: Coverage, b: Coverage, path: string)
    ensures path in Join(a, b) <==> path in a || path in b
    ensures Entry(Join(a, b), path) == JoinFile(Entry(a, path), Entry(b, path))
  {
    JoinFileLaws(NOTHING, NOTHING, NOTHING);
  }

  lemma ApplyJoin(a: FileCov, b: FileCov, r: Record)
    ensures Apply(JoinFile(a, b), r) == JoinFile(a, Apply(b, r))
  {
    match r
    case Hits(line, count) => HitJoin(a.lines, b.lines, line, count);
    case _ =>
  }

  /** Raising a line after joining is joining after raising it. */
  lemma HitJoin(a: map<int, nat>, b: map<int, nat>, line: int, count: int)
    ensures JoinLines(a, b)[line := Max(LineHits(JoinLines(a, b), line), count)]
         == JoinLines(a, b[line := Max(LineHits(b, line), count)])
  {
    var l := JoinLines(a, b)[line := Max(LineHits(JoinLines(a, b), line), count)];
    var r := JoinLines(a, b[line := Max(LineHits(b, line), count)]);
    assert l.Keys == r.Keys;
    forall other ensures LineHits(l, other) == LineHits(r, other) {
      JoinLinesAt(a, b, other);
      JoinLinesAt(a, b[line := Max(LineHits(b, line), count)], other);
    }
    SameLines(l, r);
  }

  lemma JoinUpdate(a: Coverage, b: Coverage, path: string, x: FileCov)
    ensures Join(a, b[path := x]) == Join(a, b)[path := JoinFile(Entry(a, path), x)]
  {
  }

  /** Reading a report into a map joins the map with what the report says on its own. */
  lemma {:induction false} ParseIsJoin(records: seq<Record>, into: Coverage)
    ensures Parse(records, into) == Join(into, Parse(records, map[]))
  {
    if records == [] {
      JoinIdempotent(into);
    } else {
      var front, r := records[..|records| - 1], records[|records| - 1];
      ParseIsJoin(front, into);
      var alone := Parse(front, map[]);
      var path := match r case File(p) => Some(p) case _ => Current(front);
      if path.Some? {
        EntryJoin(into, alone, path.value);
        if !r.File? {
          ApplyJoin(Entry(into, path.value), Entry(alone, path.value), r);
        }
        JoinUpdate(into, alone, path.value,
                   if r.File? then Entry(alone, path.value) else Apply(Entry(alone, path.value), r));
      }
    }
  }

  /** All reports, merged in the order they were collected. */
  function MergeAll(reports: seq<seq<Record>>): Coverage {
    if reports == [] then map[] else Parse(reports[|reports| - 1], MergeAll(reports[..|reports| - 1]))
  }

  method Merge(reports: seq<seq<Record>>) returns (m: Coverage)
    ensures m == MergeAll(reports)
  {
    m := map[];
    for i := 0 to |reports|
      invariant m == MergeAll(reports[..i])
    {
      assert reports[..i + 1][..i] == reports[..i];
      m := ParseLcov(reports[i], m);
    }
    assert reports[..|reports|] == reports;
  }

  /** Merging in a report that is already among the merged ones changes nothing. */
  lemma {:induction false} MergeAbsorbs(reports: seq<seq<Record>>, r: seq<Record>)
    requires r in reports
    ensures Parse(r, MergeAll(reports)) == MergeAll(reports)
  {
    var front, last := reports[..|reports| - 1], reports[|reports| - 1];
    var m, x, y := MergeAll(front), Parse(r, map[]), Parse(last, map[]);
    ParseIsJoin(last, m);
    ParseIsJoin(r, MergeAll(reports));
    JoinAssociates(m, y, x);
    if r == last {
      JoinIdempotent(x);
    } else {
      MergeAbsorbs(front, r);
      ParseIsJoin(r, m);
      JoinCommutes(y, x);
      JoinAssociates(m, x, y);
    }
  }

  lemma {:induction false} MergeAbsorbsAll(reports: seq<seq<Record>>, more: seq<seq<Record>>)
    requires forall r :: r in more ==> r in reports
    ensures MergeAll(reports + more) == MergeAll(reports)
  {
    if more == [] {
      assert reports + more == reports;
    } else {
      var front, last := more[..|more| - 1], more[|more| - 1];
      assert (reports + more)[..|reports + more| - 1] == reports + front;
      MergeAbsorbsAll(reports, front);
      MergeAbsorbs(reports, last);
    }
  }

  lemma {:induction false} MergeConcat(a: seq<seq<Record>>, b: seq<seq<Record>>)
    ensures MergeAll(a + b) == Join(MergeAll(a), MergeAll(b))
  {
    if b == [] {
      assert a + b == a;
      JoinIdempotent(MergeAll(a));
    } else {
      var front, last := b[..|b| - 1], b[|b| - 1];
      assert (a + b)[..|a + b| - 1] == a + front;
      MergeConcat(a, front);
      ParseIsJoin(last, MergeAll(a + front));
      ParseIsJoin(last, MergeAll(front));
      JoinAssociates(MergeAll(a), MergeAll(front), Parse(last, map[]));
    }
  }

  /** The merge depends only on which reports there are: not on their order, and not on how often one is read. */
  lemma {:induction false} MergeDependsOnSet(a: seq<seq<Record>>, b: seq<seq<Record>>)
    requires forall r :: r in a <==> r in b
    ensures MergeAll(a) == MergeAll(b)
  {
    MergeAbsorbsAll(a, b);
    MergeAbsorbsAll(b, a);
    MergeConcat(a, b);
    MergeConcat(b, a);
    JoinCommutes(MergeAll(a), MergeAll(b));
  }

  // ---------------------------------------------------------------------------------------------
  // What the numbers mean
  // ---------------------------------------------------------------------------------------------

  ghost predicate Covered(m: Coverage, path: string, line: int) {
    path in m && LineHits(m[path].lines, line) > 0
  }

  lemma CoveredByJoin(a: Coverage, b: Coverage, path: string, line: int)
    ensures Covered(Join(a, b), path, line) <==> Covered(a, path, line) || Covered(b, path, line)
  {
  }

  lemma NothingCovered(path: string, line: int)
    ensures !Covered(MergeAll([]), path, line)
  {
  }

  /** A line ends up covered exactly when some report, read on its own, covers it. */
  lemma {:induction false} CoveredExactly(reports: seq<seq<Record>>, path: string, line: int)
    ensures Covered(MergeAll(reports), path, line)
       <==> exists i :: 0 <= i < |reports| && Covered(Parse(reports[i], map[]), path, line)
  {
    hide Parse, Join, Covered;
    if reports == [] {
      NothingCovered(path, line);
    } else {
      var front, last := reports[..|reports| - 1], reports[|reports| - 1];
      CoveredExactly(front, path, line);
      ParseIsJoin(last, MergeAll(front));
      CoveredByJoin(MergeAll(front), Parse(last, map[]), path, line);
      if exists i :: 0 <= i < |front| && Covered(Parse(front[i], map[]), path, line) {
        var i :| 0 <= i < |front| && Covered(Parse(front[i], map[]), path, line);
        assert reports[i] == front[i];
      }
      if exists i :: 0 <= i < |reports| && Covered(Parse(reports[i], map[]), path, line) {
        var i :| 0 <= i < |reports| && Covered(Parse(reports[i], map[]), path, line);
        assert i < |front| ==> front[i] == reports[i];
      }
    }
  }

  /** The lines of one file that some report hit. */
  function HitLines(cov: FileCov): set<int> {
    set line | line in cov.lines && cov.lines[line] > 0
  }

  /** The number a file's row shows as hit; it never falls when a report is added. */
  lemma {:induction false} HitsNeverFall(m: Coverage, records: seq<Record>, path: string)
    ensures |HitLines(Entry(m, path))| <= |HitLines(Entry(Parse(records, m), path))|
    ensures Entry(m, path).lines.Keys <= Entry(Parse(records, m), path).lines.Keys
  {
    var alone := Parse(records, map[]);
    ParseIsJoin(records, m);
    EntryJoin(m, alone, path);
    SubsetCardinality(HitLines(Entry(m, path)), HitLines(Entry(Parse(records, m), path)));
  }
}
