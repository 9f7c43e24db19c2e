/** What the merged coverage says, in terms of the records of the reports alone. */
module LcovMeaning {
  import opened Sequences
  import opened LcovMerge

  type Report = seq<Record>

  /** Record `i` stands in the section of a file: the last file named before it is this one. */
  ghost predicate InSection(records: Report, i: nat, path: string) {
    exists k: nat :: IsHeading(records, k, i, path)
  }

  ghost predicate IsHeading(records: Report, k: nat, i: nat, path: string) {
    k < i <= |records| && records[k] == File(path) && forall j :: k < j < i ==> !records[j].File?
  }

  /** Record `i` says this about the file. */
  ghost predicate Says(records: Report, i: nat, path: string, r: Record) {
    i < |records| && records[i] == r && InSection(records, i, path)
  }

  lemma HeadingOfPrefix(records: Report, k: nat, i: nat, n: nat, path: string)
    requires i <= n <= |records|
    ensures IsHeading(records[..n], k, i, path) <==> IsHeading(records, k, i, path)
  {
  }

  lemma SectionOfPrefix(records: Report, i: nat, n: nat, path: string)
    requires i <= n <= |records|
    ensures InSection(records[..n], i, path) <==> InSection(records, i, path)
  {
    hide IsHeading;
    forall k: nat ensures IsHeading(records[..n], k, i, path) <==> IsHeading(records, k, i, path) {
      HeadingOfPrefix(records, k, i, n, path);
    }
  }

  /** What the records before the last one say, the whole report says. */
  lemma SaysOfPrefix(records: Report, i: nat, n: nat, path: string, r: Record)
    requires i < n <= |records|
    ensures Says(records[..n], i, path, r) <==> Says(records, i, path, r)
  {
    SectionOfPrefix(records, i, n, path);
  }

  lemma HeadingStep(records: Report, path: string)
    requires records != []
    ensures InSection(records, |records|, path)
       <==> if records[|records| - 1].File? then records[|records| - 1] == File(path)
            else InSection(records[..|records| - 1], |records| - 1, path)
  {
    var last: nat := |records| - 1;
    if records[last].File? {
      if records[last] == File(path) {
        assert IsHeading(records, last, |records|, path);
      }
      if k: nat :| IsHeading(records, k, |records|, path) {
        assert k == last;
      }
    } else {
      SectionOfPrefix(records, last, last, path);
      if k: nat :| IsHeading(records, k, |records|, path) {
        assert IsHeading(records, k, last, path);
      }
      if k: nat :| IsHeading(records, k, last, path) {
        assert IsHeading(records, k, |records|, path);
      }
    }
  }

  /** The file a report is talking about is the last one it named. */
  lemma {:induction false} CurrentIsLastNamed(records: Report, path: string)
    ensures Current(records) == Some(path) <==> InSection(records, |records|, path)
  {
    if records != [] {
      HeadingStep(records, path);
      CurrentIsLastNamed(records[..|records| - 1], path);
    }
  }

  lemma SaysLast(records: Report, path: string, r: Record)
    requires records != []
    ensures Says(records, |records| - 1, path, r)
       <==> records[|records| - 1] == r && Current(records[..|records| - 1]) == Some(path)
  {
    CurrentIsLastNamed(records[..|records| - 1], path);
    SectionOfPrefix(records, |records| - 1, |records| - 1, path);
  }

  /** A file is in the map exactly when the report names it. */
  lemma {:induction false} FileKnownExactly(records: Report, path: string)
    ensures path in Parse(records, map[]) <==> File(path) in records
  {
    if records != [] {
      var front, last := records[..|records| - 1], records[|records| - 1];
      assert records == front + [last];
      FileKnownExactly(front, path);
      if Current(front).Some? {
        CurrentIsNamed(front);
        FileKnownExactly(front, Current(front).value);
      }
    }
  }

  lemma {:induction false} CurrentIsNamed(records: Report)
    requires Current(records).Some?
    ensures File(Current(records).value) in records
  {
    var front, last := records[..|records| - 1], records[|records| - 1];
    assert records == front + [last];
    if !last.File? {
      CurrentIsNamed(front);
    }
  }

  // ----- one report -----

  lemma EntryStep(records: Report, path: string)
    requires records != []
    ensures var front, last := records[..|records| - 1], records[|records| - 1];
            Entry(Parse(records, map[]), path)
            == if Current(front) == Some(path) then Apply(Entry(Parse(front, map[]), path), last)
               else Entry(Parse(front, map[]), path)
  {
  }

  ghost predicate SaysSome(records: Report, path: string, line: int) {
    exists i: nat, c: int :: Says(records, i, path, Hits(line, c))
  }

  lemma SaysSomeStep(records: Report, path: string, line: int)
    requires records != []
    ensures var front, last := records[..|records| - 1], records[|records| - 1];
            SaysSome(records, path, line)
            <==> SaysSome(front, path, line)
                 || (last.Hits? && last.line == line && Current(front) == Some(path))
  {
    hide Says;
    var n: nat := |records| - 1;
    var front, last := records[..n], records[n];
    if i: nat, c: int :| Says(records, i, path, Hits(line, c)) {
      SaysWhere(records, i, path, Hits(line, c));
      if i < n {
        SaysOfPrefix(records, i, n, path, Hits(line, c));
      } else {
        SaysLast(records, path, Hits(line, c));
      }
    }
    if i: nat, c: int :| Says(front, i, path, Hits(line, c)) {
      SaysWhere(front, i, path, Hits(line, c));
      SaysOfPrefix(records, i, n, path, Hits(line, c));
    }
    if last.Hits? && last.line == line && Current(front) == Some(path) {
      SaysLast(records, path, last);
      assert Says(records, n, path, Hits(line, last.count));
    }
  }

  lemma SaysWhere(records: Report, i: nat, path: string, r: Record)
    requires Says(records, i, path, r)
    ensures i < |records|
  {
  }

  /** A line of a file is known exactly when a hit record in one of its sections names it. */
  lemma {:induction false} LineKnownExactly(records: Report, path: string, line: int)
    ensures line in Entry(Parse(records, map[]), path).lines <==> SaysSome(records, path, line)
  {
    hide Parse, Current, Says;
    if records != [] {
      EntryStep(records, path);
      SaysSomeStep(records, path, line);
      LineKnownExactly(records[..|records| - 1], path, line);
    } else {
      NothingRead(path);
    }
  }

  lemma NothingRead(path: string)
    ensures Entry(Parse([], map[]), path) == NOTHING
    ensures forall i: nat, r :: !Says([], i, path, r)
  {
  }

  /** The three numbers a record can carry about a file. */
  datatype Figure = LineFigure(line: int) | FoundFigure | HitFigure

  function RecordOf(figure: Figure, n: int): Record {
    match figure
    case LineFigure(line) => Hits(line, n)
    case FoundFigure => FunctionsFound(n)
    case HitFigure => FunctionsHit(n)
  }

  function FigureIn(cov: FileCov, figure: Figure): nat {
    match figure
    case LineFigure(line) => LineHits(cov.lines, line)
    case FoundFigure => cov.fFound
    case HitFigure => cov.fHit
  }

  /** A figure is the largest number said about it, or 0. */
  ghost predicate IsLargestSaid(records: Report, path: string, figure: Figure, n: nat) {
    && (forall i: nat, c: int :: Says(records, i, path, RecordOf(figure, c)) ==> c <= n)
    && (n == 0 || exists i: nat :: Says(records, i, path, RecordOf(figure, n)))
  }

  lemma ApplyFigure(cov: FileCov, r: Record, figure: Figure)
    ensures FigureIn(Apply(cov, r), figure)
         == match (figure, r)
            case (LineFigure(line), Hits(other, c)) =>
              if line == other then Max(FigureIn(cov, figure), c) else FigureIn(cov, figure)
            case (FoundFigure, FunctionsFound(c)) => Max(cov.fFound, c)
            case (HitFigure, FunctionsHit(c)) => Max(cov.fHit, c)
            case _ => FigureIn(cov, figure)
  {
  }

  lemma LargestStep(records: Report, path: string, figure: Figure, before: nat, now: nat)
    requires records != [] && IsLargestSaid(records[..|records| - 1], path, figure, before)
    requires var front, last := records[..|records| - 1], records[|records| - 1];
             now == if Current(front) == Some(path) && exists c: int :: last == RecordOf(figure, c)
                    then Max(before, NumberOf(last)) else before
    ensures IsLargestSaid(records, path, figure, now)
  {
    hide Says;
    var n: nat := |records| - 1;
    var front, last := records[..n], records[n];
    forall i: nat, c: int | Says(records, i, path, RecordOf(figure, c)) ensures c <= now {
      SaysWhere(records, i, path, RecordOf(figure, c));
      if i < n {
        SaysOfPrefix(records, i, n, path, RecordOf(figure, c));
      } else {
        SaysLast(records, path, RecordOf(figure, c));
      }
    }
    if now == before && now > 0 {
      var i: nat :| Says(front, i, path, RecordOf(figure, now));
      SaysWhere(front, i, path, RecordOf(figure, now));
      SaysOfPrefix(records, i, n, path, RecordOf(figure, now));
    } else if now > before {
      SaysLast(records, path, last);
      assert Says(records, n, path, RecordOf(figure, now));
    }
  }

  /** The number a record carries. */
  function NumberOf(r: Record): int {
    match r
    case Hits(_, c) => c
    case FunctionsFound(c) => c
    case FunctionsHit(c) => c
    case _ => 0
  }

  /** What a report, read on its own, records of a file: each figure is the largest number its sections say. */
  lemma {:induction false} FigureIsLargest(records: Report, path: string, figure: Figure)
    ensures IsLargestSaid(records, path, figure, FigureIn(Entry(Parse(records, map[]), path), figure))
  {
    hide Parse, Current, IsLargestSaid;
    if records == [] {
      NothingSaid(path, figure);
    } else {
      var front, last := records[..|records| - 1], records[|records| - 1];
      FigureIsLargest(front, path, figure);
      EntryStep(records, path);
      ApplyFigure(Entry(Parse(front, map[]), path), last, figure);
      CarriesFigure(last, figure);
      LargestStep(records, path, figure, FigureIn(Entry(Parse(front, map[]), path), figure),
                  FigureIn(Entry(Parse(records, map[]), path), figure));
    }
  }

  lemma CarriesFigure(r: Record, figure: Figure)
    ensures (exists c: int :: r == RecordOf(figure, c)) <==> r == RecordOf(figure, NumberOf(r))
  {
  }

  lemma NothingSaid(path: string, figure: Figure)
    ensures IsLargestSaid([], path, figure, FigureIn(Entry(Parse([], map[]), path), figure))
  {
    NothingRead(path);
  }

  // ----- the merge -----

  ghost predicate IsLargestOfAll(reports: seq<Report>, path: string, figure: Figure, n: nat) {
    && (forall r: nat, i: nat, c: int :: r < |reports| && Says(reports[r], i, path, RecordOf(figure, c)) ==> c <= n)
    && (n == 0 || exists r: nat, i: nat :: r < |reports| && Says(reports[r], i, path, RecordOf(figure, n)))
  }

  lemma JoinFigure(a: Coverage, b: Coverage, path: string, figure: Figure)
    ensures FigureIn(Entry(Join(a, b), path), figure)
         == Max(FigureIn(Entry(a, path), figure), FigureIn(Entry(b, path), figure))
  {
    EntryJoin(a, b, path);
  }

  lemma LargestOfMore(reports: seq<Report>, path: string, figure: Figure, before: nat, last: nat)
    requires reports != [] && IsLargestOfAll(reports[..|reports| - 1], path, figure, before)
    requires IsLargestSaid(reports[|reports| - 1], path, figure, last)
    ensures IsLargestOfAll(reports, path, figure, Max(before, last))
  {
    hide Says;
    var n: nat := |reports| - 1;
    forall r: nat, i: nat, c: int | r < |reports| && Says(reports[r], i, path, RecordOf(figure, c))
      ensures c <= Max(before, last)
    {
      assert r < n ==> reports[..n][r] == reports[r];
    }
    if last > before {
      assert exists i: nat :: Says(reports[n], i, path, RecordOf(figure, last));
    } else if before > 0 {
      var r: nat, i: nat :| r < n && Says(reports[..n][r], i, path, RecordOf(figure, before));
      assert Says(reports[r], i, path, RecordOf(figure, before));
    }
  }

  /** In the merge of all reports each figure of a file is the largest number any of them says about it. */
  lemma {:induction false} MergedFigureIsLargest(reports: seq<Report>, path: string, figure: Figure)
    ensures IsLargestOfAll(reports, path, figure, FigureIn(Entry(MergeAll(reports), path), figure))
  {
    hide Parse, Join, IsLargestOfAll, IsLargestSaid;
    if reports == [] {
      NothingMerged(path, figure);
    } else {
      var front, last := reports[..|reports| - 1], reports[|reports| - 1];
      MergedFigureIsLargest(front, path, figure);
      FigureIsLargest(last, path, figure);
      ParseIsJoin(last, MergeAll(front));
      JoinFigure(MergeAll(front), Parse(last, map[]), path, figure);
      LargestOfMore(reports, path, figure, FigureIn(Entry(MergeAll(front), path), figure),
                    FigureIn(Entry(Parse(last, map[]), path), figure));
    }
  }

  lemma NothingMerged(path: string, figure: Figure)
    ensures IsLargestOfAll([], path, figure, FigureIn(Entry(MergeAll([]), path), figure))
  {
  }

  /** A file is in the merge exactly when some report names it. */
  lemma {:induction false} MergedFileKnownExactly(reports: seq<Report>, path: string)
    ensures path in MergeAll(reports) <==> exists r: nat :: r < |reports| && File(path) in reports[r]
  {
    hide Parse, Join;
    if reports != [] {
      var front, last := reports[..|reports| - 1], reports[|reports| - 1];
      assert reports == front + [last];
      MergedFileKnownExactly(front, path);
      ParseIsJoin(last, MergeAll(front));
      EntryJoin(MergeAll(front), Parse(last, map[]), path);
      FileKnownExactly(last, path);
      if r: nat :| r < |front| && File(path) in front[r] {
        assert File(path) in reports[r];
      }
    }
  }

  /**
   * A line of a file is known in the merge exactly when some report has a hit record for it in a section of the file.
   */
  lemma {:induction false} MergedLineKnownExactly(reports: seq<Report>, path: string, line: int)
    ensures line in Entry(MergeAll(reports), path).lines
       <==> exists r: nat :: r < |reports| && SaysSome(reports[r], path, line)
  {
    hide Parse, Join, SaysSome;
    if reports != [] {
      var front, last := reports[..|reports| - 1], reports[|reports| - 1];
      assert reports == front + [last];
      MergedLineKnownExactly(front, path, line);
      ParseIsJoin(last, MergeAll(front));
      EntryJoin(MergeAll(front), Parse(last, map[]), path);
      JoinLinesAt(Entry(MergeAll(front), path).lines, Entry(Parse(last, map[]), path).lines, line);
      LineKnownExactly(last, path, line);
      if r: nat :| r < |front| && SaysSome(front[r], path, line) {
        assert SaysSome(reports[r], path, line);
      }
    }
  }

  /** A line is covered exactly when some report has a positive hit record for it in a section of its file. */
  lemma {:induction false} CoveredByRecords(reports: seq<Report>, path: string, line: int)
    ensures Covered(MergeAll(reports), path, line)
       <==> exists r: nat, i: nat, c: int :: r < |reports| && c > 0 && Says(reports[r], i, path, Hits(line, c))
  {
    hide Says, MergeAll;
    MergedFigureIsLargest(reports, path, LineFigure(line));
    CoveredIsPositive(MergeAll(reports), path, line);
    var n := FigureIn(Entry(MergeAll(reports), path), LineFigure(line));
    if n > 0 {
      var r: nat, i: nat :| r < |reports| && Says(reports[r], i, path, RecordOf(LineFigure(line), n));
      assert Says(reports[r], i, path, Hits(line, n));
    }
    if r: nat, i: nat, c: int :| r < |reports| && c > 0 && Says(reports[r], i, path, Hits(line, c)) {
      assert Says(reports[r], i, path, RecordOf(LineFigure(line), c));
    }
  }

  lemma CoveredIsPositive(m: Coverage, path: string, line: int)
    ensures Covered(m, path, line) <==> FigureIn(Entry(m, path), LineFigure(line)) > 0
  {
  }
}
