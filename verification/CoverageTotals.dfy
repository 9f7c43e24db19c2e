/** The printed totals of a coverage run, and why they do not depend on the schedule. */
module CoverageTotals {
  import opened Sequences
  import opened LcovMerge
  import CoveragePool
  import Text

  /** Production files: under src/, and not a test. */
  predicate Measured(path: string) {
    (Text.StartsWith(path, "src/") || Text.Includes(path, "/src/")) && !Text.Includes(path, ".test.")
  }

  /** A file counts when it has at least one line record. */
  predicate Counts(m: Coverage, path: string) {
    path in m && Measured(path) && m[path].lines != map[]
  }

  datatype Totals = Totals(found: nat, hit: nat, functions: nat, functionsHit: nat)

  function Smaller(a: nat, b: nat): nat {
    if a < b then a else b
  }

  function Numbers(n: nat): (s: set<int>)
    ensures |s| == n && forall i :: i in s ==> 0 <= i < n
  {
    if n == 0 then {} else Numbers(n - 1) + {n - 1}
  }

  function FoundIn(cov: FileCov): set<int> { cov.lines.Keys }
  function FunctionsIn(cov: FileCov): set<int> { Numbers(cov.fFound) }
  function FunctionsHitIn(cov: FileCov): set<int> { Numbers(Smaller(cov.fHit, cov.fFound)) }

  /** Everything of one sort that the merged map holds, as pairs of a file and a number; no order is involved. */
  ghost function Held(m: Coverage, sort: FileCov -> set<int>): set<(string, int)> {
    set path, x | path in m.Keys && Counts(m, path) && x in sort(m[path]) :: (path, x)
  }

  ghost function HeldBy(m: Coverage, order: seq<string>, sort: FileCov -> set<int>): set<(string, int)> {
    set path, x | path in order && Counts(m, path) && x in sort(m[path]) :: (path, x)
  }

  ghost function Tagged(path: string, s: set<int>): set<(string, int)> {
    set x | x in s :: (path, x)
  }

  lemma {:induction false} TaggedCount(path: string, s: set<int>)
    ensures |Tagged(path, s)| == |s|
  {
    if |s| == 0 {
      assert Tagged(path, s) == {};
    } else {
      var x := Pick(s);
      TaggedCount(path, s - {x});
      assert Tagged(path, s) == Tagged(path, s - {x}) + {(path, x)};
    }
  }

  lemma HeldStep(m: Coverage, order: seq<string>, path: string, sort: FileCov -> set<int>)
    requires path !in order && path in m
    ensures |HeldBy(m, order + [path], sort)|
         == |HeldBy(m, order, sort)| + if Counts(m, path) then |sort(m[path])| else 0
  {
    var more := if Counts(m, path) then Tagged(path, sort(m[path])) else {};
    assert HeldBy(m, order + [path], sort) == HeldBy(m, order, sort) + more;
    assert HeldBy(m, order, sort) !! more;
    if Counts(m, path) {
      TaggedCount(path, sort(m[path]));
    }
  }

  ghost predicate TotalsOf(m: Coverage, order: seq<string>, t: Totals) {
    && t.found == |HeldBy(m, order, FoundIn)| && t.hit == |HeldBy(m, order, HitLines)|
    && t.functions == |HeldBy(m, order, FunctionsIn)| && t.functionsHit == |HeldBy(m, order, FunctionsHitIn)|
  }

  /** A production file with some line record. */
  ghost predicate IsMeasured(m: Coverage, path: string) {
    && path in m && (exists line :: line in m[path].lines) && !Text.Includes(path, ".test.")
    && (Text.StartsWith(path, "src/") || Text.Includes(path, "/src/"))
  }

  /** What the totals count: every line of a measured file, its covered lines, and its functions, found and hit. */
  lemma HeldExactly(m: Coverage, path: string, x: int)
    ensures (path, x) in Held(m, FoundIn) <==> IsMeasured(m, path) && x in m[path].lines
    ensures (path, x) in Held(m, HitLines) <==> IsMeasured(m, path) && Covered(m, path, x)
    ensures (path, x) in Held(m, FunctionsIn) <==> IsMeasured(m, path) && 0 <= x < m[path].fFound
    ensures (path, x) in Held(m, FunctionsHitIn) <==>
              IsMeasured(m, path) && 0 <= x < m[path].fFound && x < m[path].fHit
  {
    hide Text.Includes;
    CountsExactly(m, path);
    if path in m {
      NumbersAre(m[path].fFound);
      NumbersAre(Smaller(m[path].fHit, m[path].fFound));
    }
  }

  lemma CountsExactly(m: Coverage, path: string)
    ensures Counts(m, path) <==> IsMeasured(m, path)
  {
    hide Text.Includes;
    if path in m && m[path].lines != map[] {
      assert m[path].lines.Keys != {};
      var line := Pick(m[path].lines.Keys);
    }
  }

  lemma {:induction false} NumbersAre(n: nat)
    ensures forall i: int :: i in Numbers(n) <==> 0 <= i < n
  {
    if n > 0 {
      NumbersAre(n - 1);
    }
  }

  /** What one merged entry adds to the totals. */
  function Add(t: Totals, cov: FileCov): Totals {
    Totals(t.found + |cov.lines.Keys|, t.hit + |HitLines(cov)|, t.functions + cov.fFound,
           t.functionsHit + Smaller(cov.fHit, cov.fFound))
  }

  lemma TotalsStep(m: Coverage, order: seq<string>, path: string, t: Totals)
    requires path !in order && path in m && TotalsOf(m, order, t)
    ensures TotalsOf(m, order + [path], if Counts(m, path) then Add(t, m[path]) else t)
  {
    HeldStep(m, order, path, FoundIn);
    HeldStep(m, order, path, HitLines);
    HeldStep(m, order, path, FunctionsIn);
    HeldStep(m, order, path, FunctionsHitIn);
  }

  /** The running totals over the merged entries, in whatever order the map yields them, count its content. */
  method Total(m: Coverage, order: seq<string>) returns (t: Totals)
    requires Distinct(order) && forall path :: path in order <==> path in m
    ensures t.found == |Held(m, FoundIn)| && t.hit == |Held(m, HitLines)|
    ensures t.functions == |Held(m, FunctionsIn)| && t.functionsHit == |Held(m, FunctionsHitIn)|
  {
    t := Totals(0, 0, 0, 0);
    for i := 0 to |order|
      invariant TotalsOf(m, order[..i], t)
    {
      NextPath(m, order, i);
      TotalsStep(m, order[..i], order[i], t);
      if Counts(m, order[i]) {
        t := Add(t, m[order[i]]);
      }
    }
    assert order[..|order|] == order;
    AllHeld(m, order, t);
  }

  lemma NextPath(m: Coverage, order: seq<string>, i: nat)
    requires Distinct(order) && (forall path :: path in order <==> path in m) && i < |order|
    ensures order[..i + 1] == order[..i] + [order[i]] && order[i] in m && order[i] !in order[..i]
  {
    assert order[i] in order;
  }

  lemma AllHeld(m: Coverage, order: seq<string>, t: Totals)
    requires TotalsOf(m, order, t) && forall path :: path in order <==> path in m
    ensures t.found == |Held(m, FoundIn)| && t.hit == |Held(m, HitLines)|
    ensures t.functions == |Held(m, FunctionsIn)| && t.functionsHit == |Held(m, FunctionsHitIn)|
  {
    HeldAll(m, order, FoundIn);
    HeldAll(m, order, HitLines);
    HeldAll(m, order, FunctionsIn);
    HeldAll(m, order, FunctionsHitIn);
  }

  lemma HeldAll(m: Coverage, order: seq<string>, sort: FileCov -> set<int>)
    requires forall path :: path in order <==> path in m
    ensures HeldBy(m, order, sort) == Held(m, sort)
  {
  }

  /** The records of each collected report. */
  function Parsed(texts: seq<string>, records: string -> seq<Record>): (r: seq<seq<Record>>)
    ensures |r| == |texts|
  {
    seq(|texts|, i requires 0 <= i < |texts| => records(texts[i]))
  }

  /**
   * Two finished faultless runs over the same files, whose children leave the same reports, merge to the same map and
   * so to the same totals: whatever the number of workers, the interleaving, or a stale report from before.
   */
  lemma {:induction false} NumberIsScheduleFree(
    a: CoveragePool.Setup, steps: seq<CoveragePool.Step>, b: CoveragePool.Setup, steps': seq<CoveragePool.Step>,
    records: string -> seq<Record>)
    requires a.files == b.files && a.leaves == b.leaves && |a.leaves| == |a.files|
    requires CoveragePool.Run(a, steps).Some? && CoveragePool.Stopped(CoveragePool.Run(a, steps).value)
    requires CoveragePool.Run(b, steps').Some? && CoveragePool.Stopped(CoveragePool.Run(b, steps').value)
    requires forall i :: 0 <= i < |steps| ==> CoveragePool.Faultless(steps[i])
    requires forall i :: 0 <= i < |steps'| ==> CoveragePool.Faultless(steps'[i])
    ensures MergeAll(Parsed(CoveragePool.Texts(CoveragePool.Run(a, steps).value.chunks), records))
         == MergeAll(Parsed(CoveragePool.Texts(CoveragePool.Run(b, steps').value.chunks), records))
  {
    CoveragePool.CollectionIsScheduleFree(a, steps);
    CoveragePool.CollectionIsScheduleFree(b, steps');
  }
}
