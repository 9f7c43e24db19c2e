/** The block-comment scan of the reachability filter (`reachableLinesFor`): line by line equals whole text. */
module CommentScan {
  const NEWLINE: char := '\n'

  /**
   * The depth after scanning `s` from position `i`, where a comment opens only at depth 0 and closes only at depth 1.
   */
  function Depth(s: string, i: nat, depth: nat): (d: nat)
    requires i <= |s| && depth <= 1
    ensures d <= 1
    decreases |s| - i
  {
    if i == |s| then depth
    else if depth == 0 && i + 2 <= |s| && s[i] == '/' && s[i + 1] == '*' then Depth(s, i + 2, 1)
    else if depth == 1 && i + 2 <= |s| && s[i] == '*' && s[i + 1] == '/' then Depth(s, i + 2, 0)
    else Depth(s, i + 1, depth)
  }

  /** The scan of one line, in the loop the script uses. */
  method ScanLine(line: string, before: nat) returns (depth: nat)
    requires before <= 1
    ensures depth == Depth(line, 0, before)
  {
    depth := before;
    var i := 0;
    while i < |line|
      invariant i <= |line| && depth <= 1
      invariant Depth(line, i, depth) == Depth(line, 0, before)
    {
      if depth == 0 && i + 2 <= |line| && line[i] == '/' && line[i + 1] == '*' {
        depth, i := 1, i + 2;
      } else if depth == 1 && i + 2 <= |line| && line[i] == '*' && line[i + 1] == '/' {
        depth, i := 0, i + 2;
      } else {
        i := i + 1;
      }
    }
  }

  /** The depth before line `n`, carried over line by line. */
  function DepthBefore(lines: seq<string>, n: nat): (d: nat)
    requires n <= |lines|
    ensures d <= 1
  {
    if n == 0 then 0 else Depth(lines[n - 1], 0, DepthBefore(lines, n - 1))
  }

  /** The first `n` lines, each with its line break. */
  function Unsplit(lines: seq<string>, n: nat): string
    requires n <= |lines|
  {
    if n == 0 then "" else Unsplit(lines, n - 1) + lines[n - 1] + [NEWLINE]
  }

  /** A scan of `a + b` that is bound to stop at the end of `a` can be cut there. */
  lemma {:induction false} DepthConcat(a: string, b: string, i: nat, depth: nat)
    requires i <= |a| && depth <= 1 && (a == "" || a[|a| - 1] == NEWLINE)
    ensures Depth(a + b, i, depth) == Depth(b, 0, Depth(a, i, depth))
    decreases |a| - i
  {
    var ab := a + b;
    if i == |a| {
      DepthShift(a, b, 0, depth);
    } else if i + 1 < |a| {
      assert ab[i] == a[i] && ab[i + 1] == a[i + 1];
      if (depth == 0 && a[i] == '/' && a[i + 1] == '*') || (depth == 1 && a[i] == '*' && a[i + 1] == '/') {
        DepthConcat(a, b, i + 2, 1 - depth);
      } else {
        DepthConcat(a, b, i + 1, depth);
      }
    } else {
      DepthConcat(a, b, i + 1, depth);
    }
  }

  lemma {:induction false} DepthShift(a: string, b: string, k: nat, depth: nat)
    requires k <= |b| && depth <= 1
    ensures Depth(a + b, |a| + k, depth) == Depth(b, k, depth)
    decreases |b| - k
  {
    var ab := a + b;
    if k < |b| {
      assert ab[|a| + k] == b[k];
      if k + 1 < |b| {
        assert ab[|a| + k + 1] == b[k + 1];
        DepthShift(a, b, k + 2, 1 - depth);
      }
      DepthShift(a, b, k + 1, depth);
    }
  }

  /** A line break neither opens nor closes a comment. */
  lemma {:induction false} DepthLineBreak(line: string, i: nat, depth: nat)
    requires i <= |line| && depth <= 1
    ensures Depth(line + [NEWLINE], i, depth) == Depth(line, i, depth)
    decreases |line| - i
  {
    var l := line + [NEWLINE];
    if i < |line| {
      assert l[i] == line[i];
      assert i + 1 < |line| ==> l[i + 1] == line[i + 1];
      if i + 1 < |line| {
        DepthLineBreak(line, i + 2, 1 - depth);
      }
      DepthLineBreak(line, i + 1, depth);
    }
  }

  /** The depth carried over line by line is the depth of one scan over the whole text up to that line. */
  lemma {:induction false} LineScanIsTextScan(lines: seq<string>, n: nat)
    requires n <= |lines|
    ensures DepthBefore(lines, n) == Depth(Unsplit(lines, n), 0, 0)
  {
    if n > 0 {
      var before, line := Unsplit(lines, n - 1), lines[n - 1];
      LineScanIsTextScan(lines, n - 1);
      assert Unsplit(lines, n) == before + (line + [NEWLINE]);
      DepthConcat(before, line + [NEWLINE], 0, 0);
      DepthLineBreak(line, 0, DepthBefore(lines, n - 1));
    }
  }
}
