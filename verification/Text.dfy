/** Strings as the benchmark tools treat them: ordering, trimming, case folding of ASCII, and substring search. */
module Text {
  /**
   * The order `<` uses on strings, character by character. Characters here are scalar values, so it is the order by
   * code units on texts within the basic plane.
   */
  predicate Less(a: string, b: string) {
    if b == "" then false
    else if a == "" then true
    else a[0] < b[0] || (a[0] == b[0] && Less(a[1..], b[1..]))
  }

  lemma {:induction false} LessIrreflexive(a: string)
    ensures !Less(a, a)
  {
    if a != "" {
      LessIrreflexive(a[1..]);
    }
  }

  lemma {:induction false} LessTransitive(a: string, b: string, c: string)
    requires Less(a, b) && Less(b, c)
    ensures Less(a, c)
  {
    if a != "" && a[0] == b[0] == c[0] {
      LessTransitive(a[1..], b[1..], c[1..]);
    }
  }

  lemma {:induction false} LessTotal(a: string, b: string)
    ensures Less(a, b) || a == b || Less(b, a)
  {
    if a != "" && b != "" && a[0] == b[0] {
      LessTotal(a[1..], b[1..]);
      assert a == [a[0]] + a[1..] && b == [b[0]] + b[1..];
    }
  }

  /** White space and line terminators as ECMAScript's `trim` sees them. */
  predicate IsSpace(c: char) {
    || c == ' ' || '\t' <= c <= '\r' || c == '\U{00A0}' || c == '\U{1680}' || '\U{2000}' <= c <= '\U{200A}'
    || c == '\U{2028}' || c == '\U{2029}' || c == '\U{202F}' || c == '\U{205F}' || c == '\U{3000}' || c == '\U{FEFF}'
  }

  function TrimStart(s: string): string {
    if s != "" && IsSpace(s[0]) then TrimStart(s[1..]) else s
  }

  function TrimEnd(s: string): string {
    if s != "" && IsSpace(s[|s| - 1]) then TrimEnd(s[..|s| - 1]) else s
  }

  function Trim(s: string): string {
    TrimEnd(TrimStart(s))
  }

  lemma {:induction false} TrimStartIsSuffix(s: string)
    ensures |TrimStart(s)| <= |s| && TrimStart(s) == s[|s| - |TrimStart(s)|..]
  {
    if s != "" && IsSpace(s[0]) {
      TrimStartIsSuffix(s[1..]);
    }
  }

  lemma {:induction false} TrimEndIsPrefix(s: string)
    ensures |TrimEnd(s)| <= |s| && TrimEnd(s) == s[..|TrimEnd(s)|]
  {
    if s != "" && IsSpace(s[|s| - 1]) {
      TrimEndIsPrefix(s[..|s| - 1]);
    }
  }

  lemma {:induction false} TrimStartStops(s: string)
    ensures TrimStart(s) == "" || !IsSpace(TrimStart(s)[0])
    ensures TrimStart(TrimStart(s)) == TrimStart(s)
  {
    if s != "" && IsSpace(s[0]) {
      TrimStartStops(s[1..]);
    }
  }

  lemma {:induction false} TrimEndStops(s: string)
    ensures TrimEnd(s) == "" || !IsSpace(TrimEnd(s)[|TrimEnd(s)| - 1])
    ensures TrimEnd(TrimEnd(s)) == TrimEnd(s)
  {
    if s != "" && IsSpace(s[|s| - 1]) {
      TrimEndStops(s[..|s| - 1]);
    }
  }

  lemma TrimIdempotent(s: string)
    ensures Trim(Trim(s)) == Trim(s)
  {
    TrimStartStops(s);
    TrimEndIsPrefix(TrimStart(s));
    TrimEndStops(TrimStart(s));
  }

  /** Trimming only removes characters. */
  lemma {:induction false} TrimKeeps(s: string, c: char)
    ensures c !in s ==> c !in TrimStart(s) && c !in Trim(s)
  {
    TrimStartIsSuffix(s);
    TrimEndIsPrefix(TrimStart(s));
  }

  function LowerChar(c: char): char {
    if 'A' <= c <= 'Z' then c - 'A' + 'a' else c
  }

  function Lower(s: string): (r: string)
    ensures |r| == |s|
  {
    seq(|s|, i requires 0 <= i < |s| => LowerChar(s[i]))
  }

  function Join(parts: seq<string>, separator: string): string {
    if parts == [] then "" else if |parts| == 1 then parts[0] else parts[0] + separator + Join(parts[1..], separator)
  }

  predicate StartsWith(s: string, p: string) {
    |p| <= |s| && s[..|p|] == p
  }

  predicate OccursAt(hay: string, needle: string, i: nat) {
    i + |needle| <= |hay| && hay[i..i + |needle|] == needle
  }

  predicate Includes(hay: string, needle: string) {
    exists i :: 0 <= i <= |hay| && OccursAt(hay, needle, i)
  }

  lemma IncludesSelf(s: string)
    ensures Includes(s, s)
  {
    assert OccursAt(s, s, 0);
  }

  lemma IncludesLength(hay: string, needle: string)
    requires Includes(hay, needle)
    ensures |needle| <= |hay|
    ensures |needle| == |hay| ==> needle == hay
  {
    var i :| 0 <= i <= |hay| && OccursAt(hay, needle, i);
  }

  lemma IncludesTransitive(a: string, b: string, c: string)
    requires Includes(a, b) && Includes(b, c)
    ensures Includes(a, c)
  {
    var i :| 0 <= i <= |a| && OccursAt(a, b, i);
    var j :| 0 <= j <= |b| && OccursAt(b, c, j);
    SliceOfSlice(a, i, i + |b|, j, j + |c|);
    assert OccursAt(a, c, i + j);
  }

  lemma SliceOfSlice(s: string, m: nat, n: nat, i: nat, j: nat)
    requires m <= n <= |s| && i <= j <= n - m
    ensures s[m..n][i..j] == s[m + i..m + j]
  {
    var a, b := s[m..n][i..j], s[m + i..m + j];
    forall x | 0 <= x < |a| ensures a[x] == b[x] {
      assert a[x] == s[m..n][i + x] == s[m + i + x];
    }
  }

  lemma SliceIncluded(s: string, i: nat, j: nat)
    requires i <= j <= |s|
    ensures Includes(s, s[i..j])
  {
    assert OccursAt(s, s[i..j], i);
  }

  lemma SuffixIncluded(s: string, i: nat)
    requires i <= |s|
    ensures Includes(s, s[i..])
  {
    assert s[i..|s|] == s[i..];
    SliceIncluded(s, i, |s|);
  }

  lemma PrefixIncluded(s: string, i: nat)
    requires i <= |s|
    ensures Includes(s, s[..i])
  {
    assert s[0..i] == s[..i];
    SliceIncluded(s, 0, i);
  }

  lemma {:induction false} TrimIncluded(s: string)
    ensures Includes(s, TrimStart(s)) && Includes(s, Trim(s))
  {
    var t := TrimStart(s);
    TrimStartIsSuffix(s);
    TrimEndIsPrefix(t);
    SuffixIncluded(s, |s| - |t|);
    PrefixIncluded(t, |TrimEnd(t)|);
    IncludesTransitive(s, t, TrimEnd(t));
  }

  /** Folding the case keeps what a text includes. */
  lemma LowerIncludes(hay: string, needle: string)
    requires Includes(hay, needle)
    ensures Includes(Lower(hay), Lower(needle))
  {
    var i :| 0 <= i <= |hay| && OccursAt(hay, needle, i);
    var inner := Lower(hay)[i..i + |needle|];
    forall x | 0 <= x < |needle| ensures inner[x] == Lower(needle)[x] {
      assert inner[x] == LowerChar(hay[i + x]) && hay[i + x] == hay[i..i + |needle|][x];
    }
    assert inner == Lower(needle);
    assert OccursAt(Lower(hay), Lower(needle), i);
  }

  // ----- what the operations mean -----

  /** Lexicographic order: a proper beginning, or the smaller character at the first difference. */
  lemma {:induction false} LessExactly(a: string, b: string)
    ensures Less(a, b) <==> a < b || exists k :: DifferFirstAt(a, b, k) && a[k] < b[k]
  {
    if a != "" && b != "" {
      if a[0] == b[0] {
        LessExactly(a[1..], b[1..]);
        DifferLater(a, b);
        assert a < b <==> a[1..] < b[1..] by { assert a == [a[0]] + a[1..] && b == [b[0]] + b[1..]; }
      } else {
        assert DifferFirstAt(a, b, 0);
      }
    }
  }

  ghost predicate DifferFirstAt(a: string, b: string, k: int) {
    0 <= k < |a| && k < |b| && a[..k] == b[..k] && a[k] != b[k]
  }

  lemma DifferLater(a: string, b: string)
    requires a != "" && b != "" && a[0] == b[0]
    ensures (exists k :: DifferFirstAt(a, b, k) && a[k] < b[k])
       <==> exists k :: DifferFirstAt(a[1..], b[1..], k) && a[1..][k] < b[1..][k]
  {
    if k :| DifferFirstAt(a, b, k) && a[k] < b[k] {
      assert a[..k][1..] == a[1..][..k - 1] && b[..k][1..] == b[1..][..k - 1];
      assert DifferFirstAt(a[1..], b[1..], k - 1);
    }
    if k :| DifferFirstAt(a[1..], b[1..], k) && a[1..][k] < b[1..][k] {
      assert a[..k + 1] == [a[0]] + a[1..][..k] && b[..k + 1] == [b[0]] + b[1..][..k];
      assert DifferFirstAt(a, b, k + 1);
    }
  }

  ghost predicate AllSpace(s: string) {
    forall i :: 0 <= i < |s| ==> IsSpace(s[i])
  }

  /** What is cut off at the start: all the white space there. */
  lemma {:induction false} TrimStartExactly(s: string) returns (n: nat)
    ensures n <= |s| && TrimStart(s) == s[n..] && AllSpace(s[..n]) && (n < |s| ==> !IsSpace(s[n]))
  {
    hide IsSpace;
    if s != "" && IsSpace(s[0]) {
      var k := TrimStartExactly(s[1..]);
      n := k + 1;
      assert s[..n] == [s[0]] + s[1..][..k];
    } else {
      n := 0;
    }
  }

  /** What is cut off at the end: all the white space there. */
  lemma {:induction false} TrimEndExactly(s: string) returns (n: nat)
    ensures n <= |s| && TrimEnd(s) == s[..n] && AllSpace(s[n..]) && (n > 0 ==> !IsSpace(s[n - 1]))
  {
    hide IsSpace;
    if s != "" && IsSpace(s[|s| - 1]) {
      n := TrimEndExactly(s[..|s| - 1]);
      assert s[n..] == s[..|s| - 1][n..] + [s[|s| - 1]];
    } else {
      n := |s|;
    }
  }

  /** The white space and line terminators of sections 12.2 and 12.3 of the ECMAScript specification. */
  lemma SpacesExactly(c: char)
    ensures IsSpace(c) <==>
            c in "\t\n\U{000B}\U{000C}\r \U{00A0}\U{1680}\U{2000}\U{2001}\U{2002}\U{2003}\U{2004}\U{2005}\U{2006}"
              + "\U{2007}\U{2008}\U{2009}\U{200A}\U{2028}\U{2029}\U{202F}\U{205F}\U{3000}\U{FEFF}"
  {
  }

  /** Folding the case turns capital ASCII letters into small ones and leaves every other character. */
  lemma LowerExactly(s: string, i: nat)
    requires i < |s|
    ensures forall n: nat :: n < 26 && s[i] == "ABCDEFGHIJKLMNOPQRSTUVWXYZ"[n] ==>
              Lower(s)[i] == "abcdefghijklmnopqrstuvwxyz"[n]
    ensures s[i] !in "ABCDEFGHIJKLMNOPQRSTUVWXYZ" ==> Lower(s)[i] == s[i]
  {
    var capitals, smalls := "ABCDEFGHIJKLMNOPQRSTUVWXYZ", "abcdefghijklmnopqrstuvwxyz";
    assert forall n: nat :: n < 26 ==> capitals[n] as int == 'A' as int + n && smalls[n] as int == 'a' as int + n;
    if 'A' <= s[i] <= 'Z' {
      assert capitals[s[i] as int - 'A' as int] == s[i];
    }
  }

  /** A text includes another one when it is that one between two others. */
  lemma IncludesExactly(hay: string, needle: string)
    ensures Includes(hay, needle) <==> exists before: string, after: string :: hay == before + needle + after
  {
    if Includes(hay, needle) {
      var i :| 0 <= i <= |hay| && OccursAt(hay, needle, i);
      assert hay == hay[..i] + needle + hay[i + |needle|..];
    }
    if before: string, after: string :| hay == before + needle + after {
      assert OccursAt(hay, needle, |before|);
    }
  }

  lemma StartsExactly(s: string, p: string)
    ensures StartsWith(s, p) <==> exists rest: string :: s == p + rest
  {
    if StartsWith(s, p) {
      assert s == p + s[|p|..];
    }
  }

  /** Joining puts the separator between any two parts, and nowhere else. */
  lemma {:induction false} JoinSnoc(parts: seq<string>, last: string, separator: string)
    ensures Join(parts + [last], separator) == if parts == [] then last else Join(parts, separator) + separator + last
    ensures Join([], separator) == ""
  {
    if |parts| == 1 {
      assert (parts + [last])[1..] == [last];
    } else if |parts| > 1 {
      assert (parts + [last])[1..] == parts[1..] + [last];
      JoinSnoc(parts[1..], last, separator);
    }
  }
}
