/**
 * The Python `str` operations that the screening script relies on:
 * `split`, `strip`, `lstrip` with a character set, `splitlines`,
 * `replace` of one character, `lower`, and the `in` substring test.
 * Each is written as a recursive function and characterised by its
 * contract; the lemmas below give the partners (round trips, idempotence).
 */
module PyStr {

  /**
   * The characters for which Python's `str.isspace()` holds; `strip()` with
   * no argument removes these.
   */
  predicate IsSpace(c: char) {
    var n := c as int;
    (0x09 <= n <= 0x0D) || (0x1C <= n <= 0x20) || n == 0x85 || n == 0xA0 || n == 0x1680
    || (0x2000 <= n <= 0x200A) || n == 0x2028 || n == 0x2029 || n == 0x202F || n == 0x205F || n == 0x3000
  }

  /** The line boundaries recognised by `str.splitlines()` (a "\r\n" pair counts as one). */
  predicate IsLineBreak(c: char) {
    var n := c as int;
    (0x0A <= n <= 0x0D) || (0x1C <= n <= 0x1E) || n == 0x85 || n == 0x2028 || n == 0x2029
  }

  // ---------------------------------------------------------------------------
  // lstrip / rstrip / strip

  /** `r` is a final part of `s`. */
  predicate IsSuffix(r: string, s: string) {
    |r| <= |s| && r == s[|s| - |r|..]
  }

  /** `r` is an initial part of `s`. */
  predicate IsPrefix(r: string, s: string) {
    |r| <= |s| && r == s[..|r|]
  }

  /** `s.lstrip(cs)`: the longest suffix of `s` that does not start with a character of `cs`. */
  function TrimLeft(s: string, cs: char -> bool): (r: string)
    ensures |r| <= |s|
    ensures r == [] || !cs(r[0])
    decreases |s|
  {
    if |s| > 0 && cs(s[0]) then TrimLeft(s[1..], cs) else s
  }

  /** What `lstrip` keeps is a final part of its input. */
  lemma {:induction false} TrimLeftSuffix(s: string, cs: char -> bool)
    ensures IsSuffix(TrimLeft(s, cs), s)
    decreases |s|
  {
    if |s| > 0 && cs(s[0]) {
      TrimLeftSuffix(s[1..], cs);
    }
  }

  /** Every character `lstrip` removes belongs to `cs`. */
  lemma {:induction false} TrimLeftRemoved(s: string, cs: char -> bool)
    ensures forall i :: 0 <= i < |s| - |TrimLeft(s, cs)| ==> cs(s[i])
    decreases |s|
  {
    if |s| > 0 && cs(s[0]) {
      TrimLeftRemoved(s[1..], cs);
      assert forall i :: 1 <= i < |s| ==> s[i] == s[1..][i - 1];
    }
  }

  /** `s.rstrip(cs)`: the longest prefix of `s` that does not end with a character of `cs`. */
  function TrimRight(s: string, cs: char -> bool): (r: string)
    ensures |r| <= |s|
    ensures r == [] || !cs(r[|r| - 1])
    decreases |s|
  {
    if |s| > 0 && cs(s[|s| - 1]) then TrimRight(s[..|s| - 1], cs) else s
  }

  /** What `rstrip` keeps is an initial part of its input. */
  lemma {:induction false} TrimRightPrefix(s: string, cs: char -> bool)
    ensures IsPrefix(TrimRight(s, cs), s)
    decreases |s|
  {
    if |s| > 0 && cs(s[|s| - 1]) {
      TrimRightPrefix(s[..|s| - 1], cs);
    }
  }

  /** Every character `rstrip` removes belongs to `cs`. */
  lemma {:induction false} TrimRightRemoved(s: string, cs: char -> bool)
    ensures forall i :: |TrimRight(s, cs)| <= i < |s| ==> cs(s[i])
    decreases |s|
  {
    if |s| > 0 && cs(s[|s| - 1]) {
      TrimRightRemoved(s[..|s| - 1], cs);
    }
  }

  /** `t` neither starts nor ends with whitespace. */
  predicate IsStripped(t: string) {
    t == [] || (!IsSpace(t[0]) && !IsSpace(t[|t| - 1]))
  }

  /** `s.strip()`: `s` without its leading and trailing whitespace. */
  function Strip(s: string): (r: string)
    ensures |r| <= |s|
  {
    TrimRight(TrimLeft(s, IsSpace), IsSpace)
  }

  /** `strip()` leaves no whitespace at either end. */
  lemma StripIsStripped(s: string)
    ensures IsStripped(Strip(s))
  {
    var l := TrimLeft(s, IsSpace);
    TrimRightPrefix(l, IsSpace);
    if Strip(s) != [] {
      assert Strip(s)[0] == l[0];
    }
  }

  /** A final part of a text occurs in it at the matching offset. */
  lemma SuffixOccurs(r: string, s: string)
    requires IsSuffix(r, s)
    ensures OccursAt(s, r, |s| - |r|)
  {
    assert s[|s| - |r|..|s| - |r| + |r|] == s[|s| - |r|..];
  }

  /** What `strip()` keeps is a contiguous part of the input. */
  lemma StripOccurs(s: string)
    ensures OccursAt(s, TrimLeft(s, IsSpace), |s| - |TrimLeft(s, IsSpace)|)
    ensures OccursAt(TrimLeft(s, IsSpace), Strip(s), 0)
    ensures OccursAt(s, Strip(s), |s| - |TrimLeft(s, IsSpace)|)
  {
    var l := TrimLeft(s, IsSpace);
    var r := Strip(s);
    var off := |s| - |l|;
    TrimLeftSuffix(s, IsSpace);
    SuffixOccurs(l, s);
    assert OccursAt(l, r, 0) by {
      TrimRightPrefix(l, IsSpace);
      assert l[0..|r|] == l[..|r|];
    }
    OccursAtTrans(s, l, r, off, 0);
  }

  /** Python's truthiness of `s.strip()` is false: `s` holds whitespace only. */
  predicate IsBlank(s: string) {
    forall i :: 0 <= i < |s| ==> IsSpace(s[i])
  }

  /** `s.strip()` is empty exactly when `s` is blank, which is when Python finds it false. */
  lemma StripEmptyIffBlank(s: string)
    ensures Strip(s) == [] <==> IsBlank(s)
  {
    var l := TrimLeft(s, IsSpace);
    TrimLeftRemoved(s, IsSpace);
    TrimRightRemoved(l, IsSpace);
    if IsBlank(s) {
      TrimLeftBlank(s);
    }
  }

  /** `lstrip()` of a blank text leaves nothing. */
  lemma {:induction false} TrimLeftBlank(s: string)
    requires IsBlank(s)
    ensures TrimLeft(s, IsSpace) == []
    decreases |s|
  {
    if |s| > 0 {
      TrimLeftBlank(s[1..]);
    }
  }

  /** A character absent from `s` is absent from `s.strip()`. */
  lemma StripAvoids(s: string, c: char)
    requires c !in s
    ensures c !in Strip(s)
  {
    StripOccurs(s);
  }

  /** A stripped text strips to itself; in particular stripping twice is stripping once. */
  lemma StrippedFixed(t: string)
    requires IsStripped(t)
    ensures Strip(t) == t
  {
    if t != [] {
      assert TrimLeft(t, IsSpace) == t;
      assert TrimRight(t, IsSpace) == t;
    }
  }

  /** Removing a leading run of `cs` characters from a text that does not start with one gives the text. */
  lemma {:induction false} TrimLeftOf(w: string, t: string, cs: char -> bool)
    requires forall i :: 0 <= i < |w| ==> cs(w[i])
    requires t == [] || !cs(t[0])
    ensures TrimLeft(w + t, cs) == t
    decreases |w|
  {
    if |w| > 0 {
      assert (w + t)[1..] == w[1..] + t;
      TrimLeftOf(w[1..], t, cs);
    } else {
      assert w + t == t;
    }
  }

  /** Removing a trailing run of `cs` characters from a text that does not end with one gives the text. */
  lemma {:induction false} TrimRightOf(t: string, w: string, cs: char -> bool)
    requires forall i :: 0 <= i < |w| ==> cs(w[i])
    requires t == [] || !cs(t[|t| - 1])
    ensures TrimRight(t + w, cs) == t
    decreases |w|
  {
    if |w| > 0 {
      var s := t + w;
      assert s[..|s| - 1] == t + w[..|w| - 1];
      TrimRightOf(t, w[..|w| - 1], cs);
    } else {
      assert t + w == t;
    }
  }

  /**
   * The reference definition of `strip()`: whitespace, then a text without
   * whitespace at either end, then whitespace, strips to that text.
   */
  lemma StripOf(w1: string, m: string, w2: string)
    requires IsBlank(w1) && IsBlank(w2) && IsStripped(m)
    ensures Strip(w1 + m + w2) == m
  {
    if m == [] {
      assert IsBlank(w1 + m + w2) by {
        assert w1 + m + w2 == w1 + w2;
      }
      StripEmptyIffBlank(w1 + m + w2);
    } else {
      assert w1 + m + w2 == w1 + (m + w2);
      TrimLeftOf(w1, m + w2, IsSpace);
      TrimRightOf(m, w2, IsSpace);
    }
  }

  // ---------------------------------------------------------------------------
  // split(sep) and its inverse, sep.join

  /** `sep.join(parts)`. */
  function Join(parts: seq<string>, sep: char): string
  {
    if |parts| == 0 then ""
    else if |parts| == 1 then parts[0]
    else parts[0] + [sep] + Join(parts[1..], sep)
  }

  /** `s.split(sep)` for a one-character separator: always at least one piece. */
  function Split(s: string, sep: char): (r: seq<string>)
    ensures |r| >= 1
    decreases |s|
  {
    if |s| == 0 then [""]
    else
      var rest := Split(s[1..], sep);
      if s[0] == sep then [""] + rest
      else [[s[0]] + rest[0]] + rest[1..]
  }

  /** No piece of a split holds the separator. */
  lemma {:induction false} SplitPiecesAvoid(s: string, sep: char)
    ensures forall i :: 0 <= i < |Split(s, sep)| ==> sep !in Split(s, sep)[i]
    decreases |s|
  {
    if |s| > 0 {
      SplitPiecesAvoid(s[1..], sep);
    }
  }

  /** Joining the pieces of a split gives back the text. */
  lemma {:induction false} JoinSplit(s: string, sep: char)
    ensures Join(Split(s, sep), sep) == s
    decreases |s|
  {
    if |s| > 0 {
      var rest := Split(s[1..], sep);
      JoinSplit(s[1..], sep);
      if s[0] == sep {
        assert ([""] + rest)[1..] == rest;
      } else {
        var r := [[s[0]] + rest[0]] + rest[1..];
        if |rest| > 1 {
          assert r[1..] == rest[1..];
        }
        assert [s[0]] + s[1..] == s;
      }
    }
  }

  /** A piece without the separator followed by the separator starts a new piece. */
  lemma {:induction false} SplitCons(p: string, t: string, sep: char)
    requires sep !in p
    ensures Split(p + [sep] + t, sep) == [p] + Split(t, sep)
    decreases |p|
  {
    if |p| == 0 {
      assert p + [sep] + t == [sep] + t;
      assert ([sep] + t)[1..] == t;
    } else {
      var s := p + [sep] + t;
      assert s[0] == p[0] && s[1..] == p[1..] + [sep] + t;
      SplitCons(p[1..], t, sep);
      assert [p[0]] + p[1..] == p;
    }
  }

  /** A string without the separator splits into itself. */
  lemma {:induction false} SplitNoSep(p: string, sep: char)
    requires sep !in p
    ensures Split(p, sep) == [p]
    decreases |p|
  {
    if |p| > 0 {
      SplitNoSep(p[1..], sep);
      assert [p[0]] + p[1..] == p;
    }
  }

  /** Splitting undoes joining pieces that do not hold the separator. */
  lemma {:induction false} SplitJoin(parts: seq<string>, sep: char)
    requires |parts| >= 1
    requires forall i :: 0 <= i < |parts| ==> sep !in parts[i]
    ensures Split(Join(parts, sep), sep) == parts
    decreases |parts|
  {
    if |parts| == 1 {
      SplitNoSep(parts[0], sep);
    } else {
      SplitJoin(parts[1..], sep);
      SplitCons(parts[0], Join(parts[1..], sep), sep);
      assert [parts[0]] + parts[1..] == parts;
    }
  }

  // ---------------------------------------------------------------------------
  // splitlines()

  /** The index of the first line boundary in `s`, or `|s|` when there is none. */
  function LineEnd(s: string): (k: nat)
    ensures k <= |s|
    ensures k < |s| ==> IsLineBreak(s[k])
  {
    if |s| == 0 || IsLineBreak(s[0]) then 0 else 1 + LineEnd(s[1..])
  }

  /** No boundary comes before `LineEnd`. */
  lemma {:induction false} LineEndClean(s: string)
    ensures NoBreaks(s[..LineEnd(s)])
    decreases |s|
  {
    if |s| > 0 && !IsLineBreak(s[0]) {
      LineEndClean(s[1..]);
      var k := LineEnd(s);
      assert forall j :: 1 <= j < k ==> s[..k][j] == s[1..][..k - 1][j - 1];
    }
  }

  /** `s` with every line-boundary character removed. */
  function DropBreaks(s: string): string
  {
    if |s| == 0 then ""
    else (if IsLineBreak(s[0]) then "" else [s[0]]) + DropBreaks(s[1..])
  }

  /** The concatenation of a sequence of strings. */
  function Concat(ss: seq<string>): string
  {
    if |ss| == 0 then "" else ss[0] + Concat(ss[1..])
  }

  /** Concatenating one more string appends it. */
  lemma {:induction false} ConcatSnoc(ss: seq<string>, x: string)
    ensures Concat(ss + [x]) == Concat(ss) + x
  {
    if |ss| == 0 {
      assert ss + [x] == [x];
    } else {
      assert (ss + [x])[1..] == ss[1..] + [x];
      ConcatSnoc(ss[1..], x);
    }
  }

  /** `line` holds no line-boundary character. */
  predicate NoBreaks(line: string) {
    forall j :: 0 <= j < |line| ==> !IsLineBreak(line[j])
  }

  /** `s.splitlines()`: no line holds a boundary character, and there are no more lines than characters. */
  function SplitLines(s: string): (lines: seq<string>)
    ensures |lines| <= |s|
    decreases |s|
  {
    if |s| == 0 then []
    else
      var k := LineEnd(s);
      if k == |s| then [s]
      else [s[..k]] + SplitLines(s[LineStart(s, k)..])
  }

  /** No line of `splitlines()` holds a boundary character. */
  lemma {:induction false} SplitLinesNoBreaks(s: string)
    ensures forall i :: 0 <= i < |SplitLines(s)| ==> NoBreaks(SplitLines(s)[i])
    decreases |s|
  {
    if |s| > 0 {
      var k := LineEnd(s);
      LineEndClean(s);
      if k < |s| {
        SplitLinesNoBreaks(s[LineStart(s, k)..]);
      } else {
        assert s[..k] == s;
      }
    }
  }

  /** The lines together are the text minus its line boundaries. */
  lemma {:induction false} SplitLinesConcat(s: string)
    ensures Concat(SplitLines(s)) == DropBreaks(s)
    decreases |s|
  {
    if |s| > 0 {
      var k := LineEnd(s);
      LineEndClean(s);
      if k == |s| {
        assert s[..k] == s;
        DropBreaksClean(s);
      } else {
        var next := LineStart(s, k);
        var rest := SplitLines(s[next..]);
        assert SplitLines(s) == [s[..k]] + rest;
        assert ([s[..k]] + rest)[1..] == rest;
        assert Concat(SplitLines(s)) == s[..k] + Concat(rest);
        SplitLinesConcat(s[next..]);
        assert s == s[..k] + s[k..next] + s[next..];
        SplitLinesStep(s[..k], s[k..next], s[next..]);
      }
    }
  }

  /** Where the line after a boundary at `k` starts: a "\r\n" pair is one boundary. */
  function LineStart(s: string, k: nat): (next: nat)
    requires k < |s|
    ensures k < next <= |s|
  {
    if s[k] == '\r' && k + 1 < |s| && s[k + 1] == '\n' then k + 2 else k + 1
  }

  /** The first boundary of a clean text followed by a boundary is right after the text. */
  lemma {:induction false} LineEndOf(a: string, rest: string)
    requires NoBreaks(a)
    requires |rest| > 0 && IsLineBreak(rest[0])
    ensures LineEnd(a + rest) == |a|
    decreases |a|
  {
    if |a| > 0 {
      assert (a + rest)[1..] == a[1..] + rest;
      LineEndOf(a[1..], rest);
    } else {
      assert a + rest == rest;
    }
  }

  /** A line without boundaries followed by "\n" is the first line, and splitting goes on after it. */
  lemma SplitLinesCons(a: string, t: string)
    requires NoBreaks(a)
    ensures SplitLines(a + "\n" + t) == [a] + SplitLines(t)
  {
    var s := a + "\n" + t;
    assert s == a + ("\n" + t);
    LineEndOf(a, "\n" + t);
    assert s[..|a|] == a;
    assert LineStart(s, |a|) == |a| + 1;
    assert s[|a| + 1..] == t;
  }

  /** A line without boundaries followed by "\r\n" is the first line: the pair is one boundary, not two. */
  lemma SplitLinesCrLf(a: string, t: string)
    requires NoBreaks(a)
    ensures SplitLines(a + "\r\n" + t) == [a] + SplitLines(t)
  {
    var s := a + "\r\n" + t;
    assert s == a + ("\r\n" + t);
    LineEndOf(a, "\r\n" + t);
    assert s[..|a|] == a;
    assert s[|a|] == '\r' && s[|a| + 1] == '\n';
    assert LineStart(s, |a|) == |a| + 2;
    assert s[|a| + 2..] == t;
  }

  /** A last line ended by a boundary gives no empty line after it. */
  lemma SplitLinesFinal(a: string)
    requires NoBreaks(a)
    ensures SplitLines(a + "\n") == [a]
    ensures SplitLines(a + "\r\n") == [a]
  {
    SplitLinesCons(a, "");
    SplitLinesCrLf(a, "");
    assert a + "\n" + "" == a + "\n";
    assert a + "\r\n" + "" == a + "\r\n";
  }

  /** A clean line, then a boundary, then the rest: only the rest loses characters. */
  lemma SplitLinesStep(a: string, b: string, c: string)
    requires NoBreaks(a)
    requires 1 <= |b| <= 2 && IsLineBreak(b[0])
    requires |b| == 2 ==> b[1] == '\n'
    ensures DropBreaks(a + b + c) == a + DropBreaks(c)
  {
    DropBreaksAppend(a + b, c);
    DropBreaksAppend(a, b);
    DropBreaksClean(a);
    BoundaryDropped(b);
    assert DropBreaks(a + b) == a;
  }

  /** The one or two characters of a line boundary vanish from `DropBreaks`. */
  lemma BoundaryDropped(b: string)
    requires 1 <= |b| <= 2 && IsLineBreak(b[0])
    requires |b| == 2 ==> b[1] == '\n'
    ensures DropBreaks(b) == ""
  {
    if |b| == 2 {
      assert DropBreaks(b[1..]) == "" by {
        assert IsLineBreak(b[1..][0]);
        assert b[1..][1..] == "";
      }
    } else {
      assert b[1..] == "";
    }
  }

  /** Removing boundaries from a text without any changes nothing. */
  lemma {:induction false} DropBreaksClean(s: string)
    requires NoBreaks(s)
    ensures DropBreaks(s) == s
    decreases |s|
  {
    if |s| > 0 {
      DropBreaksClean(s[1..]);
    }
  }

  /** Removing boundaries distributes over concatenation. */
  lemma {:induction false} DropBreaksAppend(a: string, b: string)
    ensures DropBreaks(a + b) == DropBreaks(a) + DropBreaks(b)
    decreases |a|
  {
    if |a| > 0 {
      assert (a + b)[1..] == a[1..] + b;
      DropBreaksAppend(a[1..], b);
    } else {
      assert a + b == b;
    }
  }

  // ---------------------------------------------------------------------------
  // replace, lower, `in`

  /** `s.replace(a, b)` for single characters: every `a` becomes `b`, nothing else moves. */
  function ReplaceChar(s: string, a: char, b: char): string
  {
    seq(|s|, i requires 0 <= i < |s| => if s[i] == a then b else s[i])
  }

  /** Lower-case mapping of one character, restricted to ASCII letters. */
  function LowerChar(c: char): char
  {
    if 'A' <= c <= 'Z' then (c as int + 32) as char else c
  }

  /** `s.lower()`, restricted to ASCII letters. */
  function Lower(s: string): string
  {
    seq(|s|, i requires 0 <= i < |s| => LowerChar(s[i]))
  }

  /** `p` occurs in `t` starting at index `i`. */
  predicate OccursAt(t: string, p: string, i: int) {
    0 <= i <= |t| - |p| && t[i..i + |p|] == p
  }

  /** The middle part of a three-part concatenation is the slice after the first part. */
  lemma SliceMiddle<T>(pre: seq<T>, m: seq<T>, post: seq<T>)
    ensures (pre + m + post)[|pre|..|pre| + |m|] == m
  {
  }

  /** An occurrence inside an occurrence is an occurrence. */
  lemma OccursAtTrans(a: string, b: string, c: string, i: int, j: int)
    requires OccursAt(a, b, i) && OccursAt(b, c, j)
    ensures OccursAt(a, c, i + j)
  {
    assert b == a[i..i + |b|] && c == b[j..j + |c|];
    assert forall k :: 0 <= k < |c| ==> c[k] == b[j + k] == a[i + j + k];
  }

  /** Python's `p in t`: `p` occurs in `t` as a contiguous run. */
  function Contains(t: string, p: string): (r: bool)
    ensures r <==> exists i :: OccursAt(t, p, i)
    decreases |t|
  {
    if |p| > |t| then false
    else if t[..|p|] == p then
      assert OccursAt(t, p, 0);
      true
    else
      var r := Contains(t[1..], p);
      if r then
        var j :| OccursAt(t[1..], p, j);
        assert OccursAt(t, p, j + 1);
        true
      else
        assert forall i | OccursAt(t, p, i) :: i != 0 && OccursAt(t[1..], p, i - 1);
        false
  }
}
