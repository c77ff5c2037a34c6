/**
 * The string operations the news formatter relies on: Python's `str.strip()`
 * with no argument, and splitting and joining on the newline character.
 */
module Text {

  /** The characters for which Python's `str.isspace()` holds; `strip()` removes exactly these. */
  predicate IsSpace(c: char)
  {
    ('\t' <= c <= '\r') || ('\U{1C}' <= c <= ' ') || c == '\U{85}' || c == '\U{A0}' ||
    c == '\U{1680}' || ('\U{2000}' <= c <= '\U{200A}') || c == '\U{2028}' || c == '\U{2029}' ||
    c == '\U{202F}' || c == '\U{205F}' || c == '\U{3000}'
  }

  /** Removes leading whitespace. */
  function TrimLeft(s: string): (r: string)
    ensures |r| <= |s| && r == s[|s| - |r|..]
    ensures forall k :: 0 <= k < |s| - |r| ==> IsSpace(s[k])
    ensures r == [] || !IsSpace(r[0])
  {
    if s != [] && IsSpace(s[0]) then TrimLeft(s[1..]) else s
  }

  /** Removes trailing whitespace. */
  function TrimRight(s: string): (r: string)
    ensures |r| <= |s| && r == s[..|r|]
    ensures forall k :: |r| <= k < |s| ==> IsSpace(s[k])
    ensures r == [] || !IsSpace(r[|r| - 1])
  {
    if s != [] && IsSpace(s[|s| - 1]) then TrimRight(s[..|s| - 1]) else s
  }

  /** `r` is the slice of `s` starting at `a`, and only whitespace lies outside it. */
  predicate SliceWithin(s: string, r: string, a: int)
  {
    0 <= a <= |s| - |r| && r == s[a..][..|r|] &&
    (forall k :: 0 <= k < a ==> IsSpace(s[k])) &&
    (forall k :: a + |r| <= k < |s| ==> IsSpace(s[k]))
  }

  /** Python's `s.strip()`: a slice of `s` with only whitespace outside it and none at its ends. */
  function Strip(s: string): (r: string)
    ensures |r| <= |s|
    ensures exists a :: SliceWithin(s, r, a)
    ensures r == [] || (!IsSpace(r[0]) && !IsSpace(r[|r| - 1]))
  {
    TrimBothWithin(s);
    TrimRight(TrimLeft(s))
  }

  /** Trimming both ends leaves the slice that starts after the leading whitespace. */
  lemma TrimBothWithin(s: string)
    ensures SliceWithin(s, TrimRight(TrimLeft(s)), |s| - |TrimLeft(s)|)
  {
    var t := TrimLeft(s);
    var a := |s| - |t|;
    var r := TrimRight(t);
    assert t == s[a..] && r == t[..|r|];
    assert forall k :: a <= k < |s| ==> s[k] == t[k - a];
  }

  /** A string that is nothing but whitespace (possibly empty). */
  predicate Blank(s: string)
  {
    forall k :: 0 <= k < |s| ==> IsSpace(s[k])
  }

  /** `rstrip()` is fixed by its three properties: prefix, only whitespace removed, clean end. */
  lemma TrimRightUnique(s: string, r: string)
    requires |r| <= |s| && r == s[..|r|]
    requires forall k :: |r| <= k < |s| ==> IsSpace(s[k])
    requires r == [] || !IsSpace(r[|r| - 1])
    ensures TrimRight(s) == r
  {
    var q := TrimRight(s);
    if r != [] {
      assert s[|r| - 1] == r[|r| - 1];
    }
    if q != [] {
      assert s[|q| - 1] == q[|q| - 1];
    }
  }

  /** Only a blank string trims to nothing at the end. */
  lemma TrimRightEmptyIffBlank(s: string)
    ensures TrimRight(s) == [] <==> Blank(s)
  {
    if Blank(s) {
      TrimRightUnique(s, []);
    }
  }

  /** Trailing whitespace of `x` is all that goes when `x` is not blank. */
  lemma TrimRightAppend(p: string, x: string)
    requires !Blank(x)
    ensures TrimRight(p + x) == p + TrimRight(x)
  {
    TrimRightEmptyIffBlank(x);
    var t := TrimRight(x);
    var s := p + x;
    assert s[..|p| + |t|] == p + t;
    forall k | |p| + |t| <= k < |s| ensures IsSpace(s[k]) {
      assert s[k] == x[k - |p|];
    }
    TrimRightUnique(s, p + t);
  }

  /** Appending whitespace does not change what `rstrip()` keeps. */
  lemma TrimRightBlankSuffix(p: string, w: string)
    requires Blank(w)
    ensures TrimRight(p + w) == TrimRight(p)
  {
    var t := TrimRight(p);
    var s := p + w;
    assert s[..|t|] == t;
    forall k | |t| <= k < |s| ensures IsSpace(s[k]) {
      if k >= |p| {
        assert s[k] == w[k - |p|];
      }
    }
    TrimRightUnique(s, t);
  }

  /** A string that starts with a non-space character loses only trailing whitespace to `strip()`. */
  lemma StripFromNonSpaceStart(s: string)
    requires s != [] && !IsSpace(s[0])
    ensures Strip(s) == TrimRight(s)
    ensures Strip(s) != [] && Strip(s)[0] == s[0]
  {
    assert TrimLeft(s) == s;
  }

  /** A string already ending in a non-space character has nothing to trim at the end. */
  lemma TrimRightClean(s: string)
    requires s != [] && !IsSpace(s[|s| - 1])
    ensures TrimRight(s) == s
  {
  }

  /** Python's `"\n".join(lines)`. */
  function JoinLines(lines: seq<string>): string
  {
    if lines == [] then ""
    else if |lines| == 1 then lines[0]
    else lines[0] + "\n" + JoinLines(lines[1..])
  }

  /** Joining one more line appends a newline and that line. */
  lemma {:induction false} JoinLinesSnoc(lines: seq<string>, line: string)
    requires lines != []
    ensures JoinLines(lines + [line]) == JoinLines(lines) + "\n" + line
  {
    if |lines| > 1 {
      JoinLinesSnoc(lines[1..], line);
      assert (lines + [line])[1..] == lines[1..] + [line];
    }
  }

  /** Trimming joined lines trims only the last line, as long as that line is not blank. */
  lemma TrimRightJoinLines(lines: seq<string>)
    requires lines != [] && !Blank(lines[|lines| - 1])
    ensures TrimRight(JoinLines(lines)) == JoinLines(lines[..|lines| - 1] + [TrimRight(lines[|lines| - 1])])
  {
    var init := lines[..|lines| - 1];
    var last := lines[|lines| - 1];
    if init == [] {
      assert JoinLines(lines) == last;
      assert init + [TrimRight(last)] == [TrimRight(last)];
    } else {
      JoinLinesLast(lines);
      TrimRightAppend(JoinLines(init) + "\n", last);
      JoinLinesSnoc(init, TrimRight(last));
    }
  }

  /** Joined lines end with a newline and the last line. */
  lemma {:induction false} JoinLinesLast(lines: seq<string>)
    requires |lines| >= 2
    ensures JoinLines(lines) == JoinLines(lines[..|lines| - 1]) + "\n" + lines[|lines| - 1]
  {
    var init := lines[..|lines| - 1];
    if |lines| == 2 {
      assert init == [lines[0]];
    } else {
      var rest := lines[1..];
      JoinLinesLast(rest);
      assert init[1..] == rest[..|rest| - 1];
      assert JoinLines(init) == init[0] + "\n" + JoinLines(init[1..]);
    }
  }

  /** The index of the first newline in `s`, or `|s|` when there is none. */
  function NewlineIndex(s: string): (i: nat)
    ensures i <= |s|
    ensures forall k :: 0 <= k < i ==> s[k] != '\n'
    ensures i < |s| ==> s[i] == '\n'
  {
    if s == [] || s[0] == '\n' then 0 else 1 + NewlineIndex(s[1..])
  }

  /** Python's `s.split("\n")`: the text before the first newline, then the split of the rest. */
  function SplitLines(s: string): (r: seq<string>)
    decreases |s|
  {
    var i := NewlineIndex(s);
    if i == |s| then [s] else [s[..i]] + SplitLines(s[i + 1..])
  }

  /** A string without a newline is one line. */
  lemma SplitSingleLine(s: string)
    requires '\n' !in s
    ensures SplitLines(s) == [s]
  {
    assert NewlineIndex(s) == |s|;
  }

  /** Splitting a line followed by a newline and more text. */
  lemma SplitFirstLine(a: string, b: string)
    requires '\n' !in a
    ensures SplitLines(a + "\n" + b) == [a] + SplitLines(b)
  {
    var s := a + "\n" + b;
    assert s[|a|] == '\n';
    assert forall k :: 0 <= k < |a| ==> s[k] == a[k];
    assert NewlineIndex(s) == |a|;
    assert s[..|a|] == a && s[|a| + 1..] == b;
  }

  /** Round trip: splitting joined lines that contain no newline gives the lines back. */
  lemma {:induction false} SplitJoinLines(lines: seq<string>)
    requires lines != []
    requires forall i :: 0 <= i < |lines| ==> '\n' !in lines[i]
    ensures SplitLines(JoinLines(lines)) == lines
  {
    if |lines| == 1 {
      SplitSingleLine(lines[0]);
    } else {
      SplitJoinLines(lines[1..]);
      SplitFirstLine(lines[0], JoinLines(lines[1..]));
    }
  }
}
