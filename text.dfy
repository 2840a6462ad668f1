/**
 * The few Python string operations the screens rely on: slicing off a fixed
 * prefix (`s[n:]`), `startswith`, and `splitlines` on command output.
 * Lines are split on '\n' only.
 */
module Text {

  /** Python's `s[n:]`: drops the first n characters, or all of them when s is shorter. */
  function Drop(s: string, n: nat): (r: string)
    ensures |s| <= n ==> r == ""
    ensures |s| > n ==> |r| == |s| - n
    ensures forall i :: 0 <= i < |r| ==> r[i] == s[i + n]
  {
    if n <= |s| then s[n..] else ""
  }

  /** Python's `s.startswith(prefix)`. */
  predicate StartsWith(s: string, prefix: string)
  {
    |prefix| <= |s| && s[..|prefix|] == prefix
  }

  /** Index of the first '\n' at or after position k in s, or |s| when there is none. */
  function NewlineIndexFrom(s: string, k: nat): (i: nat)
    requires k <= |s|
    ensures k <= i <= |s|
    ensures i < |s| ==> s[i] == '\n'
    decreases |s| - k
  {
    if k == |s| || s[k] == '\n' then k else NewlineIndexFrom(s, k + 1)
  }

  /** Index of the first '\n' in s, or |s| when there is none. */
  function NewlineIndex(s: string): (i: nat)
    ensures i <= |s|
    ensures i < |s| ==> s[i] == '\n'
  {
    NewlineIndexFrom(s, 0)
  }

  /** No character between k and NewlineIndexFrom(s, k) is a line break. */
  lemma {:induction false} NoBreakBeforeNewlineIndexFrom(s: string, k: nat, j: nat)
    requires k <= j < |s| && j < NewlineIndexFrom(s, k)
    ensures s[j] != '\n'
    decreases |s| - k
  {
    if k < j {
      NoBreakBeforeNewlineIndexFrom(s, k + 1, j);
    }
  }

  /** No character before NewlineIndex(s) is a line break. */
  lemma NoBreakBeforeNewlineIndex(s: string, j: nat)
    requires j < NewlineIndex(s)
    ensures s[j] != '\n'
  {
    NoBreakBeforeNewlineIndexFrom(s, 0, j);
  }

  /** The first line break at or after k, if any, is at NewlineIndexFrom(s, k). */
  lemma {:induction false} NewlineIndexFromIsFirst(s: string, k: nat, j: nat)
    requires k <= j <= |s|
    requires forall m :: k <= m < j ==> s[m] != '\n'
    requires j < |s| ==> s[j] == '\n'
    ensures NewlineIndexFrom(s, k) == j
    decreases j - k
  {
    if k < j {
      NewlineIndexFromIsFirst(s, k + 1, j);
    }
  }

  /** The first line break, if any, is at NewlineIndex(s). */
  lemma NewlineIndexIsFirst(s: string, j: nat)
    requires j <= |s|
    requires forall k :: 0 <= k < j ==> s[k] != '\n'
    requires j < |s| ==> s[j] == '\n'
    ensures NewlineIndex(s) == j
  {
    NewlineIndexFromIsFirst(s, 0, j);
  }

  /**
   * Python's `s.splitlines()` restricted to '\n' line breaks: the lines of s
   * in order, without their terminators; a final '\n' does not start an
   * extra empty line, and the empty string has no lines.
   */
  function SplitLines(s: string): (lines: seq<string>)
    ensures |lines| == 0 <==> |s| == 0
    decreases |s|
  {
    if |s| == 0 then []
    else
      var i := NewlineIndex(s);
      if i == |s| then [s] else [s[..i]] + SplitLines(s[i + 1..])
  }

  /** Where the text breaks, it splits into the first line and the lines of the rest. */
  lemma SplitLinesAt(s: string)
    requires NewlineIndex(s) < |s|
    ensures SplitLines(s) == [s[..NewlineIndex(s)]] + SplitLines(s[NewlineIndex(s) + 1..])
  {
  }

  /** No line of the split contains a line break. */
  lemma {:induction false} SplitLinesHaveNoBreaks(s: string)
    ensures forall k :: 0 <= k < |SplitLines(s)| ==> '\n' !in SplitLines(s)[k]
    decreases |s|
  {
    if |s| > 0 {
      var i := NewlineIndex(s);
      forall j | 0 <= j < i
        ensures s[..i][j] != '\n'
      {
        NoBreakBeforeNewlineIndex(s, j);
      }
      if i < |s| {
        SplitLinesAt(s);
        SplitLinesHaveNoBreaks(s[i + 1..]);
      }
    }
  }

  /** Every line followed by its '\n': the text whose lines SplitLines gives back. */
  function JoinLines(lines: seq<string>): string
  {
    if |lines| == 0 then "" else lines[0] + "\n" + JoinLines(lines[1..])
  }

  lemma JoinLinesCons(line: string, lines: seq<string>)
    ensures JoinLines([line] + lines) == line + "\n" + JoinLines(lines)
  {
    assert ([line] + lines)[1..] == lines;
  }

  /** Text made of two pieces without a break has no break. */
  lemma NoBreakInConcat(a: string, b: string)
    requires '\n' !in a && '\n' !in b
    ensures '\n' !in a + b
  {
    assert forall k :: 0 <= k < |a + b| ==> (a + b)[k] == if k < |a| then a[k] else b[k - |a|];
  }

  /** A line without a break, followed by '\n', is the first line of the whole text. */
  lemma SplitLinesCons(line: string, rest: string)
    requires '\n' !in line
    ensures SplitLines(line + "\n" + rest) == [line] + SplitLines(rest)
  {
    var s := line + "\n" + rest;
    assert forall k :: 0 <= k < |line| ==> s[k] == line[k];
    NewlineIndexIsFirst(s, |line|);
    assert s[..|line|] == line;
    assert s[|line| + 1..] == rest;
    SplitLinesAt(s);
  }

  /** A non-empty text without a break is a single line. */
  lemma SplitLinesSingle(line: string)
    requires '\n' !in line && |line| > 0
    ensures SplitLines(line) == [line]
  {
    NewlineIndexIsFirst(line, |line|);
  }

  /** Splitting undoes joining, for lines without breaks of their own. */
  lemma {:induction false} SplitJoin(lines: seq<string>)
    requires forall k :: 0 <= k < |lines| ==> '\n' !in lines[k]
    ensures SplitLines(JoinLines(lines)) == lines
  {
    if |lines| > 0 {
      SplitJoin(lines[1..]);
      SplitLinesCons(lines[0], JoinLines(lines[1..]));
    }
  }

  /** The text with a final '\n' added unless it is empty or already ends in one. */
  function Terminated(s: string): string
  {
    if |s| == 0 || s[|s| - 1] == '\n' then s else s + "\n"
  }

  /** Terminating the rest of a text is terminating the whole text. */
  lemma TerminateAfterBreak(line: string, rest: string)
    ensures line + "\n" + Terminated(rest) == Terminated(line + "\n" + rest)
  {
    var s := line + "\n" + rest;
    if |rest| > 0 {
      assert s[|s| - 1] == rest[|rest| - 1];
      assert line + "\n" + (rest + "\n") == s + "\n";
    }
  }

  /** A text is the part before a break, the break, and the part after it. */
  lemma BreakSplitsText(s: string, i: nat)
    requires i < |s| && s[i] == '\n'
    ensures s == s[..i] + "\n" + s[i + 1..]
  {
  }

  /** A text without a break is a single line, which joins back with a final '\n'. */
  lemma JoinSplitUnbroken(s: string)
    requires |s| > 0 && NewlineIndex(s) == |s|
    ensures JoinLines(SplitLines(s)) == s + "\n"
    ensures Terminated(s) == s + "\n"
  {
    NoBreakBeforeNewlineIndex(s, |s| - 1);
    assert SplitLines(s) == [s];
    JoinLinesCons(s, []);
    assert [s] + [] == [s];
  }

  /**
   * Joining undoes splitting, except that a text whose last line is not
   * terminated comes back with a final '\n'.
   */
  lemma {:induction false} JoinSplit(s: string)
    ensures JoinLines(SplitLines(s)) == Terminated(s)
    decreases |s|
  {
    if |s| > 0 {
      var i := NewlineIndex(s);
      if i < |s| {
        var line, rest := s[..i], s[i + 1..];
        SplitLinesAt(s);
        JoinLinesCons(line, SplitLines(rest));
        JoinSplit(rest);
        TerminateAfterBreak(line, rest);
        BreakSplitsText(s, i);
      } else {
        JoinSplitUnbroken(s);
      }
    }
  }
}
