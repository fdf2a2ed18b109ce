/**
 The string primitives the screenplay editor relies on, with the semantics of
 the JavaScript built-ins it calls: `String.prototype.trim`, `toUpperCase`,
 `startsWith`, `split('\n')` and `split(/\s+/)`, and the character classes
 `\s` and `.` of its regular expressions.
 */
module Text {

  /** The JavaScript `\s` class, which is also the set of characters `trim` removes
      (WhiteSpace and LineTerminator). */
  predicate IsSpace(c: char)
  {
    var n := c as int;
    n == 0x20 || 0x09 <= n <= 0x0D || n == 0xA0 || n == 0x1680 ||
    0x2000 <= n <= 0x200A || n == 0x2028 || n == 0x2029 || n == 0x202F ||
    n == 0x205F || n == 0x3000 || n == 0xFEFF
  }

  /** The characters the regular-expression atom `.` does not match. */
  predicate IsLineTerminator(c: char)
  {
    c == '\n' || c == '\r' || c as int == 0x2028 || c as int == 0x2029
  }

  predicate IsUpperAscii(c: char)
  {
    'A' <= c <= 'Z'
  }

  /** The class `[A-Z\s]`. */
  predicate IsUpperOrSpace(c: char)
  {
    IsUpperAscii(c) || IsSpace(c)
  }

  predicate Blank(s: string)
  {
    forall i :: 0 <= i < |s| ==> IsSpace(s[i])
  }

  /** `s.trimStart()`. */
  function TrimStart(s: string): (r: string)
    ensures |r| <= |s|
  {
    if s != [] && IsSpace(s[0]) then TrimStart(s[1..]) else s
  }

  /** `s.trimEnd()`. */
  function TrimEnd(s: string): (r: string)
    ensures |r| <= |s|
  {
    if s != [] && IsSpace(s[|s| - 1]) then TrimEnd(s[..|s| - 1]) else s
  }

  /** `TrimStart(s)` is the longest suffix of `s` that does not start with whitespace. */
  lemma {:induction false} TrimStartSpec(s: string)
    ensures var r := TrimStart(s);
      r == s[|s| - |r|..] && Blank(s[..|s| - |r|]) && (r == [] || !IsSpace(r[0]))
  {
    if s != [] && IsSpace(s[0]) {
      var r := TrimStart(s[1..]);
      TrimStartSpec(s[1..]);
      forall i | 0 <= i < |s| - |r|
        ensures IsSpace(s[i])
      {
        if i > 0 {
          assert s[i] == s[1..][..|s[1..]| - |r|][i - 1];
        }
      }
    }
  }

  /** `TrimEnd(s)` is the longest prefix of `s` that does not end with whitespace. */
  lemma {:induction false} TrimEndSpec(s: string)
    ensures var r := TrimEnd(s);
      r == s[..|r|] && Blank(s[|r|..]) && (r == [] || !IsSpace(r[|r| - 1]))
  {
    if s != [] && IsSpace(s[|s| - 1]) {
      var r := TrimEnd(s[..|s| - 1]);
      TrimEndSpec(s[..|s| - 1]);
      forall i | |r| <= i < |s|
        ensures IsSpace(s[i])
      {
        if i < |s| - 1 {
          assert s[i] == s[..|s| - 1][|r|..][i - |r|];
        }
      }
    }
  }

  /** `s.trim()`. */
  function Trim(s: string): string
  {
    TrimEnd(TrimStart(s))
  }

  /** `Trim(s)` is the slice of `s` left after removing a blank prefix and a blank
      suffix, and it neither starts nor ends with whitespace. */
  lemma TrimIsInnerSlice(s: string)
    ensures var t := Trim(s);
      exists i :: 0 <= i <= i + |t| <= |s| && t == s[i..i + |t|] && Blank(s[..i]) && Blank(s[i + |t|..])
    ensures var t := Trim(s); t == [] || (!IsSpace(t[0]) && !IsSpace(t[|t| - 1]))
  {
    var u := TrimStart(s);
    var t := TrimEnd(u);
    TrimStartSpec(s);
    TrimEndSpec(u);
    var i := |s| - |u|;
    assert t == s[i..i + |t|];
    assert s[i + |t|..] == u[|t|..];
  }

  /** Trimming leaves nothing exactly when the string is all whitespace. */
  lemma TrimEmptyIffBlank(s: string)
    ensures Trim(s) == [] <==> Blank(s)
  {
    var u := TrimStart(s);
    TrimStartSpec(s);
    TrimEndSpec(u);
    if Trim(s) == [] {
      assert Blank(u[0..]);
      assert s == s[..|s| - |u|] + u;
    }
  }

  lemma {:induction false} TrimIdempotent(s: string)
    ensures Trim(Trim(s)) == Trim(s)
  {
    var t := Trim(s);
    if t != [] {
      TrimIsInnerSlice(s);
      assert TrimStart(t) == t;
      assert TrimEnd(t) == t;
    }
  }

  /** Text that neither starts nor ends with whitespace is left alone by trimming. */
  lemma TrimNoop(s: string)
    requires s == [] || (!IsSpace(s[0]) && !IsSpace(s[|s| - 1]))
    ensures Trim(s) == s
  {
  }

  /** `toUpperCase` on one character; only the ASCII letters are mapped. */
  function UpperChar(c: char): (d: char)
  {
    if 'a' <= c <= 'z' then (c as int - 32) as char else c
  }

  /** `s.toUpperCase()`, for the ASCII letters. */
  function ToUpper(s: string): (r: string)
    ensures |r| == |s|
  {
    seq(|s|, i requires 0 <= i < |s| => UpperChar(s[i]))
  }

  /** Upper-casing a second time changes nothing, and no ASCII lower-case letter survives it. */
  lemma ToUpperIdempotent(s: string)
    ensures ToUpper(ToUpper(s)) == ToUpper(s)
    ensures forall i :: 0 <= i < |s| ==> !('a' <= ToUpper(s)[i] <= 'z')
  {
  }

  /** Text without ASCII lower-case letters is left alone by upper-casing. */
  lemma ToUpperNoop(s: string)
    requires forall i :: 0 <= i < |s| ==> !('a' <= s[i] <= 'z')
    ensures ToUpper(s) == s
  {
  }

  /** Upper-casing maps whitespace to whitespace and nothing else to it, so it
      commutes with trimming. */
  lemma UpperCharSpace(c: char)
    ensures IsSpace(UpperChar(c)) <==> IsSpace(c)
  {
  }

  /** `s.startsWith(p)`. */
  predicate StartsWith(s: string, p: string)
  {
    |p| <= |s| && s[..|p|] == p
  }

  /** A case-insensitive match of the upper-case ASCII pattern `p` at the start of
      `s`, as an `i`-flagged regular expression anchored with `^` performs it. */
  predicate StartsWithIgnoringCase(s: string, p: string)
  {
    |p| <= |s| && ToUpper(s[..|p|]) == p
  }

  /** Index of the first occurrence of `c` in `s`, or `|s|` when there is none. */
  function IndexOf(s: string, c: char): (k: nat)
    ensures k <= |s|
    ensures c !in s[..k]
    ensures k < |s| ==> s[k] == c
  {
    if s == [] then 0
    else if s[0] == c then 0
    else
      var k := IndexOf(s[1..], c);
      assert s[..k + 1] == [s[0]] + s[1..][..k];
      k + 1
  }

  /** `s.split('\n')`: the pieces between consecutive line feeds, the empty string
      giving one empty piece. */
  function SplitLines(s: string): (r: seq<string>)
    ensures |r| >= 1
    ensures forall j :: 0 <= j < |r| ==> '\n' !in r[j]
    decreases |s|
  {
    var k := IndexOf(s, '\n');
    if k == |s| then
      assert s[..k] == s;
      [s]
    else
      [s[..k]] + SplitLines(s[k + 1..])
  }

  /** `lines.join('\n')`. */
  function JoinLines(lines: seq<string>): string
    requires |lines| >= 1
  {
    if |lines| == 1 then lines[0] else lines[0] + "\n" + JoinLines(lines[1..])
  }

  /** Splitting on line feeds loses nothing: joining the pieces gives the text back. */
  lemma {:induction false} JoinSplitLines(s: string)
    ensures JoinLines(SplitLines(s)) == s
    decreases |s|
  {
    var k := IndexOf(s, '\n');
    if k == |s| {
      assert s[..k] == s;
    } else {
      var r := SplitLines(s[k + 1..]);
      assert SplitLines(s) == [s[..k]] + r;
      assert ([s[..k]] + r)[1..] == r;
      JoinSplitLines(s[k + 1..]);
      assert JoinLines(SplitLines(s)) == s[..k] + "\n" + JoinLines(r);
      assert s == s[..k] + "\n" + s[k + 1..];
    }
  }

  /** And the other way round: lines without a line feed come back from splitting their join. */
  lemma {:induction false} SplitJoinLines(lines: seq<string>)
    requires |lines| >= 1
    requires forall j :: 0 <= j < |lines| ==> '\n' !in lines[j]
    ensures SplitLines(JoinLines(lines)) == lines
  {
    if |lines| == 1 {
      var s := lines[0];
      IndexOfAbsent(s, '\n');
      assert s[..|s|] == s;
    } else {
      SplitLinesCons(lines[0], JoinLines(lines[1..]));
      SplitJoinLines(lines[1..]);
      assert lines == [lines[0]] + lines[1..];
    }
  }

  /** A line feed after a line without one ends the first piece there. */
  lemma SplitLinesCons(a: string, b: string)
    requires '\n' !in a
    ensures SplitLines(a + "\n" + b) == [a] + SplitLines(b)
  {
    var s := a + "\n" + b;
    assert s == a + ("\n" + b);
    IndexOfConcat(a, "\n" + b, '\n');
    assert s[..|a|] == a;
    assert s[|a| + 1..] == b;
  }

  lemma {:induction false} IndexOfAbsent(s: string, c: char)
    requires c !in s
    ensures IndexOf(s, c) == |s|
  {
  }

  lemma {:induction false} IndexOfConcat(a: string, b: string, c: char)
    requires c !in a
    ensures IndexOf(a + b, c) == |a| + IndexOf(b, c)
  {
    if a != [] {
      assert (a + b)[1..] == a[1..] + b;
      assert forall x :: x in a[1..] ==> x in a;
      IndexOfConcat(a[1..], b, c);
    } else {
      assert a + b == b;
    }
  }

  /** Index of the first whitespace character of `s`, or `|s|` when there is none. */
  function FirstSpace(s: string): (k: nat)
    ensures k <= |s|
    ensures forall j :: 0 <= j < k ==> !IsSpace(s[j])
    ensures k < |s| ==> IsSpace(s[k])
  {
    if s == [] || IsSpace(s[0]) then 0 else FirstSpace(s[1..]) + 1
  }

  /** `s.split(/\s+/)`: the pieces between maximal runs of whitespace. */
  function SplitOnSpaceRuns(s: string): (r: seq<string>)
    ensures |r| >= 1
    ensures forall j, i :: 0 <= j < |r| && 0 <= i < |r[j]| ==> !IsSpace(r[j][i])
    decreases |s|
  {
    var k := FirstSpace(s);
    if k == |s| then [s]
    else
      [s[..k]] + SplitOnSpaceRuns(TrimStart(s[k + 1..]))
  }

  /** On a trimmed, non-empty string the pieces are exactly the words: none of them is empty. */
  lemma {:induction false} SplitOnSpaceRunsWords(s: string)
    requires s != [] && !IsSpace(s[0]) && !IsSpace(s[|s| - 1])
    ensures forall j :: 0 <= j < |SplitOnSpaceRuns(s)| ==> SplitOnSpaceRuns(s)[j] != []
    decreases |s|
  {
    var k := FirstSpace(s);
    if k < |s| {
      var rest := TrimStart(s[k + 1..]);
      TrimStartSpec(s[k + 1..]);
      assert s[k + 1..][|s| - k - 2] == s[|s| - 1];
      assert !Blank(s[k + 1..]);
      assert rest[|rest| - 1] == s[k + 1..][|s| - k - 2];
      SplitOnSpaceRunsWords(rest);
    }
  }

  /** The number `content.trim().split(/\s+/).length`, which counts one for blank content. */
  function WordsIn(content: string): (n: nat)
    ensures n >= 1
  {
    |SplitOnSpaceRuns(Trim(content))|
  }

  /** Blank content counts one word (the single empty piece), not zero. */
  lemma BlankCountsOneWord(content: string)
    requires Blank(content)
    ensures WordsIn(content) == 1
    ensures SplitOnSpaceRuns(Trim(content)) == [""]
  {
    TrimEmptyIffBlank(content);
  }

  /** Position `i` begins a word: a non-whitespace character at the start of the
      text or right after whitespace. */
  predicate IsWordStart(s: string, i: int)
    requires 0 <= i < |s|
  {
    !IsSpace(s[i]) && (i == 0 || IsSpace(s[i - 1]))
  }

  /** The number of word beginnings at positions `from` and after. */
  function CountWordStarts(s: string, from: nat): nat
    requires from <= |s|
    decreases |s| - from
  {
    if from == |s| then 0
    else (if IsWordStart(s, from) then 1 else 0) + CountWordStarts(s, from + 1)
  }

  /** The number of whitespace-separated tokens of `s`. */
  function Tokens(s: string): nat
  {
    CountWordStarts(s, 0)
  }

  /** Counting inside a suffix: past its first position, `s[d..]` has the same
      word beginnings as `s`. */
  lemma {:induction false} CountWordStartsShift(s: string, d: nat, from: nat)
    requires d < from <= |s|
    ensures CountWordStarts(s, from) == CountWordStarts(s[d..], from - d)
    decreases |s| - from
  {
    if from < |s| {
      assert IsWordStart(s, from) == IsWordStart(s[d..], from - d);
      CountWordStartsShift(s, d, from + 1);
    }
  }

  /** A stretch without word beginnings adds nothing to the count. */
  lemma {:induction false} CountWordStartsSkip(s: string, from: nat, to: nat)
    requires from <= to <= |s|
    requires forall i :: from <= i < to ==> !IsWordStart(s, i)
    ensures CountWordStarts(s, from) == CountWordStarts(s, to)
    decreases |s| - from
  {
    if from < to {
      CountWordStartsSkip(s, from + 1, to);
    }
  }

  /** After whitespace, the count from `p` on is the token count of the suffix `s[p..]`. */
  lemma CountWordStartsAfterSpace(s: string, p: nat)
    requires 1 <= p <= |s| && IsSpace(s[p - 1])
    ensures CountWordStarts(s, p) == Tokens(s[p..])
  {
    if p < |s| {
      assert IsWordStart(s, p) == IsWordStart(s[p..], 0);
      CountWordStartsShift(s, p, p + 1);
    }
  }

  /** A word followed by a run of whitespace holds one token; the count goes on
      after the run. */
  lemma TokensAfterFirstWord(s: string, k: nat, p: nat)
    requires 1 <= k < p <= |s|
    requires forall i :: 0 <= i < k ==> !IsSpace(s[i])
    requires forall i :: k <= i < p ==> IsSpace(s[i])
    ensures Tokens(s) == 1 + Tokens(s[p..])
  {
    assert IsWordStart(s, 0);
    assert forall i :: 1 <= i < p ==> !IsWordStart(s, i);
    CountWordStartsSkip(s, 1, p);
    CountWordStartsAfterSpace(s, p);
  }

  /** What `split(/\s+/)` recurses on after the first word of a trimmed text: a
      trimmed, non-empty suffix reached across a run of whitespace. */
  lemma SplitRest(s: string, k: nat)
    requires s != [] && !IsSpace(s[|s| - 1])
    requires k < |s| && IsSpace(s[k])
    ensures var rest := TrimStart(s[k + 1..]);
      && rest != [] && !IsSpace(rest[0]) && !IsSpace(rest[|rest| - 1])
      && k < |s| - |rest| && s[|s| - |rest|..] == rest
      && forall i :: k <= i < |s| - |rest| ==> IsSpace(s[i])
  {
    var tail := s[k + 1..];
    var rest := TrimStart(tail);
    TrimStartSpec(tail);
    assert tail[|tail| - 1] == s[|s| - 1];
    assert !Blank(tail);
    assert rest[|rest| - 1] == s[|s| - 1];
    forall i | k < i < |s| - |rest|
      ensures IsSpace(s[i])
    {
      assert s[i] == tail[..|tail| - |rest|][i - k - 1];
    }
  }

  /** `split(/\s+/)` on text with whitespace in it: the first piece, then the pieces
      of what follows the first whitespace run. */
  lemma SplitOnSpaceRunsPieces(s: string)
    requires FirstSpace(s) < |s|
    ensures |SplitOnSpaceRuns(s)| == 1 + |SplitOnSpaceRuns(TrimStart(s[FirstSpace(s) + 1..]))|
  {
  }

  /** The tokens of a trimmed text with whitespace in it: its first word, then the
      tokens of what follows the first whitespace run. */
  lemma TokensStep(s: string)
    requires s != [] && !IsSpace(s[0]) && !IsSpace(s[|s| - 1])
    requires FirstSpace(s) < |s|
    ensures var rest := TrimStart(s[FirstSpace(s) + 1..]);
      && rest != [] && !IsSpace(rest[0]) && !IsSpace(rest[|rest| - 1]) && |rest| < |s|
      && Tokens(s) == 1 + Tokens(rest)
  {
    var k := FirstSpace(s);
    var rest := TrimStart(s[k + 1..]);
    SplitRest(s, k);
    var p := |s| - |rest|;
    TokensAfterFirstWord(s, k, p);
    assert Tokens(s[p..]) == Tokens(rest);
  }

  /** One step of `split(/\s+/)` on a trimmed text: either the text is a single
      piece and a single token, or its first word is one piece and one token and the
      same goes on with `rest`, the trimmed remainder after the first whitespace run. */
  lemma SplitOnSpaceRunsStep(s: string) returns (more: bool, rest: string)
    requires s != [] && !IsSpace(s[0]) && !IsSpace(s[|s| - 1])
    ensures !more ==> |SplitOnSpaceRuns(s)| == 1 && Tokens(s) == 1
    ensures more ==> rest != [] && !IsSpace(rest[0]) && !IsSpace(rest[|rest| - 1]) && |rest| < |s|
    ensures more ==> |SplitOnSpaceRuns(s)| == 1 + |SplitOnSpaceRuns(rest)| && Tokens(s) == 1 + Tokens(rest)
  {
    var k := FirstSpace(s);
    if k == |s| {
      more, rest := false, [];
      assert IsWordStart(s, 0);
      CountWordStartsSkip(s, 1, |s|);
    } else {
      more, rest := true, TrimStart(s[k + 1..]);
      SplitOnSpaceRunsPieces(s);
      TokensStep(s);
    }
  }

  /** On text with no whitespace at either end, `split(/\s+/)` yields one piece per
      token. */
  lemma {:induction false} SplitOnSpaceRunsCount(s: string)
    requires s != [] && !IsSpace(s[0]) && !IsSpace(s[|s| - 1])
    ensures |SplitOnSpaceRuns(s)| == Tokens(s)
    decreases |s|
  {
    var more, rest := SplitOnSpaceRunsStep(s);
    if more {
      SplitOnSpaceRunsCount(rest);
    }
  }

  /** The word count of one element: the number of tokens of its trimmed content,
      and one (not zero) when that content is empty. */
  lemma WordsInCountsTokens(content: string)
    ensures WordsIn(content) == if Trim(content) == [] then 1 else Tokens(Trim(content))
  {
    var t := Trim(content);
    if t != [] {
      TrimIsInnerSlice(content);
      SplitOnSpaceRunsCount(t);
    }
  }

  /** A run of several spaces separates two words, no more. */
  lemma DoubleSpaceCountsTwoWords()
    ensures WordsIn("JOHN  SMITH") == 2
  {
    TrimNoop("JOHN  SMITH");
    assert Tokens("JOHN  SMITH") == 2;
    WordsInCountsTokens("JOHN  SMITH");
  }
}
