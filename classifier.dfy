/**
 The import parser: text is split into lines, blank lines are skipped, and each
 remaining line becomes one element whose type is chosen by four anchored
 regular expressions tried in order, first match wins. The tests run on the
 line as read; only the stored content is trimmed.
 */
module Classifier {
  import opened Text
  import opened Elements

  /** `/^(INT|EXT|INT\/EXT|I\/E)/i` */
  predicate SceneHeadingRule(line: string)
  {
    StartsWithIgnoringCase(line, "INT") || StartsWithIgnoringCase(line, "EXT") ||
    StartsWithIgnoringCase(line, "INT/EXT") || StartsWithIgnoringCase(line, "I/E")
  }

  /** `/^[A-Z\s]+$/` */
  predicate CharacterRule(line: string)
  {
    |line| > 0 && forall i :: 0 <= i < |line| ==> IsUpperOrSpace(line[i])
  }

  /** `/^\(.*\)$/`: an opening and a closing parenthesis with no line terminator between. */
  predicate ParentheticalRule(line: string)
  {
    |line| >= 2 && line[0] == '(' && line[|line| - 1] == ')' &&
    forall i :: 1 <= i < |line| - 1 ==> !IsLineTerminator(line[i])
  }

  /** `/^[A-Z\s]+TO:$/`: at least one character of `[A-Z\s]`, then `TO:` at the very end. */
  predicate TransitionRule(line: string)
  {
    |line| >= 4 && line[|line| - 3..] == "TO:" &&
    forall i :: 0 <= i < |line| - 3 ==> IsUpperOrSpace(line[i])
  }

  /** The classification chain: the first rule that matches decides, `ACTION` otherwise. */
  function Classify(line: string): (t: ElementType)
    ensures t != Dialogue && t != Note
  {
    if SceneHeadingRule(line) then SceneHeading
    else if CharacterRule(line) then Character
    else if ParentheticalRule(line) then Parenthetical
    else if TransitionRule(line) then Transition
    else Action
  }

  /** A scene heading starts with `I` or `E`, in either case. */
  lemma HeadingInitial(line: string)
    requires SceneHeadingRule(line)
    ensures |line| > 0 && (line[0] == 'I' || line[0] == 'i' || line[0] == 'E' || line[0] == 'e')
  {
    var p := if StartsWithIgnoringCase(line, "INT") then "INT"
      else if StartsWithIgnoringCase(line, "EXT") then "EXT"
      else if StartsWithIgnoringCase(line, "INT/EXT") then "INT/EXT"
      else "I/E";
    assert ToUpper(line[..|p|])[0] == UpperChar(line[0]) == p[0];
  }

  /** The three rules after the first never overlap, so their order does not matter;
      the scene-heading rule overlaps only the character and transition rules, and
      takes priority over them. In particular a `... TO:` line can never be a
      character cue, because `:` is not in `[A-Z\s]`. */
  lemma RulesDisjoint(line: string)
    ensures !(SceneHeadingRule(line) && ParentheticalRule(line))
    ensures !(CharacterRule(line) && ParentheticalRule(line))
    ensures !(CharacterRule(line) && TransitionRule(line))
    ensures !(ParentheticalRule(line) && TransitionRule(line))
  {
    if SceneHeadingRule(line) {
      HeadingInitial(line);
    }
    if TransitionRule(line) {
      assert line[|line| - 1] == line[|line| - 3..][2];
    }
  }

  /** What each outcome of the chain means, in terms of the rules alone. */
  lemma ClassifyOutcomes(line: string)
    ensures Classify(line) == SceneHeading <==> SceneHeadingRule(line)
    ensures Classify(line) == Character <==> !SceneHeadingRule(line) && CharacterRule(line)
    ensures Classify(line) == Parenthetical <==> !SceneHeadingRule(line) && ParentheticalRule(line)
    ensures Classify(line) == Transition <==> !SceneHeadingRule(line) && TransitionRule(line)
    ensures Classify(line) == Action <==>
      !SceneHeadingRule(line) && !CharacterRule(line) && !ParentheticalRule(line) && !TransitionRule(line)
  {
    RulesDisjoint(line);
  }

  /** A line whose first three characters read `INT`, `EXT` or `I/E` in any letter
      case is a scene heading whatever follows. */
  lemma SceneHeadingByPrefix(prefix: string, rest: string)
    requires |prefix| == 3 && ToUpper(prefix) in {"INT", "EXT", "I/E"}
    ensures Classify(prefix + rest) == SceneHeading
  {
  }

  /** The `INT/EXT` alternative never decides anything: `INT` already matches it. */
  lemma IntExtSubsumed(line: string)
    requires StartsWithIgnoringCase(line, "INT/EXT")
    ensures StartsWithIgnoringCase(line, "INT")
  {
    assert ToUpper(line[..3]) == ToUpper(line[..7])[..3];
  }

  /** Leading whitespace defeats the scene-heading and parenthetical tests (both
      anchor a non-space at `^`), but not the character or transition tests. */
  lemma LeadingSpaceQuirk(line: string)
    requires |line| > 0 && IsSpace(line[0])
    ensures !SceneHeadingRule(line) && !ParentheticalRule(line)
    ensures Classify(line) in {Character, Transition, Action}
  {
    forall p | p in ["INT", "EXT", "INT/EXT", "I/E"] && |p| <= |line|
      ensures ToUpper(line[..|p|]) != p
    {
      assert ToUpper(line[..|p|])[0] == UpperChar(line[0]);
      UpperCharSpace(line[0]);
    }
  }

  /** A trailing carriage return (a file with CRLF line ends) defeats the
      parenthetical and transition tests, which need `)` or `:` last, but not the
      character test, for `\r` is in `\s`. */
  lemma CarriageReturnQuirk(line: string)
    ensures !ParentheticalRule(line + "\r") && !TransitionRule(line + "\r")
    ensures CharacterRule(line) ==> CharacterRule(line + "\r")
  {
    var l := line + "\r";
    assert l[|l| - 1] == '\r';
    assert |l| >= 3 ==> l[|l| - 3..][2] == '\r';
  }

  /** `!line.trim()`: the import skips the line. */
  predicate IsBlankLine(line: string)
  {
    Trim(line) == []
  }

  /** The element an imported non-blank line becomes. */
  function FromLine(id: int, line: string): Element
  {
    Element(id, Classify(line), Trim(line), None, false)
  }

  /** The import of `lines`, numbering the kept lines from `nextId` on. */
  function ParseLines(lines: seq<string>, nextId: int): seq<Element>
  {
    if lines == [] then []
    else if IsBlankLine(lines[0]) then ParseLines(lines[1..], nextId)
    else [FromLine(nextId, lines[0])] + ParseLines(lines[1..], nextId + 1)
  }

  /** What `parseContent` returns for `content`. */
  function Parse(content: string): seq<Element>
  {
    ParseLines(SplitLines(content), 1)
  }

  /** The non-blank lines, in order. */
  function NonBlank(lines: seq<string>): (r: seq<string>)
    ensures |r| <= |lines|
    ensures forall j :: 0 <= j < |r| ==> !IsBlankLine(r[j])
  {
    if lines == [] then []
    else if IsBlankLine(lines[0]) then NonBlank(lines[1..])
    else [lines[0]] + NonBlank(lines[1..])
  }

  /** Exactly the non-blank lines are kept. */
  lemma {:induction false} NonBlankMembers(lines: seq<string>)
    ensures forall x :: x in NonBlank(lines) <==> x in lines && !IsBlankLine(x)
  {
    if lines != [] {
      NonBlankMembers(lines[1..]);
      assert lines == [lines[0]] + lines[1..];
    }
  }

  /** Keeping the non-blank lines distributes over concatenation, so their order and
      their repetitions are those of the input. */
  lemma {:induction false} NonBlankAppend(a: seq<string>, b: seq<string>)
    ensures NonBlank(a + b) == NonBlank(a) + NonBlank(b)
  {
    if a == [] {
      assert a + b == b;
    } else {
      assert (a + b)[1..] == a[1..] + b;
      NonBlankAppend(a[1..], b);
    }
  }

  /** The import yields one element per non-blank line, in order, numbered
      consecutively from `nextId`, each holding its trimmed line and the type the
      chain gives the untrimmed line. */
  lemma {:induction false} ParseLinesShape(lines: seq<string>, nextId: int)
    ensures |ParseLines(lines, nextId)| == |NonBlank(lines)|
    ensures forall j :: 0 <= j < |NonBlank(lines)| ==>
      ParseLines(lines, nextId)[j] == FromLine(nextId + j, NonBlank(lines)[j])
  {
    if lines != [] {
      if IsBlankLine(lines[0]) {
        ParseLinesShape(lines[1..], nextId);
      } else {
        ParseLinesShape(lines[1..], nextId + 1);
      }
    }
  }

  /** The import of a whole text: ids 1..n, contents trimmed, no scene numbers, no title page. */
  lemma ParseSpec(content: string)
    ensures var lines := NonBlank(SplitLines(content));
      |Parse(content)| == |lines| &&
      forall j :: 0 <= j < |lines| ==>
        Parse(content)[j].id == j + 1 && Parse(content)[j].content == Trim(lines[j]) &&
        Parse(content)[j].kind == Classify(lines[j]) &&
        Parse(content)[j].sceneNumber == None && !Parse(content)[j].isTitlePage
  {
    ParseLinesShape(SplitLines(content), 1);
  }

  /** Text that is all whitespace imports as the empty document. */
  lemma {:induction false} BlankTextImportsNothing(lines: seq<string>, nextId: int)
    requires forall j :: 0 <= j < |lines| ==> Blank(lines[j])
    ensures ParseLines(lines, nextId) == []
  {
    if lines != [] {
      TrimEmptyIffBlank(lines[0]);
      BlankTextImportsNothing(lines[1..], nextId);
    }
  }

  /** Imported elements keep the trimmed line: none has leading or trailing whitespace,
      and none is empty. */
  lemma {:induction false} ParsedContentTrimmed(lines: seq<string>, nextId: int)
    ensures forall e :: e in ParseLines(lines, nextId) ==>
      e.content != [] && !IsSpace(e.content[0]) && !IsSpace(e.content[|e.content| - 1])
  {
    if lines != [] {
      TrimIsInnerSlice(lines[0]);
      if IsBlankLine(lines[0]) {
        ParsedContentTrimmed(lines[1..], nextId);
      } else {
        ParsedContentTrimmed(lines[1..], nextId + 1);
      }
    }
  }

  /** The import of the lines from `i` on, one line unfolded. */
  lemma ParseLinesFrom(lines: seq<string>, i: nat, nextId: int)
    requires i < |lines|
    ensures ParseLines(lines[i..], nextId) ==
      if IsBlankLine(lines[i]) then ParseLines(lines[i + 1..], nextId)
      else [FromLine(nextId, lines[i])] + ParseLines(lines[i + 1..], nextId + 1)
  {
    assert lines[i..][1..] == lines[i + 1..];
  }

  /** The detection chain inside the import loop: `ACTION` unless a pattern, tried
      in order, matches. */
  method DetectType(line: string) returns (kind: ElementType)
    ensures kind == Classify(line)
  {
    kind := Action;
    if SceneHeadingRule(line) {
      kind := SceneHeading;
    } else if CharacterRule(line) {
      kind := Character;
    } else if ParentheticalRule(line) {
      kind := Parenthetical;
    } else if TransitionRule(line) {
      kind := Transition;
    }
  }

  /** `parseContent`: one pass over the lines, pushing an element for each non-blank
      one and advancing the id counter. */
  method ParseContent(content: string) returns (newScenes: seq<Element>)
    ensures newScenes == Parse(content)
  {
    var lines := SplitLines(content);
    newScenes := [];
    var currentId := 1;
    var i := 0;
    while i < |lines|
      invariant 0 <= i <= |lines|
      invariant newScenes + ParseLines(lines[i..], currentId) == ParseLines(lines, 1)
    {
      var line := lines[i];
      ParseLinesFrom(lines, i, currentId);
      if Trim(line) != [] {
        var kind := DetectType(line);
        var processedLine := Trim(line);
        newScenes := newScenes + [Element(currentId, kind, processedLine, None, false)];
        currentId := currentId + 1;
      }
      i := i + 1;
    }
  }

  /** `CUT TO:` is a transition: the character test fails on the colon. */
  lemma CutToIsTransition()
    ensures Classify("CUT TO:") == Transition
  {
    var l := "CUT TO:";
    assert ToUpper(l[..3])[0] == 'C';
    assert ToUpper(l[..7])[0] == 'C';
    assert !IsUpperOrSpace(l[6]);
    assert l[4..] == "TO:";
    assert forall i :: 0 <= i < 4 ==> IsUpperOrSpace(l[i]);
  }

  /** An indented scene heading is imported as action, although its stored
      (trimmed) content would pass the scene-heading test. */
  lemma IndentedHeadingIsAction()
    ensures Classify("  INT. HOUSE") == Action
    ensures Trim("  INT. HOUSE") == "INT. HOUSE"
    ensures Classify("INT. HOUSE") == SceneHeading
  {
    var l := "  INT. HOUSE";
    LeadingSpaceQuirk(l);
    assert !IsUpperOrSpace(l[5]);
    assert l[|l| - 3..] != "TO:" by { assert l[|l| - 3..][2] == 'E'; }
    TrimIndentedHeading();
    HeadingWithoutIndent();
  }

  lemma TrimIndentedHeading()
    ensures Trim("  INT. HOUSE") == "INT. HOUSE"
  {
    var l := "  INT. HOUSE";
    assert l[1..] == " INT. HOUSE";
    assert l[1..][1..] == "INT. HOUSE";
    assert TrimStart(l) == "INT. HOUSE";
    assert TrimEnd("INT. HOUSE") == "INT. HOUSE";
  }

  lemma HeadingWithoutIndent()
    ensures Classify("INT. HOUSE") == SceneHeading
  {
    assert ToUpper("INT. HOUSE"[..3]) == "INT" by {
      assert "INT. HOUSE"[..3] == "INT";
    }
  }

  /** The three-line example splits into its three lines. */
  lemma SplitExample()
    ensures SplitLines("INT. KITCHEN - DAY\nJOHN\n(whispering)") ==
      ["INT. KITCHEN - DAY", "JOHN", "(whispering)"]
  {
    var lines := ["INT. KITCHEN - DAY", "JOHN", "(whispering)"];
    assert JoinLines(lines[2..]) == "(whispering)";
    assert JoinLines(lines[1..]) == "JOHN\n(whispering)";
    assert JoinLines(lines) == "INT. KITCHEN - DAY\nJOHN\n(whispering)";
    assert '\n' !in lines[0] && '\n' !in lines[1] && '\n' !in lines[2];
    SplitJoinLines(lines);
  }

  /** The three-line example: a heading, a cue and a parenthetical. */
  lemma ImportExample()
    ensures Parse("INT. KITCHEN - DAY\nJOHN\n(whispering)") == [
      Element(1, SceneHeading, "INT. KITCHEN - DAY", None, false),
      Element(2, Character, "JOHN", None, false),
      Element(3, Parenthetical, "(whispering)", None, false)]
  {
    SplitExample();
    HeadingLine();
    CueLine();
    ParentheticalLine();
    ParseThreeLines("INT. KITCHEN - DAY", "JOHN", "(whispering)");
  }

  lemma ParseThreeLines(a: string, b: string, c: string)
    requires !IsBlankLine(a) && !IsBlankLine(b) && !IsBlankLine(c)
    ensures ParseLines([a, b, c], 1) == [FromLine(1, a), FromLine(2, b), FromLine(3, c)]
  {
    assert [a, b, c][1..] == [b, c] && [b, c][1..] == [c] && [c][1..] == [];
    assert ParseLines([c], 3) == [FromLine(3, c)];
    assert ParseLines([b, c], 2) == [FromLine(2, b)] + [FromLine(3, c)];
  }

  lemma HeadingLine()
    ensures Trim("INT. KITCHEN - DAY") == "INT. KITCHEN - DAY"
    ensures Classify("INT. KITCHEN - DAY") == SceneHeading
  {
  }

  lemma CueLine()
    ensures Trim("JOHN") == "JOHN"
    ensures Classify("JOHN") == Character
  {
    var l := "JOHN";
    assert ToUpper(l[..3])[0] == 'J';
    assert forall i :: 0 <= i < |l| ==> IsUpperOrSpace(l[i]);
  }

  lemma ParentheticalLine()
    ensures Trim("(whispering)") == "(whispering)"
    ensures Classify("(whispering)") == Parenthetical
  {
    var l := "(whispering)";
    assert ToUpper(l[..3])[0] == '(';
    assert ToUpper(l[..7])[0] == '(';
    assert !IsUpperOrSpace(l[0]);
    assert forall i :: 1 <= i < |l| - 1 ==> !IsLineTerminator(l[i]);
  }
}
