/**
 The quantities the statistics panel shows, as functions of the element list:
 each is what one pass of `updateStatistics` accumulates. They are defined on
 the last element so that a prefix of the list is what a loop has seen so far.
 */
module Statistics {
  import opened Text
  import opened Elements
  import opened Classifier

  datatype Stats = Stats(
    pageCount: nat,
    sceneCount: nat,
    wordCount: nat,
    characterCount: nat,
    dialogueCount: nat)

  /** Elements per page in the page estimate. */
  const LinesPerPage: nat := 55

  /** `Math.max(1, Math.ceil(n / 55))`: the fewest 55-element pages that hold `n`
      elements, and never fewer than one. */
  function PageCount(n: nat): (p: nat)
    ensures p >= 1
    ensures (p - 1) * LinesPerPage < n <= p * LinesPerPage || (n == 0 && p == 1)
    ensures n <= 55 ==> p == 1
    ensures 55 < n <= 110 ==> p == 2
  {
    var pages := (n + LinesPerPage - 1) / LinesPerPage;
    if pages < 1 then 1 else pages
  }

  /** The number of elements of type `k`. */
  function CountKind(s: seq<Element>, k: ElementType): (n: nat)
    ensures n <= |s|
  {
    if s == [] then 0
    else CountKind(s[..|s| - 1], k) + (if s[|s| - 1].kind == k then 1 else 0)
  }

  lemma {:induction false} CountKindAppend(a: seq<Element>, b: seq<Element>, k: ElementType)
    ensures CountKind(a + b, k) == CountKind(a, k) + CountKind(b, k)
    decreases |b|
  {
    if b == [] {
      assert a + b == a;
    } else {
      assert (a + b)[..|a + b| - 1] == a + b[..|b| - 1];
      CountKindAppend(a, b[..|b| - 1], k);
    }
  }

  /** No element of type `k` exactly when the count is zero. */
  lemma {:induction false} CountKindZero(s: seq<Element>, k: ElementType)
    ensures CountKind(s, k) == 0 <==> forall i :: 0 <= i < |s| ==> s[i].kind != k
  {
    if s != [] {
      CountKindZero(s[..|s| - 1], k);
      assert forall i :: 0 <= i < |s| - 1 ==> s[..|s| - 1][i] == s[i];
    }
  }

  /** Every element has exactly one of the seven types. */
  lemma {:induction false} CountKindsPartition(s: seq<Element>)
    ensures CountKind(s, SceneHeading) + CountKind(s, Action) + CountKind(s, Character) +
            CountKind(s, Dialogue) + CountKind(s, Parenthetical) + CountKind(s, Transition) +
            CountKind(s, Note) == |s|
  {
    if s != [] {
      CountKindsPartition(s[..|s| - 1]);
    }
  }

  /** `content.trim().split(/\s+/).length` summed over the elements. */
  function WordCount(s: seq<Element>): nat
  {
    if s == [] then 0 else WordCount(s[..|s| - 1]) + WordsIn(s[|s| - 1].content)
  }

  /** Each element counts at least one word, blank ones included. */
  lemma {:induction false} WordCountAtLeastLength(s: seq<Element>)
    ensures WordCount(s) >= |s|
  {
    if s != [] {
      WordCountAtLeastLength(s[..|s| - 1]);
    }
  }

  /** A list of blank elements counts exactly one word per element. */
  lemma {:induction false} WordCountOfBlanks(s: seq<Element>)
    requires forall i :: 0 <= i < |s| ==> Blank(s[i].content)
    ensures WordCount(s) == |s|
  {
    if s != [] {
      WordCountOfBlanks(s[..|s| - 1]);
      BlankCountsOneWord(s[|s| - 1].content);
    }
  }

  /** The name a character cue adds to the set: `content.trim().toUpperCase()`. */
  function Normalize(content: string): string
  {
    ToUpper(Trim(content))
  }

  /** The normalised names of the character elements. */
  function NamesOf(s: seq<Element>): set<string>
  {
    if s == [] then {}
    else
      var last := s[|s| - 1];
      NamesOf(s[..|s| - 1]) + (if last.kind == Character then {Normalize(last.content)} else {})
  }

  /** A name is collected exactly when some character element normalises to it. */
  lemma {:induction false} NamesOfMembers(s: seq<Element>, name: string)
    ensures name in NamesOf(s) <==>
      exists i :: 0 <= i < |s| && s[i].kind == Character && Normalize(s[i].content) == name
  {
    if s != [] {
      var init := s[..|s| - 1];
      NamesOfMembers(init, name);
      if name in NamesOf(init) {
        var i :| 0 <= i < |init| && init[i].kind == Character && Normalize(init[i].content) == name;
        assert s[i] == init[i];
      }
      if i :| 0 <= i < |s| - 1 && s[i].kind == Character && Normalize(s[i].content) == name {
        assert init[i] == s[i];
      }
    }
  }

  /** Collected names are upper-case and trimmed (for ASCII letters). */
  lemma NamesAreNormalized(s: seq<Element>, name: string)
    requires name in NamesOf(s)
    ensures ToUpper(name) == name
    ensures Trim(name) == name
  {
    NamesOfMembers(s, name);
    var i :| 0 <= i < |s| && s[i].kind == Character && Normalize(s[i].content) == name;
    var t := Trim(s[i].content);
    ToUpperIdempotent(t);
    TrimIsInnerSlice(s[i].content);
    UpperTrimmed(t);
  }

  lemma UpperTrimmed(t: string)
    requires t == [] || (!IsSpace(t[0]) && !IsSpace(t[|t| - 1]))
    ensures Trim(ToUpper(t)) == ToUpper(t)
  {
  }

  predicate NoDuplicates(names: seq<string>)
  {
    forall i, j :: 0 <= i < j < |names| ==> names[i] != names[j]
  }

  /** The name set after one pass: `characters.add(name)` for each character
      element in turn. A JavaScript `Set` keeps its first-insertion order and
      ignores a name it already holds. */
  function AddNames(characters: seq<string>, s: seq<Element>): seq<string>
  {
    if s == [] then characters
    else
      var before := AddNames(characters, s[..|s| - 1]);
      var last := s[|s| - 1];
      if last.kind == Character && Normalize(last.content) !in before
      then before + [Normalize(last.content)]
      else before
  }

  /** A pass only adds: the old names stay in place, in order, and afterwards the
      set holds exactly the old names and those of the character elements, each once. */
  lemma {:induction false} AddNamesSpec(characters: seq<string>, s: seq<Element>)
    ensures characters <= AddNames(characters, s)
    ensures forall x :: x in AddNames(characters, s) <==> x in characters || x in NamesOf(s)
    ensures NoDuplicates(characters) ==> NoDuplicates(AddNames(characters, s))
  {
    if s != [] {
      AddNamesSpec(characters, s[..|s| - 1]);
    }
  }

  /** A pass over elements whose names are all known already changes nothing. */
  lemma {:induction false} AddNamesKnown(characters: seq<string>, s: seq<Element>)
    requires forall x :: x in NamesOf(s) ==> x in characters
    ensures AddNames(characters, s) == characters
  {
    if s != [] {
      AddNamesKnown(characters, s[..|s| - 1]);
    }
  }

  /** What one more element adds to each running figure of a pass. */
  lemma PrefixStep(s: seq<Element>, i: nat, characters: seq<string>)
    requires i < |s|
    ensures forall k :: CountKind(s[..i + 1], k) == CountKind(s[..i], k) + if s[i].kind == k then 1 else 0
    ensures WordCount(s[..i + 1]) == WordCount(s[..i]) + WordsIn(s[i].content)
    ensures var before := AddNames(characters, s[..i]);
      AddNames(characters, s[..i + 1]) ==
        if s[i].kind == Character && Normalize(s[i].content) !in before
        then before + [Normalize(s[i].content)]
        else before
  {
    assert s[..i + 1][..i] == s[..i];
  }

  /** The snapshot `updateStatistics` publishes for `scenes`, with `characters` the
      accumulated name set after the pass. */
  function Snapshot(scenes: seq<Element>, characters: seq<string>): Stats
  {
    Stats(
      PageCount(|scenes|),
      CountKind(scenes, SceneHeading),
      WordCount(scenes),
      |characters|,
      CountKind(scenes, Dialogue))
  }

  /** Non-blank lines whose type the classification chain gives as `k`. */
  function CountLinesOfKind(lines: seq<string>, k: ElementType): (n: nat)
    ensures n <= |lines|
  {
    if lines == [] then 0
    else
      var counted := !IsBlankLine(lines[0]) && Classify(lines[0]) == k;
      CountLinesOfKind(lines[1..], k) + (if counted then 1 else 0)
  }

  /** After an import, each type is counted once per non-blank line the chain gives it. */
  lemma {:induction false} ImportCounts(lines: seq<string>, nextId: int, k: ElementType)
    ensures CountKind(ParseLines(lines, nextId), k) == CountLinesOfKind(lines, k)
  {
    if lines != [] {
      if IsBlankLine(lines[0]) {
        ImportCounts(lines[1..], nextId, k);
      } else {
        ImportCounts(lines[1..], nextId + 1, k);
        var e := FromLine(nextId, lines[0]);
        CountKindAppend([e], ParseLines(lines[1..], nextId + 1), k);
        assert [e][..0] == [];
      }
    }
  }

  /** The number of lines the scene-heading pattern matches. */
  function CountSceneHeadingLines(lines: seq<string>): (n: nat)
    ensures n <= |lines|
  {
    if lines == [] then 0
    else CountSceneHeadingLines(lines[1..]) + (if SceneHeadingRule(lines[0]) then 1 else 0)
  }

  /** A line the scene-heading pattern matches starts with a letter, so it is not blank. */
  lemma SceneHeadingLineNotBlank(line: string)
    requires SceneHeadingRule(line)
    ensures !IsBlankLine(line)
    ensures |line| > 0 && !IsSpace(line[0])
  {
    HeadingInitial(line);
    TrimEmptyIffBlank(line);
  }

  /** After importing a text, the scene count is the number of its lines that
      match the scene-heading pattern. */
  lemma {:induction false} ImportSceneCount(lines: seq<string>, nextId: int)
    ensures CountKind(ParseLines(lines, nextId), SceneHeading) == CountSceneHeadingLines(lines)
  {
    ImportCounts(lines, nextId, SceneHeading);
    SceneLinesAreHeadings(lines);
  }

  lemma {:induction false} SceneLinesAreHeadings(lines: seq<string>)
    ensures CountLinesOfKind(lines, SceneHeading) == CountSceneHeadingLines(lines)
  {
    if lines != [] {
      SceneLinesAreHeadings(lines[1..]);
      ClassifyOutcomes(lines[0]);
      if SceneHeadingRule(lines[0]) {
        SceneHeadingLineNotBlank(lines[0]);
      }
    }
  }

  /** An import never yields dialogue: its dialogue count is zero. */
  lemma ImportHasNoDialogue(content: string)
    ensures CountKind(Parse(content), Dialogue) == 0
  {
    var r := Parse(content);
    ParseSpec(content);
    CountKindZero(r, Dialogue);
  }
}
