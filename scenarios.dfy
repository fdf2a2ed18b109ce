/**
 Short sessions with the editor, each stating the figures the operations'
 contracts determine: importing a heading, a cue and a parenthetical, deleting
 the cue, typing a cue one key at a time, and the suggestion list.
 */
module Scenarios {
  import opened Text
  import opened Elements
  import opened Classifier
  import opened Statistics
  import opened Edits
  import opened Editor

  /** A pass over one more element: what `characters.add` does to the set. */
  lemma AddNamesSnoc(characters: seq<string>, s: seq<Element>, e: Element)
    ensures var before := AddNames(characters, s);
      AddNames(characters, s + [e]) ==
        if e.kind == Character && Normalize(e.content) !in before
        then before + [Normalize(e.content)]
        else before
  {
  }

  lemma WithContentPair(a: Element, b: Element, id: int, content: string)
    requires a.id != id && b.id == id
    ensures WithContent([a, b], id, content) == [a, b.(content := content)]
  {
  }

  /** A cue name as the sessions use it: upper-case letters only. */
  predicate IsName(name: string)
  {
    name != [] && forall i :: 0 <= i < |name| ==> IsUpperAscii(name[i])
  }

  lemma NameIsNormal(name: string)
    requires IsName(name)
    ensures Normalize(name) == name
    ensures !IsBlankLine(name)
    ensures CharacterRule(name) && !ParentheticalRule(name) && !TransitionRule(name)
  {
  }

  /** The three lines of a script: a heading, a cue and a parenthetical, each
      already trimmed, none holding a line feed. */
  predicate ExampleLines(heading: string, cue: string, aside: string)
  {
    && SceneHeadingRule(heading) && !IsSpace(heading[|heading| - 1])
    && IsName(cue) && !SceneHeadingRule(cue)
    && ParentheticalRule(aside)
    && '\n' !in heading && '\n' !in cue && '\n' !in aside
  }

  lemma JoinThree(a: string, b: string, c: string)
    ensures JoinLines([a, b, c]) == a + "\n" + b + "\n" + c
  {
    assert [a, b, c][1..] == [b, c] && [b, c][1..] == [c];
    assert JoinLines([b, c]) == b + "\n" + c;
  }

  /** Each of the three lines is kept as it is and typed as its pattern says. */
  lemma ExampleLinesClassified(heading: string, cue: string, aside: string)
    requires ExampleLines(heading, cue, aside)
    ensures FromLine(1, heading) == Element(1, SceneHeading, heading, None, false)
    ensures FromLine(2, cue) == Element(2, Character, cue, None, false)
    ensures FromLine(3, aside) == Element(3, Parenthetical, aside, None, false)
    ensures !IsBlankLine(heading) && !IsBlankLine(cue) && !IsBlankLine(aside)
  {
    SceneHeadingLineNotBlank(heading);
    TrimNoop(heading);
    NameIsNormal(cue);
    TrimNoop(cue);
    TrimNoop(aside);
    RulesDisjoint(aside);
  }

  /** The import of such a script. */
  lemma ParseExample(heading: string, cue: string, aside: string)
    requires ExampleLines(heading, cue, aside)
    ensures Parse(heading + "\n" + cue + "\n" + aside) == [
      Element(1, SceneHeading, heading, None, false),
      Element(2, Character, cue, None, false),
      Element(3, Parenthetical, aside, None, false)]
  {
    JoinThree(heading, cue, aside);
    SplitJoinLines([heading, cue, aside]);
    ExampleLinesClassified(heading, cue, aside);
    ParseThreeLines(heading, cue, aside);
  }


  function Ones(e: Element, k: ElementType): nat
  {
    if e.kind == k then 1 else 0
  }

  lemma CountThree(a: Element, b: Element, c: Element, k: ElementType)
    ensures CountKind([a, b, c], k) == Ones(a, k) + Ones(b, k) + Ones(c, k)
  {
    assert [a][..0] == [];
    assert CountKind([a], k) == Ones(a, k);
    assert [a, b][..1] == [a];
    assert CountKind([a, b], k) == Ones(a, k) + Ones(b, k);
    assert [a, b, c][..2] == [a, b];
  }

  /** The figures of a heading, a cue and a parenthetical, from an empty name set. */
  lemma ThreeFigures(a: Element, b: Element, c: Element)
    requires a.kind == SceneHeading && b.kind == Character && c.kind == Parenthetical
    requires Normalize(b.content) == b.content
    ensures AddNames([], [a, b, c]) == [b.content]
    ensures CountKind([a, b, c], SceneHeading) == 1 && CountKind([a, b, c], Dialogue) == 0
  {
    CountThree(a, b, c, SceneHeading);
    CountThree(a, b, c, Dialogue);
    assert [a, b, c][..2] == [a, b] && [a, b][..1] == [a] && [a][..0] == [];
    assert AddNames([], [a]) == [];
  }

  /** The figures of that import. */
  lemma ExampleFigures(heading: string, cue: string, aside: string)
    requires ExampleLines(heading, cue, aside)
    ensures var s := Parse(heading + "\n" + cue + "\n" + aside);
      && |s| == 3 && s[0].kind == SceneHeading && s[1].kind == Character && s[2].kind == Parenthetical
      && AddNames([], s) == [cue]
      && CountKind(s, SceneHeading) == 1 && CountKind(s, Dialogue) == 0
  {
    ParseExample(heading, cue, aside);
    NameIsNormal(cue);
    ThreeFigures(
      Element(1, SceneHeading, heading, None, false),
      Element(2, Character, cue, None, false),
      Element(3, Parenthetical, aside, None, false));
  }

  /** Deleting the cue (id 2) of that import leaves no character element. */
  lemma ExampleRemoval(heading: string, cue: string, aside: string)
    requires ExampleLines(heading, cue, aside)
    ensures var r := Removed(Parse(heading + "\n" + cue + "\n" + aside), 2);
      CountKind(r, Character) == 0
  {
    ParseExample(heading, cue, aside);
    var a := Element(1, SceneHeading, heading, None, false);
    var b := Element(2, Character, cue, None, false);
    var c := Element(3, Parenthetical, aside, None, false);
    assert [a, b, c][1..] == [b, c] && [b, c][1..] == [c] && [c][1..] == [];
    assert Removed([a, b, c], 2) == [a, c];
    assert [a, c][..1] == [a] && [a][..0] == [];
  }

  /** The cue a typing session edits. */
  function Cue(content: string): Element
  {
    Element(1000, Character, content, None, false)
  }

  /** Each keystroke edits only the cue, and the pass over the edited list adds the
      typed text to the names when it is new. */
  lemma TypingStep(names: seq<string>, before: string, after: string)
    requires after !in names && Normalize(after) == after
    ensures WithContent([TitlePage, Cue(before)], 1000, after) == [TitlePage, Cue(after)]
    ensures AddNames(names, [TitlePage, Cue(after)]) == names + [after]
  {
    WithContentPair(TitlePage, Cue(before), 1000, after);
    assert [TitlePage][..0] == [];
    assert AddNames(names, [TitlePage]) == names;
    assert [TitlePage, Cue(after)][..1] == [TitlePage];
  }

  /** With the cue's first letter typed in lower case, the names offered from
      `[cue, ""]` are the cue alone. */
  lemma ExampleSuggestion(cue: string)
    requires IsName(cue) && |cue| >= 2
    ensures Suggestions([cue, ""], [(cue[0] as int + 32) as char]) == [cue]
  {
  }

  /** A new cue after elements whose names are all known adds the empty name. */
  lemma NewCueNames(names: seq<string>, s: seq<Element>)
    requires forall x :: x in NamesOf(s) ==> x in names
    requires "" !in names
    ensures AddNames(names, s + [Cue("")]) == names + [""]
  {
    AddNamesKnown(names, s);
    AddNamesSnoc(names, s, Cue(""));
    assert Normalize("") == "";
  }

  /** A fresh editor into which that script was imported. */
  method ImportedEditor(heading: string, cue: string, aside: string) returns (editor: ScreenplayEditor)
    requires ExampleLines(heading, cue, aside)
    ensures fresh(editor) && editor.Valid()
    ensures editor.scenes == Parse(heading + "\n" + cue + "\n" + aside)
    ensures editor.characters == [cue]
  {
    editor := new ScreenplayEditor();
    editor.ImportScript(Some(heading + "\n" + cue + "\n" + aside));
    ExampleFigures(heading, cue, aside);
  }

  /** Choosing the character type and adding a cue with id 1000. */
  method AddCue(editor: ScreenplayEditor)
    requires editor.Valid() && "" !in editor.characters
    modifies editor
    ensures editor.Valid()
    ensures editor.scenes == old(editor.scenes) + [Cue("")]
    ensures editor.characters == old(editor.characters) + [""]
  {
    editor.SetCurrentType(Character);
    NewCueNames(editor.characters, editor.scenes);
    editor.AddElement(1000);
  }

  /** Importing a heading, a cue and a parenthetical into a fresh editor gives
      the three types in order, one scene, one character, no dialogue, one page. */
  method ImportSession(heading: string, cue: string, aside: string)
    returns (stats: Stats, kinds: seq<ElementType>)
    requires ExampleLines(heading, cue, aside)
    ensures kinds == [SceneHeading, Character, Parenthetical]
    ensures stats.sceneCount == 1 && stats.characterCount == 1
    ensures stats.dialogueCount == 0 && stats.pageCount == 1
  {
    var editor := ImportedEditor(heading, cue, aside);
    ExampleFigures(heading, cue, aside);
    kinds := [editor.scenes[0].kind, editor.scenes[1].kind, editor.scenes[2].kind];
    stats := editor.statistics;
  }

  /** Deleting the cue of that script leaves no character element, yet the
      character count stays at one: the name set is never pruned. */
  method DeleteCueSession(heading: string, cue: string, aside: string)
    returns (stats: Stats, cues: nat)
    requires ExampleLines(heading, cue, aside)
    ensures cues == 0 && stats.characterCount == 1
  {
    var editor := ImportedEditor(heading, cue, aside);
    ExampleRemoval(heading, cue, aside);
    editor.RemoveElement(2);
    cues := CountKind(editor.scenes, Character);
    stats := editor.statistics;
  }

  /** One keystroke into the cue of an editor holding the title page and that
      cue: the cue takes the typed text, which joins the names when new. */
  method TypeIntoCue(editor: ScreenplayEditor, before: string, after: string)
    requires editor.Valid() && editor.scenes == [TitlePage, Cue(before)]
    requires after !in editor.characters && Normalize(after) == after
    modifies editor
    ensures editor.Valid() && editor.scenes == [TitlePage, Cue(after)]
    ensures editor.characters == old(editor.characters) + [after]
  {
    TypingStep(editor.characters, before, after);
    editor.UpdateContent(1000, after);
  }

  /** A new editor in which a cue was added after the title page. */
  method NewEditorWithCue() returns (editor: ScreenplayEditor)
    ensures fresh(editor) && editor.Valid()
    ensures editor.scenes == [TitlePage, Cue("")] && editor.characters == [""]
  {
    editor := new ScreenplayEditor();
    AddCue(editor);
    assert [TitlePage] + [Cue("")] == [TitlePage, Cue("")];
  }

  /** Adding a cue and typing one letter, then a second, leaves three names in
      the set: the new cue's empty content and the text after each keystroke. */
  method TypingSession(first: char, second: char) returns (names: seq<string>, stats: Stats)
    requires IsUpperAscii(first) && IsUpperAscii(second)
    ensures names == ["", [first], [first, second]] && stats.characterCount == 3
  {
    var editor := NewEditorWithCue();
    NameIsNormal([first]);
    TypeIntoCue(editor, "", [first]);
    NameIsNormal([first, second]);
    TypeIntoCue(editor, [first], [first, second]);
    names := editor.characters;
    stats := editor.statistics;
  }

  /** After importing that script, typing the cue's first letter in lower case
      into a new cue offers the imported name. */
  method SuggestionSession(heading: string, cue: string, aside: string) returns (offered: seq<string>)
    requires ExampleLines(heading, cue, aside) && |cue| >= 2
    ensures offered == [cue]
  {
    var editor := ImportedEditor(heading, cue, aside);
    AddCue(editor);
    var s := editor.scenes;
    assert HasCharacterWithId(s, 1000) by {
      assert s[|s| - 1] == Cue("");
    }
    ExampleSuggestion(cue);
    editor.UpdateContent(1000, [(cue[0] as int + 32) as char]);
    offered := editor.suggestions;
  }
}
