/**
 The `ScreenplayEditor` component's state and the operations that change it.
 Every change to the element list is followed by a statistics recompute, as
 the effect that watches the list performs it.
 */
module Editor {
  import opened Text
  import opened Elements
  import opened Classifier
  import opened Statistics
  import opened Edits

  class ScreenplayEditor {
    /** The document, in order. */
    var scenes: seq<Element>
    /** The type the next added element gets. */
    var currentType: ElementType
    /** Every character name seen so far, in insertion order, never pruned. */
    var characters: seq<string>
    /** The names offered while a cue is typed. */
    var suggestions: seq<string>
    /** The figures of the statistics panel. */
    var statistics: Stats

    /** The set holds each name once and every current cue's name, and the published
        statistics are those of the current list. */
    ghost predicate Valid()
      reads this
    {
      NoDuplicates(characters) &&
      (forall name :: name in NamesOf(scenes) ==> name in characters) &&
      statistics == Snapshot(scenes, characters)
    }

    /** The component's first render: the title page, an empty name set, and the
        statistics the effect then computes for it. */
    constructor ()
      ensures Valid()
      ensures scenes == [TitlePage] && currentType == SceneHeading
      ensures characters == [] && suggestions == []
    {
      scenes := [TitlePage];
      currentType := SceneHeading;
      characters := [];
      suggestions := [];
      statistics := Stats(1, 1, 0, 0, 0);
      new;
      UpdateStatistics();
      assert [TitlePage][..0] == [];
    }

    /** `updateStatistics`: one pass that counts words, scene headings and dialogue
        lines and adds each cue's normalised name to the shared set. */
    method UpdateStatistics()
      requires NoDuplicates(characters)
      modifies this
      ensures Valid()
      ensures characters == AddNames(old(characters), scenes)
      ensures old(characters) <= characters
      ensures scenes == old(scenes) && currentType == old(currentType) && suggestions == old(suggestions)
    {
      var stats := Stats(1, 0, 0, 0, 0);
      var i := 0;
      while i < |scenes|
        invariant 0 <= i <= |scenes|
        invariant scenes == old(scenes) && currentType == old(currentType) && suggestions == old(suggestions)
        invariant stats.sceneCount == CountKind(scenes[..i], SceneHeading)
        invariant stats.dialogueCount == CountKind(scenes[..i], Dialogue)
        invariant stats.wordCount == WordCount(scenes[..i])
        invariant characters == AddNames(old(characters), scenes[..i])
      {
        var scene := scenes[i];
        PrefixStep(scenes, i, old(characters));
        stats := stats.(wordCount := stats.wordCount + WordsIn(scene.content));
        if scene.kind == SceneHeading {
          stats := stats.(sceneCount := stats.sceneCount + 1);
        }
        if scene.kind == Dialogue {
          stats := stats.(dialogueCount := stats.dialogueCount + 1);
        }
        if scene.kind == Character {
          var name := Normalize(scene.content);
          if name !in characters {
            characters := characters + [name];
          }
        }
        i := i + 1;
      }
      assert scenes[..|scenes|] == scenes;
      stats := stats.(characterCount := |characters|);
      stats := stats.(pageCount := PageCount(|scenes|));
      statistics := stats;
      AddNamesSpec(old(characters), scenes);
    }

    /** Choosing the type of the next element; the list is unchanged, so no recompute. */
    method SetCurrentType(t: ElementType)
      requires Valid()
      modifies this`currentType
      ensures Valid() && currentType == t
    {
      currentType := t;
    }

    /** `addElement`: appends an empty element of the current type; a scene heading
        is numbered one past the scene count. */
    method AddElement(id: int)
      requires Valid()
      modifies this
      ensures Valid()
      ensures scenes == old(scenes) + [Element(id, old(currentType), "",
        if old(currentType) == SceneHeading then Some(CountKind(old(scenes), SceneHeading) + 1) else None,
        false)]
      ensures characters == AddNames(old(characters), scenes)
      ensures currentType == old(currentType) && suggestions == old(suggestions)
    {
      var newElement := Element(id, currentType, "",
        if currentType == SceneHeading then Some(statistics.sceneCount + 1) else None, false);
      scenes := scenes + [newElement];
      UpdateStatistics();
    }

    /** `removeElement`: keeps the elements with a different id. The name set is
        not pruned, so the character count stays where it was. */
    method RemoveElement(id: int)
      requires Valid()
      modifies this
      ensures Valid()
      ensures scenes == Removed(old(scenes), id)
      ensures characters == old(characters)
      ensures statistics.characterCount == old(statistics.characterCount)
      ensures currentType == old(currentType) && suggestions == old(suggestions)
    {
      scenes := Removed(scenes, id);
      RemovedNames(old(scenes), id);
      AddNamesKnown(characters, scenes);
      UpdateStatistics();
    }

    /** `updateContent`: replaces the content of the elements with this id; when one
        of them is a cue, the suggestions become the known names the typed text
        (upper-cased) is a proper prefix of, taken before the recompute. */
    method UpdateContent(id: int, content: string)
      requires Valid()
      modifies this
      ensures Valid()
      ensures scenes == WithContent(old(scenes), id, content)
      ensures suggestions ==
        if HasCharacterWithId(old(scenes), id) then Suggestions(old(characters), content) else old(suggestions)
      ensures characters == AddNames(old(characters), scenes)
      ensures statistics.sceneCount == old(statistics.sceneCount)
      ensures statistics.dialogueCount == old(statistics.dialogueCount)
      ensures statistics.pageCount == old(statistics.pageCount)
      ensures currentType == old(currentType)
    {
      if HasCharacterWithId(scenes, id) {
        suggestions := Suggestions(characters, content);
      }
      scenes := WithContent(scenes, id, content);
      WithContentCounts(old(scenes), id, content, SceneHeading);
      WithContentCounts(old(scenes), id, content, Dialogue);
      UpdateStatistics();
    }

    /** `importScript`: `None` stands for no file chosen, a read that fails or a
        parse that throws; the state is then left as it was. Otherwise the parsed
        list replaces the document; the name set is kept and only grows. */
    method ImportScript(file: Option<string>)
      requires Valid()
      modifies this
      ensures Valid()
      ensures file.None? ==>
        scenes == old(scenes) && characters == old(characters) && statistics == old(statistics)
      ensures file.Some? ==> scenes == Parse(file.value) && characters == AddNames(old(characters), scenes)
      ensures currentType == old(currentType) && suggestions == old(suggestions)
    {
      if file.Some? {
        var newScenes := ParseContent(file.value);
        scenes := newScenes;
        UpdateStatistics();
      }
    }
  }
}
