/**
 The list edits of the editor, which build a new list with `filter` and `map`,
 and the character-name suggestions computed while a cue is typed.
 */
module Edits {
  import opened Text
  import opened Elements
  import opened Statistics

  /** `scenes.filter(scene => scene.id !== id)` */
  function Removed(s: seq<Element>, id: int): (r: seq<Element>)
    ensures |r| <= |s|
    ensures forall e :: e in r <==> e in s && e.id != id
  {
    if s == [] then []
    else (if s[0].id == id then [] else [s[0]]) + Removed(s[1..], id)
  }

  /** Removal keeps the order: it distributes over concatenation. */
  lemma {:induction false} RemovedAppend(a: seq<Element>, b: seq<Element>, id: int)
    ensures Removed(a + b, id) == Removed(a, id) + Removed(b, id)
  {
    if a == [] {
      assert a + b == b;
    } else {
      assert (a + b)[1..] == a[1..] + b;
      RemovedAppend(a[1..], b, id);
    }
  }

  /** Each element other than the target keeps all its occurrences; the target keeps none. */
  lemma {:induction false} RemovedMultiset(s: seq<Element>, id: int, e: Element)
    ensures multiset(Removed(s, id))[e] == if e.id == id then 0 else multiset(s)[e]
  {
    if s != [] {
      var head := if s[0].id == id then [] else [s[0]];
      RemovedMultiset(s[1..], id, e);
      assert Removed(s, id) == head + Removed(s[1..], id);
      assert s == [s[0]] + s[1..];
      assert multiset(s) == multiset([s[0]]) + multiset(s[1..]);
    }
  }

  /** Removing an id that is not there returns the list unchanged. */
  lemma {:induction false} RemovedAbsent(s: seq<Element>, id: int)
    requires forall i :: 0 <= i < |s| ==> s[i].id != id
    ensures Removed(s, id) == s
  {
    if s != [] {
      RemovedAbsent(s[1..], id);
    }
  }

  /** Removing an element never adds a character name. */
  lemma RemovedNames(s: seq<Element>, id: int)
    ensures NamesOf(Removed(s, id)) <= NamesOf(s)
  {
    var r := Removed(s, id);
    forall name | name in NamesOf(r) ensures name in NamesOf(s) {
      NamesOfMembers(r, name);
      NamesOfMembers(s, name);
      var i :| 0 <= i < |r| && r[i].kind == Character && Normalize(r[i].content) == name;
      assert r[i] in s;
    }
  }

  /** Removing an element never raises the count of any type. */
  lemma {:induction false} RemovedCounts(s: seq<Element>, id: int, k: ElementType)
    ensures CountKind(Removed(s, id), k) <= CountKind(s, k)
  {
    if s != [] {
      var head := if s[0].id == id then [] else [s[0]];
      RemovedCounts(s[1..], id, k);
      CountKindAppend(head, Removed(s[1..], id), k);
      CountKindAppend([s[0]], s[1..], k);
      assert [s[0]] + s[1..] == s;
      assert [s[0]][..0] == [];
    }
  }

  /** `scenes.map(scene => scene.id === id ? { ...scene, content } : scene)` */
  function WithContent(s: seq<Element>, id: int, content: string): (r: seq<Element>)
    ensures |r| == |s|
    ensures forall i :: 0 <= i < |s| ==>
      r[i].id == s[i].id && r[i].kind == s[i].kind &&
      r[i].sceneNumber == s[i].sceneNumber && r[i].isTitlePage == s[i].isTitlePage
    ensures forall i :: 0 <= i < |s| ==> r[i].content == if s[i].id == id then content else s[i].content
  {
    seq(|s|, i requires 0 <= i < |s| => if s[i].id == id then s[i].(content := content) else s[i])
  }

  /** An edit leaves every type count as it was, so the scene, dialogue and page
      figures do not move. */
  lemma {:induction false} WithContentCounts(s: seq<Element>, id: int, content: string, k: ElementType)
    ensures CountKind(WithContent(s, id, content), k) == CountKind(s, k)
  {
    if s != [] {
      var init := s[..|s| - 1];
      assert WithContent(s, id, content)[..|s| - 1] == WithContent(init, id, content);
      WithContentCounts(init, id, content, k);
    }
  }

  /** Whether an element with this id is a character cue (the case in which typing
      into it refreshes the suggestions). */
  predicate HasCharacterWithId(s: seq<Element>, id: int)
  {
    exists i :: 0 <= i < |s| && s[i].id == id && s[i].kind == Character
  }

  /** `Array.from(characters).filter(char => char.startsWith(typed) && char !== typed)`,
      with `typed` the upper-cased input: the known names the input is a proper
      prefix of, in the set's order. */
  function Suggestions(characters: seq<string>, content: string): (r: seq<string>)
    ensures |r| <= |characters|
    ensures forall x :: x in r <==>
      x in characters && StartsWith(x, ToUpper(content)) && x != ToUpper(content)
  {
    if characters == [] then []
    else
      var c := characters[0];
      var keep := StartsWith(c, ToUpper(content)) && c != ToUpper(content);
      (if keep then [c] else []) + Suggestions(characters[1..], content)
  }

  /** Suggestions keep the set's order: filtering distributes over concatenation. */
  lemma {:induction false} SuggestionsAppend(a: seq<string>, b: seq<string>, content: string)
    ensures Suggestions(a + b, content) == Suggestions(a, content) + Suggestions(b, content)
  {
    if a == [] {
      assert a + b == b;
    } else {
      assert (a + b)[1..] == a[1..] + b;
      SuggestionsAppend(a[1..], b, content);
    }
  }

  /** A suggestion is always strictly longer than what was typed. */
  lemma SuggestionsLonger(characters: seq<string>, content: string, x: string)
    requires x in Suggestions(characters, content)
    ensures |x| > |content|
  {
  }
}
