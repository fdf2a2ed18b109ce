# Screenplay editor core, in Dafny

This project models the logic of the `ScreenplayEditor` React component
(`Main.tsx`). The component keeps a screenplay as a list of elements. Each
element has an id, one of seven types (scene heading, action, character,
dialogue, parenthetical, transition, note), a text content, an optional scene
number and a title-page flag. The modelled operations are:

- **import** (`parseContent`): splits a text file on line feeds, skips blank
  lines, and gives each remaining line a type by a chain of four regular
  expressions tried on the untrimmed line. It stores the trimmed line and
  numbers the elements from 1.
- **statistics pass** (`updateStatistics`): counts words, scene headings and
  dialogue lines, and adds each character cue's trimmed, upper-cased name to a
  name set that is never cleared. It then publishes the page estimate (55
  elements a page, at least one page) and the size of the name set.
- **list edits**: add an empty element of the current type (a scene heading is
  numbered one past the scene count), remove by id, and replace the content of
  the elements with an id.
- **suggestions**: while a cue is being typed, the known names of which the
  upper-cased input is a proper prefix.
- **initial state**: a title-page template, followed by the statistics effect
  that re-runs after every change of the list.

How the project is laid out:

- `text.dfy` holds the JavaScript string built-ins the component relies on:
  `trim`, ASCII `toUpperCase`, `startsWith`, `split('\n')`, `split(/\s+/)`, and
  the `\s` and `.` classes.
- `elements.dfy` holds the element datatype and the title page.
- `classifier.dfy` holds the four patterns, the classification chain, the
  import as a function and the `parseContent` loop proved equal to it.
- `statistics.dfy` holds the figures as functions of the list.
- `edits.dfy` holds removal, content replacement and the suggestion filter.
- `editor.dfy` holds the component as a class. Its fields are the state
  hooks, and its methods are the handlers. `Valid()` says the published
  statistics are those of the current list and that the name set holds every
  current cue's name, each once.
- `scenarios.dfy` holds short sessions with the class (import, delete,
  keystrokes, suggestions) and the figures the contracts fix for them.

Quirks of the code that the model keeps:

- `CUT TO:` is imported as a **transition**, not a character. `:` is outside
  `[A-Z\s]`, so the character pattern fails and the transition pattern
  matches.
- An element with blank content counts **one** word, not zero: `"".split(/\s+/)`
  is `[""]`.
- Leading whitespace stops a line from being a scene heading or a
  parenthetical, because the test runs on the untrimmed line. It does not
  stop the character or transition patterns, because `\s` is part of
  `[A-Z\s]`. A trailing carriage return, as in a CRLF file, defeats the
  parenthetical and transition patterns but not the character pattern.
- The name set is never pruned. Removing a cue keeps its name. Typing a cue
  key by key adds the empty name and every prefix typed, because each edit
  re-runs the statistics pass.

## Model

| member | source | states |
|---|---|---|
| Text.TrimStartSpec | Main.tsx:178 | `trimStart` removes exactly the longest all-whitespace prefix: the rest is a suffix of the input and does not start with whitespace |
| Text.TrimEndSpec | Main.tsx:181 | `trimEnd` removes exactly the longest all-whitespace suffix |
| Text.TrimIsInnerSlice | Main.tsx:181 | `trim` returns the slice between a blank prefix and a blank suffix, and neither end of the result is whitespace |
| Text.TrimEmptyIffBlank | Main.tsx:178 | `!line.trim()` holds exactly when the line is all whitespace (both directions) |
| Text.TrimIdempotent | Main.tsx:181 | trimming twice is trimming once |
| Text.TrimNoop | Main.tsx:181 | text with non-whitespace ends is left unchanged by `trim` |
| Text.ToUpper | Main.tsx:108 | `toUpperCase` keeps the length |
| Text.ToUpperIdempotent | Main.tsx:142 | upper-casing twice is upper-casing once, and no ASCII lower-case letter remains |
| Text.ToUpperNoop | Main.tsx:142 | text without ASCII lower-case letters is unchanged by upper-casing |
| Text.UpperCharSpace | Main.tsx:108 | upper-casing maps whitespace to whitespace and nothing else to it |
| Text.IndexOf | Main.tsx:173 | the first line feed: none occurs before the returned index, and one sits at it unless it is the end |
| Text.SplitLines | Main.tsx:173 | `split('\n')` gives at least one piece and no piece holds a line feed |
| Text.JoinSplitLines | Main.tsx:173 | joining the pieces of `split('\n')` with line feeds gives the text back |
| Text.SplitJoinLines | Main.tsx:173 | splitting the join of feed-free lines gives those lines back |
| Text.FirstSpace | Main.tsx:94 | the first whitespace position: none before it, whitespace at it unless it is the end |
| Text.SplitOnSpaceRuns | Main.tsx:94 | `split(/\s+/)` gives at least one piece and no piece holds whitespace |
| Text.SplitOnSpaceRunsWords | Main.tsx:94 | on trimmed non-empty text no piece is empty |
| Text.SplitOnSpaceRunsCount | Main.tsx:94 | on text with no whitespace at either end, `split(/\s+/)` yields exactly one piece per whitespace-separated token, the tokens being counted independently as the positions where a word begins |
| Text.WordsIn | Main.tsx:94 | an element counts at least one word |
| Text.WordsInCountsTokens | Main.tsx:94 | an element's word count is the number of whitespace-separated tokens of its trimmed content, and 1 when that content is empty |
| Text.DoubleSpaceCountsTwoWords | Main.tsx:94 | `JOHN  SMITH` counts two words: a run of spaces is one separator |
| Text.BlankCountsOneWord | Main.tsx:94 | blank content splits to `[""]` and counts exactly one word |
| Classifier.Classify | Main.tsx:180-192 | the chain never yields dialogue or note |
| Classifier.HeadingInitial | Main.tsx:184 | a line the scene-heading pattern matches starts with `I` or `E` in either case |
| Classifier.RulesDisjoint | Main.tsx:184-191 | the scene-heading and parenthetical patterns never both match, and neither do any two of the character, parenthetical and transition patterns |
| Classifier.ClassifyOutcomes | Main.tsx:180-192 | each outcome of the chain holds exactly when its pattern matches and every earlier one fails; action when none matches |
| Classifier.SceneHeadingByPrefix | Main.tsx:184 | any line beginning with `INT`, `EXT` or `I/E` in any letter case is a scene heading, whatever follows |
| Classifier.IntExtSubsumed | Main.tsx:184 | the `INT/EXT` alternative is covered by `INT` |
| Classifier.LeadingSpaceQuirk | Main.tsx:184-191 | a line with leading whitespace is neither a scene heading nor a parenthetical; it is a character, a transition or action |
| Classifier.CarriageReturnQuirk | Main.tsx:186-191 | a trailing `\r` defeats the parenthetical and transition patterns but keeps a character match |
| Classifier.NonBlank | Main.tsx:178 | the kept lines are no more than the lines, and none is blank |
| Classifier.NonBlankMembers | Main.tsx:178 | a line is kept exactly when it is one of the lines and is not blank (both directions) |
| Classifier.NonBlankAppend | Main.tsx:177-178 | skipping blank lines keeps order and multiplicity: it distributes over concatenation |
| Classifier.ParseLinesShape | Main.tsx:171-202 | the import yields one element per non-blank line, in order, numbered consecutively, each the trimmed line with the type of the untrimmed line |
| Classifier.ParseSpec | Main.tsx:171-202 | an imported text gives ids 1..n, trimmed contents, classified types, no scene numbers and no title page |
| Classifier.BlankTextImportsNothing | Main.tsx:178 | a text of blank lines imports as the empty list |
| Classifier.ParsedContentTrimmed | Main.tsx:181 | every imported content is non-empty and has no whitespace at either end |
| Classifier.ParseContent | Main.tsx:171-202 | the loop over the lines returns exactly the import function's result |
| Classifier.CutToIsTransition | Main.tsx:186-191 | `CUT TO:` is a transition |
| Classifier.IndentedHeadingIsAction | Main.tsx:181-192 | `  INT. HOUSE` is action although its stored trimmed form is a scene heading |
| Classifier.SplitExample | Main.tsx:173 | the three-line sample splits into its lines |
| Classifier.ImportExample | Main.tsx:171-202 | `INT. KITCHEN - DAY`, `JOHN`, `(whispering)` import as a scene heading, a character and a parenthetical with ids 1 to 3 |
| Classifier.ParseThreeLines | Main.tsx:177-199 | three non-blank lines import as three elements numbered 1 to 3 |
| Classifier.HeadingLine | Main.tsx:184 | the sample heading is kept as it is and is a scene heading |
| Classifier.CueLine | Main.tsx:186 | the sample cue is kept as it is and is a character |
| Classifier.ParentheticalLine | Main.tsx:188 | the sample parenthetical is kept as it is and is a parenthetical |
| Statistics.PageCount | Main.tsx:116 | the fewest 55-element pages holding the list, and at least one |
| Statistics.CountKind | Main.tsx:97-104 | a type count never exceeds the list length |
| Statistics.CountKindAppend | Main.tsx:92-104 | type counts add over concatenation |
| Statistics.CountKindZero | Main.tsx:97-104 | a type count is zero exactly when no element has that type |
| Statistics.CountKindsPartition | Main.tsx:17-25 | the seven type counts sum to the list length |
| Statistics.WordCountAtLeastLength | Main.tsx:94 | the word count is at least the number of elements |
| Statistics.WordCountOfBlanks | Main.tsx:94 | a list of blank elements counts one word each |
| Statistics.NamesOfMembers | Main.tsx:107-108 | a name is collected exactly when some character element trims and upper-cases to it |
| Statistics.NamesAreNormalized | Main.tsx:108 | collected names are upper-case and trimmed |
| Statistics.UpperTrimmed | Main.tsx:108 | upper-casing a trimmed string leaves it trimmed |
| Statistics.AddNamesSpec | Main.tsx:106-113 | a pass keeps the old names in order and afterwards holds exactly the old names and the current cues' names, each once |
| Statistics.AddNamesKnown | Main.tsx:108 | a pass over cues whose names are known leaves the set unchanged |
| Statistics.CountLinesOfKind | Main.tsx:178-192 | the number of non-blank lines of a given type is at most the number of lines |
| Statistics.ImportCounts | Main.tsx:171-202 | after an import each type count is the number of non-blank lines the chain gives that type |
| Statistics.CountSceneHeadingLines | Main.tsx:184 | at most one scene heading per line |
| Statistics.SceneHeadingLineNotBlank | Main.tsx:178-184 | a scene-heading line starts with a non-space, so the import never skips it |
| Statistics.ImportSceneCount | Main.tsx:97-99 | after an import the scene count is the number of lines the scene-heading pattern matches |
| Statistics.SceneLinesAreHeadings | Main.tsx:178-185 | non-blank lines classified as scene headings are exactly the lines the pattern matches |
| Statistics.ImportHasNoDialogue | Main.tsx:101-104 | an import never yields dialogue, so the dialogue count after it is zero |
| Edits.Removed | Main.tsx:131-133 | removal keeps exactly the elements with another id |
| Edits.RemovedAppend | Main.tsx:132 | removal keeps the order: it distributes over concatenation |
| Edits.RemovedMultiset | Main.tsx:132 | every other element keeps all its occurrences; the target keeps none |
| Edits.RemovedAbsent | Main.tsx:132 | removing an absent id changes nothing |
| Edits.RemovedNames | Main.tsx:132 | removal never adds a cue name |
| Edits.RemovedCounts | Main.tsx:132 | removal never raises a type count |
| Edits.WithContent | Main.tsx:136-150 | the edit keeps the length, ids, types, scene numbers and title flags, and replaces the content exactly where the id matches |
| Edits.WithContentCounts | Main.tsx:136-150 | an edit leaves every type count unchanged |
| Edits.Suggestions | Main.tsx:140-144 | the offered names are exactly the known names that start with the upper-cased input and differ from it |
| Edits.SuggestionsAppend | Main.tsx:140 | suggestions keep the set's insertion order |
| Edits.SuggestionsLonger | Main.tsx:142-143 | every suggestion is strictly longer than the input |
| Editor.ScreenplayEditor.constructor | Main.tsx:51-81 | the editor starts with the title page, an empty name set and the statistics of that list |
| Editor.ScreenplayEditor.UpdateStatistics | Main.tsx:83-119 | the loop publishes the snapshot of the list and leaves the name set as the fold of the pass over it |
| Editor.ScreenplayEditor.SetCurrentType | Main.tsx:52 | choosing a type changes only the current type |
| Editor.ScreenplayEditor.AddElement | Main.tsx:121-129 | appends an empty element of the current type, numbered one past the scene count when a heading, and recomputes |
| Editor.ScreenplayEditor.RemoveElement | Main.tsx:131-133 | the list loses the elements with that id; the name set and character count are unchanged |
| Editor.ScreenplayEditor.UpdateContent | Main.tsx:135-151 | the content is replaced, suggestions are refreshed only when the id is a cue, and scene, dialogue and page counts do not move |
| Editor.ScreenplayEditor.ImportScript | Main.tsx:153-169 | no file leaves everything as it was; otherwise the list becomes the import of the text and the name set grows by its cues |
| Scenarios.ParseExample | Main.tsx:171-202 | a heading, a cue and a parenthetical on three lines import as those three typed elements |
| Scenarios.ExampleFigures | Main.tsx:83-119 | that import has one scene, no dialogue and one name |
| Scenarios.ExampleRemoval | Main.tsx:131-133 | deleting the cue leaves no character element |
| Scenarios.TypingStep | Main.tsx:135-151 | a keystroke edits only the cue and adds the typed text to the names when new |
| Scenarios.ExampleSuggestion | Main.tsx:140-144 | typing a cue's first letter in lower case offers that cue |
| Scenarios.NewCueNames | Main.tsx:121-129 | adding a cue adds the empty name |
| Scenarios.ImportSession | Main.tsx:153-202 | after the import: types heading, character, parenthetical; one scene, one character, no dialogue, one page |
| Scenarios.DeleteCueSession | Main.tsx:131-133 | deleting the cue leaves no cue, yet the character count stays at one |
| Scenarios.TypingSession | Main.tsx:106-113 | typing two letters into a new cue leaves three names: the empty one and both prefixes |
| Scenarios.SuggestionSession | Main.tsx:135-146 | after the import, a new cue with the lower-case first letter is offered the imported name |

## Left out

- Rendering: the JSX, `getElementStyle`, the icons, the dark mode, the tabs and the statistics panel toggle have no logic to prove.
- File reading: `FileReader`, `alert` and `console.error` are outside the model. `ImportScript` takes the file as an `Option<string>`, where `None` stands for no file, a failed read or a thrown parse.
- Element ids: `Date.now()` is a clock, so `AddElement` takes the id as a parameter.
- React scheduling: state updates are taken to apply at once. The statistics effect is modelled as a recompute at the end of every handler that changes the list. The race between two imports whose reads finish out of order is not modelled.
- `parseContent`'s `filename` parameter is unused by the code and is dropped.
- Text.ToUpper: only ASCII letters are mapped. Other letters, and mappings that change the length (such as `ß` to `SS`), are not modelled.
- Strings are sequences of characters, not UTF-16 code units. Surrogate pairs are not modelled.
- The page that mounts the component (`pages/index.tsx`) and the module's default export are not part of this model.
- The name set is a JavaScript `Set` and is modelled as a duplicate-free sequence in insertion order. Object identity and the in-place mutation of that `Set` outside `setState` are reduced to a field of the class.
