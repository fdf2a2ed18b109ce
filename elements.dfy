/** The screenplay element and its seven types (the `SceneElement` enumeration). */
module Elements {

  datatype Option<T> = None | Some(value: T)

  datatype ElementType =
    | SceneHeading
    | Action
    | Character
    | Dialogue
    | Parenthetical
    | Transition
    | Note

  /** One element of the document. `sceneNumber` is absent (null or undefined in
      the source) except on scene headings created by "add element"; `isTitlePage`
      marks the synthetic first element. */
  datatype Element = Element(
    id: int,
    kind: ElementType,
    content: string,
    sceneNumber: Option<int>,
    isTitlePage: bool)

  /** The element list the editor starts with: one action element holding the
      title-page template. */
  const TitlePage: Element := Element(1, Action, "Title: \nAuthor: \nContact: ", None, true)
}
