/**
 * The document model of common.h: the element tree the markdown compiler
 * builds and the page that owns it.
 */
module Document {
  import opened Wrappers

  /** ElementType; `Untyped` is ET_None, which no parser ever constructs. */
  datatype ElementType =
    | Untyped
    | Bold
    | Header
    | HRule
    | Image
    | Link
    | List
    | ListItem
    | Paragraph
    | Preformatted
    | Text

  /** One node of the tree; `text` and `url` are None where the C field is NULL. */
  datatype Element = Element(kind: ElementType, children: seq<Element>, text: Option<string>, url: Option<string>)

  /**
   * One page. The parent back-link becomes the index of the parent in the
   * page collection; the markdown path is left to the file layer.
   */
  datatype Page = Page(
    parent: Option<nat>,
    dirPath: string,
    relativeUrl: string,
    title: Option<string>,
    date: Option<string>,
    description: Option<string>,
    children: seq<Element>,
    year: nat,
    month: nat,
    day: nat,
    addToIndex: bool)

  /** Why an operation of the core stops. */
  datatype Error =
    | NegativeLength                                  // a fenced block closed right after it opened
    | MalformedHeader                                 // a Header whose children are not one Text
    | ImageUnreadable(dirPath: string, fileName: string)  // the half-size image could not be read

  /** A page as the directory walk allocates it: no metadata, no body, zeroed date. */
  function NewPage(parent: Option<nat>, dirPath: string, relativeUrl: string, addToIndex: bool): Page {
    Page(parent, dirPath, relativeUrl, None, None, None, [], 0, 0, 0, addToIndex)
  }
}
