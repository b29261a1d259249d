/**
 * append_element of markdown.c: every element of the tree is created here,
 * with its text and URL cut from the source and escaped once.
 */
module Elements {
  import opened Wrappers
  import opened Document
  import opened Escaping

  /** The payload append_element stores: escaped, except a preformatted block's text. */
  function Payload(kind: ElementType, raw: Option<string>): Option<string> {
    match raw
    case None => None
    case Some(s) => Some(if kind == Preformatted then s else Escape(s))
  }

  lemma {:induction false} PayloadEscaped(kind: ElementType, raw: Option<string>)
    ensures raw.Some? && kind != Preformatted ==>
      '\\' !in Payload(kind, raw).value && '<' !in Payload(kind, raw).value
  {
    if raw.Some? {
      EscapeRemovesMeta(raw.value);
    }
  }

  /**
   * The element append_element adds: no children yet, the text escaped unless
   * the block is preformatted, the URL always escaped.
   */
  function NewElement(kind: ElementType, text: Option<string>, url: Option<string>): (e: Element)
    ensures e.kind == kind && e.children == []
    ensures e.text.Some? <==> text.Some?
    ensures e.url.Some? <==> url.Some?
    ensures text.Some? && kind == Preformatted ==> e.text == text
  {
    Element(kind, [], Payload(kind, text), Payload(Text, url))
  }

  /** What reaches the renderer holds no backslash and no `<`, except in a preformatted block. */
  lemma {:induction false} NewElementEscaped(kind: ElementType, text: Option<string>, url: Option<string>)
    ensures var e := NewElement(kind, text, url);
      (text.Some? && kind != Preformatted ==> '\\' !in e.text.value && '<' !in e.text.value)
      && (url.Some? ==> '\\' !in e.url.value && '<' !in e.url.value)
  {
    PayloadEscaped(kind, text);
    PayloadEscaped(Text, url);
  }

  /**
   * append_element: appends one element to the vector, cloning the text and
   * the URL and running escape_string over each as the C code does.
   */
  method AppendElement(elements: seq<Element>, kind: ElementType, text: Option<string>, url: Option<string>)
    returns (r: seq<Element>)
    ensures r == elements + [NewElement(kind, text, url)]
  {
    var elementText: Option<string> := None;
    if text.Some? {
      var s := text.value;
      if kind != Preformatted {
        s := EscapeString(s);
      }
      elementText := Some(s);
    }
    var elementUrl: Option<string> := None;
    if url.Some? {
      var s := EscapeString(url.value);
      elementUrl := Some(s);
    }
    r := elements + [Element(kind, [], elementText, elementUrl)];
  }
}
