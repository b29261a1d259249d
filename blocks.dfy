/**
 * parse_blocks of markdown.c and the two entry points around it: a state
 * machine over the body that opens headers, lists, images, rules, fenced
 * blocks and paragraphs, handing each line of text to parse_inlines.
 */
module BlockParser {
  import opened Wrappers
  import opened Strings
  import opened Document
  import opened Elements
  import opened InlineParser
  import opened FrontMatterParser

  /** The token parse_blocks has open. */
  datatype BlockToken = InNone | InList | InImageText | InImageUrl | InParagraph | InPreformatted

  /**
   * The locals of parse_blocks at the head of its loop, with `children` the
   * page's top-level elements. open_block, where the C code follows it, is
   * always the last of them (the list or the paragraph being filled).
   * text_end is kept only where it is read: the C code also stores it on
   * every pass through the image text and the fenced block, but each of
   * those stores is overwritten before it is used.
   */
  datatype BlockScan = BlockScan(
    open: BlockToken,
    next: nat,
    textStart: nat,
    textEnd: nat,
    urlStart: nat,
    escape: bool,
    children: seq<Element>)

  function Last(cs: seq<Element>): Element
    requires |cs| > 0
  {
    cs[|cs| - 1]
  }

  /** The elements with the last one replaced. */
  function WithLast(cs: seq<Element>, e: Element): (r: seq<Element>)
    requires |cs| > 0
    ensures |r| == |cs| && Last(r) == e
  {
    cs[|cs| - 1 := e]
  }

  /** The positions stay in the text and in order, and an open list or paragraph is the last element. */
  predicate BlockInv(t: string, s: BlockScan) {
    s.next <= |t|
    && ((s.open == InImageText || s.open == InPreformatted) ==> s.textStart <= s.next)
    && (s.open == InImageUrl ==> s.textStart <= s.textEnd <= s.urlStart <= s.next)
    && (s.open == InList ==> |s.children| > 0 && Last(s.children).kind == List)
    && (s.open == InParagraph ==> |s.children| > 0 && Last(s.children).kind == Paragraph)
  }

  /** A list with `item` added as its last ListItem. */
  function AddItem(list: Element, items: seq<Element>): Element {
    list.(children := list.children + [Item(items)])
  }

  /** A ListItem holding the inline elements of its line. */
  function Item(es: seq<Element>): Element {
    Element(ListItem, es, None, None)
  }

  /**
   * The TT_None / TT_List case: `# ` opens a header, `- ` a list item (and a
   * list unless one is open), `![` an image, `***\n` a rule, three backquotes
   * and a newline a fenced block; anything else starts a paragraph. Headers,
   * list items and paragraphs take the rest of the line from parse_inlines.
   */
  function LineStartStep(t: string, s: BlockScan): (r: BlockScan)
    requires BlockInv(t, s) && s.next < |t| && (s.open == InNone || s.open == InList)
    ensures BlockInv(t, r) && s.next < r.next
  {
    var at := s.next;
    if Consumes(t, at, "# ", s.escape) then HeaderOpen(t, s)
    else if Consumes(t, at, "- ", s.escape) then ItemOpen(t, s)
    else if Consumes(t, at, "![", s.escape) then
      s.(open := InImageText, next := at + 2, textStart := at + 2)
    else if Consumes(t, at, "***\n", s.escape) then
      s.(open := InNone, next := at + 4, children := s.children + [Element(HRule, [], None, None)])
    else if Consumes(t, at, "```\n", s.escape) then
      s.(open := InPreformatted, next := at + 4, textStart := at + 4)
    else ParagraphOpen(t, s)
  }

  /** `# `: a Header whose children are the rest of the line. */
  function HeaderOpen(t: string, s: BlockScan): (r: BlockScan)
    requires BlockInv(t, s) && s.next + 2 <= |t|
    ensures BlockInv(t, r) && s.next < r.next
  {
    var (es, n) := Inlines(t, s.next + 2);
    s.(open := InNone, next := n, children := s.children + [Element(Header, es, None, None)])
  }

  /**
   * `- `: a ListItem holding the rest of the line, added to the open list, or
   * to a new List appended first when no list is open.
   */
  function ItemOpen(t: string, s: BlockScan): (r: BlockScan)
    requires BlockInv(t, s) && s.next + 2 <= |t| && (s.open == InNone || s.open == InList)
    ensures BlockInv(t, r) && s.next < r.next
  {
    var line := Inlines(t, s.next + 2);
    var children :=
      if s.open == InList then WithLast(s.children, AddItem(Last(s.children), line.0))
      else s.children + [Element(List, [Item(line.0)], None, None)];
    s.(open := InList, next := line.1, children := children)
  }

  /** Any other line: a Paragraph whose children are the whole line. */
  function ParagraphOpen(t: string, s: BlockScan): (r: BlockScan)
    requires BlockInv(t, s) && s.next < |t|
    ensures BlockInv(t, r) && s.next < r.next
  {
    var (es, n) := Inlines(t, s.next);
    s.(open := InParagraph, next := n, children := s.children + [Element(Paragraph, es, None, None)])
  }

  /** The TT_ImageText case: `](` ends the caption and starts the URL. */
  function ImageTextStep(t: string, s: BlockScan): (r: BlockScan)
    requires BlockInv(t, s) && s.next < |t| && s.open == InImageText
    ensures BlockInv(t, r) && s.next < r.next
  {
    var at := s.next;
    if Consumes(t, at, "](", s.escape) then s.(open := InImageUrl, textEnd := at, urlStart := at + 2, next := at + 2)
    else s.(next := at + 1)
  }

  /** The TT_ImageURL case: `)` closes the image and appends it. */
  function ImageUrlStep(t: string, s: BlockScan): (r: BlockScan)
    requires BlockInv(t, s) && s.next < |t| && s.open == InImageUrl
    ensures BlockInv(t, r) && s.next < r.next
  {
    var at := s.next;
    if Consumes(t, at, ")", s.escape) then
      s.(open := InNone, next := at + 1,
         children := s.children + [NewElement(Image, Some(t[s.textStart..s.textEnd]), Some(t[s.urlStart..at]))])
    else s.(next := at + 1)
  }

  /** The TT_Paragraph case: the whole line joins the open paragraph. */
  function ParagraphStep(t: string, s: BlockScan): (r: BlockScan)
    requires BlockInv(t, s) && s.next < |t| && s.open == InParagraph
    ensures BlockInv(t, r) && s.next < r.next
  {
    var last := Last(s.children);
    var (es, n) := Inlines(t, s.next);
    s.(next := n, children := WithLast(s.children, last.(children := last.children + es)))
  }

  /**
   * The TT_Preformatted case: a closing fence appends the text from the
   * opening fence up to one character before the closing one. When the fence
   * closes where the block began, that length is -1 and the block fails.
   */
  function PreformattedStep(t: string, s: BlockScan): (r: Result<BlockScan, Error>)
    requires BlockInv(t, s) && s.next < |t| && s.open == InPreformatted
    ensures r.Success? ==> BlockInv(t, r.value) && s.next < r.value.next
  {
    var at := s.next;
    if Consumes(t, at, "```\n", s.escape) then
      if at == s.textStart then Failure(NegativeLength)
      else Success(s.(open := InNone, next := at + 4,
                      children := s.children + [NewElement(Preformatted, Some(t[s.textStart..at - 1]), None)]))
    else Success(s.(next := at + 1))
  }

  /** The switch on the open token. */
  function TokenStep(t: string, s: BlockScan): (r: Result<BlockScan, Error>)
    requires BlockInv(t, s) && s.next < |t|
    ensures r.Success? ==> BlockInv(t, r.value) && s.next < r.value.next
  {
    match s.open
    case InNone => Success(LineStartStep(t, s))
    case InList => Success(LineStartStep(t, s))
    case InImageText => Success(ImageTextStep(t, s))
    case InImageUrl => Success(ImageUrlStep(t, s))
    case InParagraph => Success(ParagraphStep(t, s))
    case InPreformatted => PreformattedStep(t, s)
  }

  /**
   * One pass of the loop: an unescaped newline closes every token but a
   * fenced block, a backslash escapes the next character, and otherwise the
   * open token decides; the escape flag is cleared after every pass but the
   * backslash's.
   */
  function BlockStep(t: string, s: BlockScan): (r: Result<BlockScan, Error>)
    requires BlockInv(t, s) && s.next < |t|
    ensures r.Success? ==> BlockInv(t, r.value) && s.next < r.value.next
  {
    var at := s.next;
    if Consumes(t, at, "\n", s.escape) then
      Success(s.(open := if s.open == InPreformatted then InPreformatted else InNone, next := at + 1))
    else if Consumes(t, at, "\\", s.escape) then
      Success(s.(escape := true, next := at + 1))
    else
      var r := TokenStep(t, s);
      if r.Success? then Success(r.value.(escape := false)) else r
  }

  /** The loop of parse_blocks: runs to the end of the text; the elements, or the first failure. */
  function BlockLoop(t: string, s: BlockScan): Result<seq<Element>, Error>
    requires BlockInv(t, s)
    decreases |t| - s.next, 1
  {
    if s.next == |t| then Success(s.children) else BlockMore(t, s)
  }

  /** One pass of the loop of parse_blocks, then the rest of the loop. */
  function BlockMore(t: string, s: BlockScan): Result<seq<Element>, Error>
    requires BlockInv(t, s) && s.next < |t|
    decreases |t| - s.next, 0
  {
    match BlockStep(t, s)
    case Failure(e) => Failure(e)
    case Success(s') => BlockLoop(t, s')
  }

  function InitBlocks(start: nat, children: seq<Element>): BlockScan {
    BlockScan(InNone, start, start, start, start, false, children)
  }

  /** parse_blocks from `start`: the page with the body's elements appended, or the failure. */
  function ParsedBlocks(t: string, page: Page, start: nat): Result<Page, Error>
    requires start <= |t|
  {
    match BlockLoop(t, InitBlocks(start, page.children))
    case Failure(e) => Failure(e)
    case Success(cs) => Success(page.(children := cs))
  }

  /** markdown_parse_all: the front matter, then the blocks from where it left the cursor. */
  function MarkdownAll(t: string, page: Page): Result<Page, Error> {
    var (p, q) := FrontMatter(t, page);
    ParsedBlocks(t, p, q)
  }

  /** markdown_parse_frontmatter: the front matter only. */
  function MarkdownFrontMatter(t: string, page: Page): Page {
    FrontMatter(t, page).0
  }

  /**
   * parse_blocks: walks the body with a cursor, appending blocks to the
   * page's children and filling the open list or paragraph through
   * parse_inlines.
   */
  method ParseBlocks(page: Page, t: string, start: nat) returns (r: Result<Page, Error>)
    requires start <= |t|
    ensures r == ParsedBlocks(t, page, start)
  {
    var open := InNone;
    var next := start;
    var textStart, textEnd, urlStart := start, start, start;
    var escape := false;
    var children := page.children;
    while next < |t|
      invariant BlockInv(t, BlockScan(open, next, textStart, textEnd, urlStart, escape, children))
      invariant BlockLoop(t, BlockScan(open, next, textStart, textEnd, urlStart, escape, children))
             == BlockLoop(t, InitBlocks(start, page.children))
      decreases |t| - next
    {
      ghost var before := BlockScan(open, next, textStart, textEnd, urlStart, escape, children);
      if Consumes(t, next, "\n", escape) {
        next := next + 1;
        if open != InPreformatted {
          open := InNone;
        }
        assert BlockStep(t, before) == Success(BlockScan(open, next, textStart, textEnd, urlStart, escape, children));
      } else {
        if Consumes(t, next, "\\", escape) {
          next := next + 1;
          escape := true;
          assert BlockStep(t, before) == Success(BlockScan(open, next, textStart, textEnd, urlStart, escape, children));
          continue;
        }
        var failed := false;
        match open {
          case InNone =>
            open, next, textStart, children := LineStartCase(t, open, next, textStart, textEnd, urlStart, escape, children);
          case InList =>
            open, next, textStart, children := LineStartCase(t, open, next, textStart, textEnd, urlStart, escape, children);
          case InImageText =>
            open, next, textEnd, urlStart := ImageTextCase(t, next, textStart, textEnd, urlStart, escape, children);
          case InImageUrl =>
            open, next, children := ImageUrlCase(t, next, textStart, textEnd, urlStart, escape, children);
          case InParagraph =>
            next, children := ParagraphCase(t, next, textStart, textEnd, urlStart, escape, children);
          case InPreformatted =>
            failed, open, next, children := PreformattedCase(t, next, textStart, textEnd, urlStart, escape, children);
        }
        if failed {
          r := Failure(NegativeLength);
          PlainStep(t, before);
          return;
        }
        PlainStep(t, before);
        escape := false;
      }
    }
    r := Success(page.(children := children));
  }

  /** A pass that meets neither a newline nor a backslash is the switch, with the escape flag cleared. */
  lemma {:induction false} PlainStep(t: string, s: BlockScan)
    requires BlockInv(t, s) && s.next < |t| && !Consumes(t, s.next, "\n", s.escape) && !Consumes(t, s.next, "\\", s.escape)
    ensures var r := TokenStep(t, s);
      BlockStep(t, s) == if r.Success? then Success(r.value.(escape := false)) else r
  {
  }

  /** The TT_None / TT_List case of the loop body, on the locals it changes. */
  method LineStartCase(t: string, open: BlockToken, next: nat, textStart: nat, textEnd: nat, urlStart: nat,
                       escape: bool, children: seq<Element>)
    returns (open': BlockToken, next': nat, textStart': nat, children': seq<Element>)
    requires BlockInv(t, BlockScan(open, next, textStart, textEnd, urlStart, escape, children))
    requires next < |t| && (open == InNone || open == InList)
    ensures TokenStep(t, BlockScan(open, next, textStart, textEnd, urlStart, escape, children))
         == Success(BlockScan(open', next', textStart', textEnd, urlStart, escape, children'))
  {
    var s := BlockScan(open, next, textStart, textEnd, urlStart, escape, children);
    open', next', textStart', children' := open, next, textStart, children;
    if Consumes(t, next, "# ", escape) {
      next', children' := HeaderCase(t, s);
      open' := InNone;
    } else if Consumes(t, next, "- ", escape) {
      next', children' := ItemCase(t, s);
      open' := InList;
    } else if Consumes(t, next, "![", escape) {
      open' := InImageText;
      next' := next + 2;
      textStart' := next';
    } else if Consumes(t, next, "***\n", escape) {
      open' := InNone;
      children' := AppendElement(children, HRule, None, None);
      next' := next + 4;
    } else if Consumes(t, next, "```\n", escape) {
      open' := InPreformatted;
      next' := next + 4;
      textStart' := next';
    } else {
      next', children' := ParagraphOpenCase(t, s);
      open' := InParagraph;
    }
  }

  /** `# `: append a Header and parse the line into its children. */
  method HeaderCase(t: string, s: BlockScan) returns (next': nat, children': seq<Element>)
    requires BlockInv(t, s) && s.next + 2 <= |t|
    ensures HeaderOpen(t, s) == s.(open := InNone, next := next', children := children')
  {
    children' := AppendElement(s.children, Header, None, None);
    var es;
    es, next' := ParseInlines(Last(children').children, t, s.next + 2);
    children' := WithLast(children', Last(children').(children := es));
    FilledLast(s.children, Header, Inlines(t, s.next + 2).0);
    HeaderOpenUnfolds(t, s);
  }

  /** `- `: open a List unless one is open, append a ListItem to it and parse the line into the item. */
  method ItemCase(t: string, s: BlockScan) returns (next': nat, children': seq<Element>)
    requires BlockInv(t, s) && s.next + 2 <= |t| && (s.open == InNone || s.open == InList)
    ensures ItemOpen(t, s) == s.(open := InList, next := next', children := children')
  {
    children' := s.children;
    if s.open != InList {
      children' := AppendElement(children', List, None, None);
    }
    var list := Last(children');
    var items := AppendElement(list.children, ListItem, None, None);
    var itemChildren;
    itemChildren, next' := ParseInlines(Last(items).children, t, s.next + 2);
    items := WithLast(items, Last(items).(children := itemChildren));
    FilledLast(list.children, ListItem, Inlines(t, s.next + 2).0);
    children' := WithLast(children', list.(children := items));
    if s.open == InList {
      ItemOpenMoreUnfolds(t, s);
    } else {
      ItemOpenNewUnfolds(t, s);
      NewListFilled(s.children, Inlines(t, s.next + 2).0);
    }
  }

  /** parse_blocks appends an empty element, then parse_inlines fills in its children. */
  lemma {:induction false} FilledLast(cs: seq<Element>, kind: ElementType, es: seq<Element>)
    ensures var c := cs + [NewElement(kind, None, None)];
      WithLast(c, Last(c).(children := Last(c).children + es)) == cs + [Element(kind, es, None, None)]
  {
    var c := cs + [NewElement(kind, None, None)];
    assert Last(c).children + es == es;
  }

  /** A List appended empty and given one item is a List of that item. */
  lemma {:induction false} NewListFilled(cs: seq<Element>, items: seq<Element>)
    ensures var c := cs + [NewElement(List, None, None)];
      WithLast(c, AddItem(Last(c), items)) == cs + [Element(List, [Item(items)], None, None)]
  {
    var c := cs + [NewElement(List, None, None)];
    assert [] + [Item(items)] == [Item(items)];
  }

  lemma {:induction false} HeaderOpenUnfolds(t: string, s: BlockScan)
    requires BlockInv(t, s) && s.next + 2 <= |t|
    ensures HeaderOpen(t, s) == s.(open := InNone, next := Inlines(t, s.next + 2).1,
      children := s.children + [Element(Header, Inlines(t, s.next + 2).0, None, None)])
  {
    if s.next + 2 == |t| {
    } else {
    }
  }

  lemma {:induction false} ParagraphOpenUnfolds(t: string, s: BlockScan)
    requires BlockInv(t, s) && s.next < |t|
    ensures ParagraphOpen(t, s) == s.(open := InParagraph, next := Inlines(t, s.next).1,
      children := s.children + [Element(Paragraph, Inlines(t, s.next).0, None, None)])
  {
  }

  /** Any other line: append a Paragraph and parse the line into its children. */
  method ParagraphOpenCase(t: string, s: BlockScan) returns (next': nat, children': seq<Element>)
    requires BlockInv(t, s) && s.next < |t|
    ensures ParagraphOpen(t, s) == s.(open := InParagraph, next := next', children := children')
  {
    children' := AppendElement(s.children, Paragraph, None, None);
    var es;
    es, next' := ParseInlines(Last(children').children, t, s.next);
    children' := WithLast(children', Last(children').(children := es));
    FilledLast(s.children, Paragraph, Inlines(t, s.next).0);
    ParagraphOpenUnfolds(t, s);
  }

  /** The TT_ImageText case of the loop body. */
  method ImageTextCase(t: string, next: nat, ghost textStart: nat, textEnd: nat, urlStart: nat, escape: bool,
                       ghost children: seq<Element>)
    returns (open': BlockToken, next': nat, textEnd': nat, urlStart': nat)
    requires BlockInv(t, BlockScan(InImageText, next, textStart, textEnd, urlStart, escape, children)) && next < |t|
    ensures TokenStep(t, BlockScan(InImageText, next, textStart, textEnd, urlStart, escape, children))
         == Success(BlockScan(open', next', textStart, textEnd', urlStart', escape, children))
  {
    open', next', textEnd', urlStart' := InImageText, next, textEnd, urlStart;
    if Consumes(t, next, "](", escape) {
      open' := InImageUrl;
      textEnd' := next;
      next' := next + 2;
      urlStart' := next';
    } else {
      next' := next + 1;
    }
  }

  /** The TT_ImageURL case of the loop body. */
  method ImageUrlCase(t: string, next: nat, textStart: nat, textEnd: nat, urlStart: nat, escape: bool,
                      children: seq<Element>)
    returns (open': BlockToken, next': nat, children': seq<Element>)
    requires BlockInv(t, BlockScan(InImageUrl, next, textStart, textEnd, urlStart, escape, children)) && next < |t|
    ensures TokenStep(t, BlockScan(InImageUrl, next, textStart, textEnd, urlStart, escape, children))
         == Success(BlockScan(open', next', textStart, textEnd, urlStart, escape, children'))
  {
    open', children' := InImageUrl, children;
    var urlEnd := next;
    if Consumes(t, next, ")", escape) {
      open' := InNone;
      children' := AppendElement(children, Image, Some(t[textStart..textEnd]), Some(t[urlStart..urlEnd]));
    }
    next' := next + 1;
  }

  /** The TT_Paragraph case of the loop body: parse_inlines into the open paragraph. */
  method ParagraphCase(t: string, next: nat, ghost textStart: nat, ghost textEnd: nat, ghost urlStart: nat,
                       ghost escape: bool, children: seq<Element>)
    returns (next': nat, children': seq<Element>)
    requires BlockInv(t, BlockScan(InParagraph, next, textStart, textEnd, urlStart, escape, children)) && next < |t|
    ensures TokenStep(t, BlockScan(InParagraph, next, textStart, textEnd, urlStart, escape, children))
         == Success(BlockScan(InParagraph, next', textStart, textEnd, urlStart, escape, children'))
  {
    var es;
    es, next' := ParseInlines(Last(children).children, t, next);
    children' := WithLast(children, Last(children).(children := es));
  }

  /** The TT_Preformatted case of the loop body; `failed` when the block has length -1. */
  method PreformattedCase(t: string, next: nat, textStart: nat, ghost textEnd: nat, ghost urlStart: nat,
                          escape: bool, children: seq<Element>)
    returns (failed: bool, open': BlockToken, next': nat, children': seq<Element>)
    requires BlockInv(t, BlockScan(InPreformatted, next, textStart, textEnd, urlStart, escape, children)) && next < |t|
    ensures var r := TokenStep(t, BlockScan(InPreformatted, next, textStart, textEnd, urlStart, escape, children));
      if failed then r == Failure(NegativeLength)
      else r == Success(BlockScan(open', next', textStart, textEnd, urlStart, escape, children'))
  {
    failed, open', next', children' := false, InPreformatted, next, children;
    var fenceAt := next;
    if Consumes(t, next, "```\n", escape) {
      if fenceAt == textStart {
        failed := true;
        return;
      }
      open' := InNone;
      children' := AppendElement(children, Preformatted, Some(t[textStart..fenceAt - 1]), None);
      next' := next + 4;
    } else {
      next' := next + 1;
    }
  }

  /** markdown_parse_all: parse_front_matter, then parse_blocks from the cursor it leaves. */
  method MarkdownParseAll(t: string, page: Page) returns (r: Result<Page, Error>)
    ensures r == MarkdownAll(t, page)
  {
    var p, q := ParseFrontMatter(page, t);
    r := ParseBlocks(p, t, q);
  }

  /** markdown_parse_frontmatter: parse_front_matter alone. */
  method MarkdownParseFrontMatter(t: string, page: Page) returns (page': Page)
    ensures page' == MarkdownFrontMatter(t, page)
  {
    var q;
    page', q := ParseFrontMatter(page, t);
  }

  // ---------------------------------------------------------------------------
  // Single passes.

  /** A pass that succeeds moves the loop on. */
  lemma {:induction false} LoopAdvance(t: string, s: BlockScan, s': BlockScan)
    requires BlockInv(t, s) && s.next < |t| && BlockStep(t, s) == Success(s')
    ensures BlockInv(t, s') && BlockLoop(t, s) == BlockLoop(t, s')
  {
  }

  /**
   * A newline that no backslash escapes closes whatever is open, except a
   * fenced block, which every newline leaves open; no element changes.
   */
  lemma {:induction false} NewlineStep(t: string, s: BlockScan)
    requires BlockInv(t, s) && s.next < |t| && t[s.next] == '\n'
    requires !s.escape || s.open == InPreformatted
    ensures BlockStep(t, s) == Success(s.(open := if s.open == InPreformatted then InPreformatted else InNone,
                                          next := s.next + 1, escape := false))
  {
    if !s.escape {
      assert t[s.next..s.next + 1] == "\n";
    } else {
      NotOccursAtChar(t, "```\n", s.next);
    }
  }

  /** At a line start, what is not a newline or a backslash goes to the TT_None / TT_List switch. */
  lemma {:induction false} LineStartIs(t: string, s: BlockScan)
    requires BlockInv(t, s) && s.next < |t| && (s.open == InNone || s.open == InList) && !s.escape
    requires t[s.next] != '\n' && t[s.next] != '\\'
    ensures BlockStep(t, s) == Success(LineStartStep(t, s))
  {
    NotOccursAtChar(t, "\n", s.next);
    NotOccursAtChar(t, "\\", s.next);
  }

  /** `# ` at a line start: a Header holding the inline elements of the rest of the line, the cursor after the line. */
  lemma {:induction false} HeaderLine(t: string, s: BlockScan)
    requires BlockInv(t, s) && (s.open == InNone || s.open == InList) && !s.escape
    requires OccursAt(t, "# ", s.next)
    ensures BlockStep(t, s) == Success(s.(open := InNone, next := LineEnd(t, s.next + 2, false),
      children := s.children + [Element(Header, Inlines(t, s.next + 2).0, None, None)]))
  {
    assert t[s.next..s.next + 2][0] == t[s.next];
    LineStartIs(t, s);
    InlinesLineEnd(t, s.next + 2);
  }

  /**
   * `- ` at a line start: one more ListItem in the open List, or a new List
   * holding just this item when none is open.
   */
  lemma {:induction false} ItemLine(t: string, s: BlockScan)
    requires BlockInv(t, s) && (s.open == InNone || s.open == InList) && !s.escape
    requires OccursAt(t, "- ", s.next)
    ensures var items := Inlines(t, s.next + 2).0;
      BlockStep(t, s) == Success(s.(open := InList, next := LineEnd(t, s.next + 2, false),
        children := if s.open == InList then WithLast(s.children, AddItem(Last(s.children), items))
                    else s.children + [Element(List, [Item(items)], None, None)]))
  {
    ItemOpenIs(t, s);
    assert t[s.next..s.next + 2][0] == t[s.next];
    LineStartIs(t, s);
    ItemStart(t, s);
  }

  lemma {:induction false} ItemStart(t: string, s: BlockScan)
    requires BlockInv(t, s) && (s.open == InNone || s.open == InList) && !s.escape
    requires OccursAt(t, "- ", s.next)
    ensures LineStartStep(t, s) == ItemOpen(t, s)
  {
    assert t[s.next..s.next + 2][0] == t[s.next];
    NotOccursAtChar(t, "# ", s.next);
  }

  lemma {:induction false} ItemOpenIs(t: string, s: BlockScan)
    requires BlockInv(t, s) && (s.open == InNone || s.open == InList) && s.next + 2 <= |t|
    ensures var items := Inlines(t, s.next + 2).0;
      ItemOpen(t, s) == s.(open := InList, next := LineEnd(t, s.next + 2, false),
        children := if s.open == InList then WithLast(s.children, AddItem(Last(s.children), items))
                    else s.children + [Element(List, [Item(items)], None, None)])
  {
    if s.open == InList {
      ItemOpenMore(t, s);
    } else {
      ItemOpenNew(t, s);
    }
  }

  lemma {:induction false} ItemOpenMore(t: string, s: BlockScan)
    requires BlockInv(t, s) && s.open == InList && s.next + 2 <= |t|
    ensures ItemOpen(t, s) == s.(open := InList, next := LineEnd(t, s.next + 2, false),
      children := WithLast(s.children, AddItem(Last(s.children), Inlines(t, s.next + 2).0)))
  {
    ItemOpenMoreUnfolds(t, s);
    NextAtLineEnd(t, s.(open := InList, children := WithLast(s.children, AddItem(Last(s.children), Inlines(t, s.next + 2).0))), s.next + 2);
  }

  lemma {:induction false} ItemOpenMoreUnfolds(t: string, s: BlockScan)
    requires BlockInv(t, s) && s.open == InList && s.next + 2 <= |t|
    ensures ItemOpen(t, s) == s.(open := InList, next := Inlines(t, s.next + 2).1,
      children := WithLast(s.children, AddItem(Last(s.children), Inlines(t, s.next + 2).0)))
  {
    if s.next + 2 == |t| {
    } else {
    }
  }

  lemma {:induction false} ItemOpenNew(t: string, s: BlockScan)
    requires BlockInv(t, s) && s.open == InNone && s.next + 2 <= |t|
    ensures ItemOpen(t, s) == s.(open := InList, next := LineEnd(t, s.next + 2, false),
      children := s.children + [Element(List, [Item(Inlines(t, s.next + 2).0)], None, None)])
  {
    ItemOpenNewUnfolds(t, s);
    NextAtLineEnd(t, s.(open := InList, children := s.children + [Element(List, [Item(Inlines(t, s.next + 2).0)], None, None)]), s.next + 2);
  }

  lemma {:induction false} ItemOpenNewUnfolds(t: string, s: BlockScan)
    requires BlockInv(t, s) && s.open == InNone && s.next + 2 <= |t|
    ensures ItemOpen(t, s) == s.(open := InList, next := Inlines(t, s.next + 2).1,
      children := s.children + [Element(List, [Item(Inlines(t, s.next + 2).0)], None, None)])
  {
    if s.next + 2 == |t| {
    } else {
    }
  }

  /** The cursor parse_inlines leaves is the line end. */
  lemma {:induction false} NextAtLineEnd(t: string, r: BlockScan, start: nat)
    requires start <= |t|
    ensures r.(next := Inlines(t, start).1) == r.(next := LineEnd(t, start, false))
  {
    InlinesLineEnd(t, start);
  }

  /** A line that opens nothing, after a list or after a blank line, starts a Paragraph. */
  lemma {:induction false} ParagraphLine(t: string, s: BlockScan)
    requires BlockInv(t, s) && (s.open == InNone || s.open == InList) && !s.escape && s.next < |t|
    requires t[s.next] != '#' && t[s.next] != '-' && t[s.next] != '!' && t[s.next] != '*' && t[s.next] != '`'
    requires t[s.next] != '\n' && t[s.next] != '\\'
    ensures BlockStep(t, s) == Success(s.(open := InParagraph, next := LineEnd(t, s.next, false),
      children := s.children + [Element(Paragraph, Inlines(t, s.next).0, None, None)]))
  {
    NotOccursAtChar(t, "# ", s.next);
    NotOccursAtChar(t, "- ", s.next);
    NotOccursAtChar(t, "![", s.next);
    NotOccursAtChar(t, "***\n", s.next);
    NotOccursAtChar(t, "```\n", s.next);
    LineStartIs(t, s);
    InlinesLineEnd(t, s.next);
  }

  /**
   * An open paragraph takes in every line that is not blank, whatever it
   * starts with (`# ` and `- ` included): no element is added, the last one
   * stays a Paragraph and gains the line's inline elements after its own.
   */
  lemma {:induction false} ParagraphAbsorbs(t: string, s: BlockScan)
    requires BlockInv(t, s) && s.open == InParagraph && !s.escape && s.next < |t|
    requires t[s.next] != '\n' && t[s.next] != '\\'
    ensures BlockStep(t, s).Success?
    ensures var r := BlockStep(t, s).value; var last := Last(s.children);
      r.open == InParagraph && r.next == LineEnd(t, s.next, false)
      && |r.children| == |s.children| && r.children[..|s.children| - 1] == s.children[..|s.children| - 1]
      && Last(r.children) == last.(children := last.children + Inlines(t, s.next).0)
      && Last(r.children).children[..|last.children|] == last.children
  {
    NotOccursAtChar(t, "\n", s.next);
    NotOccursAtChar(t, "\\", s.next);
    InlinesLineEnd(t, s.next);
  }

  /** `***` and a newline at a line start: a rule with no children. */
  lemma {:induction false} RuleLine(t: string, s: BlockScan)
    requires BlockInv(t, s) && (s.open == InNone || s.open == InList) && !s.escape
    requires OccursAt(t, "***\n", s.next)
    ensures BlockStep(t, s) == Success(s.(open := InNone, next := s.next + 4,
      children := s.children + [Element(HRule, [], None, None)]))
  {
    assert t[s.next..s.next + 4][0] == t[s.next];
    NotOccursAtChar(t, "# ", s.next);
    NotOccursAtChar(t, "- ", s.next);
    NotOccursAtChar(t, "![", s.next);
    LineStartIs(t, s);
  }

  /**
   * A backslash at a line start makes the line a Paragraph that begins with
   * the escaped character, whatever it is: `\# `, `\- `, `\***` and a
   * backslash before a newline all give paragraphs.
   */
  lemma {:induction false} EscapedLineStart(t: string, s: BlockScan)
    requires BlockInv(t, s) && (s.open == InNone || s.open == InList) && !s.escape
    requires s.next + 1 < |t| && t[s.next] == '\\'
    ensures var (es, n) := Inlines(t, s.next + 1);
      BlockLoop(t, s) == BlockLoop(t, s.(open := InParagraph, next := n,
        children := s.children + [Element(Paragraph, es, None, None)]))
  {
    var at := s.next;
    assert t[at..at + 1] == "\\";
    NotOccursAtChar(t, "\n", at);
    var s1 := s.(escape := true, next := at + 1);
    LoopAdvance(t, s, s1);
    LoopAdvance(t, s1, ParagraphOpen(t, s1).(escape := false));
  }
}
