/**
 * What parse_blocks does with whole lines: sibling lists, images, fenced
 * blocks, and the shape of every element it leaves in the page.
 */
module BlockFacts {
  import opened Wrappers
  import opened Strings
  import opened Document
  import opened Elements
  import opened InlineParser
  import opened BlockParser

  // ---------------------------------------------------------------------------
  // Lists.

  /**
   * A blank line closes the open list: a `- ` line after it starts a second
   * List next to the first instead of adding to it.
   */
  lemma {:induction false} SiblingList(t: string, s: BlockScan)
    requires BlockInv(t, s) && s.open == InList && !s.escape
    requires s.next < |t| && t[s.next] == '\n' && OccursAt(t, "- ", s.next + 1)
    ensures var items := Inlines(t, s.next + 3).0;
      BlockLoop(t, s) == BlockLoop(t, s.(open := InList, next := LineEnd(t, s.next + 3, false),
        children := s.children + [Element(List, [Item(items)], None, None)]))
  {
    BlankAfterList(t, s);
    ItemLoop(t, s.(open := InNone, next := s.next + 1));
  }

  /** A blank line after a list closes it and changes nothing else. */
  lemma {:induction false} BlankAfterList(t: string, s: BlockScan)
    requires BlockInv(t, s) && s.open == InList && !s.escape
    requires s.next < |t| && t[s.next] == '\n'
    ensures BlockInv(t, s.(open := InNone, next := s.next + 1))
    ensures BlockLoop(t, s) == BlockLoop(t, s.(open := InNone, next := s.next + 1))
  {
    NewlineStep(t, s);
    LoopAdvance(t, s, s.(open := if s.open == InPreformatted then InPreformatted else InNone, next := s.next + 1, escape := false));
  }

  /** A `- ` line with no list open starts a new List holding the line as its one item. */
  lemma {:induction false} ItemLoop(t: string, s: BlockScan)
    requires BlockInv(t, s) && s.open == InNone && !s.escape
    requires OccursAt(t, "- ", s.next)
    ensures BlockLoop(t, s) == BlockLoop(t, s.(open := InList, next := LineEnd(t, s.next + 2, false),
      children := s.children + [Element(List, [Item(Inlines(t, s.next + 2).0)], None, None)]))
  {
    ItemLine(t, s);
    LoopAdvance(t, s, s.(open := InList, next := LineEnd(t, s.next + 2, false),
      children := s.children + [Element(List, [Item(Inlines(t, s.next + 2).0)], None, None)]));
  }

  // ---------------------------------------------------------------------------
  // Images.

  /** The character that moves an image on to its next part. */
  function Closer(open: BlockToken): char {
    if open == InImageText then ']' else ')'
  }

  /** A character inside an image that neither ends the line nor the part being read. */
  predicate ImageInert(open: BlockToken, c: char) {
    c != '\n' && c != '\\' && c != Closer(open)
  }

  /** Inside an image, an ordinary character only moves the cursor. */
  lemma {:induction false} ImageInertStep(t: string, s: BlockScan)
    requires BlockInv(t, s) && s.next < |t| && (s.open == InImageText || s.open == InImageUrl) && !s.escape
    requires ImageInert(s.open, t[s.next])
    ensures BlockStep(t, s) == Success(s.(next := s.next + 1))
  {
    NotOccursAtChar(t, "\n", s.next);
    NotOccursAtChar(t, "\\", s.next);
    if s.open == InImageText {
      NotOccursAtChar(t, "](", s.next);
    } else {
      NotOccursAtChar(t, ")", s.next);
    }
  }

  /** The characters in [i, j) are ordinary inside the image part `open`. */
  predicate ImageInertRun(t: string, open: BlockToken, i: nat, j: nat)
    requires i <= j <= |t|
    decreases j - i
  {
    i == j || (ImageInert(open, t[i]) && ImageInertRun(t, open, i + 1, j))
  }

  /** An occurrence of a string of ordinary characters is a run of them. */
  lemma {:induction false} ImageInertRunOf(t: string, open: BlockToken, x: string, i: nat)
    requires OccursAt(t, x, i) && forall k :: 0 <= k < |x| ==> ImageInert(open, x[k])
    ensures ImageInertRun(t, open, i, i + |x|)
    decreases |x|
  {
    if x != [] {
      assert t[i..i + |x|][0] == t[i];
      assert t[i + 1..i + |x|] == t[i..i + |x|][1..];
      ImageInertRunOf(t, open, x[1..], i + 1);
    }
  }

  /** A run of ordinary characters inside an image only moves the cursor. */
  lemma {:induction false} ImageRun(t: string, s: BlockScan, j: nat)
    requires BlockInv(t, s) && (s.open == InImageText || s.open == InImageUrl) && !s.escape
    requires s.next <= j <= |t| && ImageInertRun(t, s.open, s.next, j)
    ensures BlockLoop(t, s) == BlockLoop(t, s.(next := j))
    decreases j - s.next
  {
    if s.next < j {
      ImageInertStep(t, s);
      LoopAdvance(t, s, s.(next := s.next + 1));
      ImageRun(t, s.(next := s.next + 1), j);
    }
  }

  /**
   * `![cap](url)` at `p`, read piece by piece: the markers where they sit,
   * the caption and the URL between them, neither holding a character that
   * would end it early.
   */
  predicate ImageLaidOut(t: string, p: nat, cap: string, url: string) {
    var b := p + 2 + |cap|; var d := b + 2 + |url|;
    OccursAt(t, "![", p) && OccursAt(t, "](", b) && OccursAt(t, ")", d)
    && t[p + 2..b] == cap && t[b + 2..d] == url
    && ImageInertRun(t, InImageText, p + 2, b) && ImageInertRun(t, InImageUrl, b + 2, d)
  }

  /** The pieces of `![cap](url)` where they sit in the text. */
  lemma {:induction false} ImageParts(t: string, p: nat, cap: string, url: string)
    requires OccursAt(t, "![" + cap + "](" + url + ")", p)
    requires forall k :: 0 <= k < |cap| ==> ImageInert(InImageText, cap[k])
    requires forall k :: 0 <= k < |url| ==> ImageInert(InImageUrl, url[k])
    ensures ImageLaidOut(t, p, cap, url)
  {
    OccursAtSplit(t, "![" + cap + "](" + url, ")", p);
    CaptionParts(t, p, cap, "](", url);
    ImageInertRunOf(t, InImageText, cap, p + 2);
    ImageInertRunOf(t, InImageUrl, url, p + 4 + |cap|);
  }

  /**
   * The scan after `![cap](url)` at a line start: nothing open, the cursor
   * past `)`, and one Image appended whose text is the caption and whose
   * URL is the URL.
   */
  function ImageDone(s: BlockScan, cap: string, url: string): BlockScan {
    var b := s.next + 2 + |cap|;
    s.(open := InNone, next := b + 3 + |url|, textStart := s.next + 2, textEnd := b, urlStart := b + 2,
      children := s.children + [NewElement(Image, Some(cap), Some(url))])
  }

  /** `![cap](url)` at a line start appends the Image, both parts escaped, and leaves nothing open. */
  lemma {:induction false} ImageLine(t: string, s: BlockScan, cap: string, url: string)
    requires BlockInv(t, s) && (s.open == InNone || s.open == InList) && !s.escape
    requires OccursAt(t, "![" + cap + "](" + url + ")", s.next)
    requires forall k :: 0 <= k < |cap| ==> ImageInert(InImageText, cap[k])
    requires forall k :: 0 <= k < |url| ==> ImageInert(InImageUrl, url[k])
    ensures BlockInv(t, ImageDone(s, cap, url)) && BlockLoop(t, s) == BlockLoop(t, ImageDone(s, cap, url))
  {
    ImageParts(t, s.next, cap, url);
    ImageLineAt(t, s, cap, url, ImageDone(s, cap, url));
  }

  lemma {:induction false} ImageLineAt(t: string, s: BlockScan, cap: string, url: string, r: BlockScan)
    requires BlockInv(t, s) && (s.open == InNone || s.open == InList) && !s.escape
    requires ImageLaidOut(t, s.next, cap, url) && r == ImageDone(s, cap, url)
    ensures BlockInv(t, r) && BlockLoop(t, s) == BlockLoop(t, r)
  {
    ImageCaptionAt(t, s, cap, url);
    ImageUrlAt(t, s, cap, url);
  }

  /** The scan once `![cap](` is read: the URL open, the caption's bounds kept. */
  function CaptionDone(s: BlockScan, cap: string): BlockScan {
    var b := s.next + 2 + |cap|;
    s.(open := InImageUrl, next := b + 2, textStart := s.next + 2, textEnd := b, urlStart := b + 2)
  }

  lemma {:induction false} ImageCaptionAt(t: string, s: BlockScan, cap: string, url: string)
    requires BlockInv(t, s) && (s.open == InNone || s.open == InList) && !s.escape
    requires ImageLaidOut(t, s.next, cap, url)
    ensures BlockInv(t, CaptionDone(s, cap)) && BlockLoop(t, s) == BlockLoop(t, CaptionDone(s, cap))
  {
    ImageCaption(t, s, s.next + 2 + |cap|, CaptionDone(s, cap));
  }

  lemma {:induction false} ImageUrlAt(t: string, s: BlockScan, cap: string, url: string)
    requires BlockInv(t, s) && (s.open == InNone || s.open == InList) && !s.escape
    requires ImageLaidOut(t, s.next, cap, url) && BlockInv(t, CaptionDone(s, cap))
    ensures BlockInv(t, ImageDone(s, cap, url))
    ensures BlockLoop(t, CaptionDone(s, cap)) == BlockLoop(t, ImageDone(s, cap, url))
  {
    UrlParts(t, s, cap, url);
    ImageUrl(t, CaptionDone(s, cap), s.next + 2 + |cap| + 2 + |url|, cap, url, ImageDone(s, cap, url));
  }

  /** The facts about the open URL that closing the image needs, read off the layout. */
  lemma {:induction false} UrlParts(t: string, s: BlockScan, cap: string, url: string)
    requires ImageLaidOut(t, s.next, cap, url)
    ensures var s2 := CaptionDone(s, cap); var d := s.next + 2 + |cap| + 2 + |url|;
      s2.next <= d && OccursAt(t, ")", d) && d <= |t| && ImageInertRun(t, InImageUrl, s2.next, d)
      && cap == t[s2.textStart..s2.textEnd] && url == t[s2.urlStart..d]
      && ImageDone(s, cap, url) == s2.(open := InNone, next := d + 1, children := s2.children + [NewElement(Image, Some(cap), Some(url))])
  {
  }

  /** From a line start, `![` and a caption up to `](` leave the URL open. */
  lemma {:induction false} ImageCaption(t: string, s: BlockScan, b: nat, r: BlockScan)
    requires BlockInv(t, s) && (s.open == InNone || s.open == InList) && !s.escape
    requires OccursAt(t, "![", s.next) && s.next + 2 <= b && OccursAt(t, "](", b)
    requires b <= |t| && ImageInertRun(t, InImageText, s.next + 2, b)
    requires r == s.(open := InImageUrl, next := b + 2, textStart := s.next + 2, textEnd := b, urlStart := b + 2)
    ensures BlockInv(t, r) && BlockLoop(t, s) == BlockLoop(t, r)
  {
    var s1 := s.(open := InImageText, next := s.next + 2, textStart := s.next + 2);
    ImageTextCloses(t, s1.(next := b));
    LoopAdvance(t, s1.(next := b), r);
    ImageRun(t, s1, b);
    ImageOpens(t, s);
    LoopAdvance(t, s, s1);
  }

  /** With the URL open, a URL up to `)` appends the Image. */
  lemma {:induction false} ImageUrl(t: string, s: BlockScan, d: nat, cap: string, url: string, r: BlockScan)
    requires BlockInv(t, s) && s.open == InImageUrl && !s.escape
    requires s.next <= d && OccursAt(t, ")", d)
    requires d <= |t| && ImageInertRun(t, InImageUrl, s.next, d)
    requires cap == t[s.textStart..s.textEnd] && url == t[s.urlStart..d]
    requires r == s.(open := InNone, next := d + 1, children := s.children + [NewElement(Image, Some(cap), Some(url))])
    ensures BlockInv(t, r) && BlockLoop(t, s) == BlockLoop(t, r)
  {
    ImageUrlCloses(t, s.(next := d));
    LoopAdvance(t, s.(next := d), r);
    ImageRun(t, s, d);
  }

  lemma {:induction false} ImageOpens(t: string, s: BlockScan)
    requires BlockInv(t, s) && (s.open == InNone || s.open == InList) && !s.escape
    requires OccursAt(t, "![", s.next)
    ensures BlockStep(t, s) == Success(s.(open := InImageText, next := s.next + 2, textStart := s.next + 2))
  {
    assert t[s.next..s.next + 2][0] == t[s.next];
    NotOccursAtChar(t, "# ", s.next);
    NotOccursAtChar(t, "- ", s.next);
    LineStartIs(t, s);
  }

  lemma {:induction false} ImageTextCloses(t: string, s: BlockScan)
    requires BlockInv(t, s) && s.open == InImageText && !s.escape && OccursAt(t, "](", s.next)
    ensures BlockStep(t, s) == Success(s.(open := InImageUrl, next := s.next + 2, textEnd := s.next, urlStart := s.next + 2))
  {
    assert t[s.next..s.next + 2][0] == t[s.next];
    NotOccursAtChar(t, "\n", s.next);
    NotOccursAtChar(t, "\\", s.next);
  }

  lemma {:induction false} ImageUrlCloses(t: string, s: BlockScan)
    requires BlockInv(t, s) && s.open == InImageUrl && !s.escape && OccursAt(t, ")", s.next)
    ensures BlockStep(t, s) == Success(s.(open := InNone, next := s.next + 1,
      children := s.children + [NewElement(Image, Some(t[s.textStart..s.textEnd]), Some(t[s.urlStart..s.next]))]))
  {
    assert t[s.next..s.next + 1][0] == t[s.next];
    NotOccursAtChar(t, "\n", s.next);
    NotOccursAtChar(t, "\\", s.next);
  }

  /** The state after an image abandoned at the newline that ends its URL. */
  function AfterAbandoned(s: BlockScan, m: nat, n: nat): BlockScan {
    var a := s.next + 2;
    var b := a + m;
    s.(open := InNone, next := b + 3 + n, textStart := a, textEnd := b, urlStart := b + 2)
  }

  /**
   * A newline before the `)` abandons the image: the line adds no element
   * and leaves nothing open.
   */
  lemma {:induction false} ImageAbandoned(t: string, s: BlockScan, cap: string, url: string)
    requires BlockInv(t, s) && (s.open == InNone || s.open == InList) && !s.escape
    requires OccursAt(t, "![" + cap + "](" + url + "\n", s.next)
    requires forall k :: 0 <= k < |cap| ==> ImageInert(InImageText, cap[k])
    requires forall k :: 0 <= k < |url| ==> ImageInert(InImageUrl, url[k])
    ensures var r := AfterAbandoned(s, |cap|, |url|);
      BlockInv(t, r) && r.children == s.children && r.open == InNone && r.next == s.next + |cap| + |url| + 5
      && BlockLoop(t, s) == BlockLoop(t, r)
  {
    AbandonedParts(t, s.next, cap, url);
    AbandonedAt(t, s, |cap|, |url|, AfterAbandoned(s, |cap|, |url|));
  }

  lemma {:induction false} AbandonedAt(t: string, s: BlockScan, m: nat, n: nat, r: BlockScan)
    requires BlockInv(t, s) && (s.open == InNone || s.open == InList) && !s.escape
    requires var b := s.next + 2 + m; var d := b + 2 + n;
      OccursAt(t, "![", s.next) && OccursAt(t, "](", b) && d < |t| && t[d] == '\n'
      && ImageInertRun(t, InImageText, s.next + 2, b) && ImageInertRun(t, InImageUrl, b + 2, d)
    requires r == AfterAbandoned(s, m, n)
    ensures BlockInv(t, r) && BlockLoop(t, s) == BlockLoop(t, r)
  {
    var a := s.next + 2;
    var b := a + m;
    var d := b + 2 + n;
    var s2 := s.(open := InImageUrl, next := b + 2, textStart := a, textEnd := b, urlStart := b + 2);
    assert r == s2.(open := InNone, next := d + 1);
    UrlAbandoned(t, s2, d, r);
    ImageCaption(t, s, b, s2);
  }

  /** With the URL open, a newline before any `)` closes the image without an element. */
  lemma {:induction false} UrlAbandoned(t: string, s: BlockScan, d: nat, r: BlockScan)
    requires BlockInv(t, s) && s.open == InImageUrl && !s.escape
    requires s.next <= d < |t| && t[d] == '\n'
    requires d <= |t| && ImageInertRun(t, InImageUrl, s.next, d)
    requires r == s.(open := InNone, next := d + 1)
    ensures BlockInv(t, r) && BlockLoop(t, s) == BlockLoop(t, r)
  {
    NewlineStep(t, s.(next := d));
    LoopAdvance(t, s.(next := d), r);
    ImageRun(t, s, d);
  }

  lemma {:induction false} AbandonedParts(t: string, p: nat, cap: string, url: string)
    requires OccursAt(t, "![" + cap + "](" + url + "\n", p)
    requires forall k :: 0 <= k < |cap| ==> ImageInert(InImageText, cap[k])
    requires forall k :: 0 <= k < |url| ==> ImageInert(InImageUrl, url[k])
    ensures var b := p + 2 + |cap|; var d := b + 2 + |url|;
      OccursAt(t, "![", p) && OccursAt(t, "](", b) && d < |t| && t[d] == '\n'
      && ImageInertRun(t, InImageText, p + 2, b) && ImageInertRun(t, InImageUrl, b + 2, d)
  {
    var d := p + 4 + |cap| + |url|;
    OccursAtSplit(t, "![" + cap + "](" + url, "\n", p);
    assert t[d..d + 1][0] == t[d];
    CaptionParts(t, p, cap, "](", url);
    ImageInertRunOf(t, InImageText, cap, p + 2);
    ImageInertRunOf(t, InImageUrl, url, p + 4 + |cap|);
  }

  /** The pieces of `![cap` + `sep` + `url` where they sit in the text. */
  lemma {:induction false} CaptionParts(t: string, p: nat, cap: string, sep: string, url: string)
    requires OccursAt(t, "![" + cap + sep + url, p)
    ensures OccursAt(t, "![", p) && OccursAt(t, cap, p + 2) && OccursAt(t, sep, p + 2 + |cap|)
      && OccursAt(t, url, p + 2 + |cap| + |sep|)
  {
    OccursAtSplit(t, "![" + cap + sep, url, p);
    OccursAtSplit(t, "![" + cap, sep, p);
    OccursAtSplit(t, "![", cap, p);
  }

  // ---------------------------------------------------------------------------
  // Fenced blocks.

  /** No closing fence starts anywhere in [i, j). */
  predicate NoFence(t: string, i: nat, j: nat)
    requires i <= j
    decreases j - i
  {
    i == j || (!OccursAt(t, "```\n", i) && NoFence(t, i + 1, j))
  }

  /** The escape flag after one character of a fenced block. */
  function EscapeAfterChar(c: char, escape: bool): bool {
    !escape && c == '\\'
  }

  /** The escape flag after the characters in [i, j) of a fenced block. */
  function EscapeAfter(t: string, i: nat, j: nat, escape: bool): bool
    requires i <= j <= |t|
    decreases j - i
  {
    if i == j then escape else EscapeAfter(t, i + 1, j, EscapeAfterChar(t[i], escape))
  }

  /** After a newline nothing is escaped. */
  lemma {:induction false} EscapeAfterNewline(t: string, i: nat, j: nat, escape: bool)
    requires i < j <= |t| && t[j - 1] == '\n'
    ensures !EscapeAfter(t, i, j, escape)
    decreases j - i
  {
    if i + 1 < j {
      EscapeAfterNewline(t, i + 1, j, EscapeAfterChar(t[i], escape));
    }
  }

  /**
   * Inside a fenced block every character but a closing fence only moves the
   * cursor: newlines leave the block open and a backslash only escapes the
   * next character.
   */
  lemma {:induction false} PreformattedStepOn(t: string, s: BlockScan)
    requires BlockInv(t, s) && s.open == InPreformatted && s.next < |t| && !OccursAt(t, "```\n", s.next)
    ensures BlockStep(t, s) == Success(s.(next := s.next + 1, escape := EscapeAfterChar(t[s.next], s.escape)))
  {
    var at := s.next;
    if t[at] == '\n' {
      assert t[at..at + 1] == "\n";
      NotOccursAtChar(t, "\\", at);
    } else if t[at] == '\\' {
      NotOccursAtChar(t, "\n", at);
      assert t[at..at + 1] == "\\";
    } else {
      NotOccursAtChar(t, "\n", at);
      NotOccursAtChar(t, "\\", at);
    }
  }

  /** Up to the first closing fence, a fenced block only moves the cursor and the escape flag. */
  lemma {:induction false} PreformattedRun(t: string, s: BlockScan, j: nat)
    requires BlockInv(t, s) && s.open == InPreformatted && s.next <= j <= |t| && NoFence(t, s.next, j)
    ensures BlockLoop(t, s) == BlockLoop(t, s.(next := j, escape := EscapeAfter(t, s.next, j, s.escape)))
    decreases j - s.next
  {
    if s.next < j {
      var s1 := s.(next := s.next + 1, escape := EscapeAfterChar(t[s.next], s.escape));
      PreformattedStepOn(t, s);
      LoopAdvance(t, s, s1);
      PreformattedRun(t, s1, j);
    }
  }

  /** A fenced block that never closes emits nothing: the elements are those before it. */
  lemma {:induction false} UnclosedFence(t: string, s: BlockScan)
    requires BlockInv(t, s) && s.open == InPreformatted && NoFence(t, s.next, |t|)
    ensures BlockLoop(t, s) == Success(s.children)
  {
    PreformattedRun(t, s, |t|);
  }

  /** ```` ```\n ```` at a line start opens a fenced block whose text starts after it. */
  lemma {:induction false} FenceOpens(t: string, s: BlockScan)
    requires BlockInv(t, s) && (s.open == InNone || s.open == InList) && !s.escape
    requires OccursAt(t, "```\n", s.next)
    ensures BlockStep(t, s) == Success(FenceOpened(s))
  {
    assert t[s.next..s.next + 4][0] == t[s.next];
    NotOccursAtChar(t, "# ", s.next);
    NotOccursAtChar(t, "- ", s.next);
    NotOccursAtChar(t, "![", s.next);
    NotOccursAtChar(t, "***\n", s.next);
    LineStartIs(t, s);
  }

  /**
   * The closing fence appends the text from the opening fence to one
   * character before the closing one; a fence right after the opening one
   * gives the length -1 and the failure.
   */
  lemma {:induction false} FenceCloses(t: string, s: BlockScan)
    requires BlockInv(t, s) && s.open == InPreformatted && !s.escape && OccursAt(t, "```\n", s.next)
    ensures BlockStep(t, s) == if s.next == s.textStart then Failure(NegativeLength)
      else Success(s.(open := InNone, next := s.next + 4,
        children := s.children + [Element(Preformatted, [], Some(t[s.textStart..s.next - 1]), None)]))
  {
    assert t[s.next..s.next + 4][0] == t[s.next];
    NotOccursAtChar(t, "\n", s.next);
    NotOccursAtChar(t, "\\", s.next);
  }

  /** The state after a fenced block with the text `body`. */
  function AfterFence(s: BlockScan, body: string): BlockScan
    requires |body| > 0
  {
    FenceClosed(FenceOpened(s), body)
  }

  /** The state just inside an opening fence. */
  function FenceOpened(s: BlockScan): BlockScan {
    s.(open := InPreformatted, next := s.next + 4, textStart := s.next + 4)
  }

  /** The state after the text `body` of an open fenced block and its closing fence. */
  function FenceClosed(s: BlockScan, body: string): BlockScan
    requires |body| > 0
  {
    s.(open := InNone, next := s.next + |body| + 4,
       children := s.children + [Element(Preformatted, [], Some(body[..|body| - 1]), None)])
  }

  /**
   * A fenced block at a line start whose text ends in a newline appends one
   * Preformatted element holding the text without that last newline, kept
   * verbatim, and leaves nothing open. Newlines and backslashes inside do
   * not end it.
   */
  lemma {:induction false} FencedBlock(t: string, s: BlockScan, body: string)
    requires BlockInv(t, s) && (s.open == InNone || s.open == InList) && !s.escape
    requires OccursAt(t, "```\n" + body + "```\n", s.next)
    requires |body| > 0 && body[|body| - 1] == '\n' && NoFence(t, s.next + 4, s.next + 4 + |body|)
    ensures BlockInv(t, AfterFence(s, body)) && BlockLoop(t, s) == BlockLoop(t, AfterFence(s, body))
  {
    FenceParts(t, s.next, body);
    FenceBody(t, FenceOpened(s), body, AfterFence(s, body));
    FenceOpenLoop(t, s);
  }

  lemma {:induction false} FenceParts(t: string, p: nat, body: string)
    requires OccursAt(t, "```\n" + body + "```\n", p)
    ensures OccursAt(t, "```\n", p) && OccursAt(t, "```\n", p + 4 + |body|) && t[p + 4..p + 4 + |body|] == body
  {
    OccursAtSplit(t, "```\n" + body, "```\n", p);
    OccursAtSplit(t, "```\n", body, p);
  }

  lemma {:induction false} FenceOpenLoop(t: string, s: BlockScan)
    requires BlockInv(t, s) && (s.open == InNone || s.open == InList) && !s.escape
    requires OccursAt(t, "```\n", s.next)
    ensures BlockInv(t, FenceOpened(s)) && BlockLoop(t, s) == BlockLoop(t, FenceOpened(s))
  {
    FenceOpens(t, s);
    LoopAdvance(t, s, FenceOpened(s));
  }

  /** From the opening fence: the text up to the closing fence, then the fence itself. */
  lemma {:induction false} FenceBody(t: string, s: BlockScan, body: string, r: BlockScan)
    requires BlockInv(t, s) && s.open == InPreformatted && !s.escape && s.textStart == s.next
    requires var f := s.next + |body|;
      OccursAt(t, "```\n", f) && t[s.next..f] == body
    requires |body| > 0 && body[|body| - 1] == '\n' && NoFence(t, s.next, s.next + |body|)
    requires r == FenceClosed(s, body)
    ensures BlockInv(t, r) && BlockLoop(t, s) == BlockLoop(t, r)
  {
    var a := s.next;
    var f := a + |body|;
    assert t[f - 1] == body[|body| - 1];
    var s2 := s.(next := f, escape := false);
    assert BlockLoop(t, s) == BlockLoop(t, s2) by {
      PreformattedRun(t, s, f);
      EscapeAfterNewline(t, a, f, false);
    }
    assert t[a..f - 1] == body[..|body| - 1];
    FenceCloses(t, s2);
    LoopAdvance(t, s2, r);
  }

  /** ```` ```\n```\n ```` at a line start: the empty block has length -1 and the parse fails. */
  lemma {:induction false} EmptyFence(t: string, s: BlockScan)
    requires BlockInv(t, s) && (s.open == InNone || s.open == InList) && !s.escape
    requires OccursAt(t, "```\n```\n", s.next)
    ensures BlockLoop(t, s) == Failure(NegativeLength)
  {
    OccursAtSplit(t, "```\n", "```\n", s.next);
    var s1 := FenceOpened(s);
    FenceOpens(t, s);
    LoopAdvance(t, s, s1);
    FenceCloses(t, s1);
  }
}
