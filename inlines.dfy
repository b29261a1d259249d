/**
 * parse_inlines of markdown.c: one line of text split into Text, Bold and
 * Link elements. `**` opens and closes bold, `[text](url)` is a link, a
 * backslash escapes the next character, and the line ends at the first
 * newline that is not escaped.
 */
module InlineParser {
  import opened Wrappers
  import opened Strings
  import opened Document
  import opened Escaping
  import opened Elements

  /** The token parse_inlines has open. */
  datatype Token = TokNone | TokText | TokBold | TokLinkText | TokLinkUrl

  /** A pair of positions in the line, as parse_inlines passes them to append_element. */
  datatype Span = Span(from: nat, to: nat)

  /** What parse_inlines hands to append_element: a kind, the text's span and a link's URL span. */
  datatype Piece = Piece(kind: ElementType, text: Span, url: Option<Span>)

  /** The characters a span covers (nothing for a span outside the text, which the parser never cuts). */
  function Cut(t: string, sp: Span): (r: string)
    ensures sp.from <= sp.to <= |t| ==> r == t[sp.from..sp.to]
  {
    if sp.from <= sp.to <= |t| then t[sp.from..sp.to] else []
  }

  /** The element append_element makes of a piece, escaping its text and URL. */
  function ElementOf(t: string, p: Piece): Element {
    NewElement(p.kind, Some(Cut(t, p.text)), if p.url.Some? then Some(Cut(t, p.url.value)) else None)
  }

  /** The elements made of the pieces, in order. */
  function ElementsOf(t: string, ps: seq<Piece>): (es: seq<Element>)
    ensures |es| == |ps|
  {
    seq(|ps|, i requires 0 <= i < |ps| => ElementOf(t, ps[i]))
  }

  /** Element `i` is made of piece `i`. */
  lemma {:induction false} ElementsOfIndex(t: string, ps: seq<Piece>, i: nat)
    requires i < |ps|
    ensures ElementsOf(t, ps)[i] == ElementOf(t, ps[i])
  {
  }

  /** Appending one element to the vector is appending its piece. */
  lemma {:induction false} ElementsOfAppend(t: string, base: seq<Element>, ps: seq<Piece>, p: Piece)
    ensures base + ElementsOf(t, ps) + [ElementOf(t, p)] == base + ElementsOf(t, ps + [p])
  {
    assert ElementsOf(t, ps) + [ElementOf(t, p)] == ElementsOf(t, ps + [p]);
  }

  /**
   * The locals of parse_inlines at the head of its loop, `out` standing for
   * the pieces appended so far. token_end always equals `next` there, so it
   * is not kept; text_start, text_end and url_start only matter in the
   * tokens that set them.
   */
  datatype Scan = Scan(
    open: Token,
    next: nat,
    tokenStart: nat,
    textStart: nat,
    textEnd: nat,
    urlStart: nat,
    escape: bool,
    out: seq<Piece>)

  /** CONSUME_STRING: `pat` comes next and the character is not escaped. */
  predicate Consumes(t: string, at: nat, pat: string, escape: bool) {
    !escape && OccursAt(t, pat, at)
  }

  /** The positions of a scan stay inside the text and in order. */
  predicate ScanInv(t: string, s: Scan) {
    s.next <= |t| && s.tokenStart <= s.next
    && ((s.open == TokBold || s.open == TokLinkText) ==> s.textStart <= s.next)
    && (s.open == TokLinkUrl ==> s.textStart <= s.textEnd <= s.urlStart <= s.next)
  }

  /**
   * The TT_None / TT_Text case: `[` and then `**` are both tried; either one
   * first flushes an open Text token, then opens a link (which wins) or bold;
   * anything else extends the Text token by one character.
   */
  function OpenOrText(t: string, s: Scan): (r: Scan)
    requires ScanInv(t, s) && s.next < |t|
    ensures ScanInv(t, r) && s.next < r.next
  {
    var at := s.next;
    var isLink := Consumes(t, at, "[", s.escape);
    var p1 := if isLink then at + 1 else at;
    var isBold := Consumes(t, p1, "**", s.escape);
    var p2 := if isBold then p1 + 2 else p1;
    var flush := s.open == TokText && (isLink || isBold);
    var out := if flush then s.out + [Piece(Text, Span(s.tokenStart, at), None)] else s.out;
    var tokenStart := if flush then at else s.tokenStart;
    if isLink then s.(open := TokLinkText, textStart := p2, next := p2, out := out, tokenStart := tokenStart)
    else if isBold then s.(open := TokBold, textStart := p2, next := p2, out := out, tokenStart := tokenStart)
    else s.(open := TokText, next := at + 1, out := out, tokenStart := tokenStart)
  }

  /** The TT_Bold case: `**` closes the bold text, anything else is part of it. */
  function BoldStep(t: string, s: Scan): (r: Scan)
    requires ScanInv(t, s) && s.next < |t| && s.open == TokBold
    ensures ScanInv(t, r) && s.next < r.next
  {
    var at := s.next;
    if Consumes(t, at, "**", s.escape) then
      s.(out := s.out + [Piece(Bold, Span(s.textStart, at), None)], open := TokNone, next := at + 2, tokenStart := at + 2)
    else s.(next := at + 1)
  }

  /** The TT_LinkText case: `](` ends the link text and starts the URL. */
  function LinkTextStep(t: string, s: Scan): (r: Scan)
    requires ScanInv(t, s) && s.next < |t| && s.open == TokLinkText
    ensures ScanInv(t, r) && s.next < r.next
  {
    var at := s.next;
    if Consumes(t, at, "](", s.escape) then
      s.(open := TokLinkUrl, textEnd := at, urlStart := at + 2, next := at + 2)
    else s.(next := at + 1)
  }

  /** The TT_LinkURL case: `)` closes the link. */
  function LinkUrlStep(t: string, s: Scan): (r: Scan)
    requires ScanInv(t, s) && s.next < |t| && s.open == TokLinkUrl
    ensures ScanInv(t, r) && s.next < r.next
  {
    var at := s.next;
    if Consumes(t, at, ")", s.escape) then
      s.(out := s.out + [Piece(Link, Span(s.textStart, s.textEnd), Some(Span(s.urlStart, at)))],
         open := TokNone, next := at + 1, tokenStart := at + 1)
    else s.(next := at + 1)
  }

  /** One pass of the loop body, ending with the escape flag cleared. */
  function ScanStep(t: string, s: Scan): (r: Scan)
    requires ScanInv(t, s) && s.next < |t|
    ensures ScanInv(t, r) && s.next < r.next
  {
    if Consumes(t, s.next, "\\", s.escape) then s.(escape := true, next := s.next + 1)
    else
      var r := match s.open
        case TokNone => OpenOrText(t, s)
        case TokText => OpenOrText(t, s)
        case TokBold => BoldStep(t, s)
        case TokLinkText => LinkTextStep(t, s)
        case TokLinkUrl => LinkUrlStep(t, s);
      r.(escape := false)
  }

  /** The loop of parse_inlines: runs to the end of the text or to an unescaped newline. */
  function ScanLoop(t: string, s: Scan): (r: Scan)
    requires ScanInv(t, s)
    decreases |t| - s.next, 1
    ensures ScanInv(t, r) && s.next <= r.next
    ensures r.next == |t| || Consumes(t, r.next, "\n", r.escape)
  {
    if s.next == |t| || Consumes(t, s.next, "\n", s.escape) then s
    else ScanMore(t, s)
  }

  /** The loop once it goes on: one pass of the body, then the rest of the loop. */
  function ScanMore(t: string, s: Scan): (r: Scan)
    requires ScanInv(t, s) && s.next < |t|
    decreases |t| - s.next, 0
    ensures ScanInv(t, r) && s.next < r.next
    ensures r.next == |t| || Consumes(t, r.next, "\n", r.escape)
  {
    ScanLoop(t, ScanStep(t, s))
  }

  function InitScan(start: nat): Scan {
    Scan(TokNone, start, start, start, start, start, false, [])
  }

  /** The pieces of a line: those the loop closed, then the token still open, as Text, opener included. */
  function LinePieces(t: string, s: Scan): seq<Piece>
    requires ScanInv(t, s)
  {
    if s.open != TokNone then s.out + [Piece(Text, Span(s.tokenStart, s.next), None)] else s.out
  }

  /**
   * parse_inlines from `start`: the elements the line adds to the caller's
   * vector, and the cursor just past the line's newline (or at the end).
   */
  function Inlines(t: string, start: nat): (r: (seq<Element>, nat))
    requires start <= |t|
    ensures start <= r.1 <= |t| && (start < |t| ==> start < r.1)
  {
    var s := ScanLoop(t, InitScan(start));
    (ElementsOf(t, LinePieces(t, s)), if s.next < |t| then s.next + 1 else s.next)
  }

  /**
   * parse_inlines: walks the line with a cursor, appending an element each
   * time a token closes, and leaves the cursor after the line.
   */
  method ParseInlines(elements: seq<Element>, t: string, start: nat) returns (elements': seq<Element>, next: nat)
    requires start <= |t|
    ensures elements' == elements + Inlines(t, start).0 && next == Inlines(t, start).1
  {
    var open := TokNone;
    next := start;
    var tokenStart := start;
    var tokenEnd := start;
    var textStart, textEnd, urlStart := start, start, start;
    var escape := false;
    elements' := elements;
    ghost var out: seq<Piece> := [];
    while true
      invariant tokenEnd == next
      invariant elements' == elements + ElementsOf(t, out)
      invariant ScanInv(t, Scan(open, next, tokenStart, textStart, textEnd, urlStart, escape, out))
      invariant ScanLoop(t, Scan(open, next, tokenStart, textStart, textEnd, urlStart, escape, out))
             == ScanLoop(t, InitScan(start))
      decreases |t| - next
    {
      if next == |t| {
        break;
      }
      if Consumes(t, next, "\n", escape) {
        next := next + 1;
        break;
      }
      ghost var before := Scan(open, next, tokenStart, textStart, textEnd, urlStart, escape, out);
      if Consumes(t, next, "\\", escape) {
        next := next + 1;
        escape := true;
        tokenEnd := next;
        assert Scan(open, next, tokenStart, textStart, textEnd, urlStart, escape, out) == ScanStep(t, before);
        LoopStep(t, before);
        continue;
      }
      match open {
        case TokNone =>
          open, next, tokenStart, textStart, elements', out :=
            OpenOrTextCase(t, open, next, tokenStart, tokenEnd, textStart, textEnd, urlStart, escape, elements', elements, out);
        case TokText =>
          open, next, tokenStart, textStart, elements', out :=
            OpenOrTextCase(t, open, next, tokenStart, tokenEnd, textStart, textEnd, urlStart, escape, elements', elements, out);
        case TokBold =>
          open, next, tokenStart, elements', out :=
            BoldCase(t, next, tokenStart, tokenEnd, textStart, textEnd, urlStart, escape, elements', elements, out);
        case TokLinkText =>
          open, next, textEnd, urlStart :=
            LinkTextCase(t, next, tokenStart, tokenEnd, textStart, textEnd, urlStart, escape, out);
        case TokLinkUrl =>
          open, next, tokenStart, elements', out :=
            LinkUrlCase(t, next, tokenStart, tokenEnd, textStart, textEnd, urlStart, escape, elements', elements, out);
      }
      escape := false;
      tokenEnd := next;
      assert Scan(open, next, tokenStart, textStart, textEnd, urlStart, escape, out) == ScanStep(t, before);
      LoopStep(t, before);
    }
    if open != TokNone {
      elements' := AppendElement(elements', Text, Some(t[tokenStart..tokenEnd]), None);
      ElementsOfAppend(t, elements, out, Piece(Text, Span(tokenStart, tokenEnd), None));
    }
  }

  /** The TT_None / TT_Text case of the loop body, on the locals it changes. */
  method OpenOrTextCase(t: string, open: Token, next: nat, tokenStart: nat, tokenEnd: nat, textStart: nat,
                        ghost textEnd: nat, ghost urlStart: nat, escape: bool,
                        elements: seq<Element>, ghost base: seq<Element>, ghost out: seq<Piece>)
    returns (open': Token, next': nat, tokenStart': nat, textStart': nat, elements': seq<Element>, ghost out': seq<Piece>)
    requires open == TokNone || open == TokText
    requires tokenEnd == next < |t| && tokenStart <= next
    requires elements == base + ElementsOf(t, out)
    ensures elements' == base + ElementsOf(t, out')
    ensures Scan(open', next', tokenStart', textStart', textEnd, urlStart, escape, out')
         == OpenOrText(t, Scan(open, next, tokenStart, textStart, textEnd, urlStart, escape, out))
  {
    open', next', tokenStart', textStart', elements', out' := open, next, tokenStart, textStart, elements, out;
    var isLink := Consumes(t, next', "[", escape);
    if isLink {
      next' := next' + 1;
    }
    var isBold := Consumes(t, next', "**", escape);
    if isBold {
      next' := next' + 2;
    }
    if open == TokText && (isLink || isBold) {
      elements' := AppendElement(elements', Text, Some(t[tokenStart..tokenEnd]), None);
      ElementsOfAppend(t, base, out, Piece(Text, Span(tokenStart, tokenEnd), None));
      out' := out + [Piece(Text, Span(tokenStart, tokenEnd), None)];
      tokenStart' := tokenEnd;
    }
    if isLink {
      open' := TokLinkText;
      textStart' := next';
    } else if isBold {
      open' := TokBold;
      textStart' := next';
    } else {
      open' := TokText;
      next' := next' + 1;
    }
  }

  /** The TT_Bold case of the loop body. */
  method BoldCase(t: string, next: nat, tokenStart: nat, tokenEnd: nat, textStart: nat,
                  ghost textEnd: nat, ghost urlStart: nat, escape: bool,
                  elements: seq<Element>, ghost base: seq<Element>, ghost out: seq<Piece>)
    returns (open': Token, next': nat, tokenStart': nat, elements': seq<Element>, ghost out': seq<Piece>)
    requires tokenEnd == next < |t| && tokenStart <= next && textStart <= next
    requires elements == base + ElementsOf(t, out)
    ensures elements' == base + ElementsOf(t, out')
    ensures Scan(open', next', tokenStart', textStart, textEnd, urlStart, escape, out')
         == BoldStep(t, Scan(TokBold, next, tokenStart, textStart, textEnd, urlStart, escape, out))
  {
    open', next', tokenStart', elements', out' := TokBold, next, tokenStart, elements, out;
    if Consumes(t, next, "**", escape) {
      elements' := AppendElement(elements, Bold, Some(t[textStart..tokenEnd]), None);
      ElementsOfAppend(t, base, out, Piece(Bold, Span(textStart, tokenEnd), None));
      out' := out + [Piece(Bold, Span(textStart, tokenEnd), None)];
      next' := next + 2;
      open' := TokNone;
      tokenStart' := next';
    } else {
      next' := next + 1;
    }
  }

  /** The TT_LinkText case of the loop body. */
  method LinkTextCase(t: string, next: nat, ghost tokenStart: nat, tokenEnd: nat, ghost textStart: nat,
                      textEnd: nat, urlStart: nat, escape: bool, ghost out: seq<Piece>)
    returns (open': Token, next': nat, textEnd': nat, urlStart': nat)
    requires tokenEnd == next < |t| && tokenStart <= next && textStart <= next
    ensures Scan(open', next', tokenStart, textStart, textEnd', urlStart', escape, out)
         == LinkTextStep(t, Scan(TokLinkText, next, tokenStart, textStart, textEnd, urlStart, escape, out))
  {
    open', next', textEnd', urlStart' := TokLinkText, next, textEnd, urlStart;
    if Consumes(t, next, "](", escape) {
      next' := next + 2;
      open' := TokLinkUrl;
      textEnd' := tokenEnd;
      urlStart' := next';
    } else {
      next' := next + 1;
    }
  }

  /** The TT_LinkURL case of the loop body. */
  method LinkUrlCase(t: string, next: nat, tokenStart: nat, tokenEnd: nat, textStart: nat, textEnd: nat, urlStart: nat,
                     escape: bool, elements: seq<Element>, ghost base: seq<Element>, ghost out: seq<Piece>)
    returns (open': Token, next': nat, tokenStart': nat, elements': seq<Element>, ghost out': seq<Piece>)
    requires tokenEnd == next < |t| && tokenStart <= next && textStart <= textEnd <= urlStart <= next
    requires elements == base + ElementsOf(t, out)
    ensures elements' == base + ElementsOf(t, out')
    ensures Scan(open', next', tokenStart', textStart, textEnd, urlStart, escape, out')
         == LinkUrlStep(t, Scan(TokLinkUrl, next, tokenStart, textStart, textEnd, urlStart, escape, out))
  {
    open', next', tokenStart', elements', out' := TokLinkUrl, next, tokenStart, elements, out;
    if Consumes(t, next, ")", escape) {
      elements' := AppendElement(elements, Link, Some(t[textStart..textEnd]), Some(t[urlStart..tokenEnd]));
      ElementsOfAppend(t, base, out, Piece(Link, Span(textStart, textEnd), Some(Span(urlStart, tokenEnd))));
      out' := out + [Piece(Link, Span(textStart, textEnd), Some(Span(urlStart, tokenEnd)))];
      next' := next + 1;
      open' := TokNone;
      tokenStart' := next';
    } else {
      next' := next + 1;
    }
  }

  // ---------------------------------------------------------------------------
  // Where the line ends.

  /**
   * Just past the first newline at or after `i` that no backslash escapes, or
   * the end of the text; `escape` says whether the character at `i` is escaped.
   */
  function LineEnd(t: string, i: nat, escape: bool): (r: nat)
    requires i <= |t|
    decreases |t| - i
    ensures i <= r <= |t|
  {
    if i == |t| then i
    else if !escape && t[i] == '\n' then i + 1
    else if !escape && t[i] == '\\' then LineEnd(t, i + 1, true)
    else LineEnd(t, i + 1, false)
  }

  /** A consumed marker holds no newline and no backslash, so the line end is unchanged past it. */
  lemma {:induction false} LineEndSkip(t: string, i: nat, pat: string)
    requires OccursAt(t, pat, i) && '\n' !in pat && '\\' !in pat
    ensures LineEnd(t, i, false) == LineEnd(t, i + |pat|, false)
    decreases |pat|
  {
    if pat != [] {
      OccursAtChars(t, pat, i);
      assert t[i] == pat[0];
      OccursAtSplit(t, [pat[0]], pat[1..], i);
      assert [pat[0]] + pat[1..] == pat;
      LineEndSkip(t, i + 1, pat[1..]);
    }
  }

  /** A character that is neither an unescaped newline nor an unescaped backslash moves the line end along by one. */
  lemma {:induction false} LineEndOne(t: string, at: nat, escape: bool)
    requires at < |t| && !Consumes(t, at, "\n", escape) && !Consumes(t, at, "\\", escape)
    ensures LineEnd(t, at, escape) == LineEnd(t, at + 1, false)
  {
    assert t[at..at + 1][0] == t[at];
  }

  /** Where the TT_None / TT_Text case leaves the cursor when the character is not escaped. */
  function OpenNext(t: string, at: nat): nat
    requires at < |t|
  {
    var p1 := if OccursAt(t, "[", at) then at + 1 else at;
    var p2 := if OccursAt(t, "**", p1) then p1 + 2 else p1;
    if p2 == at then at + 1 else p2
  }

  lemma {:induction false} OpenOrTextNext(t: string, s: Scan)
    requires ScanInv(t, s) && s.next < |t| && (s.open == TokNone || s.open == TokText) && !s.escape
    ensures OpenOrText(t, s).next == OpenNext(t, s.next)
  {
  }

  lemma {:induction false} OpenNextLineEnd(t: string, at: nat)
    requires at < |t| && !OccursAt(t, "\n", at) && !OccursAt(t, "\\", at)
    ensures LineEnd(t, OpenNext(t, at), false) == LineEnd(t, at, false)
  {
    var p1 := if OccursAt(t, "[", at) then at + 1 else at;
    var p2 := if OccursAt(t, "**", p1) then p1 + 2 else p1;
    var q := OpenNext(t, at);
    if p2 == at {
      LineEndOne(t, at, false);
      assert LineEnd(t, q, false) == LineEnd(t, at, false);
    } else if p1 == at {
      LineEndSkip(t, at, "**");
      assert LineEnd(t, q, false) == LineEnd(t, at, false);
    } else if p2 == p1 {
      LineEndSkip(t, at, "[");
      assert LineEnd(t, q, false) == LineEnd(t, at, false);
    } else {
      LineEndSkip(t, at, "[");
      LineEndSkip(t, p1, "**");
      assert LineEnd(t, q, false) == LineEnd(t, at, false);
    }
  }

  /** Where one pass of the loop leaves the cursor when it does not meet an escape. */
  function PlainNext(t: string, at: nat, open: Token, escape: bool): nat
    requires at < |t|
  {
    if escape || open == TokLinkUrl then at + 1
    else if open == TokNone || open == TokText then OpenNext(t, at)
    else if open == TokBold then (if OccursAt(t, "**", at) then at + 2 else at + 1)
    else if OccursAt(t, "](", at) then at + 2 else at + 1
  }

  lemma {:induction false} StepNext(t: string, s: Scan)
    requires ScanInv(t, s) && s.next < |t| && !Consumes(t, s.next, "\\", s.escape)
    ensures !ScanStep(t, s).escape
    ensures ScanStep(t, s).next == PlainNext(t, s.next, s.open, s.escape)
  {
    if !s.escape && (s.open == TokNone || s.open == TokText) {
      OpenOrTextNext(t, s);
    }
  }

  lemma {:induction false} PlainNextLineEnd(t: string, at: nat, open: Token, escape: bool)
    requires at < |t| && !Consumes(t, at, "\n", escape) && !Consumes(t, at, "\\", escape)
    ensures LineEnd(t, PlainNext(t, at, open, escape), false) == LineEnd(t, at, escape)
  {
    LineEndOne(t, at, escape);
    if escape || open == TokLinkUrl {
    } else if open == TokNone || open == TokText {
      OpenNextLineEnd(t, at);
    } else if open == TokBold {
      if OccursAt(t, "**", at) {
        LineEndSkip(t, at, "**");
      }
    } else {
      if OccursAt(t, "](", at) {
        LineEndSkip(t, at, "](");
      }
    }
  }

  lemma {:induction false} StepLineEnd(t: string, s: Scan)
    requires ScanInv(t, s) && s.next < |t| && !Consumes(t, s.next, "\n", s.escape)
    ensures LineEnd(t, ScanStep(t, s).next, ScanStep(t, s).escape) == LineEnd(t, s.next, s.escape)
  {
    var at := s.next;
    var r := ScanStep(t, s);
    if Consumes(t, at, "\\", s.escape) {
      assert t[at..at + 1][0] == t[at];
      assert r.next == at + 1 && r.escape;
      assert LineEnd(t, r.next, r.escape) == LineEnd(t, at, s.escape);
    } else {
      StepNext(t, s);
      PlainNextLineEnd(t, at, s.open, s.escape);
      assert LineEnd(t, r.next, r.escape) == LineEnd(t, at, s.escape);
    }
  }

  lemma {:induction false} LoopLineEnd(t: string, s: Scan)
    requires ScanInv(t, s)
    ensures var r := ScanLoop(t, s);
      (if r.next < |t| then r.next + 1 else r.next) == LineEnd(t, s.next, s.escape)
    decreases |t| - s.next
  {
    if s.next == |t| {
    } else if Consumes(t, s.next, "\n", s.escape) {
      assert t[s.next..s.next + 1][0] == t[s.next];
    } else {
      StepLineEnd(t, s);
      LoopStep(t, s);
      LoopLineEnd(t, ScanStep(t, s));
    }
  }

  /**
   * parse_inlines leaves the cursor just past the first newline that no
   * backslash escapes, or at the end of the text: the line is consumed whole,
   * whatever tokens it holds.
   */
  lemma {:induction false} InlinesLineEnd(t: string, start: nat)
    requires start <= |t|
    ensures Inlines(t, start).1 == LineEnd(t, start, false)
  {
    LoopLineEnd(t, InitScan(start));
  }

  // ---------------------------------------------------------------------------
  // What the elements look like.

  /** A piece parse_inlines cuts: Text, Bold or Link, with a URL exactly when it is a link. */
  predicate PieceShape(p: Piece) {
    (p.kind == Text || p.kind == Bold || p.kind == Link) && (p.url.Some? <==> p.kind == Link)
  }

  predicate AllPieces(ps: seq<Piece>) {
    forall i :: 0 <= i < |ps| ==> PieceShape(ps[i])
  }

  lemma {:induction false} LoopShape(t: string, s: Scan)
    requires ScanInv(t, s) && AllPieces(s.out)
    ensures AllPieces(ScanLoop(t, s).out)
    decreases |t| - s.next
  {
    if s.next < |t| && !Consumes(t, s.next, "\n", s.escape) {
      LoopStep(t, s);
      LoopShape(t, ScanStep(t, s));
    }
  }

  /** An element parse_inlines creates: Text, Bold or Link, a leaf, with escaped payloads. */
  predicate InlineShape(e: Element) {
    (e.kind == Text || e.kind == Bold || e.kind == Link)
    && e.children == []
    && e.text.Some? && '\\' !in e.text.value && '<' !in e.text.value
    && (e.url.Some? <==> e.kind == Link)
    && (e.url.Some? ==> '\\' !in e.url.value && '<' !in e.url.value)
  }

  predicate AllInline(es: seq<Element>) {
    forall i :: 0 <= i < |es| ==> InlineShape(es[i])
  }

  lemma {:induction false} ElementsShape(t: string, ps: seq<Piece>)
    requires AllPieces(ps)
    ensures AllInline(ElementsOf(t, ps))
  {
    forall i | 0 <= i < |ps|
      ensures InlineShape(ElementsOf(t, ps)[i])
    {
      ElementsOfIndex(t, ps, i);
      var p := ps[i];
      NewElementEscaped(p.kind, Some(Cut(t, p.text)), if p.url.Some? then Some(Cut(t, p.url.value)) else None);
    }
  }

  /** Every element parse_inlines adds is a Text, Bold or Link leaf whose payloads were escaped. */
  lemma {:induction false} InlinesShape(t: string, start: nat)
    requires start <= |t|
    ensures AllInline(Inlines(t, start).0)
  {
    var s := ScanLoop(t, InitScan(start));
    LoopShape(t, InitScan(start));
    var ps := LinePieces(t, s);
    assert AllPieces(ps);
    ElementsShape(t, ps);
  }

  // ---------------------------------------------------------------------------
  // Runs of ordinary characters.

  /** The character that could end the open token. */
  function Stopper(open: Token): char {
    match open
    case TokBold => '*'
    case TokLinkText => ']'
    case TokLinkUrl => ')'
    case _ => '['
  }

  /** A character that only moves the cursor in the open token. */
  predicate Inert(open: Token, c: char) {
    c != '\\' && c != '\n' && c != Stopper(open) && ((open == TokNone || open == TokText) ==> c != '*')
  }

  /** A loop that neither ends nor meets a newline takes one step. */
  lemma {:induction false} LoopStep(t: string, s: Scan)
    requires ScanInv(t, s) && s.next < |t| && !Consumes(t, s.next, "\n", s.escape)
    ensures ScanLoop(t, s) == ScanLoop(t, ScanStep(t, s))
  {
  }

  /** One inert character: the cursor moves on and a bare scan becomes a Text token. */
  lemma {:induction false} InertStep(t: string, s: Scan)
    requires ScanInv(t, s) && !s.escape && s.next < |t| && Inert(s.open, t[s.next])
    ensures ScanStep(t, s) == s.(open := if s.open == TokNone then TokText else s.open, next := s.next + 1)
  {
    var at := s.next;
    NotOccursAtChar(t, "\\", at);
    match s.open
    case TokNone =>
      NotOccursAtChar(t, "[", at);
      NotOccursAtChar(t, "**", at);
    case TokText =>
      NotOccursAtChar(t, "[", at);
      NotOccursAtChar(t, "**", at);
    case TokBold =>
      NotOccursAtChar(t, "**", at);
    case TokLinkText =>
      NotOccursAtChar(t, "](", at);
    case TokLinkUrl =>
      NotOccursAtChar(t, ")", at);
  }

  /** The token open after `k` inert characters. */
  function RunOpen(open: Token, k: nat): Token {
    if k > 0 && open == TokNone then TokText else open
  }

  /** The scan after `k` inert characters. */
  function Advance(s: Scan, k: nat): Scan {
    s.(open := RunOpen(s.open, k), next := s.next + k)
  }

  lemma {:induction false} InertLoopStep(t: string, s: Scan)
    requires ScanInv(t, s) && !s.escape && s.next < |t| && Inert(s.open, t[s.next])
    ensures ScanInv(t, Advance(s, 1))
    ensures ScanLoop(t, s) == ScanLoop(t, Advance(s, 1))
  {
    NotOccursAtChar(t, "\n", s.next);
    InertStep(t, s);
    LoopStep(t, s);
  }

  /**
   * The character after a backslash: no marker is consumed, whatever it is;
   * the cursor moves on, a bare scan becomes a Text token and the escape
   * flag is cleared.
   */
  lemma {:induction false} EscapedStep(t: string, s: Scan)
    requires ScanInv(t, s) && s.escape && s.next < |t|
    ensures ScanStep(t, s) == s.(open := if s.open == TokNone then TokText else s.open, next := s.next + 1, escape := false)
  {
  }

  /**
   * A backslash and the character after it, even a newline or a marker, are
   * both kept as text of the open token: the loop goes on two characters later.
   */
  lemma {:induction false} EscapedPair(t: string, s: Scan)
    requires ScanInv(t, s) && !s.escape && s.next + 1 < |t| && t[s.next] == '\\'
    ensures ScanInv(t, AdvanceTo(s, s.next + 2))
    ensures ScanLoop(t, s) == ScanLoop(t, AdvanceTo(s, s.next + 2))
  {
    var s1 := s.(escape := true, next := s.next + 1);
    OccursAtSingle(t, '\\', s.next);
    assert ScanStep(t, s) == s1;
    NotOccursAtChar(t, "\n", s.next);
    LoopStep(t, s);
    EscapedStep(t, s1);
    LoopStep(t, s1);
  }

  /** The characters from `i` up to `j` are inert in turn, starting with `open`. */
  predicate InertRun(t: string, open: Token, i: nat, j: nat)
    requires i <= j <= |t|
    decreases j - i
  {
    i == j || (Inert(open, t[i]) && InertRun(t, RunOpen(open, 1), i + 1, j))
  }

  lemma {:induction false} InertRunOf(t: string, open: Token, i: nat, j: nat)
    requires i <= j <= |t|
    requires forall m :: i <= m < j ==> Inert(open, t[m])
    ensures InertRun(t, open, i, j)
    decreases j - i
  {
    if i < j {
      forall m | i + 1 <= m < j
        ensures Inert(RunOpen(open, 1), t[m])
      {
        assert Inert(open, t[m]);
      }
      InertRunOf(t, RunOpen(open, 1), i + 1, j);
    }
  }

  lemma {:induction false} RunSkip(t: string, s: Scan, k: nat)
    requires ScanInv(t, s) && !s.escape && s.next + k <= |t|
    requires InertRun(t, s.open, s.next, s.next + k)
    ensures ScanInv(t, Advance(s, k))
    ensures ScanLoop(t, s) == ScanLoop(t, Advance(s, k))
  {
    assert Advance(s, k) == AdvanceTo(s, s.next + k);
    RunSkipTo(t, s, s.next + k);
  }

  /** The scan once the cursor has moved over inert characters up to `j`. */
  function AdvanceTo(s: Scan, j: nat): Scan {
    s.(open := if j > s.next && s.open == TokNone then TokText else s.open, next := j)
  }

  lemma {:induction false} RunSkipTo(t: string, s: Scan, j: nat)
    requires ScanInv(t, s) && !s.escape && s.next <= j <= |t|
    requires InertRun(t, s.open, s.next, j)
    ensures ScanInv(t, AdvanceTo(s, j))
    ensures ScanLoop(t, s) == ScanLoop(t, AdvanceTo(s, j))
    decreases j - s.next
  {
    if s.next < j {
      var s1 := Advance(s, 1);
      assert AdvanceTo(s1, j) == AdvanceTo(s, j);
      RunHead(t, s.open, s.next, j);
      InertLoopStep(t, s);
      RunSkipTo(t, s1, j);
    }
  }

  lemma {:induction false} RunHead(t: string, open: Token, i: nat, j: nat)
    requires i < j <= |t| && InertRun(t, open, i, j)
    ensures Inert(open, t[i]) && InertRun(t, RunOpen(open, 1), i + 1, j)
  {
  }

  /** A run of inert characters found in the text. */
  lemma {:induction false} InertSlice(t: string, open: Token, a: string, i: nat)
    requires OccursAt(t, a, i)
    requires forall j :: 0 <= j < |a| ==> Inert(open, a[j])
    ensures InertRun(t, open, i, i + |a|)
  {
    OccursAtChars(t, a, i);
    forall m | i <= m < i + |a|
      ensures Inert(open, t[m])
    {
      assert t[m] == a[m - i];
    }
    InertRunOf(t, open, i, i + |a|);
  }

  /** The loop stops at the end of the text and at a newline that is not escaped. */
  lemma {:induction false} LoopStops(t: string, s: Scan)
    requires ScanInv(t, s) && (s.next == |t| || (!s.escape && t[s.next] == '\n'))
    ensures ScanLoop(t, s) == s
  {
    if s.next < |t| {
      assert t[s.next..s.next + 1][0] == t[s.next];
    }
  }

  // ---------------------------------------------------------------------------
  // Opening and closing tokens.

  /** The pieces once an open Text token is flushed at `at`. */
  function Flushed(s: Scan, at: nat): seq<Piece> {
    if s.open == TokText then s.out + [Piece(Text, Span(s.tokenStart, at), None)] else s.out
  }

  /** `**` outside a token opens bold, flushing the Text token before it. */
  lemma {:induction false} OpenBold(t: string, s: Scan, r: Scan)
    requires ScanInv(t, s) && !s.escape && s.next < |t| && (s.open == TokNone || s.open == TokText)
    requires OccursAt(t, "**", s.next)
    requires r == s.(open := TokBold, next := s.next + 2, textStart := s.next + 2,
      tokenStart := if s.open == TokText then s.next else s.tokenStart, out := Flushed(s, s.next))
    ensures ScanInv(t, r) && ScanLoop(t, s) == ScanLoop(t, r)
  {
    assert t[s.next..s.next + 2][0] == t[s.next];
    NotOccursAtChar(t, "\n", s.next);
    NotOccursAtChar(t, "\\", s.next);
    NotOccursAtChar(t, "[", s.next);
    LoopStep(t, s);
  }

  /** The scan once `**` has closed the bold token at the cursor. */
  function BoldClosed(s: Scan): Scan
    requires s.open == TokBold
  {
    s.(open := TokNone, next := s.next + 2, tokenStart := s.next + 2,
      out := s.out + [Piece(Bold, Span(s.textStart, s.next), None)])
  }

  /** `**` inside bold closes it and adds the Bold piece. */
  lemma {:induction false} CloseBold(t: string, s: Scan)
    requires ScanInv(t, s) && !s.escape && s.next < |t| && s.open == TokBold
    requires OccursAt(t, "**", s.next)
    ensures ScanInv(t, BoldClosed(s)) && ScanLoop(t, s) == ScanLoop(t, BoldClosed(s))
  {
    assert t[s.next..s.next + 2][0] == t[s.next];
    NotOccursAtChar(t, "\n", s.next);
    NotOccursAtChar(t, "\\", s.next);
    LoopStep(t, s);
  }

  /** `[` outside a token, not followed by `**`, opens a link. */
  lemma {:induction false} OpenLink(t: string, s: Scan, r: Scan)
    requires ScanInv(t, s) && !s.escape && s.next < |t| && (s.open == TokNone || s.open == TokText)
    requires OccursAt(t, "[", s.next) && !OccursAt(t, "**", s.next + 1)
    requires r == s.(open := TokLinkText, next := s.next + 1, textStart := s.next + 1,
      tokenStart := if s.open == TokText then s.next else s.tokenStart, out := Flushed(s, s.next))
    ensures ScanInv(t, r) && ScanLoop(t, s) == ScanLoop(t, r)
  {
    assert t[s.next..s.next + 1][0] == t[s.next];
    NotOccursAtChar(t, "\n", s.next);
    NotOccursAtChar(t, "\\", s.next);
    LoopStep(t, s);
  }

  /** `](` ends the link text. */
  lemma {:induction false} LinkMiddle(t: string, s: Scan, r: Scan)
    requires ScanInv(t, s) && !s.escape && s.next < |t| && s.open == TokLinkText
    requires OccursAt(t, "](", s.next)
    requires r == s.(open := TokLinkUrl, next := s.next + 2, textEnd := s.next, urlStart := s.next + 2)
    ensures ScanInv(t, r) && ScanLoop(t, s) == ScanLoop(t, r)
  {
    assert t[s.next..s.next + 2][0] == t[s.next];
    NotOccursAtChar(t, "\n", s.next);
    NotOccursAtChar(t, "\\", s.next);
    LoopStep(t, s);
  }

  /** The scan once `)` has closed the link at the cursor. */
  function LinkClosed(s: Scan): Scan
    requires s.open == TokLinkUrl
  {
    s.(open := TokNone, next := s.next + 1, tokenStart := s.next + 1,
      out := s.out + [Piece(Link, Span(s.textStart, s.textEnd), Some(Span(s.urlStart, s.next)))])
  }

  /** `)` closes the link and adds the Link piece. */
  lemma {:induction false} CloseLink(t: string, s: Scan)
    requires ScanInv(t, s) && !s.escape && s.next < |t| && s.open == TokLinkUrl
    requires OccursAt(t, ")", s.next)
    ensures ScanInv(t, LinkClosed(s)) && ScanLoop(t, s) == ScanLoop(t, LinkClosed(s))
  {
    assert t[s.next..s.next + 1][0] == t[s.next];
    NotOccursAtChar(t, "\n", s.next);
    NotOccursAtChar(t, "\\", s.next);
    LoopStep(t, s);
  }

  // ---------------------------------------------------------------------------
  // Whole lines.

  /** A run of inert characters up to the end of the line leaves the scan at the line end. */
  lemma {:induction false} RunToEnd(t: string, s: Scan, k: nat)
    requires ScanInv(t, s) && !s.escape && s.next + k <= |t|
    requires InertRun(t, s.open, s.next, s.next + k)
    requires s.next + k == |t| || t[s.next + k] == '\n'
    ensures ScanLoop(t, s) == Advance(s, k)
  {
    assert ScanInv(t, Advance(s, k));
    LoopStops(t, Advance(s, k));
    RunSkip(t, s, k);
  }

  /** The element of a piece whose spans cover `x` and `u`. */
  lemma {:induction false} PieceElement(t: string, p: Piece, x: string, u: Option<string>)
    requires OccursAt(t, x, p.text.from) && p.text.to == p.text.from + |x|
    requires p.url.Some? <==> u.Some?
    requires p.url.Some? ==> OccursAt(t, u.value, p.url.value.from) && p.url.value.to == p.url.value.from + |u.value|
    ensures ElementOf(t, p) == NewElement(p.kind, Some(x), u)
  {
  }

  lemma {:induction false} PlainScan(t: string, start: nat, k: nat)
    requires start + k <= |t| && InertRun(t, TokNone, start, start + k)
    requires start + k == |t| || t[start + k] == '\n'
    ensures LinePieces(t, ScanLoop(t, InitScan(start))) == if k == 0 then [] else [Piece(Text, Span(start, start + k), None)]
  {
    RunToEnd(t, InitScan(start), k);
  }

  /** A line of ordinary characters becomes one Text element, or none when it is empty. */
  lemma {:induction false} PlainLine(t: string, start: nat, a: string)
    requires OccursAt(t, a, start)
    requires forall i :: 0 <= i < |a| ==> Inert(TokNone, a[i])
    requires start + |a| == |t| || t[start + |a|] == '\n'
    ensures Inlines(t, start).0 == if |a| == 0 then [] else [NewElement(Text, Some(a), None)]
  {
    var p := Piece(Text, Span(start, start + |a|), None);
    var ps := if |a| == 0 then [] else [p];
    var es := if |a| == 0 then [] else [NewElement(Text, Some(a), None)];
    assert ElementsOf(t, ps) == es by {
      if |a| != 0 {
        PieceElement(t, p, a, None);
        ElementsOfOne(t, p);
      }
    }
    InertSlice(t, TokNone, a, start);
    PlainScan(t, start, |a|);
    LineIs(t, start, ps, es);
  }

  /** `k` characters of text before `**`: the bold token opens with the text flushed. */
  lemma {:induction false} TextThenBold(t: string, start: nat, k: nat, r: Scan)
    requires start + k <= |t| && InertRun(t, TokNone, start, start + k) && OccursAt(t, "**", start + k)
    requires var p := start + k;
      r == Scan(TokBold, p + 2, if k == 0 then start else p, p + 2, start, start, false,
        if k == 0 then [] else [Piece(Text, Span(start, p), None)])
    ensures ScanInv(t, r) && ScanLoop(t, InitScan(start)) == ScanLoop(t, r)
  {
    var s1 := Advance(InitScan(start), k);
    assert ScanInv(t, s1);
    OpenBold(t, s1, r);
    RunSkip(t, InitScan(start), k);
  }

  /** From the line start, `k` characters of text before `[`: the link token opens with the text flushed. */
  lemma {:induction false} TextThenLinkFrom(t: string, start: nat, k: nat, r: Scan)
    requires start + k < |t| && InertRun(t, TokNone, start, start + k)
    requires OccursAt(t, "[", start + k) && !OccursAt(t, "**", start + k + 1)
    requires r == Scan(TokLinkText, start + k + 1, if k == 0 then start else start + k, start + k + 1, start, start, false,
      if k == 0 then [] else [Piece(Text, Span(start, start + k), None)])
    ensures ScanInv(t, r) && ScanLoop(t, InitScan(start)) == ScanLoop(t, r)
  {
    var s1 := Advance(InitScan(start), k);
    assert ScanInv(t, s1);
    assert Flushed(s1, start + k) == r.out by {
      if k != 0 {
        assert [] + [Piece(Text, Span(start, start + k), None)] == [Piece(Text, Span(start, start + k), None)];
      }
    }
    OpenLink(t, s1, r);
    RunSkip(t, InitScan(start), k);
  }

  /** `k` characters of bold text, the closing `**` and the end of the line. */
  lemma {:induction false} BoldToEnd(t: string, s: Scan, k: nat)
    requires ScanInv(t, s) && !s.escape && s.open == TokBold
    requires s.next + k <= |t| && InertRun(t, TokBold, s.next, s.next + k) && OccursAt(t, "**", s.next + k)
    requires var e := s.next + k + 2; e == |t| || t[e] == '\n'
    ensures ScanLoop(t, s) == BoldClosed(Advance(s, k))
  {
    var s1 := Advance(s, k);
    assert ScanInv(t, s1);
    CloseBold(t, s1);
    LoopStops(t, BoldClosed(s1));
    RunSkip(t, s, k);
  }

  lemma {:induction false} BoldScan(t: string, start: nat, k: nat, m: nat, ps: seq<Piece>)
    requires start + k + m + 4 <= |t|
    requires InertRun(t, TokNone, start, start + k) && OccursAt(t, "**", start + k)
    requires InertRun(t, TokBold, start + k + 2, start + k + 2 + m) && OccursAt(t, "**", start + k + 2 + m)
    requires var e := start + k + m + 4; e == |t| || t[e] == '\n'
    requires ps == BoldPieces(start, k, m)
    ensures LinePieces(t, ScanLoop(t, InitScan(start))) == ps
  {
    var p := start + k;
    var s := Scan(TokBold, p + 2, if k == 0 then start else p, p + 2, start, start, false,
      if k == 0 then [] else [Piece(Text, Span(start, p), None)]);
    var r := BoldClosed(Advance(s, m));
    assert ScanInv(t, r) && r.open == TokNone;
    if k == 0 {
      assert LinePieces(t, r) == ps;
    } else {
      assert LinePieces(t, r) == ps;
    }
    BoldToEnd(t, s, m);
    TextThenBold(t, start, k, s);
  }

  /** The final scan of a line read off as its elements. */
  lemma {:induction false} LineIs(t: string, start: nat, ps: seq<Piece>, es: seq<Element>)
    requires start <= |t| && LinePieces(t, ScanLoop(t, InitScan(start))) == ps && ElementsOf(t, ps) == es
    ensures Inlines(t, start).0 == es
  {
  }

  /** Where the parts of `a**b**` sit. */
  lemma {:induction false} BoldParts(t: string, start: nat, a: string, b: string)
    requires OccursAt(t, a + "**" + b + "**", start)
    ensures OccursAt(t, a, start) && OccursAt(t, "**", start + |a|)
    ensures OccursAt(t, b, start + |a| + 2) && OccursAt(t, "**", start + |a| + 2 + |b|)
  {
    OccursAtSplit(t, a + "**" + b, "**", start);
    OccursAtSplit(t, a + "**", b, start);
    OccursAtSplit(t, a, "**", start);
  }

  /** The elements of the pieces of `a**b**`. */
  lemma {:induction false} BoldElements(t: string, start: nat, a: string, b: string, ps: seq<Piece>, es: seq<Element>)
    requires OccursAt(t, a, start) && OccursAt(t, b, start + |a| + 2)
    requires ps == BoldPieces(start, |a|, |b|) && es == BoldElementsOf(a, b)
    ensures ElementsOf(t, ps) == es
  {
    var p := start + |a|;
    var pb := Piece(Bold, Span(p + 2, p + 2 + |b|), None);
    var eb := NewElement(Bold, Some(b), None);
    PieceElement(t, pb, b, None);
    if |a| == 0 {
      assert ps == [pb] && es == [eb];
      OneElement(t, pb, eb);
    } else {
      var pa := Piece(Text, Span(start, p), None);
      var ea := NewElement(Text, Some(a), None);
      assert ps == [pa, pb] && es == [ea, eb];
      PieceElement(t, pa, a, None);
      TwoElements(t, pa, pb, ea, eb);
    }
  }

  lemma {:induction false} OneElement(t: string, p: Piece, e: Element)
    requires ElementOf(t, p) == e
    ensures ElementsOf(t, [p]) == [e]
  {
    ElementsOfOne(t, p);
  }

  lemma {:induction false} TwoElements(t: string, p: Piece, q: Piece, e: Element, f: Element)
    requires ElementOf(t, p) == e && ElementOf(t, q) == f
    ensures ElementsOf(t, [p, q]) == [e, f]
  {
    ElementsOfTwo(t, p, q);
  }

  lemma {:induction false} ElementsOfOne(t: string, p: Piece)
    ensures ElementsOf(t, [p]) == [ElementOf(t, p)]
  {
  }

  lemma {:induction false} ElementsOfTwo(t: string, p: Piece, q: Piece)
    ensures ElementsOf(t, [p, q]) == [ElementOf(t, p), ElementOf(t, q)]
  {
  }

  /** The pieces of `k` characters of text, then `m` of bold text between `**` markers. */
  function BoldPieces(start: nat, k: nat, m: nat): seq<Piece> {
    var pb := Piece(Bold, Span(start + k + 2, start + k + 2 + m), None);
    if k == 0 then [pb] else [Piece(Text, Span(start, start + k), None), pb]
  }

  /** The elements of `a**b**`: the text before the bold, if any, then the bold text. */
  function BoldElementsOf(a: string, b: string): seq<Element> {
    var eb := NewElement(Bold, Some(b), None);
    if |a| == 0 then [eb] else [NewElement(Text, Some(a), None), eb]
  }

  /** `a**b**`: the text before the bold, if any, then the bold text. */
  lemma {:induction false} BoldLine(t: string, start: nat, a: string, b: string)
    requires OccursAt(t, a + "**" + b + "**", start)
    requires forall i :: 0 <= i < |a| ==> Inert(TokNone, a[i])
    requires forall i :: 0 <= i < |b| ==> Inert(TokBold, b[i])
    requires var e := start + |a| + |b| + 4; e == |t| || t[e] == '\n'
    ensures Inlines(t, start).0 == BoldElementsOf(a, b)
  {
    var ps := BoldPieces(start, |a|, |b|);
    var es := BoldElementsOf(a, b);
    BoldParts(t, start, a, b);
    BoldLinePieces(t, start, a, b, ps);
    BoldElements(t, start, a, b, ps, es);
    LineIs(t, start, ps, es);
  }

  /** The pieces of a line `a**b**`. */
  lemma {:induction false} BoldLinePieces(t: string, start: nat, a: string, b: string, ps: seq<Piece>)
    requires OccursAt(t, a, start) && OccursAt(t, "**", start + |a|)
    requires OccursAt(t, b, start + |a| + 2) && OccursAt(t, "**", start + |a| + 2 + |b|)
    requires forall i :: 0 <= i < |a| ==> Inert(TokNone, a[i])
    requires forall i :: 0 <= i < |b| ==> Inert(TokBold, b[i])
    requires var e := start + |a| + |b| + 4; e == |t| || t[e] == '\n'
    requires ps == BoldPieces(start, |a|, |b|)
    ensures LinePieces(t, ScanLoop(t, InitScan(start))) == ps
  {
    InertSlice(t, TokNone, a, start);
    InertSlice(t, TokBold, b, start + |a| + 2);
    BoldScan(t, start, |a|, |b|, ps);
  }

  /** `k` characters of link text up to `](`. */
  lemma {:induction false} LinkTextRun(t: string, s: Scan, k: nat, r: Scan)
    requires ScanInv(t, s) && !s.escape && s.open == TokLinkText
    requires s.next + k <= |t| && InertRun(t, TokLinkText, s.next, s.next + k) && OccursAt(t, "](", s.next + k)
    requires r == s.(open := TokLinkUrl, next := s.next + k + 2, textEnd := s.next + k, urlStart := s.next + k + 2)
    ensures ScanInv(t, r) && ScanLoop(t, s) == ScanLoop(t, r)
  {
    RunSkip(t, s, k);
    LinkMiddle(t, Advance(s, k), r);
  }

  /** `k` characters of URL, the closing `)` and the end of the line. */
  lemma {:induction false} LinkUrlToEnd(t: string, s: Scan, k: nat)
    requires ScanInv(t, s) && !s.escape && s.open == TokLinkUrl && s.urlStart == s.next
    requires s.next + k <= |t| && InertRun(t, TokLinkUrl, s.next, s.next + k) && OccursAt(t, ")", s.next + k)
    requires var e := s.next + k + 1; e == |t| || t[e] == '\n'
    ensures ScanLoop(t, s) == LinkClosed(Advance(s, k))
  {
    var s1 := Advance(s, k);
    assert ScanInv(t, s1);
    CloseLink(t, s1);
    LoopStops(t, LinkClosed(s1));
    RunSkip(t, s, k);
  }

  /** A link of `k` text and `m` URL characters at `start`, ending its line. */
  predicate LinkAt(t: string, start: nat, k: nat, m: nat) {
    && start + k + m + 4 <= |t|
    && OccursAt(t, "[", start) && !OccursAt(t, "**", start + 1)
    && InertRun(t, TokLinkText, start + 1, start + 1 + k) && OccursAt(t, "](", start + 1 + k)
    && InertRun(t, TokLinkUrl, start + k + 3, start + k + 3 + m) && OccursAt(t, ")", start + k + 3 + m)
    && var e := start + k + m + 4; e == |t| || t[e] == '\n'
  }

  /** The piece of a link of `k` text and `m` URL characters at `start`. */
  function LinkPiece(start: nat, k: nat, m: nat): Piece {
    Piece(Link, Span(start + 1, start + 1 + k), Some(Span(start + k + 3, start + k + 3 + m)))
  }

  lemma {:induction false} LinkScan(t: string, start: nat, k: nat, m: nat)
    requires LinkAt(t, start, k, m)
    ensures start <= |t| && LinePieces(t, ScanLoop(t, InitScan(start))) == [LinkPiece(start, k, m)]
  {
    var s0 := InitScan(start);
    var s1 := s0.(open := TokLinkText, next := s0.next + 1, textStart := s0.next + 1,
      tokenStart := if s0.open == TokText then s0.next else s0.tokenStart, out := Flushed(s0, s0.next));
    var s2 := s1.(open := TokLinkUrl, next := s1.next + k + 2, textEnd := s1.next + k, urlStart := s1.next + k + 2);
    var r := LinkClosed(Advance(s2, m));
    assert s2.out == [];
    assert ScanInv(t, r) && r.open == TokNone;
    assert LinePieces(t, r) == [LinkPiece(start, k, m)];
    LinkUrlToEnd(t, s2, m);
    LinkTextRun(t, s1, k, s2);
    OpenLink(t, s0, s1);
  }

  /** `[x](u)`: one Link element with the text and the URL. */
  lemma {:induction false} LinkLine(t: string, start: nat, x: string, u: string)
    requires OccursAt(t, "[" + x + "](" + u + ")", start)
    requires forall i :: 0 <= i < |x| ==> Inert(TokLinkText, x[i])
    requires forall i :: 0 <= i < |u| ==> Inert(TokLinkUrl, u[i])
    requires x == [] || x[0] != '*'
    requires var e := start + |x| + |u| + 4; e == |t| || t[e] == '\n'
    ensures Inlines(t, start).0 == [NewElement(Link, Some(x), Some(u))]
  {
    LinkReady(t, start, x, u);
    LinkScan(t, start, |x|, |u|);
    LineIs(t, start, [LinkPiece(start, |x|, |u|)], [NewElement(Link, Some(x), Some(u))]);
  }

  /** The facts about the text that LinkScan and LineIs need for `[x](u)`. */
  lemma {:induction false} LinkReady(t: string, start: nat, x: string, u: string)
    requires OccursAt(t, "[" + x + "](" + u + ")", start)
    requires forall i :: 0 <= i < |x| ==> Inert(TokLinkText, x[i])
    requires forall i :: 0 <= i < |u| ==> Inert(TokLinkUrl, u[i])
    requires x == [] || x[0] != '*'
    requires var e := start + |x| + |u| + 4; e == |t| || t[e] == '\n'
    ensures LinkAt(t, start, |x|, |u|)
    ensures ElementsOf(t, [LinkPiece(start, |x|, |u|)]) == [NewElement(Link, Some(x), Some(u))]
  {
    LinkParts(t, start, x, u);
    LinkAtOf(t, start, x, u);
    PieceElement(t, LinkPiece(start, |x|, |u|), x, Some(u));
    ElementsOfOne(t, LinkPiece(start, |x|, |u|));
  }

  lemma {:induction false} LinkAtOf(t: string, start: nat, x: string, u: string)
    requires OccursAt(t, "[", start) && !OccursAt(t, "**", start + 1)
    requires OccursAt(t, x, start + 1) && OccursAt(t, "](", start + 1 + |x|)
    requires OccursAt(t, u, start + |x| + 3) && OccursAt(t, ")", start + |x| + 3 + |u|)
    requires forall i :: 0 <= i < |x| ==> Inert(TokLinkText, x[i])
    requires forall i :: 0 <= i < |u| ==> Inert(TokLinkUrl, u[i])
    requires var e := start + |x| + |u| + 4; e == |t| || t[e] == '\n'
    ensures LinkAt(t, start, |x|, |u|)
  {
    InertSlice(t, TokLinkText, x, start + 1);
    InertSlice(t, TokLinkUrl, u, start + |x| + 3);
  }

  /** Where the parts of `[x](u)` sit, and that `[` is not followed by `**`. */
  lemma {:induction false} LinkParts(t: string, start: nat, x: string, u: string)
    requires OccursAt(t, "[" + x + "](" + u + ")", start)
    requires x == [] || x[0] != '*'
    ensures OccursAt(t, "[", start) && !OccursAt(t, "**", start + 1)
    ensures OccursAt(t, x, start + 1) && OccursAt(t, "](", start + 1 + |x|)
    ensures OccursAt(t, u, start + |x| + 3) && OccursAt(t, ")", start + |x| + 3 + |u|)
  {
    OccursAtSplit(t, "[" + x + "](" + u, ")", start);
    OccursAtSplit(t, "[" + x + "](", u, start);
    OccursAtSplit(t, "[" + x, "](", start);
    OccursAtSplit(t, "[", x, start);
    if x == [] {
      assert t[start + 1..start + 3][0] == t[start + 1];
      NotOccursAtChar(t, "**", start + 1);
    } else {
      OccursAtChars(t, x, start + 1);
      NotOccursAtChar(t, "**", start + 1);
    }
  }

  // ---------------------------------------------------------------------------
  // Tokens left open at the end of the line.

  /** `k` characters of text before `[`: the link token opens with the text flushed. */
  lemma {:induction false} TextThenLink(t: string, s: Scan, k: nat, r: Scan)
    requires ScanInv(t, s) && !s.escape && s.open == TokNone
    requires s.next + k <= |t| && InertRun(t, TokNone, s.next, s.next + k)
    requires OccursAt(t, "[", s.next + k) && !OccursAt(t, "**", s.next + k + 1)
    requires var p := s.next + k;
      r == s.(open := TokLinkText, next := p + 1, textStart := p + 1,
        tokenStart := if k == 0 then s.tokenStart else p,
        out := if k == 0 then s.out else s.out + [Piece(Text, Span(s.tokenStart, p), None)])
    ensures ScanInv(t, r) && ScanLoop(t, s) == ScanLoop(t, r)
  {
    var s1 := Advance(s, k);
    assert ScanInv(t, s1);
    OpenLink(t, s1, r);
    RunSkip(t, s, k);
  }

  /** The pieces of `k` characters of text, then a token of `m` characters, opener included, left open. */
  function UnclosedPieces(start: nat, k: nat, m: nat): seq<Piece> {
    var pu := Piece(Text, Span(start + k, start + k + m), None);
    if k == 0 then [pu] else [Piece(Text, Span(start, start + k), None), pu]
  }

  /** The elements of text `a` followed by an unclosed token `rest`: `a`, if any, then `rest` as Text. */
  function UnclosedElementsOf(a: string, rest: string): seq<Element> {
    var eu := NewElement(Text, Some(rest), None);
    if |a| == 0 then [eu] else [NewElement(Text, Some(a), None), eu]
  }

  /** A token still open at the line end: the pieces closed before it, then the token as Text. */
  lemma {:induction false} OpenTokenPieces(t: string, r: Scan, start: nat, k: nat, m: nat)
    requires ScanInv(t, r) && r.open != TokNone && r.next == start + k + m
    requires r.tokenStart == (if k == 0 then start else start + k)
    requires r.out == if k == 0 then [] else [Piece(Text, Span(start, start + k), None)]
    ensures LinePieces(t, r) == UnclosedPieces(start, k, m)
  {
    if k == 0 {
      assert LinePieces(t, r) == [Piece(Text, Span(start, start + m), None)];
    } else {
      assert LinePieces(t, r) == [Piece(Text, Span(start, start + k), None), Piece(Text, Span(start + k, start + k + m), None)];
    }
  }

  lemma {:induction false} UnclosedElements(t: string, start: nat, a: string, rest: string)
    requires OccursAt(t, a, start) && OccursAt(t, rest, start + |a|)
    ensures ElementsOf(t, UnclosedPieces(start, |a|, |rest|)) == UnclosedElementsOf(a, rest)
  {
    var pu := Piece(Text, Span(start + |a|, start + |a| + |rest|), None);
    var eu := NewElement(Text, Some(rest), None);
    PieceElement(t, pu, rest, None);
    if |a| == 0 {
      OneElement(t, pu, eu);
    } else {
      var pa := Piece(Text, Span(start, start + |a|), None);
      PieceElement(t, pa, a, None);
      TwoElements(t, pa, pu, NewElement(Text, Some(a), None), eu);
    }
  }

  lemma {:induction false} UnclosedBoldScan(t: string, start: nat, k: nat, m: nat)
    requires start + k + m + 2 <= |t|
    requires InertRun(t, TokNone, start, start + k) && OccursAt(t, "**", start + k)
    requires InertRun(t, TokBold, start + k + 2, start + k + 2 + m)
    requires var e := start + k + m + 2; e == |t| || t[e] == '\n'
    ensures LinePieces(t, ScanLoop(t, InitScan(start))) == UnclosedPieces(start, k, m + 2)
  {
    var p := start + k;
    var s := Scan(TokBold, p + 2, if k == 0 then start else p, p + 2, start, start, false,
      if k == 0 then [] else [Piece(Text, Span(start, p), None)]);
    var r := Advance(s, m);
    assert ScanInv(t, r);
    OpenTokenPieces(t, r, start, k, m + 2);
    RunToEnd(t, s, m);
    TextThenBold(t, start, k, s);
  }

  /**
   * `a**b` with no closing marker: the text before the opener, if any, then
   * the opener and the rest of the line as one Text element, `**` included.
   */
  lemma {:induction false} UnclosedBold(t: string, start: nat, a: string, b: string)
    requires OccursAt(t, a + "**" + b, start)
    requires forall i :: 0 <= i < |a| ==> Inert(TokNone, a[i])
    requires forall i :: 0 <= i < |b| ==> Inert(TokBold, b[i])
    requires var e := start + |a| + |b| + 2; e == |t| || t[e] == '\n'
    ensures Inlines(t, start).0 == UnclosedElementsOf(a, "**" + b)
  {
    OccursAtSplit(t, a + "**", b, start);
    OccursAtSplit(t, a, "**", start);
    OccursAtConcat(t, "**", b, start + |a|);
    UnclosedBoldAt(t, start, a, b);
  }

  lemma {:induction false} UnclosedBoldAt(t: string, start: nat, a: string, b: string)
    requires OccursAt(t, a, start) && OccursAt(t, "**", start + |a|) && OccursAt(t, b, start + |a| + 2)
    requires OccursAt(t, "**" + b, start + |a|)
    requires forall i :: 0 <= i < |a| ==> Inert(TokNone, a[i])
    requires forall i :: 0 <= i < |b| ==> Inert(TokBold, b[i])
    requires var e := start + |a| + |b| + 2; e == |t| || t[e] == '\n'
    ensures Inlines(t, start).0 == UnclosedElementsOf(a, "**" + b)
  {
    InertSlice(t, TokNone, a, start);
    InertSlice(t, TokBold, b, start + |a| + 2);
    UnclosedBoldScan(t, start, |a|, |b|);
    UnclosedElements(t, start, a, "**" + b);
    LineIs(t, start, UnclosedPieces(start, |a|, |b| + 2), UnclosedElementsOf(a, "**" + b));
  }

  /** `[` at `p` opens a link and not a link around bold: what follows is not `**`. */
  lemma {:induction false} LinkOpener(t: string, p: nat, x: string)
    requires OccursAt(t, "[", p) && OccursAt(t, x, p + 1)
    requires x == [] || x[0] != '*'
    requires x != [] || p + 1 == |t| || t[p + 1] == '\n'
    ensures !OccursAt(t, "**", p + 1)
  {
    if x == [] {
      if p + 1 < |t| {
        NotOccursAtChar(t, "**", p + 1);
      }
    } else {
      OccursAtChars(t, x, p + 1);
      assert t[p + 1 + 0] == x[0];
      NotOccursAtChar(t, "**", p + 1);
    }
  }

  /** The text of a link left open in its text: `k` characters of text, `[`, `m` of link text. */
  predicate LinkTextOpenAt(t: string, start: nat, k: nat, m: nat) {
    && start + k + m + 1 <= |t|
    && InertRun(t, TokNone, start, start + k)
    && OccursAt(t, "[", start + k) && !OccursAt(t, "**", start + k + 1)
    && InertRun(t, TokLinkText, start + k + 1, start + k + 1 + m)
    && var e := start + k + m + 1; e == |t| || t[e] == '\n'
  }

  /** `[` at `p`, then link text `x` and `](`: a link, not a link around bold. */
  lemma {:induction false} LinkOpenerBeforeUrl(t: string, p: nat, x: string)
    requires OccursAt(t, "[", p) && OccursAt(t, x, p + 1) && OccursAt(t, "](", p + 1 + |x|)
    requires x == [] || x[0] != '*'
    ensures !OccursAt(t, "**", p + 1)
  {
    if x == [] {
      assert t[p + 1..p + 3][0] == t[p + 1];
      NotOccursAtChar(t, "**", p + 1);
    } else {
      LinkOpener(t, p, x);
    }
  }

  lemma {:induction false} UnclosedLinkTextScan(t: string, start: nat, k: nat, m: nat, total: nat)
    requires LinkTextOpenAt(t, start, k, m) && total == m + 1
    ensures start <= |t| && LinePieces(t, ScanLoop(t, InitScan(start))) == UnclosedPieces(start, k, total)
  {
    var s := Scan(TokLinkText, start + k + 1, if k == 0 then start else start + k, start + k + 1, start, start, false,
      if k == 0 then [] else [Piece(Text, Span(start, start + k), None)]);
    var r := Advance(s, m);
    assert ScanInv(t, r);
    OpenTokenPieces(t, r, start, k, total);
    RunToEnd(t, s, m);
    TextThenLinkFrom(t, start, k, s);
  }

  /** A line of text `a`, then a link left open in its text, whose text `rest` takes the rest of the line. */
  lemma {:induction false} UnclosedLinkTextLine(t: string, start: nat, a: string, rest: string, m: nat)
    requires LinkTextOpenAt(t, start, |a|, m) && |rest| == m + 1
    requires OccursAt(t, a, start) && OccursAt(t, rest, start + |a|)
    ensures start <= |t| && Inlines(t, start).0 == UnclosedElementsOf(a, rest)
  {
    UnclosedElements(t, start, a, rest);
    UnclosedLinkTextScan(t, start, |a|, m, |rest|);
    LineIs(t, start, UnclosedPieces(start, |a|, |rest|), UnclosedElementsOf(a, rest));
  }

  /**
   * `a[x` with no `](`: the text before the link, if any, then the link
   * text from its `[` to the end of the line as one Text element.
   */
  lemma {:induction false} UnclosedLinkText(t: string, start: nat, a: string, x: string)
    requires OccursAt(t, a + "[" + x, start)
    requires forall i :: 0 <= i < |a| ==> Inert(TokNone, a[i])
    requires forall i :: 0 <= i < |x| ==> Inert(TokLinkText, x[i])
    requires x == [] || x[0] != '*'
    requires var e := start + |a| + |x| + 1; e == |t| || t[e] == '\n'
    ensures Inlines(t, start).0 == UnclosedElementsOf(a, "[" + x)
  {
    OccursAtSplit(t, a + "[", x, start);
    OccursAtSplit(t, a, "[", start);
    OccursAtConcat(t, "[", x, start + |a|);
    UnclosedLinkTextAt(t, start, a, x);
  }

  lemma {:induction false} UnclosedLinkTextAt(t: string, start: nat, a: string, x: string)
    requires OccursAt(t, a, start) && OccursAt(t, "[", start + |a|) && OccursAt(t, x, start + |a| + 1)
    requires OccursAt(t, "[" + x, start + |a|)
    requires forall i :: 0 <= i < |a| ==> Inert(TokNone, a[i])
    requires forall i :: 0 <= i < |x| ==> Inert(TokLinkText, x[i])
    requires x == [] || x[0] != '*'
    requires var e := start + |a| + |x| + 1; e == |t| || t[e] == '\n'
    ensures Inlines(t, start).0 == UnclosedElementsOf(a, "[" + x)
  {
    assert LinkTextOpenAt(t, start, |a|, |x|) by {
      LinkOpener(t, start + |a|, x);
      InertSlice(t, TokNone, a, start);
      InertSlice(t, TokLinkText, x, start + |a| + 1);
    }
    UnclosedLinkTextLine(t, start, a, "[" + x, |x|);
  }

  /** The text of a link left open in its URL: `k` characters of text, `[`, `m` of link text, `](`, `n` of URL. */
  predicate LinkUrlOpenAt(t: string, start: nat, k: nat, m: nat, n: nat) {
    && start + k + m + n + 3 <= |t|
    && InertRun(t, TokNone, start, start + k)
    && OccursAt(t, "[", start + k) && !OccursAt(t, "**", start + k + 1)
    && InertRun(t, TokLinkText, start + k + 1, start + k + 1 + m) && OccursAt(t, "](", start + k + 1 + m)
    && InertRun(t, TokLinkUrl, start + k + m + 3, start + k + m + 3 + n)
    && var e := start + k + m + n + 3; e == |t| || t[e] == '\n'
  }

  /** The scan state once the URL of a link is open after `k` characters of text and `m` of link text. */
  function UrlOpenScan(start: nat, k: nat, m: nat): Scan {
    Scan(TokLinkUrl, start + k + m + 3, if k == 0 then start else start + k, start + k + 1,
      start + k + 1 + m, start + k + m + 3, false, if k == 0 then [] else [Piece(Text, Span(start, start + k), None)])
  }

  /** `k` characters of text, `[`, `m` of link text and `](`: the URL token is open. */
  lemma {:induction false} LinkUrlOpens(t: string, start: nat, k: nat, m: nat, n: nat)
    requires LinkUrlOpenAt(t, start, k, m, n)
    ensures ScanInv(t, UrlOpenScan(start, k, m)) && ScanLoop(t, InitScan(start)) == ScanLoop(t, UrlOpenScan(start, k, m))
  {
    var s := Scan(TokLinkText, start + k + 1, if k == 0 then start else start + k, start + k + 1, start, start, false,
      if k == 0 then [] else [Piece(Text, Span(start, start + k), None)]);
    var s2 := s.(open := TokLinkUrl, next := s.next + m + 2, textEnd := s.next + m, urlStart := s.next + m + 2);
    assert s2 == UrlOpenScan(start, k, m);
    assert ScanInv(t, s);
    LinkTextRun(t, s, m, s2);
    TextThenLinkFrom(t, start, k, s);
  }

  lemma {:induction false} UnclosedLinkUrlScan(t: string, start: nat, k: nat, m: nat, n: nat, total: nat)
    requires LinkUrlOpenAt(t, start, k, m, n) && total == m + n + 3
    ensures start <= |t| && LinePieces(t, ScanLoop(t, InitScan(start))) == UnclosedPieces(start, k, total)
  {
    LinkUrlOpens(t, start, k, m, n);
    LinkUrlRunToEnd(t, start, k, m, n, total);
  }

  /** From the open URL, its `n` characters run to the end of the line. */
  lemma {:induction false} LinkUrlRunToEnd(t: string, start: nat, k: nat, m: nat, n: nat, total: nat)
    requires LinkUrlOpenAt(t, start, k, m, n) && total == m + n + 3
    requires ScanInv(t, UrlOpenScan(start, k, m))
    ensures LinePieces(t, ScanLoop(t, UrlOpenScan(start, k, m))) == UnclosedPieces(start, k, total)
  {
    OpenTokenToEnd(t, start, k, m + 3, n, total, UrlOpenScan(start, k, m), start + k + m + 3, start + k + m + 3 + n, start + k + m + n + 3);
  }

  /**
   * From a scan with a token open at `at` after `k` characters of text, `n`
   * inert characters up to `e`, where the line ends (`f` is `e` again, as
   * the caller writes it).
   */
  lemma {:induction false} OpenTokenToEnd(t: string, start: nat, k: nat, m: nat, n: nat, total: nat, s: Scan,
    at: nat, e: nat, f: nat)
    requires ScanInv(t, s) && s.open != TokNone && at == start + k + m
    requires s == Scan(s.open, at, if k == 0 then start else start + k, s.textStart, s.textEnd, s.urlStart, false,
      if k == 0 then [] else [Piece(Text, Span(start, start + k), None)])
    requires e == at + n && e <= |t| && InertRun(t, s.open, at, e)
    requires f == e && (f == |t| || t[f] == '\n')
    requires total == m + n
    ensures LinePieces(t, ScanLoop(t, s)) == UnclosedPieces(start, k, total)
  {
    RunToEnd(t, s, n);
    assert ScanInv(t, Advance(s, n));
    OpenTokenPieces(t, Advance(s, n), start, k, total);
  }

  /** A line of text `a`, then a link left open in its URL, whose text `rest` takes the rest of the line. */
  lemma {:induction false} UnclosedLinkUrlLine(t: string, start: nat, a: string, rest: string, m: nat, n: nat)
    requires LinkUrlOpenAt(t, start, |a|, m, n) && |rest| == m + n + 3
    requires OccursAt(t, a, start) && OccursAt(t, rest, start + |a|)
    ensures start <= |t| && Inlines(t, start).0 == UnclosedElementsOf(a, rest)
  {
    UnclosedElements(t, start, a, rest);
    UnclosedLinkUrlScan(t, start, |a|, m, n, |rest|);
    LineIs(t, start, UnclosedPieces(start, |a|, |rest|), UnclosedElementsOf(a, rest));
  }

  /**
   * `a[x](u` with no closing `)`: the text before the link, if any, then
   * everything from the `[` to the end of the line, `](` included, as one
   * Text element; the link text and the URL are not kept apart.
   */
  lemma {:induction false} UnclosedLinkUrl(t: string, start: nat, a: string, x: string, u: string)
    requires OccursAt(t, a + "[" + x + "](" + u, start)
    requires forall i :: 0 <= i < |a| ==> Inert(TokNone, a[i])
    requires forall i :: 0 <= i < |x| ==> Inert(TokLinkText, x[i])
    requires forall i :: 0 <= i < |u| ==> Inert(TokLinkUrl, u[i])
    requires x == [] || x[0] != '*'
    requires var e := start + |a| + |x| + |u| + 3; e == |t| || t[e] == '\n'
    ensures Inlines(t, start).0 == UnclosedElementsOf(a, "[" + x + "](" + u)
  {
    var p := start + |a|;
    OccursAtSplit(t, a + "[" + x + "](", u, start);
    OccursAtSplit(t, a + "[" + x, "](", start);
    OccursAtSplit(t, a + "[", x, start);
    OccursAtSplit(t, a, "[", start);
    OccursAtConcat(t, "[", x, p);
    OccursAtConcat(t, "[" + x, "](", p);
    OccursAtConcat(t, "[" + x + "](", u, p);
    UnclosedLinkUrlAt(t, start, a, x, u);
  }

  lemma {:induction false} UnclosedLinkUrlAt(t: string, start: nat, a: string, x: string, u: string)
    requires var p := start + |a|;
      OccursAt(t, a, start) && OccursAt(t, "[", p) && OccursAt(t, x, p + 1)
      && OccursAt(t, "](", p + 1 + |x|) && OccursAt(t, u, p + |x| + 3)
    requires OccursAt(t, "[" + x + "](" + u, start + |a|)
    requires forall i :: 0 <= i < |a| ==> Inert(TokNone, a[i])
    requires forall i :: 0 <= i < |x| ==> Inert(TokLinkText, x[i])
    requires forall i :: 0 <= i < |u| ==> Inert(TokLinkUrl, u[i])
    requires x == [] || x[0] != '*'
    requires var e := start + |a| + |x| + |u| + 3; e == |t| || t[e] == '\n'
    ensures Inlines(t, start).0 == UnclosedElementsOf(a, "[" + x + "](" + u)
  {
    LinkUrlOpenOf(t, start, a, x, u);
    UnclosedLinkUrlLine(t, start, a, "[" + x + "](" + u, |x|, |u|);
  }

  /** The parts of `a[x](u` as the scan meets them. */
  lemma {:induction false} LinkUrlOpenOf(t: string, start: nat, a: string, x: string, u: string)
    requires var p := start + |a|;
      OccursAt(t, a, start) && OccursAt(t, "[", p) && OccursAt(t, x, p + 1)
      && OccursAt(t, "](", p + 1 + |x|) && OccursAt(t, u, p + |x| + 3)
    requires forall i :: 0 <= i < |a| ==> Inert(TokNone, a[i])
    requires forall i :: 0 <= i < |x| ==> Inert(TokLinkText, x[i])
    requires forall i :: 0 <= i < |u| ==> Inert(TokLinkUrl, u[i])
    requires x == [] || x[0] != '*'
    requires var e := start + |a| + |x| + |u| + 3; e == |t| || t[e] == '\n'
    ensures LinkUrlOpenAt(t, start, |a|, |x|, |u|)
  {
    var p := start + |a|;
    LinkOpenerBeforeUrl(t, p, x);
    InertSlice(t, TokNone, a, start);
    InertSlice(t, TokLinkText, x, p + 1);
    InertSlice(t, TokLinkUrl, u, p + |x| + 3);
  }

  // ---------------------------------------------------------------------------
  // A line mixing text, a bold span and a link.

  /** `k` characters of bold text, then the closing `**`: the Bold piece is added. */
  lemma {:induction false} BoldRunClosed(t: string, s: Scan, k: nat, to: nat) returns (r: Scan)
    requires ScanInv(t, s) && !s.escape && s.open == TokBold && to == s.next + k
    requires to <= |t| && InertRun(t, TokBold, s.next, to) && OccursAt(t, "**", to)
    ensures ScanInv(t, r) && ScanLoop(t, s) == ScanLoop(t, r)
    ensures r.open == TokNone && !r.escape && r.next == to + 2 && r.tokenStart == r.next
    ensures r.out == s.out + [Piece(Bold, Span(s.textStart, to), None)]
  {
    RunSkip(t, s, k);
    CloseBold(t, Advance(s, k));
    r := BoldClosed(Advance(s, k));
  }

  /** `k` characters of URL, then the closing `)`: the Link piece is added. */
  lemma {:induction false} LinkRunClosed(t: string, s: Scan, k: nat)
    requires ScanInv(t, s) && !s.escape && s.open == TokLinkUrl
    requires s.next + k <= |t| && InertRun(t, TokLinkUrl, s.next, s.next + k) && OccursAt(t, ")", s.next + k)
    ensures ScanInv(t, LinkClosed(Advance(s, k)))
    ensures ScanLoop(t, s) == ScanLoop(t, LinkClosed(Advance(s, k)))
  {
    RunSkip(t, s, k);
    CloseLink(t, Advance(s, k));
  }

  /** From `start`, `k` characters of text, then a bold span of `m` characters between `**` markers. */
  predicate TextBoldAt(t: string, start: nat, k: nat, m: nat) {
    && start + k + m + 4 <= |t|
    && InertRun(t, TokNone, start, start + k) && OccursAt(t, "**", start + k)
    && InertRun(t, TokBold, start + k + 2, start + k + 2 + m) && OccursAt(t, "**", start + k + 2 + m)
  }

  /** From the line start, `k` characters of text and a bold span of `m`: both pieces are out and no token is open. */
  lemma {:induction false} TextBoldClosed(t: string, start: nat, k: nat, m: nat) returns (s: Scan)
    requires 0 < k && TextBoldAt(t, start, k, m)
    ensures ScanInv(t, s) && ScanLoop(t, InitScan(start)) == ScanLoop(t, s)
    ensures s.open == TokNone && !s.escape && s.next == start + k + m + 4 && s.tokenStart == s.next
    ensures s.out == BoldPieces(start, k, m)
  {
    var sb := Scan(TokBold, start + k + 2, start + k, start + k + 2, start, start, false, [Piece(Text, Span(start, start + k), None)]);
    assert ScanInv(t, sb);
    s := BoldRunClosed(t, sb, m, start + k + 2 + m);
    assert s.out == [Piece(Text, Span(start, start + k), None)] + [Piece(Bold, Span(start + k + 2, start + k + 2 + m), None)];
    TextThenBold(t, start, k, sb);
  }

  /** `k` characters of text, then a link of `m` text and `n` URL characters, from `at`. */
  predicate TextLinkAt(t: string, at: nat, k: nat, m: nat, n: nat) {
    && at + k + m + n + 4 <= |t|
    && InertRun(t, TokNone, at, at + k)
    && OccursAt(t, "[", at + k) && !OccursAt(t, "**", at + k + 1)
    && InertRun(t, TokLinkText, at + k + 1, at + k + 1 + m) && OccursAt(t, "](", at + k + 1 + m)
    && InertRun(t, TokLinkUrl, at + k + m + 3, at + k + m + 3 + n) && OccursAt(t, ")", at + k + m + 3 + n)
  }

  /** With no token open, `k` characters of text, `[`, `m` characters of link text and `](`: the URL token is open. */
  lemma {:induction false} TextLinkOpened(t: string, s: Scan, k: nat, m: nat, r: Scan)
    requires ScanInv(t, s) && !s.escape && s.open == TokNone && s.tokenStart == s.next && 0 < k
    requires s.next + k + m + 3 <= |t| && InertRun(t, TokNone, s.next, s.next + k)
    requires OccursAt(t, "[", s.next + k) && !OccursAt(t, "**", s.next + k + 1)
    requires InertRun(t, TokLinkText, s.next + k + 1, s.next + k + 1 + m) && OccursAt(t, "](", s.next + k + 1 + m)
    requires var p := s.next + k;
      r == s.(open := TokLinkUrl, next := p + m + 3, tokenStart := p, textStart := p + 1, textEnd := p + 1 + m,
        urlStart := p + m + 3, out := s.out + [Piece(Text, Span(s.next, p), None)])
    ensures ScanInv(t, r) && ScanLoop(t, s) == ScanLoop(t, r)
  {
    var p := s.next + k;
    var sl := s.(open := TokLinkText, next := p + 1, textStart := p + 1, tokenStart := p,
      out := s.out + [Piece(Text, Span(s.tokenStart, p), None)]);
    assert ScanInv(t, sl);
    LinkTextRun(t, sl, m, r);
    TextThenLink(t, s, k, sl);
  }

  /** With no token open, `k` characters of text and a link: both pieces are out and no token is open. */
  lemma {:induction false} TextLinkClosed(t: string, s: Scan, k: nat, m: nat, n: nat, r: Scan)
    requires ScanInv(t, s) && !s.escape && s.open == TokNone && s.tokenStart == s.next && 0 < k
    requires TextLinkAt(t, s.next, k, m, n)
    requires var p := s.next + k;
      r == s.(open := TokNone, next := p + m + n + 4, tokenStart := p + m + n + 4, textStart := p + 1,
        textEnd := p + 1 + m, urlStart := p + m + 3, out := s.out + [Piece(Text, Span(s.next, p), None), LinkPiece(p, m, n)])
    ensures ScanInv(t, r) && ScanLoop(t, s) == ScanLoop(t, r)
  {
    var p := s.next + k;
    var su := s.(open := TokLinkUrl, next := p + m + 3, tokenStart := p, textStart := p + 1, textEnd := p + 1 + m,
      urlStart := p + m + 3, out := s.out + [Piece(Text, Span(s.next, p), None)]);
    assert ScanInv(t, su);
    assert su.out + [LinkPiece(p, m, n)] == s.out + [Piece(Text, Span(s.next, p), None), LinkPiece(p, m, n)];
    assert r == LinkClosed(Advance(su, n));
    LinkRunClosed(t, su, n);
    TextLinkOpened(t, s, k, m, su);
  }

  /** From `at`, `k` characters of text up to the line end. */
  predicate TextEndAt(t: string, at: nat, k: nat) {
    at + k <= |t| && InertRun(t, TokNone, at, at + k) && (at + k == |t| || t[at + k] == '\n')
  }

  /** With no token open at `at`, `k` characters of text up to the line end: one Text piece is added. */
  lemma {:induction false} TextToEnd(t: string, s: Scan, at: nat, k: nat)
    requires ScanInv(t, s) && !s.escape && s.open == TokNone && s.next == at && s.tokenStart == at && 0 < k
    requires TextEndAt(t, at, k)
    ensures LinePieces(t, ScanLoop(t, s)) == s.out + [Piece(Text, Span(at, at + k), None)]
  {
    RunToEnd(t, s, k);
    assert ScanInv(t, Advance(s, k));
  }

  /** With no token open at `at`: text, a link, then text from `w` up to the line end. */
  lemma {:induction false} LinkThenText(t: string, s0: Scan, s: Scan, at: nat, c: nat, x: nat, u: nat, w: nat, d: nat)
    requires ScanInv(t, s0) && ScanInv(t, s) && ScanLoop(t, s0) == ScanLoop(t, s)
    requires !s.escape && s.open == TokNone && s.next == at && s.tokenStart == at && 0 < c && 0 < d
    requires TextLinkAt(t, at, c, x, u) && w == at + c + x + u + 4 && TextEndAt(t, w, d)
    ensures LinePieces(t, ScanLoop(t, s0))
      == s.out + [Piece(Text, Span(at, at + c), None), LinkPiece(at + c, x, u)] + [Piece(Text, Span(w, w + d), None)]
  {
    var r := TextLinkScan(t, s, at, c, x, u, w);
    TextToEnd(t, r, w, d);
  }

  /** The scan once text and a link are read from `at` to `w`: no token is open and both pieces are out. */
  lemma {:induction false} TextLinkScan(t: string, s: Scan, at: nat, k: nat, m: nat, n: nat, w: nat) returns (r: Scan)
    requires ScanInv(t, s) && !s.escape && s.open == TokNone && s.next == at && s.tokenStart == at && 0 < k
    requires TextLinkAt(t, at, k, m, n) && w == at + k + m + n + 4
    ensures ScanInv(t, r) && ScanLoop(t, s) == ScanLoop(t, r)
    ensures !r.escape && r.open == TokNone && r.next == w && r.tokenStart == w
    ensures r.out == s.out + [Piece(Text, Span(at, at + k), None), LinkPiece(at + k, m, n)]
  {
    var p := s.next + k;
    r := s.(open := TokNone, next := p + m + n + 4, tokenStart := p + m + n + 4, textStart := p + 1,
      textEnd := p + 1 + m, urlStart := p + m + 3, out := s.out + [Piece(Text, Span(s.next, p), None), LinkPiece(p, m, n)]);
    assert !r.escape && r.open == TokNone && r.next == w && r.tokenStart == w;
    assert r.out == s.out + [Piece(Text, Span(at, at + k), None), LinkPiece(at + k, m, n)];
    TextLinkClosed(t, s, k, m, n, r);
  }

  /** The pieces of `a**b**c[x](u)d`, with the link text at `q` and the text after the link at `w`: Text, Bold, Text, Link, Text. */
  function MixedPieces(start: nat, k: nat, m: nat, q: nat, c: nat, x: nat, u: nat, w: nat, d: nat): seq<Piece> {
    [Piece(Text, Span(start, start + k), None), Piece(Bold, Span(start + k + 2, start + k + 2 + m), None),
     Piece(Text, Span(q, q + c), None), LinkPiece(q + c, x, u), Piece(Text, Span(w, w + d), None)]
  }

  /** The pieces in the order the scan adds them. */
  lemma {:induction false} MixedPiecesOf(start: nat, k: nat, m: nat, q: nat, c: nat, x: nat, u: nat, w: nat, d: nat)
    requires 0 < k
    ensures BoldPieces(start, k, m) + [Piece(Text, Span(q, q + c), None), LinkPiece(q + c, x, u)] + [Piece(Text, Span(w, w + d), None)]
      == MixedPieces(start, k, m, q, c, x, u, w, d)
  {
  }

  /** The scan of `a**b**c[x](u)d` given by the lengths of its parts. */
  lemma {:induction false} MixedScan(t: string, start: nat, k: nat, m: nat, q: nat, c: nat, x: nat, u: nat, w: nat, d: nat)
    requires 0 < k && 0 < c && 0 < d && q == start + k + m + 4 && w == q + c + x + u + 4
    requires TextBoldAt(t, start, k, m) && TextLinkAt(t, q, c, x, u) && TextEndAt(t, w, d)
    ensures start <= |t| && LinePieces(t, ScanLoop(t, InitScan(start))) == MixedPieces(start, k, m, q, c, x, u, w, d)
  {
    var s := TextBoldClosed(t, start, k, m);
    LinkThenText(t, InitScan(start), s, q, c, x, u, w, d);
    MixedPiecesOf(start, k, m, q, c, x, u, w, d);
  }

  /** The elements of `a**b**c[x](u)d`. */
  function MixedElementsOf(a: string, b: string, c: string, x: string, u: string, d: string): seq<Element> {
    [NewElement(Text, Some(a), None), NewElement(Bold, Some(b), None), NewElement(Text, Some(c), None),
     NewElement(Link, Some(x), Some(u)), NewElement(Text, Some(d), None)]
  }

  /** The elements of two runs of pieces, one after the other. */
  lemma {:induction false} ElementsOfConcat(t: string, ps: seq<Piece>, qs: seq<Piece>)
    ensures ElementsOf(t, ps + qs) == ElementsOf(t, ps) + ElementsOf(t, qs)
  {
  }

  /** Where the parts of `a**b**c[x](u)d` sit, `c` at `q` and `d` at `w`. */
  lemma {:induction false} MixedParts(t: string, start: nat, a: string, b: string, q: nat, c: string, x: string, u: string, w: nat, d: string)
    requires OccursAt(t, a + "**" + b + "**" + c + "[" + x + "](" + u + ")" + d, start)
    requires q == start + |a| + |b| + 4 && w == q + |c| + |x| + |u| + 4
    ensures OccursAt(t, a, start) && OccursAt(t, "**", start + |a|)
    ensures OccursAt(t, b, start + |a| + 2) && OccursAt(t, "**", start + |a| + 2 + |b|)
    ensures OccursAt(t, c, q) && OccursAt(t, "[", q + |c|) && OccursAt(t, x, q + |c| + 1)
    ensures OccursAt(t, "](", q + |c| + 1 + |x|) && OccursAt(t, u, q + |c| + |x| + 3)
    ensures OccursAt(t, ")", q + |c| + |x| + 3 + |u|) && OccursAt(t, d, w)
  {
    OccursAtSplit(t, a + "**" + b + "**" + c + "[" + x + "](" + u + ")", d, start);
    OccursAtSplit(t, a + "**" + b + "**" + c + "[" + x + "](" + u, ")", start);
    OccursAtSplit(t, a + "**" + b + "**" + c + "[" + x + "](", u, start);
    OccursAtSplit(t, a + "**" + b + "**" + c + "[" + x, "](", start);
    OccursAtSplit(t, a + "**" + b + "**" + c + "[", x, start);
    OccursAtSplit(t, a + "**" + b + "**" + c, "[", start);
    OccursAtSplit(t, a + "**" + b + "**", c, start);
    BoldParts(t, start, a, b);
  }

  lemma {:induction false} TextBoldOf(t: string, start: nat, a: string, b: string)
    requires OccursAt(t, a, start) && OccursAt(t, "**", start + |a|)
    requires OccursAt(t, b, start + |a| + 2) && OccursAt(t, "**", start + |a| + 2 + |b|)
    requires forall i :: 0 <= i < |a| ==> Inert(TokNone, a[i])
    requires forall i :: 0 <= i < |b| ==> Inert(TokBold, b[i])
    ensures TextBoldAt(t, start, |a|, |b|)
  {
    InertSlice(t, TokNone, a, start);
    InertSlice(t, TokBold, b, start + |a| + 2);
  }

  lemma {:induction false} TextLinkOf(t: string, q: nat, c: string, x: string, u: string)
    requires OccursAt(t, c, q) && OccursAt(t, "[", q + |c|) && OccursAt(t, x, q + |c| + 1)
    requires OccursAt(t, "](", q + |c| + 1 + |x|) && OccursAt(t, u, q + |c| + |x| + 3)
    requires OccursAt(t, ")", q + |c| + |x| + 3 + |u|)
    requires forall i :: 0 <= i < |c| ==> Inert(TokNone, c[i])
    requires forall i :: 0 <= i < |x| ==> Inert(TokLinkText, x[i])
    requires forall i :: 0 <= i < |u| ==> Inert(TokLinkUrl, u[i])
    requires x == [] || x[0] != '*'
    ensures TextLinkAt(t, q, |c|, |x|, |u|)
  {
    LinkOpenerBeforeUrl(t, q + |c|, x);
    InertSlice(t, TokNone, c, q);
    InertSlice(t, TokLinkText, x, q + |c| + 1);
    InertSlice(t, TokLinkUrl, u, q + |c| + |x| + 3);
  }

  lemma {:induction false} TextEndOf(t: string, w: nat, d: string, e: nat)
    requires OccursAt(t, d, w)
    requires forall i :: 0 <= i < |d| ==> Inert(TokNone, d[i])
    requires e == w + |d| && (e == |t| || t[e] == '\n')
    ensures TextEndAt(t, w, |d|)
  {
    InertSlice(t, TokNone, d, w);
  }

  /** The element of a piece of `kind` whose span covers `x` from `from` to `to`. */
  lemma {:induction false} SpanElements(t: string, kind: ElementType, from: nat, to: nat, x: string)
    requires OccursAt(t, x, from) && to == from + |x|
    ensures ElementsOf(t, [Piece(kind, Span(from, to), None)]) == [NewElement(kind, Some(x), None)]
  {
    PieceElement(t, Piece(kind, Span(from, to), None), x, None);
    ElementsOfOne(t, Piece(kind, Span(from, to), None));
  }

  /** The element of the link whose `[` is at `at`, with text `x` at `xs` and URL `u` at `us`. */
  lemma {:induction false} LinkElements(t: string, at: nat, x: string, xs: nat, u: string, us: nat)
    requires OccursAt(t, x, xs) && OccursAt(t, u, us) && xs == at + 1 && us == at + |x| + 3
    ensures ElementsOf(t, [LinkPiece(at, |x|, |u|)]) == [NewElement(Link, Some(x), Some(u))]
  {
    PieceElement(t, LinkPiece(at, |x|, |u|), x, Some(u));
    ElementsOfOne(t, LinkPiece(at, |x|, |u|));
  }

  /** The elements of `a**b**`: a Text element, then a Bold one; `a` ends at `ae` and `b` runs from `bs` to `be`. */
  lemma {:induction false} TextBoldElements(t: string, start: nat, a: string, b: string, ae: nat, bs: nat, be: nat)
    requires OccursAt(t, a, start) && OccursAt(t, b, bs)
    requires ae == start + |a| && bs == ae + 2 && be == bs + |b|
    ensures ElementsOf(t, [Piece(Text, Span(start, ae), None), Piece(Bold, Span(bs, be), None)])
      == [NewElement(Text, Some(a), None), NewElement(Bold, Some(b), None)]
  {
    PieceElement(t, Piece(Text, Span(start, ae), None), a, None);
    PieceElement(t, Piece(Bold, Span(bs, be), None), b, None);
    TwoElements(t, Piece(Text, Span(start, ae), None), Piece(Bold, Span(bs, be), None),
      NewElement(Text, Some(a), None), NewElement(Bold, Some(b), None));
  }

  /** The elements of `c[x](u)`: a Text element, then a Link one; the `[` is at `at`, the text at `xs`, the URL at `us`. */
  lemma {:induction false} TextLinkElements(t: string, q: nat, c: string, x: string, u: string, at: nat, xs: nat, us: nat)
    requires OccursAt(t, c, q) && OccursAt(t, x, xs) && OccursAt(t, u, us)
    requires at == q + |c| && xs == at + 1 && us == at + |x| + 3
    ensures ElementsOf(t, [Piece(Text, Span(q, at), None), LinkPiece(at, |x|, |u|)])
      == [NewElement(Text, Some(c), None), NewElement(Link, Some(x), Some(u))]
  {
    PieceElement(t, Piece(Text, Span(q, at), None), c, None);
    PieceElement(t, LinkPiece(at, |x|, |u|), x, Some(u));
    TwoElements(t, Piece(Text, Span(q, at), None), LinkPiece(at, |x|, |u|),
      NewElement(Text, Some(c), None), NewElement(Link, Some(x), Some(u)));
  }

  /**
   * The elements of the pieces of `a**b**c[x](u)d`: `a` ends at `ae`, `b`
   * runs from `bs` to `be`, the link's `[` is at `at`, its text at `xs`, its
   * URL at `us`, and `d` ends at `de`.
   */
  lemma {:induction false} MixedElements(t: string, start: nat, a: string, b: string, q: nat, c: string, x: string, u: string, w: nat, d: string,
    ae: nat, bs: nat, be: nat, at: nat, xs: nat, us: nat, de: nat)
    requires ae == start + |a| && bs == ae + 2 && be == bs + |b|
    requires at == q + |c| && xs == at + 1 && us == at + |x| + 3 && de == w + |d|
    requires OccursAt(t, a, start) && OccursAt(t, b, bs) && OccursAt(t, c, q)
    requires OccursAt(t, x, xs) && OccursAt(t, u, us) && OccursAt(t, d, w)
    ensures ElementsOf(t, MixedPieces(start, |a|, |b|, q, |c|, |x|, |u|, w, |d|)) == MixedElementsOf(a, b, c, x, u, d)
  {
    var hs := [Piece(Text, Span(start, ae), None), Piece(Bold, Span(bs, be), None)];
    var ms := [Piece(Text, Span(q, at), None), LinkPiece(at, |x|, |u|)];
    var ds := [Piece(Text, Span(w, de), None)];
    TextBoldElements(t, start, a, b, ae, bs, be);
    TextLinkElements(t, q, c, x, u, at, xs, us);
    SpanElements(t, Text, w, de, d);
    ElementsOfConcat(t, hs, ms);
    ElementsOfConcat(t, hs + ms, ds);
    MixedPiecesSplit(start, |a|, |b|, q, |c|, |x|, |u|, w, |d|, ae, bs, be, at, de);
    MixedElementsSplit(a, b, c, x, u, d);
  }

  lemma {:induction false} MixedElementsAt(t: string, start: nat, a: string, b: string, q: nat, c: string, x: string, u: string, w: nat, d: string)
    requires OccursAt(t, a, start) && OccursAt(t, b, start + |a| + 2)
    requires OccursAt(t, c, q) && OccursAt(t, x, q + |c| + 1) && OccursAt(t, u, q + |c| + |x| + 3) && OccursAt(t, d, w)
    ensures ElementsOf(t, MixedPieces(start, |a|, |b|, q, |c|, |x|, |u|, w, |d|)) == MixedElementsOf(a, b, c, x, u, d)
  {
    MixedElements(t, start, a, b, q, c, x, u, w, d, start + |a|, start + |a| + 2, start + |a| + 2 + |b|,
      q + |c|, q + |c| + 1, q + |c| + |x| + 3, w + |d|);
  }

  /** The pieces of `a**b**c[x](u)d` in three runs: `a**b**`, `c[x](u)` and `d`. */
  lemma {:induction false} MixedPiecesSplit(start: nat, k: nat, m: nat, q: nat, c: nat, x: nat, u: nat, w: nat, d: nat,
    ae: nat, bs: nat, be: nat, at: nat, de: nat)
    requires ae == start + k && bs == ae + 2 && be == bs + m && at == q + c && de == w + d
    ensures MixedPieces(start, k, m, q, c, x, u, w, d)
      == [Piece(Text, Span(start, ae), None), Piece(Bold, Span(bs, be), None)]
        + [Piece(Text, Span(q, at), None), LinkPiece(at, x, u)] + [Piece(Text, Span(w, de), None)]
  {
  }

  /** The elements of `a**b**c[x](u)d` in the same three runs. */
  lemma {:induction false} MixedElementsSplit(a: string, b: string, c: string, x: string, u: string, d: string)
    ensures MixedElementsOf(a, b, c, x, u, d)
      == [NewElement(Text, Some(a), None), NewElement(Bold, Some(b), None)]
        + [NewElement(Text, Some(c), None), NewElement(Link, Some(x), Some(u))] + [NewElement(Text, Some(d), None)]
  {
  }

  /**
   * `a**b**c[x](u)d`, with text before the bold span, between the two and
   * after the link: five elements, Text, Bold, Text, Link and Text.
   */
  lemma {:induction false} MixedLine(t: string, start: nat, a: string, b: string, c: string, x: string, u: string, d: string)
    requires OccursAt(t, a + "**" + b + "**" + c + "[" + x + "](" + u + ")" + d, start)
    requires forall i :: 0 <= i < |a| ==> Inert(TokNone, a[i])
    requires forall i :: 0 <= i < |b| ==> Inert(TokBold, b[i])
    requires forall i :: 0 <= i < |c| ==> Inert(TokNone, c[i])
    requires forall i :: 0 <= i < |x| ==> Inert(TokLinkText, x[i])
    requires forall i :: 0 <= i < |u| ==> Inert(TokLinkUrl, u[i])
    requires forall i :: 0 <= i < |d| ==> Inert(TokNone, d[i])
    requires x == [] || x[0] != '*'
    requires a != [] && c != [] && d != []
    requires var e := start + |a| + |b| + |c| + |x| + |u| + |d| + 8; e == |t| || t[e] == '\n'
    ensures Inlines(t, start).0 == MixedElementsOf(a, b, c, x, u, d)
  {
    var q := start + |a| + |b| + 4;
    var w := q + |c| + |x| + |u| + 4;
    MixedParts(t, start, a, b, q, c, x, u, w, d);
    MixedLineAt(t, start, a, b, q, c, x, u, w, d, start + |a| + |b| + |c| + |x| + |u| + |d| + 8);
  }

  /** The parts of `a**b**c[x](u)d` one by one: `q` is where `c` starts, `w` where `d` starts, `e` where the line ends. */
  lemma {:induction false} MixedLineAt(t: string, start: nat, a: string, b: string, q: nat, c: string, x: string, u: string,
    w: nat, d: string, e: nat)
    requires q == start + |a| + |b| + 4 && w == q + |c| + |x| + |u| + 4
    requires OccursAt(t, a, start) && OccursAt(t, "**", start + |a|)
    requires OccursAt(t, b, start + |a| + 2) && OccursAt(t, "**", start + |a| + 2 + |b|)
    requires OccursAt(t, c, q) && OccursAt(t, "[", q + |c|) && OccursAt(t, x, q + |c| + 1)
    requires OccursAt(t, "](", q + |c| + 1 + |x|) && OccursAt(t, u, q + |c| + |x| + 3)
    requires OccursAt(t, ")", q + |c| + |x| + 3 + |u|) && OccursAt(t, d, w)
    requires forall i :: 0 <= i < |a| ==> Inert(TokNone, a[i])
    requires forall i :: 0 <= i < |b| ==> Inert(TokBold, b[i])
    requires forall i :: 0 <= i < |c| ==> Inert(TokNone, c[i])
    requires forall i :: 0 <= i < |x| ==> Inert(TokLinkText, x[i])
    requires forall i :: 0 <= i < |u| ==> Inert(TokLinkUrl, u[i])
    requires forall i :: 0 <= i < |d| ==> Inert(TokNone, d[i])
    requires x == [] || x[0] != '*'
    requires a != [] && c != [] && d != []
    requires e == w + |d| && (e == |t| || t[e] == '\n')
    ensures Inlines(t, start).0 == MixedElementsOf(a, b, c, x, u, d)
  {
    TextBoldOf(t, start, a, b);
    TextLinkOf(t, q, c, x, u);
    TextEndOf(t, w, d, e);
    MixedScan(t, start, |a|, |b|, q, |c|, |x|, |u|, w, |d|);
    MixedElementsAt(t, start, a, b, q, c, x, u, w, d);
    LineIs(t, start, MixedPieces(start, |a|, |b|, q, |c|, |x|, |u|, w, |d|), MixedElementsOf(a, b, c, x, u, d));
  }

  /** Every character of `s` is inert in `open` when none of the markers occurs in it. */
  lemma {:induction false} InertChars(open: Token, s: string)
    requires '\\' !in s && '\n' !in s && '*' !in s && Stopper(open) !in s
    ensures forall i :: 0 <= i < |s| ==> Inert(open, s[i])
  {
    forall i | 0 <= i < |s|
      ensures Inert(open, s[i])
    {
      assert s[i] in s;
    }
  }

  /** The elements of the example line, escaping leaving each part as it is. */
  lemma {:induction false} MixedExampleElements(a: string, b: string, c: string, x: string, u: string, d: string)
    requires a == "plain " && b == "bold" && c == " " && x == "text" && u == "url" && d == " end"
    ensures MixedElementsOf(a, b, c, x, u, d) == [
      Element(Text, [], Some(a), None), Element(Bold, [], Some(b), None),
      Element(Text, [], Some(c), None), Element(Link, [], Some(x), Some(u)),
      Element(Text, [], Some(d), None)]
  {
    MixedExamplePlain(a, b, c, x, u, d);
  }

  /** Escaping leaves each part of the example line as it is. */
  lemma {:induction false} MixedExamplePlain(a: string, b: string, c: string, x: string, u: string, d: string)
    requires a == "plain " && b == "bold" && c == " " && x == "text" && u == "url" && d == " end"
    ensures Escape(a) == a && Escape(b) == b && Escape(c) == c
    ensures Escape(x) == x && Escape(u) == u && Escape(d) == d
  {
    MixedExampleTextsPlain(a, b, c);
    MixedExampleLinkPlain(x, u, d);
  }

  lemma {:induction false} MixedExampleTextsPlain(a: string, b: string, c: string)
    requires a == "plain " && b == "bold" && c == " "
    ensures Escape(a) == a && Escape(b) == b && Escape(c) == c
  {
    PlainUnchanged(a);
    PlainUnchanged(b);
    PlainUnchanged(c);
  }

  lemma {:induction false} MixedExampleLinkPlain(x: string, u: string, d: string)
    requires x == "text" && u == "url" && d == " end"
    ensures Escape(x) == x && Escape(u) == u && Escape(d) == d
  {
    PlainUnchanged(x);
    PlainUnchanged(u);
    PlainUnchanged(d);
  }

  /** No part of the example line holds a character that would end or open a token early. */
  lemma {:induction false} MixedExampleInert(a: string, b: string, c: string, x: string, u: string, d: string)
    requires a == "plain " && b == "bold" && c == " " && x == "text" && u == "url" && d == " end"
    ensures forall i :: 0 <= i < |a| ==> Inert(TokNone, a[i])
    ensures forall i :: 0 <= i < |b| ==> Inert(TokBold, b[i])
    ensures forall i :: 0 <= i < |c| ==> Inert(TokNone, c[i])
    ensures forall i :: 0 <= i < |x| ==> Inert(TokLinkText, x[i])
    ensures forall i :: 0 <= i < |u| ==> Inert(TokLinkUrl, u[i])
    ensures forall i :: 0 <= i < |d| ==> Inert(TokNone, d[i])
  {
    InertChars(TokNone, a);
    InertChars(TokBold, b);
    InertChars(TokNone, c);
    InertChars(TokLinkText, x);
    InertChars(TokLinkUrl, u);
    InertChars(TokNone, d);
  }

  /** The example line is its parts with the markers between them. */
  lemma {:induction false} MixedExampleText(t: string, a: string, b: string, c: string, x: string, u: string, d: string)
    requires t == "plain **bold** [text](url) end"
    requires a == "plain " && b == "bold" && c == " " && x == "text" && u == "url" && d == " end"
    ensures OccursAt(t, a + "**" + b + "**" + c + "[" + x + "](" + u + ")" + d, 0)
    ensures |a| + |b| + |c| + |x| + |u| + |d| + 8 == |t|
  {
    assert a + "**" + b + "**" == "plain **bold**";
    assert "plain **bold**" + c + "[" + x + "](" == "plain **bold** [text](";
    assert "plain **bold** [text](" + u + ")" + d == t;
    assert t[0..|t|] == t;
  }

  /** A line with text, a bold span, text, a link and text, element by element. */
  lemma {:induction false} MixedExample(t: string)
    requires t == "plain **bold** [text](url) end"
    ensures Inlines(t, 0).0 == [
      Element(Text, [], Some("plain "), None), Element(Bold, [], Some("bold"), None),
      Element(Text, [], Some(" "), None), Element(Link, [], Some("text"), Some("url")),
      Element(Text, [], Some(" end"), None)]
  {
    var a, b, c, x, u, d := "plain ", "bold", " ", "text", "url", " end";
    MixedExampleText(t, a, b, c, x, u, d);
    MixedExampleInert(a, b, c, x, u, d);
    MixedLine(t, 0, a, b, c, x, u, d);
    MixedExampleElements(a, b, c, x, u, d);
  }
}
