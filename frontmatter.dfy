/**
 * parse_front_matter of markdown.c: the optional leading block
 *   ---\n Title: ...\n Date: ...\n Description: ...\n ---\n
 * that sets a page's metadata, applies defaults and splits the date.
 */
module FrontMatterParser {
  import opened Wrappers
  import opened Strings
  import opened Document

  const Fence: string := "---\n"
  const TitlePrefix: string := "Title: "
  const DatePrefix: string := "Date: "
  const DescriptionPrefix: string := "Description: "
  const DefaultTitle: string := "Untitled"
  const DefaultDate: string := "0000-00-00"

  /** CONSUME_UNTIL('\n'): the first newline at or after `p`, or the end. */
  function UntilNewline(t: string, p: nat): (q: nat)
    requires p <= |t|
    decreases |t| - p
    ensures p <= q <= |t|
    ensures q < |t| ==> t[q] == '\n'
    ensures forall i :: p <= i < q ==> t[i] != '\n'
  {
    if p == |t| || t[p] == '\n' then p else UntilNewline(t, p + 1)
  }

  /** CONSUME_UNTIL_AFTER('\n'): just past the first newline at or after `p`, or the end. */
  function AfterNewline(t: string, p: nat): (q: nat)
    requires p <= |t|
    ensures p <= q <= |t|
    ensures p < |t| ==> p < q
  {
    var e := UntilNewline(t, p);
    if e < |t| then e + 1 else e
  }

  datatype Field = TitleField | DateField | DescriptionField

  function SetField(page: Page, f: Field, v: string): Page {
    match f
    case TitleField => page.(title := Some(v))
    case DateField => page.(date := Some(v))
    case DescriptionField => page.(description := Some(v))
  }

  /** CONSUME_STRING: past `pat` when it is next, otherwise where it was. */
  function Skip(t: string, p: nat, pat: string): (r: nat)
    requires p <= |t| && '\n' !in pat
    ensures p <= r <= |t|
    ensures forall i :: p <= i < r ==> t[i] != '\n'
  {
    if OccursAt(t, pat, p) then
      PrefixNoNewline(t, p, pat);
      p + |pat|
    else p
  }

  /** Where the value starts: past each of the three prefixes that matched, tried in turn. */
  function ValueStart(t: string, pos: nat): (r: nat)
    requires pos <= |t|
    ensures pos <= r <= |t|
    ensures forall i :: pos <= i < r ==> t[i] != '\n'
  {
    Skip(t, Skip(t, Skip(t, pos, TitlePrefix), DatePrefix), DescriptionPrefix)
  }

  /** The field a line sets: the first of the three prefixes that matched, if any did. */
  function LineKey(t: string, pos: nat): Option<Field>
    requires pos <= |t|
  {
    var p1 := Skip(t, pos, TitlePrefix);
    if OccursAt(t, TitlePrefix, pos) then Some(TitleField)
    else if OccursAt(t, DatePrefix, p1) then Some(DateField)
    else if OccursAt(t, DescriptionPrefix, Skip(t, p1, DatePrefix)) then Some(DescriptionField)
    else None
  }

  /**
   * One pass of the loop body from the line start `pos`: the three prefixes
   * are tried one after the other (each consumes when it matches), and a
   * non-empty value up to the newline is stored in the first field matched.
   * Returns the page and the start of the next line.
   */
  function FrontMatterLine(t: string, pos: nat, page: Page): (r: (Page, nat))
    requires pos < |t|
    ensures pos < r.1 <= |t|
  {
    var v := ValueStart(t, pos);
    match LineKey(t, pos)
    case None => (page, AfterNewline(t, v))
    case Some(f) =>
      var e := UntilNewline(t, v);
      (if e > v then SetField(page, f, t[v..e]) else page, AfterNewline(t, e))
  }

  /**
   * The loop of parse_front_matter from the line start `pos`: stops at the end
   * of the text, or just past the first line that is exactly `---`.
   */
  function FrontMatterLines(t: string, pos: nat, page: Page): (r: (Page, nat))
    requires pos <= |t|
    decreases |t| - pos
    ensures pos <= r.1 <= |t|
  {
    if pos == |t| then (page, pos)
    else if OccursAt(t, Fence, pos) then (page, pos + |Fence|)
    else
      var (page', next) := FrontMatterLine(t, pos, page);
      FrontMatterLines(t, next, page')
  }

  /** MIN/MAX clamping of a date component. */
  function Clamp(lo: nat, hi: nat, x: nat): nat {
    if x < lo then lo else if x > hi then hi else x
  }

  /** sscanf "%u" on a field of plain digits: its value and what follows, or None without a digit. */
  function ScanUnsigned(s: string): Option<(nat, string)> {
    var k := DigitRun(s);
    if k == 0 then None else Some((DigitsValue(s[..k]), s[k..]))
  }

  /** The rest of a date after the year: "-%u" for the month, then the day. */
  function ScanMonthDay(r: string, month: nat, day: nat): (nat, nat) {
    if r == [] || r[0] != '-' then (month, day)
    else match ScanUnsigned(r[1..])
      case None => (month, day)
      case Some((m, r')) => (m, ScanDay(r', day))
  }

  /** The rest of a date after the month: "-%u" for the day. */
  function ScanDay(r: string, day: nat): nat {
    if r == [] || r[0] != '-' then day
    else match ScanUnsigned(r[1..])
      case None => day
      case Some((d, _)) => d
  }

  /**
   * sscanf(date, "%u-%u-%u", &year, &month, &day): fields are assigned from
   * the left until the first one that does not scan; the others keep their value.
   */
  function ScanDate(s: string, year: nat, month: nat, day: nat): (nat, nat, nat) {
    match ScanUnsigned(s)
    case None => (year, month, day)
    case Some((y, r)) =>
      var (m, d) := ScanMonthDay(r, month, day);
      (y, m, d)
  }

  /** What happens after a successful close: defaults, then the date split and clamped. */
  function ApplyDefaults(page: Page): Page {
    var title := if page.title.None? then Some(DefaultTitle) else page.title;
    var date := if page.date.None? then Some(DefaultDate) else page.date;
    var (y, m, d) := ScanDate(date.value, page.year, page.month, page.day);
    page.(title := title, date := date, year := y, month := Clamp(1, 12, m), day := Clamp(1, 31, d))
  }

  /**
   * parse_front_matter on a whole text: the page and the cursor it leaves.
   * Without an opening `---` nothing changes; when the block runs to the end
   * of the text the fields read so far are kept but the cursor stays at 0 and
   * no defaults are applied.
   */
  function FrontMatter(t: string, page: Page): (r: (Page, nat))
    ensures r.1 <= |t|
  {
    if !OccursAt(t, Fence, 0) then (page, 0)
    else
      var (page', next) := FrontMatterLines(t, |Fence|, page);
      if next == |t| then (page', 0) else (ApplyDefaults(page'), next)
  }

  /** CONSUME_UNTIL('\n') on a cursor. */
  method SkipToNewline(t: string, pos: nat) returns (q: nat)
    requires pos <= |t|
    ensures q == UntilNewline(t, pos)
  {
    q := pos;
    while q < |t| && t[q] != '\n'
      invariant pos <= q <= |t|
      invariant UntilNewline(t, q) == UntilNewline(t, pos)
    {
      q := q + 1;
    }
  }

  /** CONSUME_UNTIL_AFTER('\n') on a cursor. */
  method SkipPastNewline(t: string, pos: nat) returns (q: nat)
    requires pos <= |t|
    ensures q == AfterNewline(t, pos)
  {
    q := pos;
    while q < |t|
      invariant pos <= q <= |t|
      invariant AfterNewline(t, q) == AfterNewline(t, pos)
    {
      var c := t[q];
      q := q + 1;
      if c == '\n' {
        return;
      }
    }
  }

  /** One pass of the loop body of parse_front_matter, from a line that is not the closing one. */
  method ReadLine(t: string, pos: nat, page: Page) returns (page': Page, next: nat)
    requires pos < |t|
    ensures (page', next) == FrontMatterLine(t, pos, page)
  {
    page' := page;
    next := pos;
    var isTitle := OccursAt(t, TitlePrefix, next);
    if isTitle {
      next := next + |TitlePrefix|;
    }
    var isDate := OccursAt(t, DatePrefix, next);
    if isDate {
      next := next + |DatePrefix|;
    }
    var isDesc := OccursAt(t, DescriptionPrefix, next);
    if isDesc {
      next := next + |DescriptionPrefix|;
    }
    assert next == ValueStart(t, pos);
    if isTitle || isDate || isDesc {
      var valueStart := next;
      next := SkipToNewline(t, next);
      if next - valueStart > 0 {
        var f := if isTitle then TitleField else if isDate then DateField else DescriptionField;
        page' := SetField(page', f, t[valueStart..next]);
      }
    }
    next := SkipPastNewline(t, next);
  }

  /**
   * parse_front_matter: advances a cursor over the text line by line, writing
   * the page's fields as it reads them.
   */
  method ParseFrontMatter(page: Page, t: string) returns (page': Page, next: nat)
    ensures (page', next) == FrontMatter(t, page)
  {
    page' := page;
    next := 0;
    if !OccursAt(t, Fence, 0) {
      return;
    }
    var pos := |Fence|;
    while true
      invariant pos <= |t|
      invariant FrontMatterLines(t, pos, page') == FrontMatterLines(t, |Fence|, page)
      decreases |t| - pos
    {
      if pos == |t| {
        break;
      }
      if OccursAt(t, Fence, pos) {
        pos := pos + |Fence|;
        break;
      }
      page', pos := ReadLine(t, pos, page');
    }
    assert (page', pos) == FrontMatterLines(t, |Fence|, page);
    if pos == |t| {
      return;
    }
    next := pos;
    page' := Finish(page');
  }

  /** The tail of parse_front_matter after a closing `---`: defaults, date split, clamping. */
  method Finish(page: Page) returns (page': Page)
    ensures page' == ApplyDefaults(page)
  {
    page' := page;
    if page'.title.None? {
      page' := page'.(title := Some(DefaultTitle));
    }
    if page'.date.None? {
      page' := page'.(date := Some(DefaultDate));
    }
    var (y, m, d) := ScanDate(page'.date.value, page'.year, page'.month, page'.day);
    page' := page'.(year := y, month := m, day := d);
    page' := page'.(day := Clamp(1, 31, page'.day), month := Clamp(1, 12, page'.month));
  }

  /** Moving over characters that are not newlines does not change where the line ends. */
  lemma {:induction false} SkipNoNewline(t: string, p: nat, p': nat)
    requires p <= p' <= |t|
    requires forall i :: p <= i < p' ==> t[i] != '\n'
    ensures UntilNewline(t, p') == UntilNewline(t, p)
    decreases p' - p
  {
    if p < p' {
      SkipNoNewline(t, p + 1, p');
    }
  }

  /** A matched prefix holds no newline. */
  lemma {:induction false} PrefixNoNewline(t: string, p: nat, pat: string)
    requires OccursAt(t, pat, p) && '\n' !in pat
    ensures forall i :: p <= i < p + |pat| ==> t[i] != '\n'
  {
    forall i | p <= i < p + |pat|
      ensures t[i] != '\n'
    {
      assert t[i] == t[p..p + |pat|][i - p];
    }
  }

  /** Whatever the prefixes matched, a pass of the loop ends just past the line's newline. */
  lemma {:induction false} LineNext(t: string, pos: nat, page: Page)
    requires pos < |t|
    ensures FrontMatterLine(t, pos, page).1 == AfterNewline(t, pos)
  {
    var v := ValueStart(t, pos);
    SkipNoNewline(t, pos, v);
    var e := UntilNewline(t, v);
    assert UntilNewline(t, e) == e;
  }

  /** The block's lines start right after the opening `---` and right after each newline. */
  predicate LineStart(t: string, c: nat) {
    c == |Fence| || (|Fence| < c <= |t| && t[c - 1] == '\n')
  }

  /** `c` starts a line of the block that is exactly `---`. */
  predicate Closing(t: string, c: nat) {
    LineStart(t, c) && OccursAt(t, Fence, c)
  }

  /** `c` starts the first line of the block that is exactly `---`. */
  predicate FirstClosing(t: string, c: nat) {
    Closing(t, c) && forall c': nat :: |Fence| <= c' < c ==> !Closing(t, c')
  }

  /** `q` is just past the first line of the block that is exactly `---`. */
  predicate AfterFirstClosing(t: string, q: nat) {
    q >= 2 * |Fence| && FirstClosing(t, q - |Fence|)
  }

  /** No line starts strictly inside a line, so a line that is not `---` adds no closing line. */
  lemma {:induction false} NoClosingWithin(t: string, pos: nat)
    requires |Fence| <= pos < |t| && !OccursAt(t, Fence, pos)
    requires forall c: nat :: |Fence| <= c < pos ==> !Closing(t, c)
    ensures forall c: nat :: |Fence| <= c < AfterNewline(t, pos) ==> !Closing(t, c)
  {
    var e := UntilNewline(t, pos);
    forall c: nat | pos < c < AfterNewline(t, pos)
      ensures !LineStart(t, c)
    {
      assert pos <= c - 1 < e;
    }
  }

  /** What the loop promises about the cursor `q` it stops at, having started at `pos`. */
  ghost predicate CursorFrom(t: string, pos: nat, q: nat) {
    (q < |t| ==> q >= |Fence| + pos && AfterFirstClosing(t, q))
    && (q == |t| ==> forall c: nat :: FirstClosing(t, c) ==> c + |Fence| == |t|)
  }

  lemma {:induction false} ClosingFound(t: string, pos: nat)
    requires |Fence| <= pos && Closing(t, pos)
    requires forall c: nat :: |Fence| <= c < pos ==> !Closing(t, c)
    ensures CursorFrom(t, pos, pos + |Fence|)
  {
    assert FirstClosing(t, pos);
    forall c: nat | FirstClosing(t, c)
      ensures c == pos
    {
      assert Closing(t, c) && Closing(t, pos);
    }
  }

  lemma {:induction false} TextEnded(t: string)
    requires forall c: nat :: |Fence| <= c < |t| ==> !Closing(t, c)
    ensures CursorFrom(t, |t|, |t|)
  {
  }

  lemma {:induction false} LinesCursor(t: string, pos: nat, page: Page)
    requires |Fence| <= pos <= |t|
    requires pos == |t| || LineStart(t, pos)
    requires forall c: nat :: |Fence| <= c < pos ==> !Closing(t, c)
    ensures CursorFrom(t, pos, FrontMatterLines(t, pos, page).1)
    decreases |t| - pos
  {
    if pos == |t| {
      TextEnded(t);
    } else if OccursAt(t, Fence, pos) {
      ClosingFound(t, pos);
    } else {
      var r := FrontMatterLine(t, pos, page);
      LineAdvance(t, pos, page);
      LinesStep(t, pos, page, r.0, r.1);
      LinesCursor(t, r.1, r.0);
    }
  }

  /** A line that is not `---` ends at a line start or at the end, and holds no closing line. */
  lemma {:induction false} LineAdvance(t: string, pos: nat, page: Page)
    requires |Fence| <= pos < |t| && !OccursAt(t, Fence, pos)
    requires forall c: nat :: |Fence| <= c < pos ==> !Closing(t, c)
    ensures var next := FrontMatterLine(t, pos, page).1;
      (next == |t| || LineStart(t, next)) && forall c: nat :: |Fence| <= c < next ==> !Closing(t, c)
  {
    LineNext(t, pos, page);
    NoClosingWithin(t, pos);
  }

  /**
   * Where the cursor ends: just past the first `---` line of the block when
   * text follows it, and back at 0 when there is no opening `---`, when the
   * block is never closed, or when its closing line ends the text.
   */
  lemma {:induction false} FrontMatterCursor(t: string, page: Page)
    ensures var q := FrontMatter(t, page).1;
      (!OccursAt(t, Fence, 0) ==> q == 0)
      && (q != 0 ==> q < |t| && AfterFirstClosing(t, q))
      && (OccursAt(t, Fence, 0) && q == 0 ==> forall c: nat :: FirstClosing(t, c) ==> c + |Fence| == |t|)
  {
    if OccursAt(t, Fence, 0) {
      LinesCursor(t, |Fence|, page);
    }
  }

  /** The fields a pass over the block can touch are the three texts, each left alone or set non-empty. */
  predicate MetadataOnly(page: Page, page': Page) {
    page'.(title := page.title, date := page.date, description := page.description) == page
    && (page'.title == page.title || (page'.title.Some? && page'.title.value != []))
    && (page'.date == page.date || (page'.date.Some? && page'.date.value != []))
    && (page'.description == page.description || (page'.description.Some? && page'.description.value != []))
  }

  lemma {:induction false} LinesMetadataOnly(t: string, pos: nat, page: Page)
    requires pos <= |t|
    ensures MetadataOnly(page, FrontMatterLines(t, pos, page).0)
    decreases |t| - pos
  {
    if pos < |t| && !OccursAt(t, Fence, pos) {
      var (page', next) := FrontMatterLine(t, pos, page);
      LinesMetadataOnly(t, next, page');
    }
  }

  /**
   * What parse_front_matter leaves in the page: the tree and the page's place
   * are untouched; each text field is kept or set to a non-empty value; on a
   * closed block title and date are present, the title never empty when none
   * was set before, and month and day are clamped into 1..12 and 1..31; on an
   * unclosed block the date is not split.
   */
  lemma {:induction false} FrontMatterFields(t: string, page: Page)
    ensures var (p, q) := FrontMatter(t, page);
      p.children == page.children && p.parent == page.parent && p.dirPath == page.dirPath
      && p.relativeUrl == page.relativeUrl && p.addToIndex == page.addToIndex
      && (q == 0 ==> MetadataOnly(page, p))
      && (q != 0 ==> p.title.Some? && p.date.Some? && 1 <= p.month <= 12 && 1 <= p.day <= 31)
      && (q != 0 && (page.title.None? || page.title.value != []) ==> p.title.value != [])
  {
    if OccursAt(t, Fence, 0) {
      LinesMetadataOnly(t, |Fence|, page);
    }
  }

  function Prefix(f: Field): string {
    match f
    case TitleField => TitlePrefix
    case DateField => DatePrefix
    case DescriptionField => DescriptionPrefix
  }

  /**
   * A line `Key: value` sets that key's field to the value exactly as written
   * (nothing trimmed), or leaves the page alone when the value is empty; the
   * next line starts after its newline. The value must not itself begin with
   * a key that the loop would try next.
   */
  lemma {:induction false} FieldLine(t: string, c: nat, f: Field, v: string, page: Page)
    requires OccursAt(t, Prefix(f) + v + "\n", c)
    requires '\n' !in v
    requires f == TitleField ==> !OccursAt(t, DatePrefix, c + |TitlePrefix|)
    requires f != DescriptionField ==> !OccursAt(t, DescriptionPrefix, c + |Prefix(f)|)
    ensures FrontMatterLine(t, c, page)
         == (if v == [] then page else SetField(page, f, v), c + |Prefix(f)| + |v| + 1)
  {
    var k := Prefix(f);
    var s := c + |k|;
    var e := s + |v|;
    LineParts(t, c, k, v);
    KeyLine(t, c, f);
    SkipNoNewline(t, s, e);
    assert UntilNewline(t, e) == e;
    assert AfterNewline(t, e) == e + 1;
  }

  /** The key a line `Key: ...` starts with, and where its value starts. */
  lemma {:induction false} KeyLine(t: string, c: nat, f: Field)
    requires OccursAt(t, Prefix(f), c)
    requires f == TitleField ==> !OccursAt(t, DatePrefix, c + |TitlePrefix|)
    requires f != DescriptionField ==> !OccursAt(t, DescriptionPrefix, c + |Prefix(f)|)
    ensures LineKey(t, c) == Some(f) && ValueStart(t, c) == c + |Prefix(f)|
  {
    OccursAtChars(t, Prefix(f), c);
    match f {
      case TitleField =>
        assert Skip(t, c, TitlePrefix) == c + |TitlePrefix|;
      case DateField =>
        NotOccursAtIndex(t, TitlePrefix, c, 0);
        assert Skip(t, c, TitlePrefix) == c;
        assert Skip(t, c, DatePrefix) == c + |DatePrefix|;
      case DescriptionField =>
        NotOccursAtIndex(t, TitlePrefix, c, 0);
        NotOccursAtIndex(t, DatePrefix, c, 1);
        assert Skip(t, c, TitlePrefix) == c;
        assert Skip(t, c, DatePrefix) == c;
    }
  }

  /** The pieces of a line `k v\n` found at `c`. */
  lemma {:induction false} LineParts(t: string, c: nat, k: string, v: string)
    requires OccursAt(t, k + v + "\n", c)
    requires '\n' !in v
    ensures OccursAt(t, k, c)
    ensures t[c + |k|..c + |k| + |v|] == v && t[c + |k| + |v|] == '\n'
    ensures forall i :: c + |k| <= i < c + |k| + |v| ==> t[i] != '\n'
  {
    var line := k + v + "\n";
    var s := c + |k|;
    var e := s + |v|;
    forall i | 0 <= i < |line|
      ensures t[c + i] == line[i]
    {
      assert t[c + i] == t[c..c + |line|][i];
    }
    assert t[c..s] == k by {
      forall i | 0 <= i < |k|
        ensures t[c..s][i] == k[i]
      {
        assert line[i] == k[i];
      }
    }
    assert t[s..e] == v by {
      forall i | 0 <= i < |v|
        ensures t[s..e][i] == v[i]
      {
        assert line[|k| + i] == v[i];
      }
    }
    assert t[e] == '\n' by {
      assert line[|k| + |v|] == '\n';
    }
    forall i | s <= i < e
      ensures t[i] != '\n'
    {
      assert t[i] == t[s..e][i - s];
    }
  }

  /** "%u" reads a whole run of digits and stops at the first non-digit. */
  lemma {:induction false} ScanUnsignedOf(d: string, rest: string)
    requires d != [] && AllDigits(d)
    requires rest == [] || !IsDigit(rest[0])
    ensures ScanUnsigned(d + rest) == Some((DigitsValue(d), rest))
  {
    DigitRunOf(d, rest);
    assert (d + rest)[..|d|] == d && (d + rest)[|d|..] == rest;
  }

  lemma {:induction false} DashTail(x: string, rest: string)
    ensures ("-" + x + rest)[0] == '-' && ("-" + x + rest)[1..] == x + rest
  {
  }

  /** sscanf reads three dash-separated runs of digits as year, month and day. */
  lemma {:induction false} ScanDateOf(y: string, m: string, d: string, rest: string, year: nat, month: nat, day: nat)
    requires y != [] && m != [] && d != [] && AllDigits(y) && AllDigits(m) && AllDigits(d)
    requires rest == [] || !IsDigit(rest[0])
    ensures ScanDate(y + "-" + m + "-" + d + rest, year, month, day)
         == (DigitsValue(y), DigitsValue(m), DigitsValue(d))
  {
    var r2 := "-" + d + rest;
    var r1 := "-" + m + r2;
    ScanUnsignedOf(d, rest);
    DashTail(d, rest);
    assert ScanDay(r2, day) == DigitsValue(d);
    ScanUnsignedOf(m, r2);
    DashTail(m, r2);
    assert ScanMonthDay(r1, month, day) == (DigitsValue(m), DigitsValue(d));
    ScanUnsignedOf(y, r1);
    DateParts(y, m, d, rest);
  }

  lemma {:induction false} DateParts(y: string, m: string, d: string, rest: string)
    ensures y + "-" + m + "-" + d + rest == y + ("-" + m + ("-" + d + rest))
  {
  }

  /** A date written as "%u-%02d-%02d" scans back to the numbers it was written from. */
  lemma {:induction false} ScanDateRoundTrip(y: nat, m: nat, d: nat, year: nat, month: nat, day: nat)
    ensures ScanDate(NatToString(y) + "-" + ZeroPad2(m) + "-" + ZeroPad2(d), year, month, day) == (y, m, d)
  {
    DigitsValueOfNatToString(y);
    ScanDateOf(NatToString(y), ZeroPad2(m), ZeroPad2(d), "", year, month, day);
    assert NatToString(y) + "-" + ZeroPad2(m) + "-" + ZeroPad2(d) + "" == NatToString(y) + "-" + ZeroPad2(m) + "-" + ZeroPad2(d);
  }

  /**
   * Fields stop at the first one that does not scan: "2021-x" sets the year
   * only; the default date "0000-00-00" clamps to month 1, day 1.
   */
  lemma {:induction false} ScanDatePartial(year: nat, month: nat, day: nat)
    ensures ScanDate("2021-x", year, month, day) == (2021, month, day)
  {
    ScanUnsignedOf("2021", "-x");
    assert "2021" + "-x" == "2021-x";
    assert DigitsValue("2021") == 2021 by {
      assert "2021"[..3] == "202";
      assert "202"[..2] == "20";
      assert "20"[..1] == "2";
    }
    assert "-x"[1..] == "x";
  }

  lemma {:induction false} ZerosValue()
    ensures AllDigits("0000") && DigitsValue("0000") == 0
    ensures AllDigits("00") && DigitsValue("00") == 0
  {
    assert "0000"[..3] == "000";
    assert "000"[..2] == "00";
    assert "00"[..1] == "0";
  }

  lemma {:induction false} DefaultDateClamped()
    ensures var p := ApplyDefaults(NewPage(None, "", "", true));
      p.date == Some(DefaultDate) && p.title == Some(DefaultTitle) && (p.year, p.month, p.day) == (0, 1, 1)
  {
    ZerosValue();
    ScanDateOf("0000", "00", "00", "", 0, 0, 0);
    assert DefaultDate == "0000" + "-" + "00" + "-" + "00" + "";
  }

  lemma {:induction false} LinesStep(t: string, pos: nat, page: Page, page': Page, next: nat)
    requires pos < |t| && !OccursAt(t, Fence, pos)
    requires FrontMatterLine(t, pos, page) == (page', next)
    ensures FrontMatterLines(t, pos, page) == FrontMatterLines(t, next, page')
  {
  }

  lemma {:induction false} LinesClose(t: string, pos: nat, page: Page, q: nat)
    requires OccursAt(t, Fence, pos) && q == pos + |Fence|
    ensures FrontMatterLines(t, pos, page) == (page, q)
  {
  }

  /** A block whose loop stopped before the end of the text. */
  lemma {:induction false} ClosedBlock(t: string, page: Page, p: Page, q: nat)
    requires OccursAt(t, Fence, 0) && FrontMatterLines(t, |Fence|, page) == (p, q) && q < |t|
    ensures FrontMatter(t, page) == (ApplyDefaults(p), q)
  {
  }

  /** A field line at `c` whose value does not start with `D`: the later keys cannot match inside it. */
  lemma {:induction false} PlainFieldLine(t: string, c: nat, f: Field, v: string, page: Page, next: nat, page': Page)
    requires f != DescriptionField
    requires OccursAt(t, Prefix(f) + v + "\n", c)
    requires v != [] && '\n' !in v && v[0] != 'D'
    requires next == c + |Prefix(f)| + |v| + 1 && page' == SetField(page, f, v)
    ensures FrontMatterLines(t, c, page) == FrontMatterLines(t, next, page')
  {
    PlainFieldFacts(t, c, f, v);
    FieldLine(t, c, f, v, page);
    LinesStep(t, c, page, page', next);
  }

  /** Such a line is not the closing one, and no later key matches at its value. */
  lemma {:induction false} PlainFieldFacts(t: string, c: nat, f: Field, v: string)
    requires f != DescriptionField
    requires OccursAt(t, Prefix(f) + v + "\n", c)
    requires v != [] && '\n' !in v && v[0] != 'D'
    ensures c < |t| && !OccursAt(t, Fence, c)
    ensures !OccursAt(t, DatePrefix, c + |Prefix(f)|) && !OccursAt(t, DescriptionPrefix, c + |Prefix(f)|)
  {
    LineParts(t, c, Prefix(f), v);
    var s := c + |Prefix(f)|;
    assert t[s] == t[s..s + |v|][0];
    NotOccursAtChar(t, DatePrefix, s);
    NotOccursAtChar(t, DescriptionPrefix, s);
    assert t[c] == t[c..c + |Prefix(f)|][0];
    NotOccursAtChar(t, Fence, c);
  }

  /** The loop over such a block reads the title line, then the date line, then stops at `---`. */
  lemma {:induction false} TitleDateLoop(t: string, title: string, date: string, page: Page, c2: nat, c3: nat, q: nat)
    requires title != [] && '\n' !in title && title[0] != 'D'
    requires date != [] && '\n' !in date && date[0] != 'D'
    requires c2 == |Fence| + |TitlePrefix| + |title| + 1 && c3 == c2 + |DatePrefix| + |date| + 1 && q == c3 + |Fence|
    requires OccursAt(t, TitlePrefix + title + "\n", |Fence|)
    requires OccursAt(t, DatePrefix + date + "\n", c2)
    requires OccursAt(t, Fence, c3)
    ensures FrontMatterLines(t, |Fence|, page) == (page.(title := Some(title), date := Some(date)), q)
  {
    var p1 := page.(title := Some(title));
    var p2 := p1.(date := Some(date));
    PlainFieldLine(t, |Fence|, TitleField, title, page, c2, p1);
    PlainFieldLine(t, c2, DateField, date, p1, c3, p2);
    LinesClose(t, c3, p2, q);
  }

  /**
   * A complete block with a title and a date line: both values are read as
   * written, defaults and the date split follow, and the cursor stops just
   * past the closing line, at the start of the body.
   */
  lemma {:induction false} TitleDateBlock(title: string, date: string, body: string, page: Page)
    requires title != [] && '\n' !in title && title[0] != 'D'
    requires date != [] && '\n' !in date && date[0] != 'D'
    requires body != []
    ensures var t := Fence + (TitlePrefix + title + "\n") + (DatePrefix + date + "\n") + Fence + body;
      FrontMatter(t, page).0 == ApplyDefaults(page.(title := Some(title), date := Some(date)))
      && FrontMatter(t, page).1 == |t| - |body|
  {
    var line1 := TitlePrefix + title + "\n";
    var line2 := DatePrefix + date + "\n";
    var t := Fence + line1 + line2 + Fence + body;
    TitleDatePieces(t, title, date, body);
    var c2 := |Fence| + |TitlePrefix| + |title| + 1;
    var c3 := c2 + |DatePrefix| + |date| + 1;
    var q := |t| - |body|;
    TitleDateLoop(t, title, date, page, c2, c3, q);
    ClosedBlock(t, page, page.(title := Some(title), date := Some(date)), q);
  }

  lemma {:induction false} TitleDatePieces(t: string, title: string, date: string, body: string)
    requires body != []
    requires t == Fence + (TitlePrefix + title + "\n") + (DatePrefix + date + "\n") + Fence + body
    ensures OccursAt(t, Fence, 0)
    ensures OccursAt(t, TitlePrefix + title + "\n", |Fence|)
    ensures OccursAt(t, DatePrefix + date + "\n", |Fence| + |TitlePrefix| + |title| + 1)
    ensures OccursAt(t, Fence, |Fence| + |TitlePrefix| + |title| + 1 + |DatePrefix| + |date| + 1)
    ensures |Fence| + |TitlePrefix| + |title| + 1 + |DatePrefix| + |date| + 1 + |Fence| == |t| - |body| < |t|
  {
    OccursInPieces(Fence, TitlePrefix + title + "\n", DatePrefix + date + "\n", Fence, body);
  }

  /** A block that never closes: the title read is kept, the cursor goes back to 0, no defaults. */
  lemma {:induction false} UnclosedBlock(title: string, page: Page)
    requires title != [] && '\n' !in title && title[0] != 'D'
    ensures FrontMatter(Fence + (TitlePrefix + title + "\n"), page) == (page.(title := Some(title)), 0)
  {
    var line1 := TitlePrefix + title + "\n";
    var t := Fence + line1;
    assert t == [] + Fence + line1;
    OccursAtJoin([], Fence, line1);
    assert t == Fence + line1 + [];
    OccursAtJoin(Fence, line1, []);
    PlainFieldLine(t, |Fence|, TitleField, title, page, |t|, page.(title := Some(title)));
  }

  lemma {:induction false} Digits2(s: string)
    requires |s| == 2 && AllDigits(s)
    ensures DigitsValue(s) == 10 * DigitValue(s[0]) + DigitValue(s[1])
  {
    assert s[..1][..0] == [] && s[..1][0] == s[0];
    assert DigitsValue(s[..1]) == DigitValue(s[0]);
  }

  lemma {:induction false} Digits4(s: string)
    requires |s| == 4 && AllDigits(s)
    ensures DigitsValue(s) == 1000 * DigitValue(s[0]) + 100 * DigitValue(s[1]) + 10 * DigitValue(s[2]) + DigitValue(s[3])
  {
    assert s[..3][..2] == s[..2];
    Digits2(s[..2]);
  }

  lemma {:induction false} DateExample()
    ensures ScanDate("2020-01-02", 0, 0, 0) == (2020, 1, 2)
  {
    DateLiteral();
    ScanDateOf("2020", "01", "02", "", 0, 0, 0);
  }

  lemma {:induction false} DateLiteral()
    ensures "2020-01-02" == "2020" + "-" + "01" + "-" + "02" + ""
    ensures AllDigits("2020") && AllDigits("01") && AllDigits("02")
    ensures DigitsValue("2020") == 2020 && DigitsValue("01") == 1 && DigitsValue("02") == 2
  {
    Digits4("2020");
    Digits2("01");
    Digits2("02");
  }
}
