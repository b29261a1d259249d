/**
 * The page renderer of html.c: the human-readable date, the recursive walk
 * that turns the element tree into indented HTML, the half-size image tags
 * and the page template.
 *
 * Every renderer appends to one buffer owned by its caller. Each
 * `...Into(out, ...)` function below is that buffer after the appends the C
 * code makes, starting from `out`; each method is proved to leave exactly
 * that buffer, and the lemmas state what the buffer then holds.
 */
module Html {
  import opened Wrappers
  import opened Strings
  import opened Document
  import opened Common

  /** INDENT: the nesting depth of the page body inside the template. */
  const BodyIndent: nat := 5

  // ------------------------------------------------------------------ dates

  /** The suffix switch of make_formatted_date. */
  function DaySuffix(day: nat): string {
    if day == 1 || day == 21 || day == 31 then "st"
    else if day == 2 || day == 22 then "nd"
    else if day == 3 || day == 23 then "rd"
    else "th"
  }

  /** The English rule for ordinals: st, nd, rd after a last digit 1, 2, 3, except in the teens. */
  function OrdinalSuffix(n: nat): string {
    if n % 100 / 10 == 1 then "th"
    else if n % 10 == 1 then "st"
    else if n % 10 == 2 then "nd"
    else if n % 10 == 3 then "rd"
    else "th"
  }

  /** On every day of a month the switch gives the English ordinal suffix. */
  lemma {:induction false} DaySuffixIsOrdinal(day: nat)
    requires 1 <= day <= 31
    ensures DaySuffix(day) == OrdinalSuffix(day)
  {
    if day < 10 {
      assert day % 100 / 10 == 0 && day % 10 == day;
    } else if day < 20 {
      assert day % 100 / 10 == 1;
    } else if day < 30 {
      assert day % 100 / 10 == 2 && day % 10 == day - 20;
    } else {
      assert day % 100 / 10 == 3 && day % 10 == day - 30;
    }
  }

  const MonthNames: seq<string> := ["January", "February", "March", "April", "May",
    "June", "July", "August", "September", "October", "November", "December"]

  /** make_formatted_date: "%u%s %s %u" with the day, its suffix, the month's name and the year. */
  function FormattedDate(day: nat, month: nat, year: nat): string
    requires 1 <= month <= 12
  {
    NatToString(day) + DaySuffix(day) + " " + MonthNames[month - 1] + " " + NatToString(year)
  }

  /** The number of the month called `name`. */
  function MonthNumber(name: string): Option<nat> {
    if name == "January" then Some(1)
    else if name == "February" then Some(2)
    else if name == "March" then Some(3)
    else if name == "April" then Some(4)
    else if name == "May" then Some(5)
    else if name == "June" then Some(6)
    else if name == "July" then Some(7)
    else if name == "August" then Some(8)
    else if name == "September" then Some(9)
    else if name == "October" then Some(10)
    else if name == "November" then Some(11)
    else if name == "December" then Some(12)
    else None
  }

  /** Reads a formatted date back: the leading digits, a two-letter suffix, the month's name, the year. */
  function ReadFormattedDate(s: string): Option<(nat, nat, nat)> {
    var k := DigitRun(s);
    if k == 0 || |s| < k + 3 || s[k + 2] != ' ' then None
    else
      var rest := s[k + 3..];
      match IndexOfFrom(rest, " ", 0)
      case None => None
      case Some(j) =>
        var year := rest[j + 1..];
        match MonthNumber(rest[..j])
        case None => None
        case Some(m) =>
          if year != [] && AllDigits(year) then Some((DigitsValue(s[..k]), m, DigitsValue(year))) else None
  }

  lemma {:induction false} MonthNumberOfName(month: nat)
    requires 1 <= month <= 12
    ensures MonthNumber(MonthNames[month - 1]) == Some(month)
    ensures ' ' !in MonthNames[month - 1] && MonthNames[month - 1] != []
  {
  }

  /** The first blank of `m + " " + y`, when `m` has none, is the one after `m`. */
  lemma {:induction false} FirstBlankAfter(m: string, y: string)
    requires ' ' !in m
    ensures IndexOfFrom(m + " " + y, " ", 0) == Some(|m|)
  {
    var s := m + " " + y;
    OccursAtJoin(m, " ", y);
    forall j | 0 <= j < |m|
      ensures !OccursAt(s, " ", j)
    {
      NotOccursAtChar(s, " ", j);
    }
  }

  /** The text after the day's digits: the suffix and a blank, then the month and the year. */
  lemma {:induction false} ReadDateAfterDay(s: string, d: string, suffix: string, rest: string)
    requires s == d + suffix + " " + rest
    requires d != [] && AllDigits(d) && |suffix| == 2 && !IsDigit(suffix[0])
    ensures DigitRun(s) == |d| && s[..|d|] == d
    ensures |s| >= |d| + 3 && s[|d| + 2] == ' ' && s[|d| + 3..] == rest
  {
    assert s == d + (suffix + " " + rest);
    DigitRunOf(d, suffix + " " + rest);
    assert s[..|d|] == d;
    assert s[|d| + 3..] == rest;
  }

  /** The month and the year after the blank that follows the suffix. */
  lemma {:induction false} ReadMonthYear(rest: string, name: string, y: string)
    requires rest == name + " " + y
    requires ' ' !in name
    ensures IndexOfFrom(rest, " ", 0) == Some(|name|)
    ensures rest[..|name|] == name && rest[|name| + 1..] == y
  {
    FirstBlankAfter(name, y);
    assert rest[..|name|] == name;
    assert rest[|name| + 1..] == y;
  }

  /** The date string of a page determines the day, the month and the year it was made from. */
  lemma {:induction false} FormattedDateReadsBack(day: nat, month: nat, year: nat)
    requires 1 <= month <= 12
    ensures ReadFormattedDate(FormattedDate(day, month, year)) == Some((day, month, year))
  {
    var d := NatToString(day);
    var name := MonthNames[month - 1];
    var y := NatToString(year);
    var rest := name + " " + y;
    var s := FormattedDate(day, month, year);
    assert s == d + DaySuffix(day) + " " + rest;
    ReadDateAfterDay(s, d, DaySuffix(day), rest);
    MonthNumberOfName(month);
    ReadMonthYear(rest, name, y);
    DigitsValueOfNatToString(day);
    DigitsValueOfNatToString(year);
  }

  // --------------------------------------------------------------- headers

  /** The id of a heading: the text lowered, every blank turned into an underscore. */
  function Anchor(name: string): string {
    ReplaceChar(ToLower(name), ' ', '_')
  }

  /**
   * An anchor has the length of its text, no blank and no capital letter; a
   * blank becomes `_` and every other character its lower-case form.
   */
  lemma {:induction false} AnchorShape(name: string)
    ensures var a := Anchor(name);
      |a| == |name|
      && (forall i :: 0 <= i < |a| ==> a[i] != ' ' && !('A' <= a[i] <= 'Z'))
      && (forall i :: 0 <= i < |a| ==> a[i] == (if name[i] == ' ' then '_' else LowerChar(name[i])))
  {
    var a := Anchor(name);
    forall i | 0 <= i < |a|
      ensures a[i] != ' ' && !('A' <= a[i] <= 'Z')
      ensures a[i] == (if name[i] == ' ' then '_' else LowerChar(name[i]))
    {
      assert ToLower(name)[i] == LowerChar(name[i]);
    }
  }

  /** What generate_element asserts of a Header: exactly one child, a Text. */
  predicate WellFormedHeader(e: Element) {
    |e.children| == 1 && e.children[0].kind == Text
  }

  /** The anchor of a well-formed header, taken from its one Text child. */
  function HeaderAnchor(e: Element): string
    requires WellFormedHeader(e)
  {
    Anchor(e.children[0].text.GetOr(""))
  }

  // ---------------------------------------------------------------- images

  /** The dimensions the picture datatype reports for an image file. */
  datatype Size = Size(width: nat, height: nat)

  /**
   * The image files the datatypes system can read, keyed by directory and file
   * name, with their dimensions; a key that is missing is a file that fails to load.
   */
  type ImageSizes = map<(string, string), Size>

  /** The half-size file name: the first `.` of the URL becomes `_half.`. */
  function HalfName(url: string): string {
    ReplaceFirst(url, ".", "_half.")
  }

  /** With a stem free of dots, `stem.ext` becomes `stem_half.ext`. */
  lemma {:induction false} HalfNameOfStem(stem: string, ext: string)
    requires '.' !in stem
    ensures HalfName(stem + "." + ext) == stem + "_half." + ext
  {
    var s := stem + "." + ext;
    forall j | 0 <= j < |stem|
      ensures !OccursAt(s, ".", j)
    {
      NotOccursAtChar(s, ".", j);
    }
    ReplaceFirstAt(stem, ".", ext, "_half.");
  }

  /** A URL without a dot names its own half-size file. */
  lemma {:induction false} HalfNameWithoutDot(url: string)
    requires '.' !in url
    ensures HalfName(url) == url
  {
    forall j: nat
      ensures !OccursAt(url, ".", j)
    {
      if j < |url| {
        NotOccursAtChar(url, ".", j);
      }
    }
    ReplaceFirstAbsent(url, ".", "_half.");
  }

  /** The style of the preview div: "width: %upx; height: %upx", twice the stored size. */
  function DivSize(size: Size): string {
    "width: " + NatToString(2 * size.width) + "px; height: " + NatToString(2 * size.height) + "px\">\n"
  }

  /** The attributes of the img tag: "width=\"%d\" height=\"%d\"", the stored size itself. */
  function ImgSize(size: Size): string {
    "width=\"" + NatToString(size.width) + "\" height=\"" + NatToString(size.height) + "\""
  }

  /** The numbers written in decimal in `s`, one per maximal run of digits, left to right. */
  function Numbers(s: string): seq<nat>
    decreases |s|
  {
    if s == [] then []
    else if !IsDigit(s[0]) then Numbers(s[1..])
    else
      var k := DigitRun(s);
      [DigitsValue(s[..k])] + Numbers(s[k..])
  }

  /** `s` holds no decimal digit. */
  predicate NoDigits(s: string) {
    forall c | c in s :: !IsDigit(c)
  }

  /** Text without digits adds no number. */
  lemma {:induction false} NumbersSkip(a: string, b: string)
    requires NoDigits(a)
    ensures Numbers(a + b) == Numbers(b)
    decreases |a|
  {
    if a != [] {
      assert (a + b)[1..] == a[1..] + b;
      NumbersSkip(a[1..], b);
    } else {
      assert a + b == b;
    }
  }

  /** A number printed with "%u" and followed by a non-digit is read back whole. */
  lemma {:induction false} NumbersPrinted(n: nat, b: string)
    requires b == [] || !IsDigit(b[0])
    ensures Numbers(NatToString(n) + b) == [n] + Numbers(b)
  {
    var d := NatToString(n);
    DigitRunOf(d, b);
    assert (d + b)[..|d|] == d;
    assert (d + b)[|d|..] == b;
    DigitsValueOfNatToString(n);
  }

  /** The numbers of `pre`, `n` printed, `post`, when neither text holds a digit. */
  lemma {:induction false} NumbersAround(pre: string, n: nat, post: string)
    requires NoDigits(pre) && NoDigits(post)
    ensures Numbers(pre + NatToString(n) + post) == [n]
  {
    assert pre + NatToString(n) + post == pre + (NatToString(n) + post);
    NumbersSkip(pre, NatToString(n) + post);
    NumbersPrinted(n, post);
    NumbersSkip(post, []);
    assert post + [] == post;
  }

  /** The preview div shows the image at twice the width and height the datatype reports. */
  lemma {:induction false} DivDoublesSize(size: Size)
    ensures Numbers(DivSize(size)) == [2 * size.width, 2 * size.height]
  {
    var w2 := NatToString(2 * size.width);
    var h2 := NatToString(2 * size.height);
    var tail := "px; height: " + h2 + "px\">\n";
    assert DivSize(size) == "width: " + (w2 + tail);
    NumbersSkip("width: ", w2 + tail);
    NumbersPrinted(2 * size.width, tail);
    NumbersAround("px; height: ", 2 * size.height, "px\">\n");
  }

  /** The img tag carries the width and height the datatype reports, undoubled. */
  lemma {:induction false} ImgKeepsSize(size: Size)
    ensures Numbers(ImgSize(size)) == [size.width, size.height]
  {
    var w := NatToString(size.width);
    var h := NatToString(size.height);
    var tail := "\" height=\"" + h + "\"";
    assert ImgSize(size) == "width=\"" + (w + tail);
    NumbersSkip("width=\"", w + tail);
    NumbersPrinted(size.width, tail);
    NumbersAround("\" height=\"", size.height, "\"");
  }

  /** The buffer after generate_image_tags, or why the half-size image could not be read. */
  function ImageTagsInto(out: string, dir: string, e: Element, images: ImageSizes, indent: nat): (r: Result<string, Error>)
    ensures r.Success? <==> (dir, HalfName(e.url.GetOr(""))) in images
    ensures r.Failure? ==> r.error == ImageUnreadable(dir, HalfName(e.url.GetOr("")))
  {
    var url := e.url.GetOr("");
    var half := HalfName(url);
    if (dir, half) !in images then Failure(ImageUnreadable(dir, half))
    else
      var size := images[(dir, half)];
      var o1 := Indented(out, "<center>\n", indent);
      var o2 := Indented(o1, "<div class=\"image\" style=\"content: url(", indent + 1) + url + "); " + DivSize(size);
      var o3 := Indented(o2, "<img src=\"", indent + 2) + half + "\" " + ImgSize(size) + ">\n";
      var o4 := Indented(o3, "</div>\n", indent + 1);
      Success(Indented(o4, "</center>\n", indent))
  }

  /** generate_image_tags, with the datatypes lookup as the `images` table. */
  method GenerateImageTags(out: string, dir: string, e: Element, images: ImageSizes, indent: nat)
    returns (r: Result<string, Error>)
    ensures r == ImageTagsInto(out, dir, e, images, indent)
  {
    var url := e.url.GetOr("");
    var half := HalfName(url);
    if (dir, half) !in images {
      return Failure(ImageUnreadable(dir, half));
    }
    var size := images[(dir, half)];
    var o := AppendIndent(out, "<center>\n", indent);
    o := AppendIndent(o, "<div class=\"image\" style=\"content: url(", indent + 1);
    o := o + url + "); " + DivSize(size);
    o := AppendIndent(o, "<img src=\"", indent + 2);
    o := o + half + "\" " + ImgSize(size) + ">\n";
    o := AppendIndent(o, "</div>\n", indent + 1);
    o := AppendIndent(o, "</center>\n", indent);
    return Success(o);
  }

  // ------------------------------------------------------ element fragments

  /** An image has a caption when its text is not empty. */
  predicate HasCaption(e: Element) {
    e.text.Some? && |e.text.value| > 0
  }

  /** The rule a `***` line becomes: one `<tr>` opened, two closed, as the C code writes it. */
  function HRuleInto(out: string, indent: nat): string {
    var o1 := Indented(out, "<table width=\"100%\" cellspacing=\"0\" cellpadding=\"0\">\n", indent);
    var o2 := Indented(o1, "<tr>\n", indent + 1);
    var o3 := Indented(o2, "<td class=\"vspace\" height=\"10\"></td>\n", indent + 2);
    var o4 := Indented(o3, "</tr>\n", indent + 1);
    var o5 := Indented(o4, "<td class=\"hrule\" height=\"1\" bgcolor=\"#383860\"></td>\n", indent + 2);
    var o6 := Indented(o5, "</tr>\n", indent + 1);
    Indented(o6, "</table>\n", indent)
  }

  /** The table a caption opens, up to the `<b>` in front of the caption text. */
  function CaptionOpenInto(out: string, indent: nat): string {
    var o1 := Indented(out, "<table cellspacing=\"0\" cellpadding=\"0\">\n", indent);
    var o2 := Indented(o1, "<tr>\n", indent + 1);
    var o3 := Indented(o2, "<td class=\"vspace\" height=\"10\"></td>\n", indent + 2);
    var o4 := Indented(o3, "</tr>\n", indent + 1);
    var o5 := Indented(o4, "<tr>\n", indent + 1);
    var o6 := Indented(o5, "<td class=\"hspace2\" width=\"20\"></td>\n", indent + 2);
    var o7 := Indented(o6, "<td>\n", indent + 2);
    Indented(o7, "<b>", indent + 3)
  }

  /** The end of the caption table. */
  function CaptionCloseInto(out: string, indent: nat): string {
    var o1 := Indented(out + "</b>\n", "</td>\n", indent + 2);
    var o2 := Indented(o1, "<td class=\"hspace2\" width=\"20\"></td>\n", indent + 2);
    var o3 := Indented(o2, "</tr>\n", indent + 1);
    Indented(o3, "</table>\n", indent)
  }

  /** The two tables in front of a preformatted block's text. */
  function PreformattedOpenInto(out: string, indent: nat): string {
    var o1 := Indented(out, "<table cellspacing=\"0\" cellpadding=\"0\">\n", indent);
    var o2 := Indented(o1, "<tr>\n", indent + 1);
    var o3 := Indented(o2, "<td class=\"vspace\" height=\"10\"></td>\n", indent + 2);
    var o4 := Indented(o3, "</tr>\n", indent + 1);
    var o5 := Indented(o4, "</table>\n", indent);
    var o6 := Indented(o5, "<table cellspacing=\"0\" cellpadding=\"10\" width=\"100%\">\n", indent);
    var o7 := Indented(o6, "<tr>\n", indent + 1);
    var o8 := Indented(o7, "<td class=\"pre\" bgcolor=\"#1A1A28\">\n", indent + 2);
    Indented(o8, "<pre><font size=\"2\">", indent + 3)
  }

  /** The end of a preformatted block. */
  function PreformattedCloseInto(out: string, indent: nat): string {
    var o1 := Indented(out + "</font></pre>\n", "</td>\n", indent + 2);
    var o2 := Indented(o1, "</tr>\n", indent + 1);
    Indented(o2, "</table>\n", indent)
  }

  /** The ET_Header case of the first switch: the assertion on the children, then the heading with its anchor. */
  function HeaderOpenInto(out: string, e: Element, indent: nat): Result<string, Error> {
    if !WellFormedHeader(e) then Failure(MalformedHeader)
    else Success(Indented(out, "<p class=\"heading\" id=\"", indent) + HeaderAnchor(e) + "\"><font size=\"+2\"><b>")
  }

  /** The ET_Image case of the first switch: the image tags, then the caption table if there is a caption. */
  function ImageOpenInto(out: string, e: Element, dir: string, images: ImageSizes, indent: nat): Result<string, Error> {
    match ImageTagsInto(out, dir, e, images, indent)
    case Failure(err) => Failure(err)
    case Success(o) => Success(if HasCaption(e) then CaptionOpenInto(o, indent) else o)
  }

  /** The first switch of generate_element: what goes in front of an element's text. */
  function OpenInto(out: string, e: Element, dir: string, images: ImageSizes, indent: nat): Result<string, Error> {
    match e.kind
    case Bold => Success(out + "<b>")
    case Header => HeaderOpenInto(out, e, indent)
    case HRule => Success(HRuleInto(out, indent))
    case Image => ImageOpenInto(out, e, dir, images, indent)
    case Link => Success(out + "<a href=\"" + e.url.GetOr("") + "\">")
    case List => Success(Indented(out, "<ul>\n", indent))
    case ListItem => Success(Indented(out, "<li>", indent))
    case Paragraph => Success(Indented(out, "<p>", indent))
    case Preformatted => Success(PreformattedOpenInto(out, indent))
    case Text => Success(out)
    case Untyped => Success(out)
  }

  /** The element's own text, when it has one. */
  function TextInto(out: string, e: Element): string {
    if e.text.Some? then out + e.text.value else out
  }

  /** The second switch of generate_element: what follows an element's children. */
  function CloseInto(out: string, e: Element, indent: nat): string {
    match e.kind
    case Bold => out + "</b>"
    case Header => out + "</b></font></p>\n"
    case Image => if HasCaption(e) then CaptionCloseInto(out, indent) else out
    case Link => out + "</a>"
    case List => Indented(out, "</ul>\n", indent)
    case ListItem => out + "</li>\n"
    case Paragraph => out + "</p>\n"
    case Preformatted => PreformattedCloseInto(out, indent)
    case HRule => out
    case Text => out
    case Untyped => out
  }

  /**
   * The buffer after generate_element: the opening fragment, the element's
   * text, its children in order one level deeper, the closing fragment.
   */
  function ElementInto(out: string, e: Element, dir: string, images: ImageSizes, indent: nat): Result<string, Error>
    decreases e
  {
    match OpenInto(out, e, dir, images, indent)
    case Failure(err) => Failure(err)
    case Success(o) =>
      match ChildrenInto(TextInto(o, e), e.children, |e.children|, dir, images, indent + 1)
      case Failure(err) => Failure(err)
      case Success(c) => Success(CloseInto(c, e, indent))
  }

  /** The buffer after generate_element has run on the first `k` elements of `cs`, in order. */
  function ChildrenInto(out: string, cs: seq<Element>, k: nat, dir: string, images: ImageSizes, indent: nat): Result<string, Error>
    requires k <= |cs|
    decreases cs, k
  {
    if k == 0 then Success(out)
    else
      match ChildrenInto(out, cs, k - 1, dir, images, indent)
      case Failure(err) => Failure(err)
      case Success(o) => ElementInto(o, cs[k - 1], dir, images, indent)
  }

  /** The ET_HRule lines of generate_element. */
  method AppendRule(out: string, indent: nat) returns (r: string)
    ensures r == HRuleInto(out, indent)
  {
    r := AppendIndent(out, "<table width=\"100%\" cellspacing=\"0\" cellpadding=\"0\">\n", indent);
    r := AppendIndent(r, "<tr>\n", indent + 1);
    r := AppendIndent(r, "<td class=\"vspace\" height=\"10\"></td>\n", indent + 2);
    r := AppendIndent(r, "</tr>\n", indent + 1);
    r := AppendIndent(r, "<td class=\"hrule\" height=\"1\" bgcolor=\"#383860\"></td>\n", indent + 2);
    r := AppendIndent(r, "</tr>\n", indent + 1);
    r := AppendIndent(r, "</table>\n", indent);
  }

  /** The caption lines of the ET_Image case, in front of the caption text. */
  method AppendCaptionOpening(out: string, indent: nat) returns (r: string)
    ensures r == CaptionOpenInto(out, indent)
  {
    r := AppendIndent(out, "<table cellspacing=\"0\" cellpadding=\"0\">\n", indent);
    r := AppendIndent(r, "<tr>\n", indent + 1);
    r := AppendIndent(r, "<td class=\"vspace\" height=\"10\"></td>\n", indent + 2);
    r := AppendIndent(r, "</tr>\n", indent + 1);
    r := AppendIndent(r, "<tr>\n", indent + 1);
    r := AppendIndent(r, "<td class=\"hspace2\" width=\"20\"></td>\n", indent + 2);
    r := AppendIndent(r, "<td>\n", indent + 2);
    r := AppendIndent(r, "<b>", indent + 3);
  }

  /** The ET_Image lines of the closing switch. */
  method AppendCaptionClosing(out: string, indent: nat) returns (r: string)
    ensures r == CaptionCloseInto(out, indent)
  {
    r := out + "</b>\n";
    r := AppendIndent(r, "</td>\n", indent + 2);
    r := AppendIndent(r, "<td class=\"hspace2\" width=\"20\"></td>\n", indent + 2);
    r := AppendIndent(r, "</tr>\n", indent + 1);
    r := AppendIndent(r, "</table>\n", indent);
  }

  /** The ET_Preformatted lines of the opening switch. */
  method AppendPreformattedOpening(out: string, indent: nat) returns (r: string)
    ensures r == PreformattedOpenInto(out, indent)
  {
    r := AppendIndent(out, "<table cellspacing=\"0\" cellpadding=\"0\">\n", indent);
    r := AppendIndent(r, "<tr>\n", indent + 1);
    r := AppendIndent(r, "<td class=\"vspace\" height=\"10\"></td>\n", indent + 2);
    r := AppendIndent(r, "</tr>\n", indent + 1);
    r := AppendIndent(r, "</table>\n", indent);
    r := AppendIndent(r, "<table cellspacing=\"0\" cellpadding=\"10\" width=\"100%\">\n", indent);
    r := AppendIndent(r, "<tr>\n", indent + 1);
    r := AppendIndent(r, "<td class=\"pre\" bgcolor=\"#1A1A28\">\n", indent + 2);
    r := AppendIndent(r, "<pre><font size=\"2\">", indent + 3);
  }

  /** The ET_Preformatted lines of the closing switch. */
  method AppendPreformattedClosing(out: string, indent: nat) returns (r: string)
    ensures r == PreformattedCloseInto(out, indent)
  {
    r := out + "</font></pre>\n";
    r := AppendIndent(r, "</td>\n", indent + 2);
    r := AppendIndent(r, "</tr>\n", indent + 1);
    r := AppendIndent(r, "</table>\n", indent);
  }

  /** The ET_Header case of the opening switch. */
  method AppendHeaderOpening(out: string, e: Element, indent: nat) returns (r: Result<string, Error>)
    ensures r == HeaderOpenInto(out, e, indent)
  {
    if !WellFormedHeader(e) {
      return Failure(MalformedHeader);
    }
    var o := AppendIndent(out, "<p class=\"heading\" id=\"", indent);
    var anchor := Anchor(e.children[0].text.GetOr(""));
    o := o + anchor + "\"><font size=\"+2\"><b>";
    return Success(o);
  }

  /** The ET_Image case of the opening switch. */
  method AppendImageOpening(out: string, e: Element, dir: string, images: ImageSizes, indent: nat)
    returns (r: Result<string, Error>)
    ensures r == ImageOpenInto(out, e, dir, images, indent)
  {
    r := GenerateImageTags(out, dir, e, images, indent);
    if r.Success? && HasCaption(e) {
      var o := AppendCaptionOpening(r.value, indent);
      r := Success(o);
    }
  }

  /** The opening switch of generate_element. */
  method AppendOpening(out: string, e: Element, dir: string, images: ImageSizes, indent: nat)
    returns (r: Result<string, Error>)
    ensures r == OpenInto(out, e, dir, images, indent)
  {
    var o := out;
    match e.kind {
    case Bold =>
      o := o + "<b>";
    case Header =>
      r := AppendHeaderOpening(o, e, indent);
      return;
    case HRule =>
      o := AppendRule(o, indent);
    case Image =>
      r := AppendImageOpening(o, e, dir, images, indent);
      return;
    case Link =>
      o := o + "<a href=\"" + e.url.GetOr("") + "\">";
    case List =>
      o := AppendIndent(o, "<ul>\n", indent);
    case ListItem =>
      o := AppendIndent(o, "<li>", indent);
    case Paragraph =>
      o := AppendIndent(o, "<p>", indent);
    case Preformatted =>
      o := AppendPreformattedOpening(o, indent);
    case Text =>
    case Untyped =>
    }
    return Success(o);
  }

  /** The closing switch of generate_element. */
  method AppendClosing(out: string, e: Element, indent: nat) returns (r: string)
    ensures r == CloseInto(out, e, indent)
  {
    r := out;
    match e.kind
    case Bold =>
      r := r + "</b>";
    case Header =>
      r := r + "</b></font></p>\n";
    case Image =>
      if HasCaption(e) {
        r := AppendCaptionClosing(r, indent);
      }
    case Link =>
      r := r + "</a>";
    case List =>
      r := AppendIndent(r, "</ul>\n", indent);
    case ListItem =>
      r := r + "</li>\n";
    case Paragraph =>
      r := r + "</p>\n";
    case Preformatted =>
      r := AppendPreformattedClosing(r, indent);
    case HRule =>
    case Text =>
    case Untyped =>
  }

  /** generate_element: renders one element and, recursively, its children into the buffer. */
  method GenerateElement(out: string, e: Element, dir: string, images: ImageSizes, indent: nat)
    returns (r: Result<string, Error>)
    ensures r == ElementInto(out, e, dir, images, indent)
    decreases e
  {
    var front := AppendOpening(out, e, dir, images, indent);
    if front.Failure? {
      return front;
    }
    var o := TextInto(front.value, e);
    r := GenerateChildren(o, e.children, dir, images, indent + 1);
    if r.Success? {
      var closed := AppendClosing(r.value, e, indent);
      r := Success(closed);
    }
  }

  /** The vector_foreach over a child vector, each child rendered at `indent`. */
  method GenerateChildren(out: string, cs: seq<Element>, dir: string, images: ImageSizes, indent: nat)
    returns (r: Result<string, Error>)
    ensures r == ChildrenInto(out, cs, |cs|, dir, images, indent)
    decreases cs
  {
    var o := out;
    for i := 0 to |cs|
      invariant ChildrenInto(out, cs, i, dir, images, indent) == Success(o)
    {
      var c := GenerateElement(o, cs[i], dir, images, indent);
      if c.Failure? {
        FailureStays(out, cs, i, o, dir, images, indent);
        return c;
      }
      o := c.value;
    }
    return Success(o);
  }

  /** Once a child fails, the rest of the vector is not rendered and its failure is the result. */
  lemma {:induction false} FailureStays(out: string, cs: seq<Element>, i: nat, o: string, dir: string, images: ImageSizes, indent: nat)
    requires i < |cs|
    requires ChildrenInto(out, cs, i, dir, images, indent) == Success(o)
    requires ElementInto(o, cs[i], dir, images, indent).Failure?
    ensures ChildrenInto(out, cs, |cs|, dir, images, indent) == ElementInto(o, cs[i], dir, images, indent)
  {
    FailureKept(out, cs, i + 1, |cs|, dir, images, indent);
  }

  lemma {:induction false} FailureKept(out: string, cs: seq<Element>, i: nat, k: nat, dir: string, images: ImageSizes, indent: nat)
    requires i <= k <= |cs|
    requires ChildrenInto(out, cs, i, dir, images, indent).Failure?
    ensures ChildrenInto(out, cs, k, dir, images, indent) == ChildrenInto(out, cs, i, dir, images, indent)
    decreases k
  {
    if i < k {
      FailureKept(out, cs, i, k - 1, dir, images, indent);
    }
  }

  // ------------------------------------------------- what rendering promises

  /** What rendering needs of a tree: every header well formed, every half-size image readable. */
  predicate Renderable(e: Element, dir: string, images: ImageSizes)
    decreases e
  {
    (e.kind == Header ==> WellFormedHeader(e))
    && (e.kind == Image ==> (dir, HalfName(e.url.GetOr(""))) in images)
    && forall i | 0 <= i < |e.children| :: Renderable(e.children[i], dir, images)
  }

  /** The opening fragment fails only on a malformed header or an unreadable image. */
  lemma {:induction false} OpenSucceeds(out: string, e: Element, dir: string, images: ImageSizes, indent: nat)
    ensures OpenInto(out, e, dir, images, indent).Success? <==>
      (e.kind == Header ==> WellFormedHeader(e)) && (e.kind == Image ==> (dir, HalfName(e.url.GetOr(""))) in images)
  {
  }

  /** generate_element succeeds exactly on the trees whose headers and images are all in order. */
  lemma {:induction false} RenderSucceeds(out: string, e: Element, dir: string, images: ImageSizes, indent: nat)
    ensures ElementInto(out, e, dir, images, indent).Success? <==> Renderable(e, dir, images)
    decreases e
  {
    OpenSucceeds(out, e, dir, images, indent);
    match OpenInto(out, e, dir, images, indent)
    case Failure(_) =>
    case Success(o) =>
      ChildrenSucceed(TextInto(o, e), e.children, |e.children|, dir, images, indent + 1);
  }

  /** The children render exactly when each of them is renderable. */
  lemma {:induction false} ChildrenSucceed(out: string, cs: seq<Element>, k: nat, dir: string, images: ImageSizes, indent: nat)
    requires k <= |cs|
    ensures ChildrenInto(out, cs, k, dir, images, indent).Success? <==>
      forall i | 0 <= i < k :: Renderable(cs[i], dir, images)
    decreases cs, k
  {
    if k > 0 {
      ChildrenSucceed(out, cs, k - 1, dir, images, indent);
      match ChildrenInto(out, cs, k - 1, dir, images, indent)
      case Failure(_) =>
      case Success(o) =>
        RenderSucceeds(o, cs[k - 1], dir, images, indent);
    }
  }

  /** Bold renders as `<b>text</b>`, in line. */
  lemma {:induction false} BoldRendering(out: string, text: string, dir: string, images: ImageSizes, indent: nat)
    ensures ElementInto(out, Element(Bold, [], Some(text), None), dir, images, indent)
      == Success(out + "<b>" + text + "</b>")
  {
  }

  /** A link renders as `<a href="url">text</a>`, in line. */
  lemma {:induction false} LinkRendering(out: string, text: string, url: string, dir: string, images: ImageSizes, indent: nat)
    ensures ElementInto(out, Element(Link, [], Some(text), Some(url)), dir, images, indent)
      == Success(out + "<a href=\"" + url + "\">" + text + "</a>")
  {
  }

  /** A header with its one Text child: the anchor from the text, then the text in bold. */
  lemma {:induction false} HeaderRendering(out: string, text: string, dir: string, images: ImageSizes, indent: nat)
    ensures ElementInto(out, Element(Header, [Element(Text, [], Some(text), None)], None, None), dir, images, indent)
      == Success(Indented(out, "<p class=\"heading\" id=\"", indent) + Anchor(text) + "\"><font size=\"+2\"><b>"
                 + text + "</b></font></p>\n")
  {
    var child := Element(Text, [], Some(text), None);
    var e := Element(Header, [child], None, None);
    var o := Indented(out, "<p class=\"heading\" id=\"", indent) + Anchor(text) + "\"><font size=\"+2\"><b>";
    assert OpenInto(out, e, dir, images, indent) == Success(o);
    assert ElementInto(o, child, dir, images, indent + 1) == Success(o + text);
    assert ChildrenInto(o, e.children, 1, dir, images, indent + 1) == Success(o + text);
  }

  /**
   * An image's caption table is opened and closed together: with a caption
   * both fragments surround it, without one neither is written.
   */
  lemma {:induction false} CaptionTablePaired(out: string, e: Element, dir: string, images: ImageSizes, indent: nat)
    requires e.kind == Image && e.children == []
    requires (dir, HalfName(e.url.GetOr(""))) in images
    ensures var tags := ImageTagsInto(out, dir, e, images, indent).value;
      ElementInto(out, e, dir, images, indent)
        == Success(if HasCaption(e) then CaptionCloseInto(CaptionOpenInto(tags, indent) + e.text.value, indent) else tags)
  {
    var tags := ImageTagsInto(out, dir, e, images, indent).value;
    if !HasCaption(e) && e.text.Some? {
      assert tags + e.text.value == tags;
    }
  }

  // --------------------------------------------------------------- the page

  /** The page title html_generate prints: "%s | Amiga Geek". */
  function PageTitle(title: string): string {
    title + " | Amiga Geek"
  }

  /** The two-row rule under the heading of a page. */
  function SeparatorInto(out: string, indent: nat): string {
    var o1 := Indented(out, "<table width=\"100%\" cellspacing=\"0\" cellpadding=\"0\">\n", indent);
    var o2 := Indented(o1, "<tr>\n", indent + 1);
    var o3 := Indented(o2, "<td class=\"vspace\" height=\"10\"></td>\n", indent + 2);
    var o4 := Indented(o3, "</tr>\n", indent + 1);
    var o5 := Indented(o4, "<tr>\n", indent + 1);
    var o6 := Indented(o5, "<td class=\"hrule\" height=\"1\" bgcolor=\"#383860\"></td>\n", indent + 2);
    var o7 := Indented(o6, "</tr>\n", indent + 1);
    Indented(o7, "</table>\n", indent)
  }

  /** The top of a page body: the title, the date of the last update, the rule. */
  function PageHeadingInto(out: string, title: string, date: string): string {
    var o1 := Indented(out, "<p class=\"heading\"><font size=\"+2\"><b>", BodyIndent) + title + "</b></font></p>\n";
    var o2 := Indented(o1, "<p>Last updated: ", BodyIndent) + date + "</p>\n";
    SeparatorInto(o2, BodyIndent)
  }

  /** The template with its first `$BODY` and then its first `$TITLE` replaced. */
  function Substitute(template: string, body: string, title: string): string {
    ReplaceFirst(ReplaceFirst(template, "$BODY", body), "$TITLE", title)
  }

  /** The first `$BODY` of a template that has only `$TITLE` in front of it is the one after `mid`. */
  lemma {:induction false} ReplaceBodyMarker(pre: string, mid: string, post: string, body: string)
    requires '$' !in pre && '$' !in mid
    ensures ReplaceFirst(pre + "$TITLE" + mid + "$BODY" + post, "$BODY", body) == pre + "$TITLE" + mid + body + post
  {
    var a := pre + "$TITLE" + mid;
    var s := a + "$BODY" + post;
    forall j | 0 <= j < |a|
      ensures !OccursAt(s, "$BODY", j)
    {
      if j == |pre| {
        assert s[j + 1] == 'T';
        NotOccursAtIndex(s, "$BODY", j, 1);
      } else {
        assert s[j] != '$';
        NotOccursAtChar(s, "$BODY", j);
      }
    }
    ReplaceFirstAt(a, "$BODY", post, body);
  }

  /** The first `$TITLE` of a text with no `$` in front of it. */
  lemma {:induction false} ReplaceTitleMarker(pre: string, rest: string, title: string)
    requires '$' !in pre
    ensures ReplaceFirst(pre + "$TITLE" + rest, "$TITLE", title) == pre + title + rest
  {
    var s := pre + "$TITLE" + rest;
    forall j | 0 <= j < |pre|
      ensures !OccursAt(s, "$TITLE", j)
    {
      assert s[j] == pre[j];
      NotOccursAtChar(s, "$TITLE", j);
    }
    ReplaceFirstAt(pre, "$TITLE", rest, title);
  }

  /**
   * In a template that holds `$TITLE` and then `$BODY`, with no other `$`
   * in front of either, both markers are replaced in place, whatever the
   * body and the title contain.
   */
  lemma {:induction false} SubstituteTemplate(pre: string, mid: string, post: string, body: string, title: string)
    requires '$' !in pre && '$' !in mid
    ensures Substitute(pre + "$TITLE" + mid + "$BODY" + post, body, title) == pre + title + (mid + body + post)
  {
    ReplaceBodyMarker(pre, mid, post, body);
    assert pre + "$TITLE" + mid + body + post == pre + "$TITLE" + (mid + body + post);
    ReplaceTitleMarker(pre, mid + body + post, title);
  }

  /** The body html_generate builds: the heading, then every element of the page at INDENT. */
  function PageBody(p: Page, images: ImageSizes): Result<string, Error>
    requires p.title.Some? && 1 <= p.month <= 12
  {
    var heading := PageHeadingInto("", p.title.value, FormattedDate(p.day, p.month, p.year));
    ChildrenInto(heading, p.children, |p.children|, p.dirPath, images, BodyIndent)
  }

  /** html_generate: the page's HTML, the body and the title put into the template. */
  function PageHtml(template: string, p: Page, images: ImageSizes): Result<string, Error>
    requires p.title.Some? && 1 <= p.month <= 12
  {
    match PageBody(p, images)
    case Failure(err) => Failure(err)
    case Success(body) => Success(Substitute(template, body, PageTitle(p.title.value)))
  }

  /**
   * html_generate. The page must have a title and a month in 1..12: the C
   * code prints the title with "%s" and indexes the month names with
   * month - 1, which a page whose front matter never closed does not allow.
   */
  method HtmlGenerate(template: string, p: Page, images: ImageSizes) returns (r: Result<string, Error>)
    requires p.title.Some? && 1 <= p.month <= 12
    ensures r == PageHtml(template, p, images)
  {
    var date := FormattedDate(p.day, p.month, p.year);
    var title := PageTitle(p.title.value);
    var body := AppendIndent("", "<p class=\"heading\"><font size=\"+2\"><b>", BodyIndent);
    body := body + p.title.value + "</b></font></p>\n";
    body := AppendIndent(body, "<p>Last updated: ", BodyIndent);
    body := body + date + "</p>\n";
    body := AppendSeparator(body, BodyIndent);
    var rendered := GenerateChildren(body, p.children, p.dirPath, images, BodyIndent);
    if rendered.Failure? {
      return Failure(rendered.error);
    }
    var html := ReplaceFirst(template, "$BODY", rendered.value);
    html := ReplaceFirst(html, "$TITLE", title);
    return Success(html);
  }

  /** The rule lines of html_generate. */
  method AppendSeparator(out: string, indent: nat) returns (r: string)
    ensures r == SeparatorInto(out, indent)
  {
    r := AppendIndent(out, "<table width=\"100%\" cellspacing=\"0\" cellpadding=\"0\">\n", indent);
    r := AppendIndent(r, "<tr>\n", indent + 1);
    r := AppendIndent(r, "<td class=\"vspace\" height=\"10\"></td>\n", indent + 2);
    r := AppendIndent(r, "</tr>\n", indent + 1);
    r := AppendIndent(r, "<tr>\n", indent + 1);
    r := AppendIndent(r, "<td class=\"hrule\" height=\"1\" bgcolor=\"#383860\"></td>\n", indent + 2);
    r := AppendIndent(r, "</tr>\n", indent + 1);
    r := AppendIndent(r, "</table>\n", indent);
  }

  /** A page renders exactly when every element of its body is renderable. */
  lemma {:induction false} PageHtmlSucceeds(template: string, p: Page, images: ImageSizes)
    requires p.title.Some? && 1 <= p.month <= 12
    ensures PageHtml(template, p, images).Success? <==>
      forall i | 0 <= i < |p.children| :: Renderable(p.children[i], p.dirPath, images)
  {
    var heading := PageHeadingInto("", p.title.value, FormattedDate(p.day, p.month, p.year));
    ChildrenSucceed(heading, p.children, |p.children|, p.dirPath, images, BodyIndent);
  }

  /**
   * In a template with `$TITLE` in front of `$BODY`, the page is the template
   * with "<title> | Amiga Geek" and the body in the markers' places.
   */
  lemma {:induction false} PageHtmlLayout(pre: string, mid: string, post: string, p: Page, images: ImageSizes)
    requires p.title.Some? && 1 <= p.month <= 12
    requires '$' !in pre && '$' !in mid
    requires PageBody(p, images).Success?
    ensures PageHtml(pre + "$TITLE" + mid + "$BODY" + post, p, images)
      == Success(pre + PageTitle(p.title.value) + (mid + PageBody(p, images).value + post))
  {
    SubstituteTemplate(pre, mid, post, PageBody(p, images).value, PageTitle(p.title.value));
  }
}
