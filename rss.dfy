/**
 * rss_generate and its helpers: the feed of every top-level page, newest
 * first, each item carrying its title, link, RFC 822 publication date and
 * description.
 */
module Rss {
  import opened Wrappers
  import opened Strings
  import opened Document
  import opened Common
  import opened PageOrder

  // --------------------------------------------------------------- week_day

  const U32Modulus: nat := 0x1_0000_0000

  /** A value as a C `uint` holds it: reduced modulo 2^32. */
  function U32(x: int): nat {
    x % U32Modulus
  }

  /**
   * week_day: Zeller's congruence (0 = Saturday) in `uint` arithmetic.
   * January and February count as months 13 and 14 of the year before; the
   * decrement of year 0 and the final subtraction wrap around.
   */
  function WeekDay(day: nat, month: nat, year: nat): (r: nat)
    ensures r < 7
  {
    var d, m, y := U32(day), U32(month), U32(year);
    var m', y' := if m < 3 then m + 12 else m, if m < 3 then U32(y - 1) else y;
    var k, j := y' % 100, y' / 100;
    // Sums and the difference wrap modulo 2^32; reducing once at the end is the same.
    U32(d + U32(13 * (m' + 1)) / 5 + k + k / 4 + j / 4 - 2 * j) % 7
  }

  /** Zeller's congruence for the Gregorian calendar on unbounded integers, 0 = Saturday. */
  function Zeller(day: nat, month: nat, year: nat): (r: nat)
    ensures r < 7
  {
    var m, y := if month < 3 then month + 12 else month, if month < 3 then year - 1 else year;
    var k, j := y % 100, y / 100;
    (day + 13 * (m + 1) / 5 + k + k / 4 + j / 4 + 5 * j) % 7
  }

  /** The sum week_day forms before it takes `2 * J` away, for a month in 1..12 of a year from 1 on. */
  function ZellerSum(day: nat, month: nat, year: nat): nat
    requires 1 <= month <= 12 && 1 <= year
  {
    var m, y := if month < 3 then month + 12 else month, if month < 3 then year - 1 else year;
    var k, j := y % 100, y / 100;
    day + 13 * (m + 1) / 5 + k + k / 4 + j / 4
  }

  function Century(month: nat, year: nat): nat
    requires 1 <= year
  {
    (if month < 3 then year - 1 else year) / 100
  }

  lemma {:induction false} SevenTimes(a: int, j: int)
    ensures (a + 7 * j) % 7 == a % 7
  {
  }

  lemma {:induction false} U32Small(x: int)
    requires 0 <= x < U32Modulus
    ensures U32(x) == x
  {
  }

  /**
   * While the sum does not fall below `2 * J`, nothing wraps and week_day
   * is Zeller's congruence.
   */
  lemma {:induction false} WeekDayIsZeller(day: nat, month: nat, year: nat)
    requires 1 <= day <= 31 && 1 <= month <= 12 && 1 <= year < U32Modulus
    requires ZellerSum(day, month, year) >= 2 * Century(month, year)
    ensures WeekDay(day, month, year) == Zeller(day, month, year)
  {
    var s, j := ZellerSum(day, month, year), Century(month, year);
    U32Small(day);
    U32Small(month);
    U32Small(year);
    if month < 3 {
      U32Small(year - 1);
      U32Small(13 * (month + 12 + 1));
    } else {
      U32Small(13 * (month + 1));
    }
    assert j <= year / 100;
    U32Small(s - 2 * j);
    assert WeekDay(day, month, year) == (s - 2 * j) % 7;
    assert Zeller(day, month, year) == (s + 5 * j) % 7;
    SevenTimes(s - 2 * j, j);
  }

  /** Every date from 2020 to 2099 keeps clear of the wrap. */
  lemma {:induction false} WeekDayFrom2020(day: nat, month: nat, year: nat)
    requires 1 <= day <= 31 && 1 <= month <= 12 && 2020 <= year <= 2099
    ensures WeekDay(day, month, year) == Zeller(day, month, year)
  {
    var y := if month < 3 then year - 1 else year;
    assert y / 100 == 20 && y % 100 == y - 2000;
    if month < 3 {
      assert 13 * (month + 12 + 1) / 5 >= 36;
    } else {
      assert 13 * (month + 1) / 5 >= 10;
    }
    WeekDayIsZeller(day, month, year);
  }

  const DayNames: seq<string> := ["Sat", "Sun", "Mon", "Tue", "Wed", "Thu", "Fri"]

  /** 2 January 2020 was a Thursday. */
  lemma {:induction false} WeekDayOfJanuary2020()
    ensures WeekDay(2, 1, 2020) == 5 && DayNames[5] == "Thu"
  {
    U32Small(2);
    U32Small(1);
    U32Small(2020);
    U32Small(2019);
    U32Small(182);
    assert 2019 % 100 == 19 && 2019 / 100 == 20;
    U32Small(2 + 182 / 5 + 19 + 19 / 4 + 20 / 4 - 2 * 20);
    assert WeekDay(2, 1, 2020) == U32(2 + 182 / 5 + 19 + 19 / 4 + 20 / 4 - 2 * 20) % 7;
  }

  /** 1 March 2010 was a Monday, but the sum wraps and week_day gives Friday. */
  lemma {:induction false} WeekDayWrapsIn2010()
    ensures Zeller(1, 3, 2010) == 2 && WeekDay(1, 3, 2010) == 6
  {
    assert Zeller(1, 3, 2010) == (1 + 10 + 10 + 2 + 5 + 100) % 7;
    U32Small(1);
    U32Small(3);
    U32Small(2010);
    U32Small(52);
    assert WeekDay(1, 3, 2010) == U32(1 + 52 / 5 + 10 + 10 / 4 + 20 / 4 - 2 * 20) % 7;
    assert U32(-12) == U32Modulus - 12;
  }

  // ----------------------------------------------------------- make_rss_date

  const ShortMonthNames: seq<string> := ["Jan", "Feb", "Mar", "Apr", "May", "Jun", "Jul", "Aug", "Sep", "Oct", "Nov", "Dec"]

  /** make_rss_date: "%s, %02d %s %d 00:00:00 UTC". */
  function RssDate(day: nat, month: nat, year: nat): string
    requires 1 <= month <= 12
  {
    DayNames[WeekDay(day, month, year)] + ", " + ZeroPad2(day) + " " + ShortMonthNames[month - 1] + " "
      + NatToString(year) + " 00:00:00 UTC"
  }

  lemma {:induction false} DateFields(r: string, a: string, b: string, c: string, d: string)
    requires |a| == 3 && |b| == 2 && |c| == 3
    requires r == a + ", " + b + " " + c + " " + d + " 00:00:00 UTC"
    ensures |r| == 25 + |d|
    ensures r[..3] == a && r[3..5] == ", " && r[5..7] == b && r[7] == ' '
    ensures r[8..11] == c && r[11] == ' ' && r[12..12 + |d|] == d && r[12 + |d|..] == " 00:00:00 UTC"
  {
  }

  /**
   * The publication date in the shape of section 5 of RFC 822: the weekday,
   * the day as two digits, the month abbreviation, the year in full, a
   * midnight time and the zone "UTC".
   */
  lemma {:induction false} RssDateLayout(day: nat, month: nat, year: nat)
    requires 1 <= month <= 12 && day < 100
    ensures var r := RssDate(day, month, year); var n := |r| - 13;
      12 < n
      && r[..3] == DayNames[WeekDay(day, month, year)] && r[3..5] == ", "
      && AllDigits(r[5..7]) && DigitsValue(r[5..7]) == day && r[7] == ' '
      && r[8..11] == ShortMonthNames[month - 1] && r[11] == ' '
      && AllDigits(r[12..n]) && DigitsValue(r[12..n]) == year
      && r[n..] == " 00:00:00 UTC"
  {
    var r := RssDate(day, month, year);
    var a, b, c, d := DayNames[WeekDay(day, month, year)], ZeroPad2(day), ShortMonthNames[month - 1], NatToString(year);
    DateFields(r, a, b, c, d);
    DigitsValueOfNatToString(year);
  }

  /** A year from 1000 to 9999 prints as the four digits of section 5.2.14 of RFC 1123. */
  lemma {:induction false} FourDigitYear(year: nat)
    requires 1000 <= year <= 9999
    ensures |NatToString(year)| == 4
  {
    assert |NatToString(year / 1000)| == 1;
    assert |NatToString(year / 100)| == 2 by {
      assert (year / 100) / 10 == year / 1000;
    }
    assert |NatToString(year / 10)| == 3 by {
      assert (year / 10) / 10 == year / 100;
    }
  }

  // ------------------------------------------------------------ page_compare

  /** page_compare: the negated strcmp of the two dates; a missing date compares as empty. */
  function PageCompare(a: Page, b: Page): (r: int)
    ensures r < 0 <==> Before(ByDate, a, b)
    ensures r > 0 <==> Before(ByDate, b, a)
    ensures r == 0 <==> Key(ByDate, a) == Key(ByDate, b)
  {
    StrCmpAntisymmetric(Key(ByDate, a), Key(ByDate, b));
    StrCmpZero(Key(ByDate, a), Key(ByDate, b));
    -StrCmp(a.date.GetOr(""), b.date.GetOr(""))
  }

  // ------------------------------------------------------------- the sort

  /**
   * The state of one insertion: `s[j]` is the page being moved down; what is
   * in front of it and what is behind it are sorted, nothing behind goes
   * before anything in front, and the moved page strictly precedes every page
   * behind it.
   */
  predicate Inserting(s: seq<Page>, j: nat) {
    j < |s|
    && Sorted(ByDate, s[..j]) && Sorted(ByDate, s[j + 1..])
    && (forall x, y | 0 <= x < j < y < |s| :: !Before(ByDate, s[y], s[x]))
    && (forall y | j < y < |s| :: Before(ByDate, s[j], s[y]))
  }

  lemma {:induction false} InsertingStarts(s: seq<Page>)
    requires |s| > 0 && Sorted(ByDate, s[..|s| - 1])
    ensures Inserting(s, |s| - 1)
  {
  }

  lemma {:induction false} InsertingStep(s: seq<Page>, j: nat)
    requires Inserting(s, j) && 0 < j && Before(ByDate, s[j], s[j - 1])
    ensures Inserting(s[j - 1 := s[j]][j := s[j - 1]], j - 1)
  {
    var t := s[j - 1 := s[j]][j := s[j - 1]];
    assert t[..j - 1] == s[..j - 1];
    InsertingStepBehind(s, j);
    InsertingStepAcross(s, j);
  }

  /** After the swap the entries behind the moving one are still sorted. */
  lemma {:induction false} InsertingStepBehind(s: seq<Page>, j: nat)
    requires Inserting(s, j) && 0 < j && Before(ByDate, s[j], s[j - 1])
    ensures Sorted(ByDate, s[j - 1 := s[j]][j := s[j - 1]][j..])
  {
    var t := s[j - 1 := s[j]][j := s[j - 1]];
    forall x, y | j <= x < y < |t|
      ensures !Before(ByDate, t[y], t[x])
    {
      if x == j {
        assert !Before(ByDate, s[y], s[j - 1]);
      } else {
        assert t[x] == s[j + 1 + (x - j - 1)] && t[y] == s[j + 1 + (y - j - 1)];
      }
    }
    assert forall x, y | 0 <= x < y < |t[j..]| :: t[j..][x] == t[j + x] && t[j..][y] == t[j + y];
  }

  /** After the swap no entry behind the moving one precedes one in front of it. */
  lemma {:induction false} InsertingStepAcross(s: seq<Page>, j: nat)
    requires Inserting(s, j) && 0 < j
    ensures var t := s[j - 1 := s[j]][j := s[j - 1]];
      forall x, y | 0 <= x < j - 1 < y < |t| :: !Before(ByDate, t[y], t[x])
  {
    var t := s[j - 1 := s[j]][j := s[j - 1]];
    forall x, y | 0 <= x < j - 1 < y < |t|
      ensures !Before(ByDate, t[y], t[x])
    {
      if y == j {
        assert s[..j][x] == s[x] && s[..j][j - 1] == s[j - 1];
      }
    }
  }

  lemma {:induction false} InsertingDone(s: seq<Page>, j: nat)
    requires Inserting(s, j) && (j == 0 || !Before(ByDate, s[j], s[j - 1]))
    ensures Sorted(ByDate, s)
  {
    forall x, y | 0 <= x < y < |s|
      ensures !Before(ByDate, s[y], s[x])
    {
      if y == j && x < j - 1 {
        assert s[..j][x] == s[x] && s[..j][j - 1] == s[j - 1];
        NotBeforeTransitive(ByDate, s[j], s[j - 1], s[x]);
      } else if x == j {
        BeforeAsymmetric(ByDate, s[j], s[y]);
      } else if y < j {
        assert s[..j][x] == s[x] && s[..j][y] == s[y];
      } else if j < x {
        assert s[j + 1..][x - j - 1] == s[x] && s[j + 1..][y - j - 1] == s[y];
      }
    }
  }

  /** Exchanges two entries of the array. */
  method Swap(a: array<Page>, x: nat, y: nat, n: nat)
    requires x < y < n <= a.Length
    modifies a
    ensures a[..n] == old(a[..n])[x := old(a[y])][y := old(a[x])]
    ensures multiset(a[..]) == multiset(old(a[..]))
  {
    a[x], a[y] := a[y], a[x];
  }

  /**
   * The qsort of rss_generate: the pages in place, newest first by
   * page_compare. qsort promises a sorted permutation and nothing about pages
   * of equal date, and so does this.
   */
  method SortByDate(a: array<Page>)
    modifies a
    ensures Sorted(ByDate, a[..])
    ensures multiset(a[..]) == multiset(old(a[..]))
  {
    var i := 0;
    while i < a.Length
      invariant i <= a.Length
      invariant Sorted(ByDate, a[..i])
      invariant multiset(a[..]) == multiset(old(a[..]))
    {
      assert a[..i + 1][..i] == a[..i];
      InsertingStarts(a[..i + 1]);
      var j := i;
      while 0 < j && PageCompare(a[j], a[j - 1]) < 0
        invariant j <= i
        invariant Inserting(a[..i + 1], j)
        invariant multiset(a[..]) == multiset(old(a[..]))
      {
        ghost var s := a[..i + 1];
        InsertingStep(s, j);
        Swap(a, j - 1, j, i + 1);
        assert a[..i + 1] == s[j - 1 := s[j]][j := s[j - 1]];
        j := j - 1;
      }
      InsertingDone(a[..i + 1], j);
      i := i + 1;
    }
    assert a[..a.Length] == a[..];
  }

  // -------------------------------------------------------- the description

  /** The first Paragraph among `cs[from..]`, which the loop of rss_generate breaks on. */
  function FirstParagraphFrom(cs: seq<Element>, from: nat): (r: Option<nat>)
    requires from <= |cs|
    ensures r.Some? ==> from <= r.value < |cs| && cs[r.value].kind == Paragraph
    ensures forall i | from <= i < (if r.Some? then r.value else |cs|) :: cs[i].kind != Paragraph
    decreases |cs| - from
  {
    if from == |cs| then None
    else if cs[from].kind == Paragraph then Some(from)
    else FirstParagraphFrom(cs, from + 1)
  }

  /** The texts of the first `k` children, one after the other; a missing text adds nothing. */
  function TextsInto(out: string, cs: seq<Element>, k: nat): string
    requires k <= |cs|
    decreases k
  {
    if k == 0 then out else TextsInto(out, cs, k - 1) + cs[k - 1].text.GetOr("")
  }

  /** The description of an item: the page's own, else the texts of its first paragraph, else nothing. */
  function Description(p: Page): string {
    match p.description
    case Some(d) => d
    case None =>
      match FirstParagraphFrom(p.children, 0)
      case None => ""
      case Some(i) => TextsInto("", p.children[i].children, |p.children[i].children|)
  }

  /** The texts follow what the buffer held, in the order of the children. */
  lemma {:induction false} TextsAfter(out: string, cs: seq<Element>, k: nat)
    requires k <= |cs|
    ensures TextsInto(out, cs, k) == out + TextsInto("", cs, k)
    decreases k
  {
    if k > 0 {
      TextsAfter(out, cs, k - 1);
    }
  }

  /** The description loop of rss_generate. */
  method AppendDescription(out: string, p: Page) returns (r: string)
    ensures r == out + Description(p)
  {
    if p.description.Some? {
      r := out + p.description.value;
      return;
    }
    r := out;
    for i := 0 to |p.children|
      invariant FirstParagraphFrom(p.children, 0) == FirstParagraphFrom(p.children, i)
      invariant r == out
    {
      var child := p.children[i];
      if child.kind == Paragraph {
        for j := 0 to |child.children|
          invariant r == TextsInto(out, child.children, j)
        {
          r := r + child.children[j].text.GetOr("");
        }
        TextsAfter(out, child.children, |child.children|);
        break;
      }
    }
  }

  // ------------------------------------------------------------- the feed

  /** Only pages without a parent become items, and they need a month in 1..12 for their date. */
  predicate Emittable(p: Page) {
    p.parent.Some? || 1 <= p.month <= 12
  }

  /** The opening lines of the feed, each after its indentation. */
  const Channel: string := "<rss xmlns:atom=\"http://www.w3.org/2005/Atom\" version=\"2.0\">\n"
    + "  " + "<channel>\n"
    + "    " + "<title>Amiga Geek</title>\n"
    + "    " + "<link>https://amigageek.com/</link>\n"
    + "    " + "<description>Antiquated adventures of a nostalgic engineer</description>\n"

  /** The closing lines of the feed. */
  const ChannelEnd: string := "  " + "</channel>\n" + "</rss>\n"

  function HeaderInto(out: string): string {
    var o1 := Indented(out, "<rss xmlns:atom=\"http://www.w3.org/2005/Atom\" version=\"2.0\">\n", 0);
    var o2 := Indented(o1, "<channel>\n", 1);
    var o3 := Indented(o2, "<title>Amiga Geek</title>\n", 2);
    var o4 := Indented(o3, "<link>https://amigageek.com/</link>\n", 2);
    Indented(o4, "<description>Antiquated adventures of a nostalgic engineer</description>\n", 2)
  }

  function FooterInto(out: string): string {
    Indented(Indented(out, "</channel>\n", 1), "</rss>\n", 0)
  }

  /** One line of an item: the opening tag at depth 3, the value, the closing tag. */
  function FieldInto(out: string, open: string, value: string, close: string): string {
    Indented(out, open, 3) + value + close
  }

  lemma {:induction false} FieldAfter(front: string, out: string, open: string, value: string, close: string)
    ensures FieldInto(front + out, open, value, close) == front + FieldInto(out, open, value, close)
  {
    IndentedAfter(front, out, open, 3);
  }

  /** The `<item>` of one page. */
  function ItemInto(out: string, p: Page): string
    requires 1 <= p.month <= 12
  {
    var o1 := Indented(out, "<item>\n", 2);
    var o2 := FieldInto(o1, "<title>", p.title.GetOr(""), "</title>\n");
    var o3 := FieldInto(o2, "<link>https://amigageek.com/", p.relativeUrl, "</link>\n");
    var o4 := FieldInto(o3, "<pubDate>", RssDate(p.day, p.month, p.year), "</pubDate>\n");
    var o5 := FieldInto(o4, "<description>", Description(p), "</description>\n");
    Indented(o5, "</item>\n", 2)
  }

  predicate AllEmittable(s: seq<Page>) {
    forall i | 0 <= i < |s| :: Emittable(s[i])
  }

  /** The buffer after the first `k` pages of the loop: child pages add nothing. */
  function ItemsInto(out: string, s: seq<Page>, k: nat): string
    requires k <= |s| && AllEmittable(s)
    decreases k
  {
    if k == 0 then out else ItemStep(ItemsInto(out, s, k - 1), s[k - 1])
  }

  /** One pass of the loop: a child page is skipped, any other page appends its item. */
  function ItemStep(out: string, p: Page): string
    requires Emittable(p)
  {
    if p.parent.Some? then out else ItemInto(out, p)
  }

  /** rss_generate's output for pages in the order given. */
  function Feed(s: seq<Page>): string
    requires AllEmittable(s)
  {
    FooterInto(ItemsInto(HeaderInto(""), s, |s|))
  }

  /** What one page adds to the feed: its item, or nothing for a child page. */
  function ItemText(p: Page): string
    requires Emittable(p)
  {
    if p.parent.Some? then "" else ItemInto("", p)
  }

  /** The items of the pages of `s`, one per page without a parent, in the order of `s`. */
  function Items(s: seq<Page>): string
    requires AllEmittable(s)
  {
    if s == [] then "" else Items(s[..|s| - 1]) + ItemText(s[|s| - 1])
  }

  /** The pages of `s` that have no parent. */
  function TopLevel(s: seq<Page>): (r: seq<Page>)
    ensures forall i | 0 <= i < |r| :: r[i].parent.None? && r[i] in s
  {
    if s == [] then []
    else TopLevel(s[..|s| - 1]) + (if s[|s| - 1].parent.Some? then [] else [s[|s| - 1]])
  }

  lemma {:induction false} ItemsSnoc(init: seq<Page>, last: Page)
    requires AllEmittable(init) && Emittable(last)
    ensures AllEmittable(init + [last])
    ensures Items(init + [last]) == Items(init) + ItemText(last)
  {
    var s := init + [last];
    assert s[..|s| - 1] == init;
  }

  lemma {:induction false} TopLevelSnoc(init: seq<Page>, last: Page)
    ensures TopLevel(init + [last]) == TopLevel(init) + (if last.parent.Some? then [] else [last])
  {
    var s := init + [last];
    assert s[..|s| - 1] == init;
  }

  lemma {:induction false} ItemAfter(out: string, p: Page)
    requires 1 <= p.month <= 12
    ensures ItemInto(out, p) == out + ItemInto("", p)
  {
    AppendEmpty(out);
    IndentedAfter(out, "", "<item>\n", 2);
    var b1 := Indented("", "<item>\n", 2);
    FieldAfter(out, b1, "<title>", p.title.GetOr(""), "</title>\n");
    var b2 := FieldInto(b1, "<title>", p.title.GetOr(""), "</title>\n");
    FieldAfter(out, b2, "<link>https://amigageek.com/", p.relativeUrl, "</link>\n");
    var b3 := FieldInto(b2, "<link>https://amigageek.com/", p.relativeUrl, "</link>\n");
    FieldAfter(out, b3, "<pubDate>", RssDate(p.day, p.month, p.year), "</pubDate>\n");
    var b4 := FieldInto(b3, "<pubDate>", RssDate(p.day, p.month, p.year), "</pubDate>\n");
    FieldAfter(out, b4, "<description>", Description(p), "</description>\n");
    var b5 := FieldInto(b4, "<description>", Description(p), "</description>\n");
    IndentedAfter(out, b5, "</item>\n", 2);
  }

  /** One pass of the loop appends what the page adds to the feed. */
  lemma {:induction false} ItemStepAfter(out: string, p: Page)
    requires Emittable(p)
    ensures ItemStep(out, p) == out + ItemText(p)
  {
    if p.parent.None? {
      ItemAfter(out, p);
    } else {
      AppendEmpty(out);
    }
  }

  /** The loop appends the items of the pages it has passed, in their order. */
  lemma {:induction false} ItemsInOrder(out: string, s: seq<Page>, k: nat)
    requires k <= |s| && AllEmittable(s)
    ensures AllEmittable(s[..k])
    ensures ItemsInto(out, s, k) == out + Items(s[..k])
    decreases k
  {
    if k == 0 {
      AppendEmpty(out);
    } else {
      ItemsInOrder(out, s, k - 1);
      ItemsInOrderStep(out, s, k);
    }
  }

  lemma {:induction false} ItemsInOrderStep(out: string, s: seq<Page>, k: nat)
    requires 0 < k <= |s| && AllEmittable(s)
    requires ItemsInto(out, s, k - 1) == out + Items(s[..k - 1])
    ensures AllEmittable(s[..k])
    ensures ItemsInto(out, s, k) == out + Items(s[..k])
  {
    var init, last := s[..k - 1], s[k - 1];
    var before := ItemsInto(out, s, k - 1);
    assert AllEmittable(s[..k]) && Items(s[..k]) == Items(init) + ItemText(last) by {
      TakeSnoc(s, k);
      ItemsSnoc(init, last);
    }
    assert ItemsInto(out, s, k) == before + ItemText(last) by {
      ItemStepAfter(before, last);
    }
    ConcatAssociative(out, Items(init), ItemText(last));
  }

  /** Child pages contribute nothing: the items are those of the top-level pages alone. */
  lemma {:induction false} ChildPagesSkipped(s: seq<Page>)
    requires AllEmittable(s)
    ensures AllEmittable(TopLevel(s))
    ensures Items(s) == Items(TopLevel(s))
    decreases |s|
  {
    if s != [] {
      var init, last := s[..|s| - 1], s[|s| - 1];
      assert s == init + [last];
      ChildPagesSkipped(init);
      ItemsSnoc(init, last);
      TopLevelSnoc(init, last);
      if last.parent.None? {
        ItemsSnoc(TopLevel(init), last);
      } else {
        AppendEmpty(TopLevel(init));
        AppendEmpty(Items(init));
      }
    }
  }

  lemma {:induction false} HeaderText()
    ensures HeaderInto("") == Channel
  {
    var l1 := "<rss xmlns:atom=\"http://www.w3.org/2005/Atom\" version=\"2.0\">\n";
    assert Indented("", l1, 0) == l1;
    SpacesLiterals();
    IndentedIsSpaces(l1, "<channel>\n", 1);
    var o2 := l1 + "  " + "<channel>\n";
    IndentedIsSpaces(o2, "<title>Amiga Geek</title>\n", 2);
    var o3 := o2 + "    " + "<title>Amiga Geek</title>\n";
    IndentedIsSpaces(o3, "<link>https://amigageek.com/</link>\n", 2);
    var o4 := o3 + "    " + "<link>https://amigageek.com/</link>\n";
    IndentedIsSpaces(o4, "<description>Antiquated adventures of a nostalgic engineer</description>\n", 2);
  }

  lemma {:induction false} FooterText(out: string)
    ensures FooterInto(out) == out + ChannelEnd
  {
    SpacesLiterals();
    IndentedIsSpaces(out, "</channel>\n", 1);
    IndentedIsSpaces(out + "  " + "</channel>\n", "</rss>\n", 0);
  }

  lemma SpacesLiterals()
    ensures Spaces(0) == "" && Spaces(2) == "  " && Spaces(4) == "    "
  {
  }

  /**
   * The feed opens the rss element and its channel with the site's title,
   * link and description, lists an item for each top-level page in the
   * order of the pages, and closes the channel and the rss element.
   */
  lemma {:induction false} FeedLayout(s: seq<Page>)
    requires AllEmittable(s)
    ensures Feed(s) == Channel + Items(s) + ChannelEnd
  {
    ItemsInOrder(HeaderInto(""), s, |s|);
    assert s[..|s|] == s;
    HeaderText();
    FooterText(HeaderInto("") + Items(s));
  }

  // ------------------------------------------------------------- the methods

  /** Reordering the pages keeps every one of them emittable. */
  lemma {:induction false} EmittableKept(before: seq<Page>, after: seq<Page>)
    requires AllEmittable(before) && multiset(after) == multiset(before)
    ensures AllEmittable(after)
  {
    forall i | 0 <= i < |after|
      ensures Emittable(after[i])
    {
      assert after[i] in multiset(before);
    }
  }

  /** The opening lines of rss_generate. */
  method AppendChannel(out: string) returns (r: string)
    ensures r == HeaderInto(out)
  {
    r := AppendIndent(out, "<rss xmlns:atom=\"http://www.w3.org/2005/Atom\" version=\"2.0\">\n", 0);
    r := AppendIndent(r, "<channel>\n", 1);
    r := AppendIndent(r, "<title>Amiga Geek</title>\n", 2);
    r := AppendIndent(r, "<link>https://amigageek.com/</link>\n", 2);
    r := AppendIndent(r, "<description>Antiquated adventures of a nostalgic engineer</description>\n", 2);
  }

  /** The appends of one `<item>`. */
  method AppendItem(out: string, p: Page) returns (r: string)
    requires 1 <= p.month <= 12
    ensures r == ItemInto(out, p)
  {
    r := AppendIndent(out, "<item>\n", 2);
    r := AppendIndent(r, "<title>", 3);
    r := r + p.title.GetOr("") + "</title>\n";
    r := AppendIndent(r, "<link>https://amigageek.com/", 3);
    r := r + p.relativeUrl + "</link>\n";
    r := AppendIndent(r, "<pubDate>", 3);
    var date := RssDate(p.day, p.month, p.year);
    r := r + date + "</pubDate>\n";
    r := AppendIndent(r, "<description>", 3);
    r := AppendDescription(r, p);
    r := r + "</description>\n";
    r := AppendIndent(r, "</item>\n", 2);
  }

  /** The item loop of rss_generate, which passes over child pages. */
  method AppendItems(out: string, pages: seq<Page>) returns (r: string)
    requires AllEmittable(pages)
    ensures r == ItemsInto(out, pages, |pages|)
  {
    r := out;
    for i := 0 to |pages|
      invariant r == ItemsInto(out, pages, i)
    {
      var page := pages[i];
      assert ItemsInto(out, pages, i + 1) == ItemStep(r, page);
      if page.parent.Some? {
        continue;
      }
      r := AppendItem(r, page);
    }
  }

  /**
   * rss_generate. It sorts the caller's pages in place, newest first, then
   * emits an item for each page without a parent. Every page needs a date
   * for page_compare, and every top-level page a title and a month in 1..12
   * for its item.
   */
  method RssGenerate(pages: array<Page>) returns (r: string)
    requires forall i | 0 <= i < pages.Length :: pages[i].date.Some?
    requires forall i | 0 <= i < pages.Length ::
      pages[i].parent.None? ==> pages[i].title.Some? && 1 <= pages[i].month <= 12
    modifies pages
    ensures Sorted(ByDate, pages[..])
    ensures multiset(pages[..]) == multiset(old(pages[..]))
    ensures AllEmittable(pages[..])
    ensures r == Feed(pages[..])
  {
    r := AppendChannel("");
    ghost var before := pages[..];
    assert AllEmittable(before);
    SortByDate(pages);
    EmittableKept(before, pages[..]);
    r := AppendItems(r, pages[..]);
    r := AppendIndent(r, "</channel>\n", 1);
    r := AppendIndent(r, "</rss>\n", 0);
  }
}
