/**
 * html_generate_root: the home page. Every page with a description is a
 * project, every other page a post; projects are listed ascending by title
 * and posts descending by date, each list built by inserting pages one at a
 * time in the order of the page collection.
 */
module RootIndex {
  import opened Wrappers
  import opened Strings
  import opened Document
  import opened Common
  import opened PageOrder
  import opened Html

  /** A page goes to the projects list exactly when it has a description. */
  function OrderFor(described: bool): Order {
    if described then ByTitle else ByDate
  }

  /**
   * project_pages (`described`) or post_pages (not) once the first `n` pages
   * have been inserted.
   */
  function ListOf(pages: seq<Page>, n: nat, described: bool): seq<Page>
    requires n <= |pages|
    decreases n
  {
    if n == 0 then []
    else
      var list := ListOf(pages, n - 1, described);
      if pages[n - 1].description.Some? == described then Insert(OrderFor(described), list, pages[n - 1])
      else list
  }

  /** The pages of `s` with (or without) a description, in their order in `s`. */
  function Filter(s: seq<Page>, described: bool): seq<Page> {
    if s == [] then []
    else Filter(s[..|s| - 1], described) + (if s[|s| - 1].description.Some? == described then [s[|s| - 1]] else [])
  }

  lemma {:induction false} FilterPrefix(pages: seq<Page>, n: nat, described: bool)
    requires 0 < n <= |pages|
    ensures Filter(pages[..n], described)
      == Filter(pages[..n - 1], described) + (if pages[n - 1].description.Some? == described then [pages[n - 1]] else [])
  {
    assert pages[..n][..n - 1] == pages[..n - 1];
  }

  /** Each list holds exactly the pages of its kind, each as often as in the collection. */
  lemma {:induction false} ListIsFilter(pages: seq<Page>, n: nat, described: bool)
    requires n <= |pages|
    ensures multiset(ListOf(pages, n, described)) == multiset(Filter(pages[..n], described))
    decreases n
  {
    if n > 0 {
      ListIsFilter(pages, n - 1, described);
      FilterPrefix(pages, n, described);
      if pages[n - 1].description.Some? == described {
        InsertAddsOne(OrderFor(described), ListOf(pages, n - 1, described), pages[n - 1]);
      }
    }
  }

  /** Every page is either kept by the filter or dropped by it, never both. */
  lemma {:induction false} FiltersSplit(s: seq<Page>)
    ensures multiset(Filter(s, true)) + multiset(Filter(s, false)) == multiset(s)
    ensures forall q | q in Filter(s, true) :: q.description.Some?
    ensures forall q | q in Filter(s, false) :: q.description.None?
    decreases |s|
  {
    if s != [] {
      var init := s[..|s| - 1];
      FiltersSplit(init);
      assert s == init + [s[|s| - 1]];
    }
  }

  /**
   * Every page of the collection lands in exactly one of the two lists:
   * together they are the collection, projects all have a description and
   * posts none. Parents and pages kept out of the index are listed too.
   */
  lemma {:induction false} EveryPageListedOnce(pages: seq<Page>)
    ensures multiset(ListOf(pages, |pages|, true)) + multiset(ListOf(pages, |pages|, false)) == multiset(pages)
    ensures forall q | q in ListOf(pages, |pages|, true) :: q.description.Some?
    ensures forall q | q in ListOf(pages, |pages|, false) :: q.description.None?
  {
    ListIsFilter(pages, |pages|, true);
    ListIsFilter(pages, |pages|, false);
    assert pages[..|pages|] == pages;
    FiltersSplit(pages);
    forall q | q in ListOf(pages, |pages|, true)
      ensures q.description.Some?
    {
      assert q in multiset(ListOf(pages, |pages|, true));
      assert q in Filter(pages, true);
    }
    forall q | q in ListOf(pages, |pages|, false)
      ensures q.description.None?
    {
      assert q in multiset(ListOf(pages, |pages|, false));
      assert q in Filter(pages, false);
    }
  }

  /** Projects ascend by title and posts descend by date (strcmp order). */
  lemma {:induction false} ListSorted(pages: seq<Page>, n: nat, described: bool)
    requires n <= |pages|
    ensures Sorted(OrderFor(described), ListOf(pages, n, described))
    decreases n
  {
    if n > 0 {
      ListSorted(pages, n - 1, described);
      if pages[n - 1].description.Some? == described {
        InsertSorted(OrderFor(described), ListOf(pages, n - 1, described), pages[n - 1]);
      }
    }
  }

  /**
   * Pages with equal keys keep the order of the collection: the pages of
   * one title (or one date) appear in the list as they appear among the
   * pages of their kind.
   */
  lemma {:induction false} ListStable(pages: seq<Page>, n: nat, described: bool, k: string)
    requires n <= |pages|
    ensures WithKey(OrderFor(described), ListOf(pages, n, described), k)
      == WithKey(OrderFor(described), Filter(pages[..n], described), k)
    decreases n
  {
    if n > 0 {
      ListStable(pages, n - 1, described, k);
      ListStableStep(pages, n, described, k);
    }
  }

  lemma {:induction false} ListStableStep(pages: seq<Page>, n: nat, described: bool, k: string)
    requires 0 < n <= |pages|
    requires WithKey(OrderFor(described), ListOf(pages, n - 1, described), k)
      == WithKey(OrderFor(described), Filter(pages[..n - 1], described), k)
    ensures WithKey(OrderFor(described), ListOf(pages, n, described), k)
      == WithKey(OrderFor(described), Filter(pages[..n], described), k)
  {
    var o := OrderFor(described);
    var list, f, p := ListOf(pages, n - 1, described), Filter(pages[..n - 1], described), pages[n - 1];
    FilterPrefix(pages, n, described);
    if p.description.Some? == described {
      assert ListOf(pages, n, described) == Insert(o, list, p);
      ListSorted(pages, n - 1, described);
      InsertStable(o, list, p, k);
      WithKeyAppend(o, list, [p], k);
      WithKeyAppend(o, f, [p], k);
    } else {
      assert ListOf(pages, n, described) == list;
      AppendEmpty(f);
    }
  }

  // ----------------------------------------------------------- the listing

  /** The heading of a list: its name at INDENT, then the table it opens. */
  function ListHeadingInto(out: string, name: string): string {
    var o1 := Indented(out, "<p class=\"heading\"><font size=\"+2\"><b>", BodyIndent) + name + "</b></font></p>\n";
    Indented(o1, "<table class=\"table\" cellspacing=\"0\" cellpadding=\"0\">\n", BodyIndent)
  }

  /** The spacer row in front of every entry and at the end of the projects. */
  function SpacerInto(out: string): string {
    var o1 := Indented(out, "<tr>\n", BodyIndent + 1);
    var o2 := Indented(o1, "<td class=\"vspace\" height=\"10\"></td></tr>\n", BodyIndent + 2);
    Indented(o2, "</tr>\n", BodyIndent + 1)
  }

  function HSpaceInto(out: string): string {
    Indented(out, "<td class=\"hspace\" width=\"10\"></td>\n", BodyIndent + 2)
  }

  /** The cell linking to a page under its title. */
  function LinkCellInto(out: string, p: Page): string {
    Indented(out, "<td><a href=\"", BodyIndent + 2) + p.relativeUrl + "\">" + p.title.GetOr("") + "</a></td>\n"
  }

  /** A plain cell. */
  function CellInto(out: string, text: string): string {
    Indented(out, "<td>", BodyIndent + 2) + text + "</td>\n"
  }

  /** One project: the link, then the description. */
  function ProjectRowInto(out: string, p: Page): string {
    var o1 := Indented(SpacerInto(out), "<tr>\n", BodyIndent + 1);
    var o2 := LinkCellInto(HSpaceInto(o1), p);
    var o3 := CellInto(HSpaceInto(o2), p.description.GetOr(""));
    Indented(HSpaceInto(o3), "</tr>\n", BodyIndent + 1)
  }

  /** One post: the date, then the link. */
  function PostRowInto(out: string, p: Page): string {
    var o1 := Indented(SpacerInto(out), "<tr>\n", BodyIndent + 1);
    var o2 := CellInto(HSpaceInto(o1), p.date.GetOr(""));
    var o3 := LinkCellInto(HSpaceInto(o2), p);
    Indented(HSpaceInto(o3), "</tr>\n", BodyIndent + 1)
  }

  /** The rows of the first `k` entries of a list, in list order. */
  function RowsInto(out: string, list: seq<Page>, k: nat, described: bool): string
    requires k <= |list|
    decreases k
  {
    if k == 0 then out
    else
      var o := RowsInto(out, list, k - 1, described);
      if described then ProjectRowInto(o, list[k - 1]) else PostRowInto(o, list[k - 1])
  }

  /** Between the lists: the closing spacer, the rule, the posts heading. */
  function BetweenListsInto(out: string): string {
    var o1 := Indented(SpacerInto(out), "</table>\n", BodyIndent);
    var o2 := Indented(o1, "<table width=\"100%\" cellspacing=\"0\" cellpadding=\"0\">\n", BodyIndent);
    var o3 := Indented(o2, "<tr>\n", BodyIndent + 1);
    var o4 := Indented(o3, "<td class=\"hrule\" height=\"1\" bgcolor=\"#383860\"></td>\n", BodyIndent + 2);
    var o5 := Indented(o4, "</tr>\n", BodyIndent + 1);
    var o6 := Indented(o5, "</table>\n", BodyIndent);
    ListHeadingInto(o6, "Recent posts")
  }

  /** The body html_generate_root builds from the two lists. */
  function RootBody(pages: seq<Page>): string {
    var projects := ListOf(pages, |pages|, true);
    var posts := ListOf(pages, |pages|, false);
    var o1 := RowsInto(ListHeadingInto("", "Projects"), projects, |projects|, true);
    var o2 := RowsInto(BetweenListsInto(o1), posts, |posts|, false);
    Indented(o2, "</table>\n", BodyIndent)
  }

  /** html_generate_root: the template with the body and the title "Home | Amiga Geek". */
  function RootHtml(template: string, pages: seq<Page>): string {
    Substitute(template, RootBody(pages), "Home | Amiga Geek")
  }

  /** In a template with `$TITLE` in front of `$BODY`, the markers give way to the title and the index. */
  lemma {:induction false} RootHtmlLayout(pre: string, mid: string, post: string, pages: seq<Page>)
    requires '$' !in pre && '$' !in mid
    ensures RootHtml(pre + "$TITLE" + mid + "$BODY" + post, pages)
      == pre + "Home | Amiga Geek" + (mid + RootBody(pages) + post)
  {
    SubstituteTemplate(pre, mid, post, RootBody(pages), "Home | Amiga Geek");
  }

  lemma {:induction false} SpacerShift(out: string, b: string)
    ensures SpacerInto(out + b) == out + SpacerInto(b)
  {
    var a1 := Indented(b, "<tr>\n", BodyIndent + 1);
    IndentedAfter(out, b, "<tr>\n", BodyIndent + 1);
    var a2 := Indented(a1, "<td class=\"vspace\" height=\"10\"></td></tr>\n", BodyIndent + 2);
    IndentedAfter(out, a1, "<td class=\"vspace\" height=\"10\"></td></tr>\n", BodyIndent + 2);
    IndentedAfter(out, a2, "</tr>\n", BodyIndent + 1);
  }

  lemma {:induction false} LinkCellShift(out: string, b: string, p: Page)
    ensures LinkCellInto(out + b, p) == out + LinkCellInto(b, p)
  {
    IndentedAfter(out, b, "<td><a href=\"", BodyIndent + 2);
  }

  lemma {:induction false} CellShift(out: string, b: string, text: string)
    ensures CellInto(out + b, text) == out + CellInto(b, text)
  {
    IndentedAfter(out, b, "<td>", BodyIndent + 2);
  }

  /** The row of one page does not depend on what the buffer held before it. */
  lemma {:induction false} RowShift(out: string, p: Page, described: bool)
    ensures (if described then ProjectRowInto(out, p) else PostRowInto(out, p))
      == out + (if described then ProjectRowInto("", p) else PostRowInto("", p))
  {
    assert out + "" == out;
    SpacerShift(out, "");
    var s := SpacerInto("");
    var b1 := Indented(s, "<tr>\n", BodyIndent + 1);
    IndentedAfter(out, s, "<tr>\n", BodyIndent + 1);
    var b2 := HSpaceInto(b1);
    IndentedAfter(out, b1, "<td class=\"hspace\" width=\"10\"></td>\n", BodyIndent + 2);
    var b3 := if described then LinkCellInto(b2, p) else CellInto(b2, p.date.GetOr(""));
    if described {
      LinkCellShift(out, b2, p);
    } else {
      CellShift(out, b2, p.date.GetOr(""));
    }
    var b4 := HSpaceInto(b3);
    IndentedAfter(out, b3, "<td class=\"hspace\" width=\"10\"></td>\n", BodyIndent + 2);
    var b5 := if described then CellInto(b4, p.description.GetOr("")) else LinkCellInto(b4, p);
    if described {
      CellShift(out, b4, p.description.GetOr(""));
    } else {
      LinkCellShift(out, b4, p);
    }
    var b6 := HSpaceInto(b5);
    IndentedAfter(out, b5, "<td class=\"hspace\" width=\"10\"></td>\n", BodyIndent + 2);
    IndentedAfter(out, b6, "</tr>\n", BodyIndent + 1);
  }

  /** The row of a page alone. */
  function Row(p: Page, described: bool): string {
    if described then ProjectRowInto("", p) else PostRowInto("", p)
  }

  /** The rows of a list, one per entry, concatenated in list order. */
  function Rows(list: seq<Page>, k: nat, described: bool): string
    requires k <= |list|
    decreases k
  {
    if k == 0 then "" else Rows(list, k - 1, described) + Row(list[k - 1], described)
  }

  /** The index holds one row per entry, in the order of the list, after what came before. */
  lemma {:induction false} RowsInListOrder(out: string, list: seq<Page>, k: nat, described: bool)
    requires k <= |list|
    ensures RowsInto(out, list, k, described) == out + Rows(list, k, described)
    decreases k
  {
    if k == 0 {
      assert out + "" == out;
    } else {
      RowsInListOrder(out, list, k - 1, described);
      RowShift(RowsInto(out, list, k - 1, described), list[k - 1], described);
    }
  }

  // ----------------------------------------------------------- the methods

  /** The scan of html_generate_root for the first entry the page goes before. */
  method FindInsertPosition(o: Order, list: seq<Page>, p: Page) returns (at: nat)
    ensures at == InsertPosition(o, list, p)
  {
    at := 0;
    while at < |list|
      invariant at <= |list|
      invariant forall j | 0 <= j < at :: !Before(o, p, list[j])
    {
      if Before(o, p, list[at]) {
        break;
      }
      at := at + 1;
    }
    InsertPositionIs(o, list, p, at);
  }

  /** The first loop of html_generate_root: the projects and the posts, in order. */
  method SortPages(pages: seq<Page>) returns (projects: seq<Page>, posts: seq<Page>)
    ensures projects == ListOf(pages, |pages|, true)
    ensures posts == ListOf(pages, |pages|, false)
  {
    projects := [];
    posts := [];
    for i := 0 to |pages|
      invariant projects == ListOf(pages, i, true)
      invariant posts == ListOf(pages, i, false)
    {
      var page := pages[i];
      if page.description.Some? {
        var at := FindInsertPosition(ByTitle, projects, page);
        projects := projects[..at] + [page] + projects[at..];
      } else {
        var at := FindInsertPosition(ByDate, posts, page);
        posts := posts[..at] + [page] + posts[at..];
      }
    }
  }

  method AppendSpacer(out: string) returns (r: string)
    ensures r == SpacerInto(out)
  {
    r := AppendIndent(out, "<tr>\n", BodyIndent + 1);
    r := AppendIndent(r, "<td class=\"vspace\" height=\"10\"></td></tr>\n", BodyIndent + 2);
    r := AppendIndent(r, "</tr>\n", BodyIndent + 1);
  }

  method AppendListHeading(out: string, name: string) returns (r: string)
    ensures r == ListHeadingInto(out, name)
  {
    r := AppendIndent(out, "<p class=\"heading\"><font size=\"+2\"><b>", BodyIndent);
    r := r + name + "</b></font></p>\n";
    r := AppendIndent(r, "<table class=\"table\" cellspacing=\"0\" cellpadding=\"0\">\n", BodyIndent);
  }

  /** The appends of one entry of either list. */
  method AppendRow(out: string, p: Page, described: bool) returns (r: string)
    ensures r == if described then ProjectRowInto(out, p) else PostRowInto(out, p)
  {
    r := AppendSpacer(out);
    r := AppendIndent(r, "<tr>\n", BodyIndent + 1);
    r := AppendIndent(r, "<td class=\"hspace\" width=\"10\"></td>\n", BodyIndent + 2);
    if described {
      r := AppendIndent(r, "<td><a href=\"", BodyIndent + 2);
      r := r + p.relativeUrl + "\">" + p.title.GetOr("") + "</a></td>\n";
      r := AppendIndent(r, "<td class=\"hspace\" width=\"10\"></td>\n", BodyIndent + 2);
      r := AppendIndent(r, "<td>", BodyIndent + 2);
      r := r + p.description.GetOr("") + "</td>\n";
    } else {
      r := AppendIndent(r, "<td>", BodyIndent + 2);
      r := r + p.date.GetOr("") + "</td>\n";
      r := AppendIndent(r, "<td class=\"hspace\" width=\"10\"></td>\n", BodyIndent + 2);
      r := AppendIndent(r, "<td><a href=\"", BodyIndent + 2);
      r := r + p.relativeUrl + "\">" + p.title.GetOr("") + "</a></td>\n";
    }
    r := AppendIndent(r, "<td class=\"hspace\" width=\"10\"></td>\n", BodyIndent + 2);
    r := AppendIndent(r, "</tr>\n", BodyIndent + 1);
  }

  /** The row loops of html_generate_root over one list. */
  method AppendRows(out: string, list: seq<Page>, described: bool) returns (r: string)
    ensures r == RowsInto(out, list, |list|, described)
  {
    r := out;
    for i := 0 to |list|
      invariant r == RowsInto(out, list, i, described)
    {
      r := AppendRow(r, list[i], described);
    }
  }

  method AppendBetweenLists(out: string) returns (r: string)
    ensures r == BetweenListsInto(out)
  {
    r := AppendSpacer(out);
    r := AppendIndent(r, "</table>\n", BodyIndent);
    r := AppendIndent(r, "<table width=\"100%\" cellspacing=\"0\" cellpadding=\"0\">\n", BodyIndent);
    r := AppendIndent(r, "<tr>\n", BodyIndent + 1);
    r := AppendIndent(r, "<td class=\"hrule\" height=\"1\" bgcolor=\"#383860\"></td>\n", BodyIndent + 2);
    r := AppendIndent(r, "</tr>\n", BodyIndent + 1);
    r := AppendIndent(r, "</table>\n", BodyIndent);
    r := AppendListHeading(r, "Recent posts");
  }

  /**
   * html_generate_root. The C code prints every title and compares the
   * titles of projects and the dates of posts with strcmp, so each page
   * must have a title and each page without a description a date.
   */
  method HtmlGenerateRoot(template: string, pages: seq<Page>) returns (r: string)
    requires forall i | 0 <= i < |pages| :: pages[i].title.Some? && (pages[i].description.Some? || pages[i].date.Some?)
    ensures r == RootHtml(template, pages)
  {
    var projects, posts := SortPages(pages);
    var body := AppendListHeading("", "Projects");
    body := AppendRows(body, projects, true);
    body := AppendBetweenLists(body);
    body := AppendRows(body, posts, false);
    body := AppendIndent(body, "</table>\n", BodyIndent);
    r := ReplaceFirst(template, "$BODY", body);
    r := ReplaceFirst(r, "$TITLE", "Home | Amiga Geek");
  }
}
