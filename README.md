# amigageek-publisher core, modelled in Dafny

amigageek-publisher turns a directory of Markdown pages into a static web site
and an RSS feed. This project models the part that does the work on text:

- the Markdown-dialect compiler of `markdown.c`:
  - the front-matter reader (`parse_front_matter`);
  - the block state machine (`parse_blocks`);
  - the inline state machine (`parse_inlines`);
  - element construction and escaping (`append_element`, `escape_string`);
  - the entry points `markdown_parse_all` and `markdown_parse_frontmatter`;
- the HTML renderer of `html.c`:
  - the human date (`make_formatted_date`);
  - the recursive element walk (`generate_element`);
  - the page (`html_generate`) and the root index (`html_generate_root`);
  - the half-size image name and size arithmetic of `generate_image_tags`;
- the RSS feed of `rss.c`:
  - `week_day`, `make_rss_date` and `page_compare`;
  - `rss_generate`, with its in-place sort of the page array;
- `string_append_indent` of `common.c`, the indentation primitive every
  renderer uses.

Pages and elements are the datatypes of `common.h` (`Document`). A C
`char*` buffer that a function extends in place is an in/out `string`.
Each loop of the C code is a Dafny `method` with a `while` or `for` loop.
That method is proved equal to a recursive specification function. The
properties the program promises are lemmas about those functions. The sort
of `rss_generate` works in place on an `array<Page>`.

Modules:

- `Wrappers`: `Option` and `Result`.
- `Strings`: the helpers of the utility library and the C library, as
  sequence operations: replace-first, lower-casing, `%u`/`%02d`, digit
  scanning and `strcmp`.
- `Document`: the element and page types.
- `Escaping`: `escape_string`.
- `Elements`: `append_element`.
- `FrontMatterParser`: `parse_front_matter`.
- `InlineParser`: `parse_inlines`.
- `BlockParser`: `parse_blocks`, `markdown_parse_all` and `markdown_parse_frontmatter`.
- `BlockFacts`: worked documents and the properties of the block grouping.
- `Common`: `string_append_indent`.
- `Html`: `make_formatted_date`, `generate_element`, `html_generate` and the image tags.
- `PageOrder`: the orders `strcmp` induces on titles and dates, and insertion.
- `RootIndex`: `html_generate_root`.
- `Rss`: `rss.c`.

## Model

| member | source | states |
|---|---|---|
| Common.AppendIndent | common.c:43-52 | the caller's buffer ends as `Indented(buffer, suffix, indent)`: `"  "` appended `indent` times, then the suffix |
| Common.IndentedIsSpaces | common.c:45-49 | the appends add exactly `2 * indent` blanks and then the suffix to the old buffer |
| Common.IndentedShape | common.c:45-49 | the length grows by `2 * indent + |suffix|`; the old buffer is a prefix of the result; the blanks and then the suffix follow it; with indent 0 it is a plain append |
| Common.IndentedAfter | common.c:45-49 | what the buffer already held does not change what the call appends |
| Escaping.EscapeString | markdown.c:315-345 | the in-place splicing loop leaves `Escape(s)`: every backslash deleted, each `<` as `&lt;`, each `&` as `&amp;`, the rest in order |
| Escaping.EscapeAt | markdown.c:321-337 | one pass on the character at `index`: it is spliced out and its replacement spliced in, and the index steps over the replacement |
| Escaping.EscapeLoopStep | markdown.c:320-342 | the loop invariant (escaped prefix, untouched rest, index at the boundary) survives one pass |
| Escaping.EscapeAppend | markdown.c:320-342 | escaping works character by character: the escape of a concatenation is the concatenation of the escapes |
| Escaping.EscapeLength | markdown.c:322-334 | the length is `len - #'\' + 3·#'<' + 4·#'&'` |
| Escaping.EscapeRemovesMeta | markdown.c:322-334 | no backslash and no `<` survives |
| Escaping.EscapeIdentity | markdown.c:335-337 | escaping changes a payload exactly when the payload holds a backslash, a `<` or a `&` |
| Escaping.PlainUnchanged | markdown.c:335-337 | a payload without a backslash, `<` or `&` is kept as it is |
| Escaping.EscapeTwice | markdown.c:325-334 | escaping is not idempotent: escaping twice differs from escaping once exactly when the payload held a `<` or a `&` |
| Escaping.AmpIffEntity | markdown.c:325-334 | the escaped payload holds a `&` exactly when the original held a `<` or a `&` |
| Escaping.DecodeEscape | markdown.c:325-334 | round trip: reading `&lt;` and `&amp;` back gives the payload without its backslashes |
| Escaping.EscapeExample | markdown.c:320-342 | `<&\a` escapes to `&lt;&amp;a` |
| Escaping.SpliceStep | markdown.c:323-332 | `vector_remove` of one character and then `vector_insert` at the same index replace that character in place |
| Elements.NewElement | markdown.c:289-306 | the new element has the given type and no children; it has a text (a url) exactly when one was given; a preformatted text is kept verbatim |
| Elements.PayloadEscaped | markdown.c:295-301 | a text payload of any type but Preformatted holds no backslash and no `<` |
| Elements.NewElementEscaped | markdown.c:295-306 | what reaches the renderer holds no backslash and no `<`, except a preformatted text; the url is always escaped |
| Elements.AppendElement | markdown.c:285-313 | the vector grows by exactly one element at its end, `NewElement` of the arguments |
| FrontMatterParser.UntilNewline | markdown.c:4 | `CONSUME_UNTIL('\n')` stops at the first newline at or after the cursor, or at the end |
| FrontMatterParser.AfterNewline | markdown.c:5 | `CONSUME_UNTIL_AFTER('\n')` moves strictly forward unless at the end, and never past it |
| FrontMatterParser.Skip | markdown.c:6-10 | `CONSUME_STRING` of a newline-free key moves the cursor over no newline and never past the end |
| FrontMatterParser.ValueStart | markdown.c:53-55 | the three keys tried in turn move the cursor over no newline |
| FrontMatterParser.FrontMatterLine | markdown.c:53-68 | one pass of the loop body always moves the cursor forward, and never past the end |
| FrontMatterParser.FrontMatterLines | markdown.c:52-69 | the loop never moves the cursor back or past the end |
| FrontMatterParser.FrontMatter | markdown.c:43-91 | parse_front_matter never leaves the cursor past the end of the text |
| FrontMatterParser.SkipToNewline | markdown.c:59 | the `CONSUME_UNTIL('\n')` loop computes `UntilNewline` |
| FrontMatterParser.SkipPastNewline | markdown.c:68 | the `CONSUME_UNTIL_AFTER('\n')` loop computes `AfterNewline` |
| FrontMatterParser.ReadLine | markdown.c:53-68 | one pass of the loop body computes `FrontMatterLine` |
| FrontMatterParser.ParseFrontMatter | markdown.c:43-91 | the parse_front_matter loop computes the page and cursor of `FrontMatter` |
| FrontMatterParser.Finish | markdown.c:77-88 | the tail after a closing `---` computes `ApplyDefaults` |
| FrontMatterParser.LineNext | markdown.c:53-68 | whatever the keys matched, a pass of the loop ends just past the line's newline |
| FrontMatterParser.LinesCursor | markdown.c:52-69 | the loop stops just past the first line of the block that is exactly `---`, or at the end when there is none |
| FrontMatterParser.FrontMatterCursor | markdown.c:48-75 | the cursor ends just past the first `---` line when text follows it; it stays at 0 without an opening `---`, and when the block is never closed or its closing line ends the text |
| FrontMatterParser.LinesMetadataOnly | markdown.c:52-69 | the loop touches only title, date and description, each kept or set to a non-empty value |
| FrontMatterParser.FrontMatterFields | markdown.c:43-91 | the tree and the page's place are untouched; an unclosed block leaves only metadata changes; after a close, title and date are present, month is in 1..12 and day in 1..31, and the title is never empty unless it was set empty before |
| FrontMatterParser.FieldLine | markdown.c:53-68 | a line `Key: value` sets that key's field to the value exactly as written, nothing trimmed; an empty value leaves the page alone; the next line starts after the newline |
| FrontMatterParser.KeyLine | markdown.c:53-57 | the key a line starts with is recognised and its value starts right after it |
| FrontMatterParser.ScanUnsignedOf | markdown.c:85 | `%u` reads a whole run of digits and stops at the first non-digit |
| FrontMatterParser.ScanDateOf | markdown.c:85 | three dash-separated digit runs are read as year, month and day |
| FrontMatterParser.ScanDateRoundTrip | markdown.c:85 | a date written as `%u-%02d-%02d` scans back to the numbers it was written from |
| FrontMatterParser.ScanDatePartial | markdown.c:85 | fields are assigned from the left until one does not scan: `2021-x` sets only the year |
| FrontMatterParser.DefaultDateClamped | markdown.c:77-88 | with nothing set, the title defaults to `Untitled` and the date to `0000-00-00`, which clamps to year 0, month 1, day 1 |
| FrontMatterParser.DateExample | markdown.c:85 | `2020-01-02` scans to (2020, 1, 2) |
| FrontMatterParser.LinesStep | markdown.c:52-69 | a line that is not `---` is one pass of the loop, which then goes on from the next line |
| FrontMatterParser.LinesClose | markdown.c:52 | a `---` line ends the loop just past itself, with the page unchanged |
| FrontMatterParser.ClosedBlock | markdown.c:71-88 | a loop that stopped before the end of the text leaves its cursor and applies the defaults |
| FrontMatterParser.TitleDateBlock | markdown.c:43-91 | a complete block with a title line and a date line: both values are read as written, defaults and the date split follow, and the cursor stops at the start of the body |
| FrontMatterParser.UnclosedBlock | markdown.c:52-73 | a block that never closes keeps the title it read, leaves the cursor at 0 and applies no defaults |
| FrontMatterParser.TitleDateLoop | markdown.c:52-69 | the loop over such a block reads the title line, then the date line, then stops at `---` |
| InlineParser.Cut | markdown.c:296 | the characters a span of the line covers, as `string_clone_substr` copies them |
| InlineParser.ElementsOf | markdown.c:285-313 | one element per piece the scanner cut, in order |
| InlineParser.ElementsOfAppend | markdown.c:289-290 | appending the element of one more piece to the vector is the elements of the longer piece list |
| InlineParser.OpenOrText | markdown.c:222-243 | the TT_None/TT_Text case keeps the scan's positions inside the text and in order, and moves the cursor forward |
| InlineParser.BoldStep | markdown.c:244-252 | the TT_Bold case keeps the positions in order and moves the cursor forward |
| InlineParser.LinkTextStep | markdown.c:253-261 | the TT_LinkText case keeps the positions in order and moves the cursor forward |
| InlineParser.LinkUrlStep | markdown.c:262-270 | the TT_LinkURL case keeps the positions in order and moves the cursor forward |
| InlineParser.ScanStep | markdown.c:216-273 | one pass of the loop body moves the cursor forward and keeps the positions in order |
| InlineParser.EscapedStep | markdown.c:216-273 | after a backslash the next character consumes no marker: the cursor moves by one, a bare scan becomes Text, any other open token is kept, and the escape flag is cleared |
| InlineParser.EscapedPair | markdown.c:215-273 | a backslash and the character after it, a newline or a marker included, are taken as text of the open token and the loop goes on two characters later |
| InlineParser.ScanLoop | markdown.c:215-274 | the loop never moves the cursor back; it stops at the end of the text or on a newline that no backslash escapes |
| InlineParser.Inlines | markdown.c:196-283 | parse_inlines moves the cursor forward unless the text has ended, and never past the end |
| InlineParser.ParseInlines | markdown.c:196-283 | the loop appends exactly the elements `Inlines` cuts to the caller's vector, and leaves the cursor where `Inlines` says |
| InlineParser.OpenOrTextCase | markdown.c:222-243 | the statements of the TT_None/TT_Text case compute `OpenOrText`, appending the flushed Text element |
| InlineParser.BoldCase | markdown.c:244-252 | the statements of the TT_Bold case compute `BoldStep`, appending the Bold element on `**` |
| InlineParser.LinkTextCase | markdown.c:253-261 | the statements of the TT_LinkText case compute `LinkTextStep` |
| InlineParser.LinkUrlCase | markdown.c:262-270 | the statements of the TT_LinkURL case compute `LinkUrlStep`, appending the Link element on `)` |
| InlineParser.LineEnd | markdown.c:6-219 | the first newline that no backslash escapes, or the end, lies at or after the cursor |
| InlineParser.LineEndSkip | markdown.c:6-10 | a consumed marker holds no newline and no backslash, so the end of the line does not move past it |
| InlineParser.LineEndOne | markdown.c:215-219 | a character that is neither an unescaped newline nor an unescaped backslash moves the cursor along the line by one |
| InlineParser.StepLineEnd | markdown.c:215-274 | one pass of the loop body does not change where the line ends |
| InlineParser.LoopLineEnd | markdown.c:215-274 | the loop stops on the first newline that no backslash escapes, or at the end |
| InlineParser.InlinesLineEnd | markdown.c:215-280 | parse_inlines leaves the cursor just past the first newline that no backslash escapes, or at the end, whatever tokens the line holds |
| InlineParser.LoopShape | markdown.c:228-264 | every piece the loop closes is Text, Bold or Link, with a url exactly when it is a Link |
| InlineParser.ElementsShape | markdown.c:285-306 | the elements of such pieces are leaves with escaped payloads |
| InlineParser.InlinesShape | markdown.c:196-283 | every element parse_inlines adds is a Text, Bold or Link leaf whose text and url were escaped |
| InlineParser.LoopStep | markdown.c:215 | a loop that has not reached the end or an unescaped newline takes one more pass |
| InlineParser.InertStep | markdown.c:238-268 | a character that closes nothing only moves the cursor, and opens a Text token when no token was open |
| InlineParser.LoopStops | markdown.c:215 | the loop stops at the end of the text and on an unescaped newline |
| InlineParser.OpenBold | markdown.c:225-237 | `**` outside a token flushes an open Text token and opens bold after the marker |
| InlineParser.CloseBold | markdown.c:245-248 | `**` inside bold closes it and adds the Bold piece from after the opener to before the closer |
| InlineParser.OpenLink | markdown.c:224-234 | `[` outside a token, not followed by `**`, flushes an open Text token and opens the link text |
| InlineParser.LinkMiddle | markdown.c:254-257 | `](` ends the link text and starts the url |
| InlineParser.CloseLink | markdown.c:263-266 | `)` closes the link and adds the Link piece with its text and url |
| InlineParser.RunToEnd | markdown.c:215-241 | a run of ordinary characters up to the end of the line leaves the scan at the line end |
| InlineParser.PlainLine | markdown.c:238-278 | a line of ordinary characters becomes one Text element, or none when it is empty: plain text is flushed only when non-empty |
| InlineParser.TextThenBold | markdown.c:227-237 | text before `**` is flushed as one Text piece when bold opens |
| InlineParser.BoldToEnd | markdown.c:244-252 | bold text, its closing `**` and the end of the line close one Bold piece |
| InlineParser.BoldLine | markdown.c:222-278 | `a**b**` gives a Text element `a` (when `a` is non-empty) and then a Bold element `b` |
| InlineParser.LinkTextRun | markdown.c:253-261 | link text runs up to `](` |
| InlineParser.LinkUrlToEnd | markdown.c:262-270 | the url, its closing `)` and the end of the line close one Link piece |
| InlineParser.LinkLine | markdown.c:222-270 | `[x](u)` gives one Link element with text `x` and url `u` |
| InlineParser.UnclosedBold | markdown.c:222-278 | in a line `a**b` with no closing marker, the text `a` (when not empty) is one Text element and `**b` another, running from the opener to the end of the line with `**` included |
| InlineParser.TextThenLink | markdown.c:222-243 | text before `[` is flushed as one Text piece when the link text opens, and the scan goes on from the opened link |
| InlineParser.UnclosedLinkText | markdown.c:222-278 | in a line `a[x` with no `](`, the text `a` (when not empty) is one Text element and `[x` another, `[` included |
| InlineParser.UnclosedLinkUrl | markdown.c:222-278 | in a line `a[x](u` with no closing `)`, the text `a` (when not empty) is one Text element and `[x](u` another: link text and URL are not kept apart |
| InlineParser.MixedLine | markdown.c:215-278 | a line `a**b**c[x](u)d` gives five elements in order: Text `a`, Bold `b`, Text `c`, Link with text `x` and url `u`, Text `d`, each payload escaped |
| InlineParser.MixedExample | markdown.c:196-283 | the line `plain **bold** [text](url) end` gives Text `plain `, Bold `bold`, Text ` `, Link `text`/`url` and Text ` end` |
| InlineParser.PieceElement | markdown.c:285-306 | the element of a piece holds the characters its spans cover, escaped |
| BlockParser.WithLast | markdown.c:128-137 | replacing the open block keeps the number of elements and makes the given element the last one |
| BlockParser.LineStartStep | markdown.c:123-152 | the TT_None/TT_List case keeps the positions inside the text and moves the cursor forward |
| BlockParser.HeaderOpen | markdown.c:125-128 | `# ` keeps the positions in order and moves the cursor forward |
| BlockParser.ItemOpen | markdown.c:129-137 | `- ` keeps the positions in order and moves the cursor forward |
| BlockParser.ParagraphOpen | markdown.c:147-150 | a line that opens nothing else keeps the positions in order and moves the cursor forward |
| BlockParser.ImageTextStep | markdown.c:153-162 | the TT_ImageText case moves the cursor forward |
| BlockParser.ImageUrlStep | markdown.c:163-173 | the TT_ImageURL case moves the cursor forward |
| BlockParser.ParagraphStep | markdown.c:174-176 | the TT_Paragraph case moves the cursor forward |
| BlockParser.PreformattedStep | markdown.c:177-186 | the TT_Preformatted case moves the cursor forward whenever it succeeds |
| BlockParser.TokenStep | markdown.c:122-187 | the switch on the open token moves the cursor forward whenever it succeeds |
| BlockParser.BlockStep | markdown.c:111-191 | one pass of the loop moves the cursor forward whenever it succeeds |
| BlockParser.ParseBlocks | markdown.c:93-194 | the loop of parse_blocks computes `ParsedBlocks`: the page with the body's elements appended, or the failure |
| BlockParser.PlainStep | markdown.c:111-190 | a pass that meets neither a newline nor a backslash is the switch, with the escape flag cleared after it |
| BlockParser.LineStartCase | markdown.c:123-152 | the statements of the TT_None/TT_List case compute `LineStartStep` |
| BlockParser.HeaderCase | markdown.c:125-128 | `# ` appends a Header and parses the rest of the line into its children |
| BlockParser.ItemCase | markdown.c:129-137 | `- ` opens a List unless one is open, then appends a ListItem and parses the line into it |
| BlockParser.ParagraphOpenCase | markdown.c:147-150 | any other line appends a Paragraph and parses the line into its children |
| BlockParser.ImageTextCase | markdown.c:153-162 | the statements of the TT_ImageText case compute `ImageTextStep` |
| BlockParser.ImageUrlCase | markdown.c:163-173 | the statements of the TT_ImageURL case compute `ImageUrlStep` |
| BlockParser.ParagraphCase | markdown.c:174-176 | the statements of the TT_Paragraph case compute `ParagraphStep` |
| BlockParser.PreformattedCase | markdown.c:177-186 | the statements of the TT_Preformatted case compute `PreformattedStep`, failing exactly when it does |
| BlockParser.FilledLast | markdown.c:127-150 | an element appended empty and then filled by parse_inlines is the element with those children |
| BlockParser.NewListFilled | markdown.c:130-137 | a List appended empty and given one item is a List of that item |
| BlockParser.MarkdownParseAll | markdown.c:32-41 | markdown_parse_all runs parse_front_matter, then parse_blocks from the cursor it left |
| BlockParser.MarkdownParseFrontMatter | markdown.c:22-30 | markdown_parse_frontmatter runs parse_front_matter alone |
| BlockParser.LoopAdvance | markdown.c:111-191 | a pass that succeeds moves the loop on from the state it leaves |
| BlockParser.NewlineStep | markdown.c:112-115 | a newline that no backslash escapes closes whatever is open except a fenced block; no element changes |
| BlockParser.LineStartIs | markdown.c:116-124 | at a line start anything but a newline or a backslash goes to the TT_None/TT_List switch |
| BlockParser.HeaderLine | markdown.c:125-128 | `# ` at a line start appends a Header holding the inline elements of the rest of the line; the cursor ends after the line and nothing stays open |
| BlockParser.ItemLine | markdown.c:129-137 | `- ` at a line start adds one more ListItem to the open List, or appends a new List holding just this item when none is open |
| BlockParser.ItemOpenIs | markdown.c:129-137 | the list item's children are the inline elements of the rest of the line, and the cursor ends after the line |
| BlockParser.ParagraphLine | markdown.c:147-150 | a line that opens nothing, after a list or a blank line, starts a Paragraph |
| BlockParser.ParagraphAbsorbs | markdown.c:174-176 | an open paragraph takes in every non-blank line, `# ` and `- ` lines included: no element is added and the last Paragraph gains the line's inline elements after its own |
| BlockParser.RuleLine | markdown.c:141-143 | `***` and a newline at a line start append a childless HRule and leave nothing open |
| BlockParser.EscapedLineStart | markdown.c:116-119 | a backslash at a line start makes the line a Paragraph that begins with the escaped character, so `\# ` and `\- ` do not open a header or a list |
| BlockFacts.SiblingList | markdown.c:112-133 | a blank line closes the open list, so a later `- ` line starts a second List next to the first |
| BlockFacts.BlankAfterList | markdown.c:112-115 | a blank line after a list closes it and changes nothing else |
| BlockFacts.ItemLoop | markdown.c:129-137 | a `- ` line with no list open starts a new List holding the line as its one item |
| BlockFacts.ImageInertStep | markdown.c:153-172 | inside an image an ordinary character only moves the cursor |
| BlockFacts.ImageRun | markdown.c:153-172 | a run of ordinary characters inside an image only moves the cursor |
| BlockFacts.ImageLine | markdown.c:138-172 | `![cap](url)` at a line start appends one Image whose text is the caption and whose url is the url, and leaves nothing open |
| BlockFacts.ImageCaption | markdown.c:138-162 | from a line start, `![` and a caption up to `](` leave the url open |
| BlockFacts.ImageUrl | markdown.c:163-172 | with the url open, a url up to `)` appends the Image |
| BlockFacts.ImageOpens | markdown.c:138-140 | `![` opens the caption right after itself |
| BlockFacts.ImageTextCloses | markdown.c:154-158 | `](` ends the caption and starts the url |
| BlockFacts.ImageUrlCloses | markdown.c:164-168 | `)` appends the Image with the caption and url read |
| BlockFacts.ImageAbandoned | markdown.c:112-172 | a newline before the `)` abandons the image: the line adds no element and leaves nothing open |
| BlockFacts.UrlAbandoned | markdown.c:112-172 | with the url open, a newline before any `)` closes the image without an element |
| BlockFacts.EscapeAfterNewline | markdown.c:112-190 | after a newline in a fenced block nothing is escaped |
| BlockFacts.PreformattedStepOn | markdown.c:112-186 | inside a fenced block every character but a closing fence only moves the cursor: newlines leave the block open, a backslash only escapes the next character |
| BlockFacts.PreformattedRun | markdown.c:177-186 | up to the first closing fence a fenced block only moves the cursor and the escape flag |
| BlockFacts.UnclosedFence | markdown.c:177-186 | a fenced block that never closes emits nothing |
| BlockFacts.FenceOpens | markdown.c:144-146 | ```` ```\n ```` at a line start opens a fenced block whose text starts right after it |
| BlockFacts.FenceCloses | markdown.c:178-182 | the closing fence appends the text from the opening fence to one character before the closing one, unescaped; a fence right after the opening one fails with length -1 |
| BlockFacts.FencedBlock | markdown.c:144-186 | a fenced block whose text ends in a newline appends one Preformatted element holding the text without that newline, verbatim, and leaves nothing open |
| BlockFacts.FenceBody | markdown.c:177-186 | from the opening fence, the text up to the closing fence and the fence itself |
| BlockFacts.EmptyFence | markdown.c:144-182 | ```` ```\n```\n ```` at a line start has length -1 and the parse fails |
| Html.DaySuffixIsOrdinal | html.c:180-197 | on every day of a month the suffix switch gives the English ordinal suffix: `st`, `nd`, `rd` after a last digit 1, 2, 3 outside the teens, `th` otherwise |
| Html.FormattedDateReadsBack | html.c:199-203 | the date string `<day><suffix> <Month> <year>` determines the day, the month and the year it was printed from |
| Html.MonthNumberOfName | html.c:199-200 | each month name is a single word and names its own month |
| Html.AnchorShape | html.c:219-223 | a heading's id has the length of its text, no blank and no capital; a blank becomes `_` and every other character its lower-case form |
| Html.HalfNameOfStem | html.c:340-341 | with a stem free of dots, `stem.ext` becomes `stem_half.ext` |
| Html.HalfNameWithoutDot | html.c:340-341 | a url without a dot names its own half-size file |
| Html.DivDoublesSize | html.c:352 | the preview div's style carries twice the width and height the datatype reports |
| Html.ImgKeepsSize | html.c:360 | the `<img>` tag carries the width and height the datatype reports, undoubled |
| Html.NumbersPrinted | html.c:352-360 | a number printed with `%u` and followed by a non-digit is read back whole |
| Html.ImageTagsInto | html.c:332-374 | the image tags are written exactly when the half-size file is readable; otherwise the failure names that file |
| Html.GenerateImageTags | html.c:332-374 | the appends of generate_image_tags compute `ImageTagsInto` |
| Html.AppendRule | html.c:227-235 | an ET_HRule appends its spacer-and-rule table at the element's indent, the markup `ElementInto` places for it |
| Html.AppendCaptionOpening | html.c:239-248 | an image with a caption opens the caption table and its bold cell after the image tags, the opening half of the caption table that `CaptionTablePaired` shows around the caption text |
| Html.AppendCaptionClosing | html.c:296-302 | after the caption text the bold cell, its row and the caption table are closed, the closing half of the table `CaptionTablePaired` pairs with the opening |
| Html.AppendPreformattedOpening | html.c:265-275 | a preformatted block opens a spacer table, then the boxed table, its cell and `<pre>`, before its children; the opening half of the preformatted markup in `ElementInto` |
| Html.AppendPreformattedClosing | html.c:316-321 | after the children, `</pre>`, the cell, the row and the table are closed, the closing half of that markup |
| Html.AppendHeaderOpening | html.c:216-226 | the ET_Header case computes `HeaderOpenInto`, failing when the header does not have exactly one Text child |
| Html.AppendImageOpening | html.c:236-250 | the ET_Image case computes `ImageOpenInto` |
| Html.AppendOpening | html.c:212-278 | the opening switch computes `OpenInto` |
| Html.AppendClosing | html.c:288-324 | the closing switch computes `CloseInto` |
| Html.GenerateElement | html.c:208-330 | generate_element computes `ElementInto`: the opening fragment, the text if present, the children in order one level deeper, the closing fragment |
| Html.GenerateChildren | html.c:284-286 | the loop over a child vector renders each child in order, stopping at the first failure |
| Html.FailureStays | html.c:284-286 | once a child fails, the rest of the vector is not rendered and that failure is the result |
| Html.FailureKept | html.c:284-286 | a failure, once reached, is the result of the whole loop |
| Html.OpenSucceeds | html.c:212-278 | the opening fragment fails exactly on a malformed header or an unreadable half-size image |
| Html.RenderSucceeds | html.c:208-330 | generate_element succeeds exactly on the trees whose headers all have one Text child and whose half-size images are all readable |
| Html.ChildrenSucceed | html.c:284-286 | the children render exactly when each of them is renderable |
| Html.BoldRendering | html.c:213-291 | Bold renders as `<b>text</b>`, in line |
| Html.LinkRendering | html.c:251-306 | a Link renders as `<a href="url">text</a>`, in line |
| Html.HeaderRendering | html.c:216-294 | a Header with its one Text child renders the anchor from the text, then the text in bold |
| Html.CaptionTablePaired | html.c:236-303 | an image's caption table is opened and closed under the same condition: with a caption both fragments surround it, without one neither is written |
| Html.ReplaceBodyMarker | html.c:64 | the first `$BODY` is replaced by the body |
| Html.ReplaceTitleMarker | html.c:65 | the first `$TITLE` is replaced by the title |
| Html.SubstituteTemplate | html.c:63-65 | in a template with `$TITLE` and then `$BODY`, both markers are replaced in place, whatever the body and the title contain |
| Html.HtmlGenerate | html.c:33-73 | html_generate computes `PageHtml`: the heading, the date, the rule and every element at INDENT, put into the template with the title `<title> | Amiga Geek` |
| Html.AppendSeparator | html.c:50-57 | under the page heading and date a spacer row and a rule row are appended at INDENT, the end of the page heading (`PageHeadingInto`) that comes before the elements |
| Html.PageHtmlSucceeds | html.c:59-61 | a page renders exactly when every element of its body is renderable |
| Html.PageHtmlLayout | html.c:40-65 | the page is the template with `<title> | Amiga Geek` and the body in the markers' places |
| PageOrder.BeforeAsymmetric | html.c:88-104 | of two pages at most one precedes the other, for titles ascending and for dates descending |
| PageOrder.BeforeTransitive | html.c:88-104 | preceding is transitive |
| PageOrder.NotBeforeTransitive | html.c:88-104 | not preceding is transitive: strcmp orders all strings totally |
| PageOrder.UnorderedIsEqualKey | html.c:88-104 | neither of two pages precedes the other exactly when their titles (or dates) are equal |
| PageOrder.InsertPositionFrom | html.c:88-92 | the insertion scan stops at the first entry the new page strictly precedes, or at the end; every entry it passes is not preceded |
| PageOrder.InsertPositionIs | html.c:88-92 | the stopping index is the only index with that property |
| PageOrder.InsertAddsOne | html.c:94 | vector_insert at that index keeps every entry and adds the page once |
| PageOrder.InsertSorted | html.c:86-94 | inserting into a sorted list keeps it sorted |
| PageOrder.WithKeyAppend | html.c:86-94 | the pages of one key in a concatenation are those of each part, in order |
| PageOrder.WithKeyAfter | html.c:88-92 | behind the stopping index of a sorted list no page has the new page's key |
| PageOrder.WithKeySwap | html.c:94 | moving a page across pages of another key leaves each key's pages in order |
| PageOrder.InsertStable | html.c:86-94 | inserting is stable: among pages of equal key the new one lands behind all earlier ones, as if appended |
| RootIndex.FilterPrefix | html.c:84-106 | one more page adds itself to the filter of its kind and nothing to the other |
| RootIndex.ListIsFilter | html.c:84-106 | each list holds exactly the pages of its kind (with or without a description), each as often as in the collection |
| RootIndex.FiltersSplit | html.c:85 | every page is kept by exactly one of the two filters |
| RootIndex.EveryPageListedOnce | html.c:84-106 | the two lists together are the collection; the projects all have a description and the posts none |
| RootIndex.ListSorted | html.c:84-106 | projects ascend by title and posts descend by date in strcmp order |
| RootIndex.ListStable | html.c:84-106 | pages of equal title (or date) keep the order of the collection |
| RootIndex.ListStableStep | html.c:84-106 | one insertion keeps each key's pages in collection order |
| RootIndex.RowShift | html.c:112-129 | a row does not depend on what the buffer held before it |
| RootIndex.RowsInListOrder | html.c:112-160 | the rows of a list follow what came before, one per entry, in list order |
| RootIndex.RootHtmlLayout | html.c:164-166 | in a template with `$TITLE` in front of `$BODY`, the markers give way to `Home | Amiga Geek` and the index |
| RootIndex.FindInsertPosition | html.c:86-92 | the scan loop returns the insertion position |
| RootIndex.SortPages | html.c:84-106 | the first loop builds exactly the projects and the posts lists |
| RootIndex.AppendSpacer | html.c:113-115 | the spacer row put in front of every index entry and after the projects, whose text does not depend on what came before it (`SpacerShift`) |
| RootIndex.AppendListHeading | html.c:109-110 | a list of the index begins with its heading name in bold and opens its table, as `RootHtmlLayout` places it for the projects and the recent posts |
| RootIndex.AppendRow | html.c:112-160 | the appends of one entry compute the project row or the post row |
| RootIndex.AppendRows | html.c:112-160 | the row loop over a list computes `RowsInto` over all its entries |
| RootIndex.AppendBetweenLists | html.c:131-141 | between the projects and the recent posts: a last spacer, the projects table closed, a rule, and the heading of the posts list |
| RootIndex.HtmlGenerateRoot | html.c:75-174 | html_generate_root computes `RootHtml`: the template with the index body and the title `Home | Amiga Geek` |
| Rss.WeekDay | rss.c:86-97 | week_day is a day index below 7 |
| Rss.Zeller | rss.c:86-97 | the reference congruence is a day index below 7 |
| Rss.WeekDayIsZeller | rss.c:86-97 | while the sum does not fall below `2 * J`, nothing wraps and week_day is Zeller's congruence |
| Rss.WeekDayFrom2020 | rss.c:86-97 | for every date from 2020 to 2099 week_day is Zeller's congruence |
| Rss.WeekDayOfJanuary2020 | rss.c:75-96 | 2 January 2020 is day 5, `Thu` |
| Rss.WeekDayWrapsIn2010 | rss.c:88-96 | 1 March 2010 was a Monday, but the unsigned subtraction wraps and week_day gives day 6, `Fri` |
| Rss.DateFields | rss.c:81 | the fields of the date string sit at fixed offsets |
| Rss.RssDateLayout | rss.c:73-84 | the date is the weekday name of week_day, `, `, the day in two digits, the month abbreviation, the year in full, ` 00:00:00 UTC`, each read back from its place |
| Rss.FourDigitYear | rss.c:81 | a year from 1000 to 9999 prints in four digits |
| Rss.PageCompare | rss.c:69-71 | page_compare is negative exactly when the first page is newer, positive when it is older, zero on equal dates |
| Rss.InsertingStarts | rss.c:20 | a sorted prefix and one new page start an insertion |
| Rss.InsertingStep | rss.c:20 | swapping the moving page with a newer-keyed neighbour keeps the insertion state |
| Rss.InsertingStepBehind | rss.c:20 | after the swap the pages behind the moving one are still sorted |
| Rss.InsertingStepAcross | rss.c:20 | after the swap nothing behind the moving page precedes anything in front of it |
| Rss.InsertingDone | rss.c:20 | when the moving page no longer precedes its neighbour, the prefix is sorted |
| Rss.SortByDate | rss.c:20 | sorting leaves the pages a permutation of the old ones, in page_compare order |
| Rss.FirstParagraphFrom | rss.c:46-53 | the loop stops at the first Paragraph child; no child before it is one |
| Rss.TextsAfter | rss.c:48-50 | the texts follow what the buffer held, in child order |
| Rss.AppendDescription | rss.c:43-54 | the description is the page's own, else the texts of its first paragraph, else empty |
| Rss.FieldAfter | rss.c:28-41 | an item line does not depend on what the buffer held before it |
| Rss.TopLevel | rss.c:23-25 | the kept pages have no parent and come from the collection |
| Rss.ItemsSnoc | rss.c:22-58 | one more page adds its item, or nothing for a child page |
| Rss.ItemAfter | rss.c:27-57 | an item does not depend on what the buffer held before it |
| Rss.ItemStepAfter | rss.c:22-58 | one pass of the loop appends what the page adds to the feed |
| Rss.ItemsInOrder | rss.c:22-58 | the loop appends the items of the pages it passed, in their order |
| Rss.ChildPagesSkipped | rss.c:23-25 | the items are exactly those of the pages without a parent |
| Rss.FeedLayout | rss.c:13-61 | the feed is the rss and channel opening with the site's title, link and description, the items, then the closing tags |
| Rss.EmittableKept | rss.c:20 | reordering the pages keeps each of them emittable |
| Rss.AppendChannel | rss.c:13-18 | the feed opens with the `<rss>` element, the channel and the channel's title, link and description, the text `Channel` that `FeedLayout` puts before the items |
| Rss.AppendItem | rss.c:27-57 | the appends of one item compute `ItemInto` |
| Rss.AppendItems | rss.c:22-58 | the item loop, passing over child pages, computes `ItemsInto` |
| Rss.RssGenerate | rss.c:9-67 | rss_generate sorts the caller's pages in place newest first, as a permutation, and returns the feed of the sorted pages |

## Left out

- File and directory I/O, `html_init`/`html_fini` and the reading of the page template: the template is a parameter of `Html.HtmlGenerate` and `RootIndex.HtmlGenerateRoot`.
- Memory allocation and its failure: the `CHECK` of every `string_append`, `vector_new` and `vector_insert` is taken to succeed; the only failures modelled are the parser's and the renderer's own (`Document.Error`).
- The lookup of an image's size through the Amiga `datatypes.library`: it is a map from (directory, half-size file name) to a width and a height; a missing key is the failure to read the file.
- `page.c`, `rexx.c` and `main.c`, which walk the directory tree and drive the renderers, are not part of this model.
- Integer widths: sizes, days, months and years are `nat`. Only `week_day` wraps as a C `uint` does, because its wrap changes its result (`Rss.WeekDayWrapsIn2010`); a `%d` of a value of 2^31 or more is not modelled.
- Html.DivDoublesSize: a width or height doubled past 2^32 is not wrapped.
- FrontMatterParser: `sscanf("%u-%u-%u")` is modelled on plain digit runs; its skipping of leading blanks and its acceptance of a sign are not modelled.
- A `NULL` text of an element is read as the empty string where the renderers pass it to `string_append` (the parser never leaves one on a Text, Bold or Link).
- The markup the renderers write is modelled as written, `<tr>` imbalance included: an `ET_HRule` and each spacer row of the root index close one `</tr>` more than they open. No well-formedness of the HTML is claimed.
- Rss.SortByDate: `qsort` is modelled by an insertion sort, and only what `qsort` promises is stated: sorted by `page_compare`, and a permutation. The order among pages of equal date is not stated, because `qsort` is not stable.
- Html.HtmlGenerate requires a page with a title and a month in 1..12. `build_page` (page.c:184-193) calls html_generate on every page, one whose front matter never opened or never closed included; for such a page the C code dereferences a `NULL` title and indexes the month-name table out of bounds, which is undefined behaviour and not modelled.
- Html.PageHtml, Html.PageHtmlSucceeds and Html.PageHtmlLayout share that precondition (a title and a month in 1..12), for the same reason.
- Rss.RssGenerate requires a date on every page, for `page_compare`, and a title and a month in 1..12 on every top-level page, for its item; without them the C code dereferences `NULL` or indexes the month-name table out of bounds, which is not modelled.
- RootIndex.HtmlGenerateRoot requires a title on every page and a description or a date, the strings `string_append` dereferences; on a missing one the C behaviour is undefined and is not modelled.
- BlockParser: a fenced block closed on the line after it opens makes the C code compute a length of -1; the model returns `Failure(NegativeLength)` there.
- Html.GenerateElement: the C `assert` on a header with other than exactly one Text child is modelled as `Failure(MalformedHeader)`.
- InlineParser: the whole-line behaviour is proved for a plain line, a bold span, a link, a line mixing text, bold and a link, and the unclosed bold span and link (`PlainLine`, `BoldLine`, `LinkLine`, `MixedLine`, `UnclosedBold`, `UnclosedLinkText`, `UnclosedLinkUrl`); other arrangements of tokens on one line are covered by the per-step lemmas and `InlinesShape`/`InlinesLineEnd`, not element by element.
