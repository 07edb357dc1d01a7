# JSON to PDF processor, modelled in Dafny

This project models the conversion at the centre of the `JSON2PDFProcessor` NiFi processor. The processor takes a flow file holding a JSON document and does three things:

1. It renders the parsed tree as indented text, one line per object field or array element (`formatJsonToText`).
2. It cuts the text into lines with Java's `String.split("\n")`. It then lays the lines out on PDF pages under a bold title. The layout uses a y-cursor that starts at 700 and resets to 750 on each new page.
3. It marks the result `application/pdf` and rewrites a trailing `.json` or `.txt` of the file name to `.pdf`.

Modules, in dependency order:

- `TextLines` (`text_lines.dfy`): line-feed-terminated text, and Java's `split("\n")` rule. That rule keeps leading and inner empty pieces, drops trailing ones, and returns a text without line feeds whole.
- `JsonText` (`json_text.dfy`): the JSON tree (`Obj`/`Arr`/`Scalar`, with a scalar carrying the parser's `asText` rendering) and the recursive formatter as a function (`Format`). Beside it are:
  - a line view of the same output (`Lines`);
  - the source's `StringBuilder` loops as methods proved equal to the function (`AppendFields`, `AppendItems`, `FormatJsonToText`).
- `Pagination` (`pagination.dfy`): the drawing loop as a method over a mutable sequence of pages (`Paginate`). It is proved equal to a reference layout defined by chunking (`Layout`). Conservation, geometry and page-count lemmas are proved about that layout.
- `FileName` (`filename.dfy`): the regular-expression rename, specified by where the anchored pattern matches.
- `Conversion` (`conversion.dfy`): the three stages chained as in the stream callback, plus end-to-end lemmas and worked examples.

Two places where the natural reading of the processor differs from what its code does; the model follows the code:

- One might expect that with keys turned off only scalar leaves produce lines, so that `{"person":{"name":"Jo"}}` gives the single line `Jo`. The code writes `"\n"` before every container-valued field or element (`JSON2PDFProcessor.java:200` and `:213`), whatever the flag. This model's formatter therefore gives one line per non-root node (`JsonText.LineCount`), and that example gives `["", "Jo"]` (`Conversion.PersonKeyless`).
- One might expect a page count of `ceil(N * L / H)` for a single usable height `H`. The code has two different capacities:
  - the first page's cursor starts at 700 (`:141`), so it holds `650 / L + 1` lines;
  - continuation pages reset to 750 (`:152`), so they hold `700 / L + 1` lines.
  The page count follows from these two (`Pagination.LayoutShape`).

Two more points about the model:

- The font size is any integer with a positive line height, `fontSize + 4 > 0` (written `fontSize > -4`). The source does not check the value it reads at `:105`. A size from -3 to 0 gives a line height of 1 to 4 and is covered. A size of -4 or less is not; see "Left out".
- The cursor is a `float` in the source. With an integer font size it only ever takes integer values, so it is an `int` here.

## Model

| member | source | states |
|---|---|---|
| JsonText.Indent | src/main/java/org/example/JSON2PDFProcessor.java:189 | the indentation at level n is exactly 2n spaces |
| JsonText.Decimal | src/main/java/org/example/JSON2PDFProcessor.java:209 | an element index is rendered as a non-empty string of decimal digits |
| JsonText.DecimalRoundTrip | src/main/java/org/example/JSON2PDFProcessor.java:209 | the rendered index denotes the index itself and has no leading zero except for 0 |
| JsonText.Entry | src/main/java/org/example/JSON2PDFProcessor.java:195-204 | definition, no contract of its own: one field or element is its prefix (indentation, key and ": " when keys are on), then "\n" and the child one level deeper for a container, or the scalar text and "\n"; AppendEntry is proved to build it |
| JsonText.FormatFields | src/main/java/org/example/JSON2PDFProcessor.java:192-205 | definition, no contract of its own: the entries of the fields concatenated in field order; AppendFields is proved to build it |
| JsonText.FormatItems | src/main/java/org/example/JSON2PDFProcessor.java:207-218 | definition, no contract of its own: the entries of the elements keyed "[i]" concatenated in index order; AppendItems is proved to build it |
| JsonText.Format | src/main/java/org/example/JSON2PDFProcessor.java:187-224 | definition, no contract of its own: the formatter as a recursive function; FormatJsonToText is proved to compute it, and FormatIsTerminated, LineCount and EmptyOutput describe it |
| JsonText.EntryLines | src/main/java/org/example/JSON2PDFProcessor.java:195-204 | definition, no contract of its own: the lines of one entry, a container contributing its prefix as a line of its own and then its lines one level deeper |
| JsonText.Lines | src/main/java/org/example/JSON2PDFProcessor.java:187-224 | definition, no contract of its own: the formatter output as a list of lines; FormatIsTerminated proves the text is exactly these lines, each followed by "\n" |
| JsonText.ItemsAsFields | src/main/java/org/example/JSON2PDFProcessor.java:206-218 | a run of array elements formats exactly like object fields keyed "[i]" with 0-based consecutive i |
| JsonText.ArrayAsObject | src/main/java/org/example/JSON2PDFProcessor.java:191-218 | an array formats exactly like the object whose i-th field (0-based, in index order) is the i-th element under the key "[i]" |
| JsonText.FormatIsTerminated | src/main/java/org/example/JSON2PDFProcessor.java:187-224 | the formatted text is its lines, each followed by one "\n" |
| JsonText.LineCount | src/main/java/org/example/JSON2PDFProcessor.java:191-221 | a container yields one line per descendant node, containers included; a scalar root yields one line |
| JsonText.LineFeedCount | src/main/java/org/example/JSON2PDFProcessor.java:191-221 | when no key or scalar text holds a line feed, the text holds exactly one "\n" per non-root node, or one for a scalar root |
| JsonText.LinesPlain | src/main/java/org/example/JSON2PDFProcessor.java:196-216 | when no key or scalar text holds a line feed, no line does either |
| JsonText.LinesKeyless | src/main/java/org/example/JSON2PDFProcessor.java:195-216 | without keys the lines do not depend on the level, and each is empty or the text of a scalar in the tree (no indentation, no key) |
| JsonText.LinesIndented | src/main/java/org/example/JSON2PDFProcessor.java:189-214 | with keys every line of a container formatted at level n starts with 2n spaces |
| JsonText.NestedExample | src/main/java/org/example/JSON2PDFProcessor.java:196-203 | {"person":{"name":"Jo"}} formats to "person: \n  name: Jo\n" with keys and to "\nJo\n" without |
| JsonText.FlatExample | src/main/java/org/example/JSON2PDFProcessor.java:193-204 | the object {"name":"John Doe","age":30} at level 0 with keys gives the lines "name: John Doe" and "age: 30" |
| JsonText.EmptyOutput | src/main/java/org/example/JSON2PDFProcessor.java:191-221 | the text of a node, and likewise its list of lines, is empty exactly when the node is an empty object or an empty array, for either flag and every level |
| JsonText.EmptyContainerEntry | src/main/java/org/example/JSON2PDFProcessor.java:195-203 | an empty object or array as a field value or element contributes its prefix and "\n", i.e. exactly one line holding only the prefix |
| JsonText.ScalarFieldLines | src/main/java/org/example/JSON2PDFProcessor.java:193-204 | an object whose values are all scalars gives one line per field, in field order: "key: text" indented by the level with keys, the text alone without |
| JsonText.ArrayExample | src/main/java/org/example/JSON2PDFProcessor.java:207-216 | ["x",["y"]] formats to "[0]: x\n[1]: \n  [0]: y\n" with keys |
| JsonText.ScalarRoot | src/main/java/org/example/JSON2PDFProcessor.java:219-221 | a scalar root formats to its text plus "\n" whether or not keys are included |
| JsonText.AppendEntry | src/main/java/org/example/JSON2PDFProcessor.java:195-204 | appending one field or element prefix and value extends the builder by exactly that entry's text |
| JsonText.AppendFields | src/main/java/org/example/JSON2PDFProcessor.java:192-205 | the loop over an object's fields builds exactly the object's formatted text |
| JsonText.AppendItems | src/main/java/org/example/JSON2PDFProcessor.java:207-218 | the loop over array indices builds exactly the array's formatted text |
| JsonText.FormatJsonToText | src/main/java/org/example/JSON2PDFProcessor.java:187-224 | the method returns the tree's lines, each terminated by "\n" |
| TextLines.JavaSplit | src/main/java/org/example/JSON2PDFProcessor.java:125 | split by "\n": a text without line feed comes back whole; otherwise the result is a prefix of the pieces between line feeds that drops only empty pieces and does not end in one; no returned line holds a line feed |
| TextLines.SplitAll | src/main/java/org/example/JSON2PDFProcessor.java:125 | cutting at every "\n" gives one more piece than there are line feeds, none containing a line feed |
| TextLines.StripTrailingEmpty | src/main/java/org/example/JSON2PDFProcessor.java:125 | the dropped tail holds only empty strings, and the kept part is a prefix that does not end in an empty string |
| TextLines.JoinSplitAll | src/main/java/org/example/JSON2PDFProcessor.java:125 | joining the pieces with "\n" gives back the text |
| TextLines.SplitAllJoin | src/main/java/org/example/JSON2PDFProcessor.java:125 | cutting undoes joining for pieces without line feeds |
| TextLines.TerminatedSplitAll | src/main/java/org/example/JSON2PDFProcessor.java:124-125 | terminated lines cut back into the lines plus one empty piece, and the text holds one line feed per line |
| TextLines.SplitTerminated | src/main/java/org/example/JSON2PDFProcessor.java:124-125 | splitting terminated lines gives [""] for no lines, else the lines without their trailing empty ones |
| TextLines.JavaSplitExamples | src/main/java/org/example/JSON2PDFProcessor.java:125 | "" splits to [""], "\n" to [], and "\nJo\n" to ["", "Jo"] |
| Pagination.Layout | src/main/java/org/example/JSON2PDFProcessor.java:133-161 | definition, no contract of its own: the reference layout by chunking, the title and the first 650 / L + 1 lines from 700 down on page one, then chunks of 700 / L + 1 lines from 750 down; Paginate is proved to produce it |
| Pagination.Extend | src/main/java/org/example/JSON2PDFProcessor.java:145-160 | definition, no contract of its own: one loop step on the pages, a new page holding the line at 750 when the last page is full, otherwise the line appended at the cursor; LoopStep and LayoutSnoc relate it to the loop and to Layout |
| Pagination.Exhausted | src/main/java/org/example/JSON2PDFProcessor.java:145 | for r up to the page's capacity, the cursor r rows below the top is below 50 exactly when r equals that capacity |
| Pagination.RowInRange | src/main/java/org/example/JSON2PDFProcessor.java:145-160 | every row within capacity is drawn between 50 and the page's top |
| Pagination.LoopStep | src/main/java/org/example/JSON2PDFProcessor.java:144-161 | one loop iteration (the new-page test, the reset to 750, the draw, the decrement) extends the pages as the layout does and keeps the cursor at top minus rows times line height |
| Pagination.LayoutSnoc | src/main/java/org/example/JSON2PDFProcessor.java:144-161 | laying out one more line is one loop step on the layout so far |
| Pagination.LayoutEmpty | src/main/java/org/example/JSON2PDFProcessor.java:120-121 | with no lines the document is one page holding only the title |
| Pagination.LayoutOneLine | src/main/java/org/example/JSON2PDFProcessor.java:134-158 | a single line is drawn under the title at (50, 700) on the only page |
| Pagination.Paginate | src/main/java/org/example/JSON2PDFProcessor.java:120-161 | the title and drawing loop produces exactly the reference layout of the lines |
| Pagination.ContinuationTexts | src/main/java/org/example/JSON2PDFProcessor.java:144-161 | the continuation pages draw the remaining lines once each, in order |
| Pagination.LayoutDrawsEachLineOnce | src/main/java/org/example/JSON2PDFProcessor.java:133-161 | the document draws the title and then every line exactly once, in input order |
| Pagination.ContinuationCount | src/main/java/org/example/JSON2PDFProcessor.java:145-153 | there is no continuation page for no remaining lines, otherwise the fewest pages of capacity 700 / L + 1 that hold them |
| Pagination.ContinuationPage | src/main/java/org/example/JSON2PDFProcessor.java:145-160 | each continuation page holds 1 to 700 / L + 1 lines, exactly that many unless it is the last, and row j is at 750 - j * L |
| Pagination.LayoutShape | src/main/java/org/example/JSON2PDFProcessor.java:141-160 | the first page holds the title and min(n, 650 / L + 1) lines, and is full when a second page exists; the page count follows from the two capacities; no continuation page is empty |
| Pagination.LayoutGeometry | src/main/java/org/example/JSON2PDFProcessor.java:133-160 | the title is the only bold placement, first on page one at (50, 750) in size fontSize + 2; body lines are at x = 50 in size fontSize, at 700 - (j - 1) * L on page one and 750 - j * L later, always between 50 and 750 |
| FileName.MatchAt | src/main/java/org/example/JSON2PDFProcessor.java:177 | definition, no contract of its own: the pattern matches at i when the rest of the name from i is exactly ".json" or ".txt"; MatchUnique and RenameToPdf are stated in terms of it |
| FileName.MatchUnique | src/main/java/org/example/JSON2PDFProcessor.java:177 | the end-anchored pattern matches in at most one place |
| FileName.RenameToPdf | src/main/java/org/example/JSON2PDFProcessor.java:177 | with no match the name is unchanged; with a match at i the result is the first i characters plus ".pdf"; the name changes exactly when the pattern matches |
| FileName.NoMatchInPdf | src/main/java/org/example/JSON2PDFProcessor.java:177 | a name ending in ".pdf" gives the pattern no match |
| FileName.RenameJson | src/main/java/org/example/JSON2PDFProcessor.java:177 | "stem.json" becomes "stem.pdf" for every stem |
| FileName.RenameTxt | src/main/java/org/example/JSON2PDFProcessor.java:177 | "stem.txt" becomes "stem.pdf" for every stem |
| FileName.RenamedEndsInPdf | src/main/java/org/example/JSON2PDFProcessor.java:177 | a renamed name ends in ".pdf" and no longer matches |
| FileName.RenameIdempotent | src/main/java/org/example/JSON2PDFProcessor.java:177 | renaming twice is the same as renaming once |
| FileName.LastSuffixExample | src/main/java/org/example/JSON2PDFProcessor.java:177 | "a.json.txt" becomes "a.json.pdf" |
| FileName.KeptNameExamples | src/main/java/org/example/JSON2PDFProcessor.java:177 | "A.JSON", "x.jsonl" and "report.pdf" are left unchanged (the match is case-sensitive and anchored) |
| Conversion.BodyLines | src/main/java/org/example/JSON2PDFProcessor.java:124-125 | definition, no contract of its own: the lines the loop iterates over, the split of the text formatted at level 0; BodyLinesOfPlainTree describes them |
| Conversion.Convert | src/main/java/org/example/JSON2PDFProcessor.java:124-177 | the pages are the layout of the split formatted tree, the MIME type is application/pdf, and the file name is the renamed one |
| Conversion.BodyLinesOfPlainTree | src/main/java/org/example/JSON2PDFProcessor.java:124-125 | when no key or scalar text holds a line feed, the drawn lines are the formatter's lines without trailing empty ones, or one empty line when there are none |
| Conversion.DocumentShowsTree | src/main/java/org/example/JSON2PDFProcessor.java:124-161 | when no key or scalar text holds a line feed, the document shows the title and then those lines, in order and once each; there are at most max(1, the number of non-root nodes) of them, so at most one for a scalar root or an empty container |
| Conversion.KeylessBodyLines | src/main/java/org/example/JSON2PDFProcessor.java:124-125 | without keys every drawn line is blank or the text of one of the tree's scalars |
| Conversion.PersonKeyless | src/main/java/org/example/JSON2PDFProcessor.java:199-203 | {"person":{"name":"Jo"}} without keys is drawn as the two lines "" and "Jo" |
| Conversion.PersonKeyedLines | src/main/java/org/example/JSON2PDFProcessor.java:195-203 | the same tree with keys has the lines "person: " and "  name: Jo" |
| Conversion.PersonKeyed | src/main/java/org/example/JSON2PDFProcessor.java:124-125 | with keys the tree is drawn as "person: " and "  name: Jo" |
| Conversion.EmptyObjectBody | src/main/java/org/example/JSON2PDFProcessor.java:124-125 | an empty object is drawn as a single empty line |
| Conversion.EmptyObjectDocument | src/main/java/org/example/JSON2PDFProcessor.java:120-158 | an empty object gives one page with the title and one blank line at (50, 700) |
| Conversion.TrailingBlankLines | src/main/java/org/example/JSON2PDFProcessor.java:195-204 | {"a":"x","b":{}} without keys has the lines "x" and "" |
| Conversion.TrailingBlankDropped | src/main/java/org/example/JSON2PDFProcessor.java:125 | its trailing blank line is dropped by the split, so only "x" is drawn |

## Left out

- NiFi plumbing is not modelled: property descriptors, relationships, `init`, taking the flow file from the session, writing attributes, and routing to SUCCESS or FAILURE (including on exceptions). These belong to the host framework.
- JSON parsing and Jackson's `asText` rendering are left out. The model takes the parsed tree as input, and each scalar carries its rendered text as an opaque string. Field order is the parser's iteration order.
- PDFBox is not modelled: documents, pages, content streams, fonts, `showText` and `save`. Pages are modelled as sequences of placements (text, x, y, size, bold). A failure inside `showText` for a character the font cannot encode is not modelled.
- Reading the input stream as UTF-8 and writing the PDF bytes are I/O and are not modelled.
- The cursor's `float` type is modelled as `int`, because with an integer font size every value it takes is an integer.
- Java `int` overflow of `fontSize + 2` and `fontSize + 4` is not modelled (integers are unbounded here).
- Java's `$` also matches just before a final line terminator. File names with line terminators are not modelled.
- The `NullPointerException` on a missing `filename` attribute is not modelled.
- A font size of -4 or less is not modelled. The line height is then zero or negative, so the cursor never drops below 50 and every line is drawn on the first page, at or above 700. The pagination members require `fontSize > -4`.
- `JsonText.Json` lets an object hold the same key twice, which a parsed Jackson object cannot. Every statement of the model holds for any list of fields, so this generalisation is harmless.
- Conversion.BodyLinesOfPlainTree: assumes that no key or scalar text holds a line feed. Otherwise `split` cuts such a text into further lines: `{"a":"x\ny"}` without keys has the formatter line `x\ny` but is drawn as `x` and `y`. `Conversion.Convert` still covers that case through `TextLines.JavaSplit`.
- Conversion.DocumentShowsTree: assumes that no key or scalar text holds a line feed. A line feed inside a scalar's text makes `split` cut that text into further lines, which this lemma does not describe. `Conversion.Convert` still covers that case through `TextLines.JavaSplit`.
- Conversion.KeylessBodyLines: assumes the same, for the same reason.
