/** Laying the formatted lines out on PDF pages, as the conversion callback
    does with PDFBox: the title once at the top of the first page, then one
    body line per row, a new page being started before a line whenever the
    cursor has dropped below the low-water mark. A drawn text is modelled as
    a placement appended to its page; pages are kept in order. */
module Pagination {

  /** One `showText` call: the text, where it is drawn and with which font
      (Helvetica Bold when `bold`, Helvetica otherwise). */
  datatype Placement = Placement(text: string, x: int, y: int, size: int, bold: bool)

  type Page = seq<Placement>

  /** The literals of the source. */
  const LeftMargin: int := 50
  const LowWater: int := 50
  const TitleY: int := 750
  const FirstTop: int := 700
  const ContinuationTop: int := 750

  /** The cursor's step; the members below require it to be positive, that
      is fontSize > -4. */
  function LineHeight(fontSize: int): int
  {
    fontSize + 4
  }

  function TitlePlacement(title: string, fontSize: int): Placement
  {
    Placement(title, LeftMargin, TitleY, fontSize + 2, true)
  }

  function BodyPlacement(line: string, y: int, fontSize: int): Placement
  {
    Placement(line, LeftMargin, y, fontSize, false)
  }

  function Min(a: int, b: int): int
  {
    if a <= b then a else b
  }

  function Max(a: int, b: int): int
  {
    if a <= b then b else a
  }

  /** How many rows fit on a page whose cursor starts at `top`: the rows
      r = 0, 1, ... whose baseline top - r * lineHeight is not below 50. */
  function Capacity(top: int, fontSize: int): nat
    requires fontSize > -4 && top >= LowWater
  {
    (top - LowWater) / LineHeight(fontSize) + 1
  }

  /** Lines drawn top-down from `top`, one line height apart. */
  function Column(ls: seq<string>, top: int, fontSize: int): Page
  {
    seq(|ls|, j requires 0 <= j < |ls| => BodyPlacement(ls[j], top - j * LineHeight(fontSize), fontSize))
  }

  /** Continuation pages: consecutive chunks of Capacity(750) lines, the last
      one possibly shorter, each drawn from 750 down. */
  function Continuations(ls: seq<string>, fontSize: int): seq<Page>
    requires fontSize > -4
    decreases |ls|
  {
    if ls == [] then []
    else
      var c := Min(|ls|, Capacity(ContinuationTop, fontSize));
      [Column(ls[..c], ContinuationTop, fontSize)] + Continuations(ls[c..], fontSize)
  }

  /** The document as a whole: the first page holds the title and the first
      Capacity(700) lines drawn from 700 down; the rest go on continuation
      pages. A reference definition by chunking, independent of the cursor. */
  function Layout(lines: seq<string>, title: string, fontSize: int): seq<Page>
    requires fontSize > -4
  {
    var c := Min(|lines|, Capacity(FirstTop, fontSize));
    [[TitlePlacement(title, fontSize)] + Column(lines[..c], FirstTop, fontSize)] + Continuations(lines[c..], fontSize)
  }

  /** Every placement of the document, page after page, in drawing order. */
  function Flatten(pages: seq<Page>): seq<Placement>
  {
    if pages == [] then [] else pages[0] + Flatten(pages[1..])
  }

  /** Where the cursor of a page sequence starts on its last page, and how
      many body rows that page holds. */
  function Top(pages: seq<Page>): int
  {
    if |pages| <= 1 then FirstTop else ContinuationTop
  }

  function Rows(pages: seq<Page>): int
    requires |pages| >= 1
  {
    |pages[|pages| - 1]| - (if |pages| == 1 then 1 else 0)
  }

  // ---------------------------------------------------------------------
  // Arithmetic of the page-break test.
  // ---------------------------------------------------------------------

  /** With at most Capacity(top) rows drawn, the cursor is below 50 exactly
      when the page is full. */
  lemma Exhausted(top: int, rows: int, fontSize: int)
    requires fontSize > -4 && top >= LowWater && 0 <= rows <= Capacity(top, fontSize)
    ensures top - rows * LineHeight(fontSize) < LowWater <==> rows == Capacity(top, fontSize)
  {
    var h := LineHeight(fontSize);
    var q := (top - LowWater) / h;
    assert q * h <= top - LowWater < q * h + h;
    if rows == q + 1 {
      assert rows * h == q * h + h;
    } else {
      assert (q - rows) * h >= 0;
      assert rows * h <= q * h;
    }
  }

  /** Rows within capacity are drawn between 50 and the page's top. */
  lemma RowInRange(top: int, row: int, fontSize: int)
    requires fontSize > -4 && top >= LowWater && 0 <= row < Capacity(top, fontSize)
    ensures LowWater <= top - row * LineHeight(fontSize) <= top
  {
    Exhausted(top, row, fontSize);
    assert row * LineHeight(fontSize) >= 0;
  }

  // ---------------------------------------------------------------------
  // Drawing one more line.
  // ---------------------------------------------------------------------

  lemma ColumnSnoc(ls: seq<string>, l: string, top: int, fontSize: int)
    ensures Column(ls + [l], top, fontSize) == Column(ls, top, fontSize) + [BodyPlacement(l, top - |ls| * LineHeight(fontSize), fontSize)]
  {
  }

  /** The page sequence with one more line: a new page holding only that
      line, drawn at 750, when the last page is full; otherwise the line goes
      one row further down the last page. */
  function Extend(p: seq<Page>, l: string, fontSize: int): seq<Page>
    requires fontSize > -4 && |p| >= 1
  {
    if Rows(p) == Capacity(Top(p), fontSize) then p + [[BodyPlacement(l, ContinuationTop, fontSize)]]
    else p[|p| - 1 := p[|p| - 1] + [BodyPlacement(l, Top(p) - Rows(p) * LineHeight(fontSize), fontSize)]]
  }

  /** Extending does not look past the last two pages. */
  lemma ExtendCons(head: Page, p: seq<Page>, l: string, fontSize: int)
    requires fontSize > -4 && |p| >= 2
    ensures Extend([head] + p, l, fontSize) == [head] + Extend(p, l, fontSize)
  {
    var hp := [head] + p;
    assert hp[|hp| - 1] == p[|p| - 1];
    assert Top(hp) == Top(p) && Rows(hp) == Rows(p);
    var b := BodyPlacement(l, Top(p) - Rows(p) * LineHeight(fontSize), fontSize);
    assert hp[|hp| - 1 := p[|p| - 1] + [b]] == [head] + p[|p| - 1 := p[|p| - 1] + [b]];
  }

  /** Up to Capacity(750) lines make one continuation page. */
  lemma SingleContinuation(rest: seq<string>, fontSize: int)
    requires fontSize > -4 && rest != [] && |rest| <= Capacity(ContinuationTop, fontSize)
    ensures Continuations(rest, fontSize) == [Column(rest, ContinuationTop, fontSize)]
  {
    assert rest[..|rest|] == rest && rest[|rest|..] == [];
    assert Min(|rest|, Capacity(ContinuationTop, fontSize)) == |rest|;
    assert Continuations([], fontSize) == [];
  }

  /** The base case of `ContinuationsSnoc` when the one continuation page is
      full: the next line opens a new page. */
  lemma FullContinuationSnoc(head: Page, rest: seq<string>, l: string, fontSize: int)
    requires fontSize > -4 && |rest| == Capacity(ContinuationTop, fontSize)
    ensures Extend([head] + Continuations(rest, fontSize), l, fontSize) == [head] + Continuations(rest + [l], fontSize)
  {
    var c := |rest|;
    var rest' := rest + [l];
    var col := Column(rest, ContinuationTop, fontSize);
    SingleContinuation(rest, fontSize);
    var p := [head, col];
    assert [head] + [col] == p;
    assert Rows(p) == c;
    assert Min(|rest'|, c) == c;
    assert rest'[..c] == rest && rest'[c..] == [l];
    SingleContinuation([l], fontSize);
    assert Column([l], ContinuationTop, fontSize) == [BodyPlacement(l, ContinuationTop, fontSize)];
    assert Continuations(rest', fontSize) == [col] + Continuations([l], fontSize);
  }

  /** The base case of `ContinuationsSnoc` when the one continuation page has
      room: the next line goes one row further down. */
  lemma RoomyContinuationSnoc(head: Page, rest: seq<string>, l: string, fontSize: int)
    requires fontSize > -4 && rest != [] && |rest| < Capacity(ContinuationTop, fontSize)
    ensures Extend([head] + Continuations(rest, fontSize), l, fontSize) == [head] + Continuations(rest + [l], fontSize)
  {
    var col := Column(rest, ContinuationTop, fontSize);
    var col' := Column(rest + [l], ContinuationTop, fontSize);
    SingleContinuation(rest, fontSize);
    SingleContinuation(rest + [l], fontSize);
    ColumnSnoc(rest, l, ContinuationTop, fontSize);
    ExtendSecondPage(head, col, l, fontSize);
  }

  /** A second page with room takes the next line one row further down. */
  lemma ExtendSecondPage(head: Page, col: Page, l: string, fontSize: int)
    requires fontSize > -4 && |col| < Capacity(ContinuationTop, fontSize)
    ensures Extend([head] + [col], l, fontSize) ==
      [head] + [col + [BodyPlacement(l, ContinuationTop - |col| * LineHeight(fontSize), fontSize)]]
  {
    var b := BodyPlacement(l, ContinuationTop - |col| * LineHeight(fontSize), fontSize);
    var p := [head] + [col];
    assert p == [head, col];
    assert Top(p) == ContinuationTop && Rows(p) == |col|;
    assert p[1 := col + [b]] == [head] + [col + [b]];
  }

  /** The base case of `ContinuationsSnoc`: all continuation lines fit on one page. */
  lemma ShortContinuationSnoc(head: Page, rest: seq<string>, l: string, fontSize: int)
    requires fontSize > -4 && rest != [] && |rest| <= Capacity(ContinuationTop, fontSize)
    ensures 1 <= Rows([head] + Continuations(rest, fontSize)) <= Capacity(ContinuationTop, fontSize)
    ensures |[head] + Continuations(rest, fontSize)| >= 2
    ensures Extend([head] + Continuations(rest, fontSize), l, fontSize) == [head] + Continuations(rest + [l], fontSize)
  {
    var col := Column(rest, ContinuationTop, fontSize);
    SingleContinuation(rest, fontSize);
    assert [head] + [col] == [head, col];
    assert Rows([head, col]) == |rest|;
    if |rest| == Capacity(ContinuationTop, fontSize) {
      FullContinuationSnoc(head, rest, l, fontSize);
    } else {
      RoomyContinuationSnoc(head, rest, l, fontSize);
    }
  }

  /** Continuation pages grow as the source's loop grows them: behind any
      earlier page, the last continuation page holds 1 to Capacity(750) rows,
      and one more line extends the pages as `Extend` says. */
  lemma {:induction false} ContinuationsSnoc(head: Page, rest: seq<string>, l: string, fontSize: int)
    requires fontSize > -4 && rest != []
    ensures 1 <= Rows([head] + Continuations(rest, fontSize)) <= Capacity(ContinuationTop, fontSize)
    ensures |[head] + Continuations(rest, fontSize)| >= 2
    ensures Extend([head] + Continuations(rest, fontSize), l, fontSize) == [head] + Continuations(rest + [l], fontSize)
    decreases |rest|
  {
    var c := Capacity(ContinuationTop, fontSize);
    var rest' := rest + [l];
    if |rest| <= c {
      ShortContinuationSnoc(head, rest, l, fontSize);
    } else {
      var col := Column(rest[..c], ContinuationTop, fontSize);
      var tail := rest[c..];
      assert Min(|rest|, c) == c && Min(|rest'|, c) == c;
      assert Continuations(rest, fontSize) == [col] + Continuations(tail, fontSize);
      assert rest'[..c] == rest[..c] && rest'[c..] == tail + [l];
      assert Continuations(rest', fontSize) == [col] + Continuations(tail + [l], fontSize);
      ContinuationsSnoc(col, tail, l, fontSize);
      var p := [col] + Continuations(tail, fontSize);
      ExtendCons(head, p, l, fontSize);
      assert [head] + Continuations(rest, fontSize) == [head] + p;
      var hp := [head] + p;
      assert hp[|hp| - 1] == p[|p| - 1];
    }
  }

  /** Laying out one more line while the first page still has room. */
  lemma SnocOnFirstPage(ls: seq<string>, l: string, title: string, fontSize: int)
    requires fontSize > -4 && |ls| < Capacity(FirstTop, fontSize)
    ensures Rows(Layout(ls, title, fontSize)) == |ls| && |Layout(ls, title, fontSize)| == 1
    ensures Layout(ls + [l], title, fontSize) == Extend(Layout(ls, title, fontSize), l, fontSize)
  {
    var c1 := Capacity(FirstTop, fontSize);
    var t := TitlePlacement(title, fontSize);
    var p := Layout(ls, title, fontSize);
    var ls' := ls + [l];
    assert ls[..|ls|] == ls && ls[|ls|..] == [];
    assert Min(|ls|, c1) == |ls| && Min(|ls'|, c1) == |ls'|;
    assert Continuations([], fontSize) == [];
    assert ls'[..|ls'|] == ls' && ls'[|ls'|..] == [];
    var b := BodyPlacement(l, FirstTop - |ls| * LineHeight(fontSize), fontSize);
    ColumnSnoc(ls, l, FirstTop, fontSize);
    var x := [t] + Column(ls, FirstTop, fontSize);
    assert p == [x];
    assert Layout(ls', title, fontSize) == [[t] + Column(ls', FirstTop, fontSize)];
    assert [t] + Column(ls', FirstTop, fontSize) == x + [b];
  }

  /** Laying out one more line once the first page is full. */
  lemma SnocAfterFirstPage(ls: seq<string>, l: string, title: string, fontSize: int)
    requires fontSize > -4 && |ls| >= Capacity(FirstTop, fontSize)
    ensures 0 <= Rows(Layout(ls, title, fontSize)) <= Capacity(Top(Layout(ls, title, fontSize)), fontSize)
    ensures Layout(ls + [l], title, fontSize) == Extend(Layout(ls, title, fontSize), l, fontSize)
  {
    var c1 := Capacity(FirstTop, fontSize);
    var t := TitlePlacement(title, fontSize);
    var p := Layout(ls, title, fontSize);
    var ls' := ls + [l];
    var first := [t] + Column(ls[..c1], FirstTop, fontSize);
    var rest := ls[c1..];
    assert Min(|ls|, c1) == c1 && Min(|ls'|, c1) == c1;
    assert p == [first] + Continuations(rest, fontSize);
    assert ls'[..c1] == ls[..c1] && ls'[c1..] == rest + [l];
    assert Layout(ls', title, fontSize) == [first] + Continuations(rest + [l], fontSize);
    if rest == [] {
      assert Continuations([], fontSize) == [];
      assert p == [first];
      assert [l][..1] == [l] && [l][1..] == [];
      assert Continuations([l], fontSize) == [Column([l], ContinuationTop, fontSize)];
      assert Column([l], ContinuationTop, fontSize) == [BodyPlacement(l, ContinuationTop, fontSize)];
    } else {
      ContinuationsSnoc(first, rest, l, fontSize);
    }
  }

  /** Laying out one more line extends the layout as `Extend` says; the last
      page is never over capacity. */
  lemma LayoutSnoc(ls: seq<string>, l: string, title: string, fontSize: int)
    requires fontSize > -4
    ensures 0 <= Rows(Layout(ls, title, fontSize)) <= Capacity(Top(Layout(ls, title, fontSize)), fontSize)
    ensures Layout(ls + [l], title, fontSize) == Extend(Layout(ls, title, fontSize), l, fontSize)
  {
    if |ls| < Capacity(FirstTop, fontSize) {
      SnocOnFirstPage(ls, l, title, fontSize);
    } else {
      SnocAfterFirstPage(ls, l, title, fontSize);
    }
  }

  /** With no lines the document is the first page holding only the title. */
  lemma LayoutEmpty(title: string, fontSize: int)
    requires fontSize > -4
    ensures Layout([], title, fontSize) == [[TitlePlacement(title, fontSize)]]
  {
    var none: seq<string> := [];
    var c := Min(|none|, Capacity(FirstTop, fontSize));
    assert c == 0;
    assert none[..c] == none && none[c..] == none;
    assert Column(none, FirstTop, fontSize) == [];
    assert Continuations(none, fontSize) == [];
    assert [TitlePlacement(title, fontSize)] + [] == [TitlePlacement(title, fontSize)];
  }

  /** A single line is drawn on the first page at the body's first baseline,
      under the title. */
  lemma LayoutOneLine(line: string, title: string, fontSize: int)
    requires fontSize > -4
    ensures Layout([line], title, fontSize) ==
      [[TitlePlacement(title, fontSize), BodyPlacement(line, FirstTop, fontSize)]]
  {
    var one := [line];
    assert Min(|one|, Capacity(FirstTop, fontSize)) == 1;
    assert one[..1] == one && one[1..] == [];
    assert Column(one, FirstTop, fontSize) == [BodyPlacement(line, FirstTop, fontSize)];
    assert Continuations([], fontSize) == [];
    assert [TitlePlacement(title, fontSize)] + [BodyPlacement(line, FirstTop, fontSize)] ==
      [TitlePlacement(title, fontSize), BodyPlacement(line, FirstTop, fontSize)];
  }

  /** One turn of the source's loop: testing the cursor against 50, adding an
      empty page and resetting the cursor to 750 when it is below, then drawing
      the line at the cursor, is `Extend`; the cursor, lowered by one line
      height, is then the next row of the extended pages. */
  lemma LoopStep(p: seq<Page>, l: string, fontSize: int, y: int)
    requires fontSize > -4 && |p| >= 1 && 0 <= Rows(p) <= Capacity(Top(p), fontSize)
    requires y == Top(p) - Rows(p) * LineHeight(fontSize)
    ensures var y' := if y < LowWater then ContinuationTop else y;
      var base := if y < LowWater then p + [[]] else p;
      var p' := Extend(p, l, fontSize);
      p' == base[|base| - 1 := base[|base| - 1] + [BodyPlacement(l, y', fontSize)]] &&
      y' - LineHeight(fontSize) == Top(p') - Rows(p') * LineHeight(fontSize)
  {
    var h := LineHeight(fontSize);
    Exhausted(Top(p), Rows(p), fontSize);
    var b := BodyPlacement(l, ContinuationTop, fontSize);
    if y < LowWater {
      var base := p + [[]];
      assert [] + [b] == [b];
      assert base[|p| := [b]] == p + [[b]] by {
        assert forall k :: 0 <= k <= |p| ==> base[|p| := [b]][k] == (p + [[b]])[k];
      }
      assert 1 * h == h;
    } else {
      assert (Rows(p) + 1) * h == Rows(p) * h + h;
    }
  }

  // ---------------------------------------------------------------------
  // The loop of the source.
  // ---------------------------------------------------------------------

  /** Lines 133-161 of the source: the title, then every line in order, a
      page being added whenever the cursor is below 50 before a line. */
  method Paginate(lines: seq<string>, title: string, fontSize: int) returns (pages: seq<Page>)
    requires fontSize > -4
    ensures pages == Layout(lines, title, fontSize)
  {
    pages := [[TitlePlacement(title, fontSize)]];
    var yPosition := FirstTop;
    var lineHeight := fontSize + 4;
    assert lines[..0] == [];
    LayoutEmpty(title, fontSize);
    for i := 0 to |lines|
      invariant pages == Layout(lines[..i], title, fontSize)
      invariant yPosition == Top(pages) - Rows(pages) * lineHeight
    {
      LayoutSnoc(lines[..i], lines[i], title, fontSize);
      LoopStep(pages, lines[i], fontSize, yPosition);
      assert lines[..i + 1] == lines[..i] + [lines[i]];
      if yPosition < LowWater {
        pages := pages + [[]];
        yPosition := ContinuationTop;
      }
      var last := |pages| - 1;
      pages := pages[last := pages[last] + [BodyPlacement(lines[i], yPosition, fontSize)]];
      yPosition := yPosition - lineHeight;
    }
    assert lines[..|lines|] == lines;
  }

  // ---------------------------------------------------------------------
  // What the layout promises.
  // ---------------------------------------------------------------------

  /** The texts of a run of placements, in order. */
  function Texts(ps: seq<Placement>): (r: seq<string>)
    ensures |r| == |ps|
  {
    seq(|ps|, i requires 0 <= i < |ps| => ps[i].text)
  }

  lemma TextsAppend(a: seq<Placement>, b: seq<Placement>)
    ensures Texts(a + b) == Texts(a) + Texts(b)
  {
  }

  lemma TextsColumn(ls: seq<string>, top: int, fontSize: int)
    ensures Texts(Column(ls, top, fontSize)) == ls
  {
  }

  lemma FlattenCons(page: Page, rest: seq<Page>)
    ensures Flatten([page] + rest) == page + Flatten(rest)
  {
    assert ([page] + rest)[1..] == rest;
  }

  lemma {:induction false} ContinuationTexts(rest: seq<string>, fontSize: int)
    requires fontSize > -4
    ensures Texts(Flatten(Continuations(rest, fontSize))) == rest
    decreases |rest|
  {
    if rest != [] {
      ContinuationsCons(rest, fontSize);
      var c := Min(|rest|, Capacity(ContinuationTop, fontSize));
      var col := Column(rest[..c], ContinuationTop, fontSize);
      var tail := Continuations(rest[c..], fontSize);
      ContinuationTexts(rest[c..], fontSize);
      FlattenCons(col, tail);
      TextsAppend(col, Flatten(tail));
      TextsColumn(rest[..c], ContinuationTop, fontSize);
      assert rest[..c] + rest[c..] == rest;
    }
  }

  /** Conservation: the document draws the title and then every line exactly
      once, in input order. */
  lemma LayoutDrawsEachLineOnce(lines: seq<string>, title: string, fontSize: int)
    requires fontSize > -4
    ensures Texts(Flatten(Layout(lines, title, fontSize))) == [title] + lines
  {
    var c := Min(|lines|, Capacity(FirstTop, fontSize));
    var first := [TitlePlacement(title, fontSize)] + Column(lines[..c], FirstTop, fontSize);
    var rest := Continuations(lines[c..], fontSize);
    assert Layout(lines, title, fontSize) == [first] + rest;
    FlattenCons(first, rest);
    ContinuationTexts(lines[c..], fontSize);
    TextsAppend(first, Flatten(rest));
    assert Texts(first) == [title] + lines[..c] by {
      TextsAppend([TitlePlacement(title, fontSize)], Column(lines[..c], FirstTop, fontSize));
      TextsColumn(lines[..c], FirstTop, fontSize);
    }
    assert [title] + lines[..c] + lines[c..] == [title] + lines;
  }

  /** One step of the chunking: a non-empty remainder puts its first
      min(n, Capacity(750)) lines on one page. */
  lemma ContinuationsCons(rest: seq<string>, fontSize: int)
    requires fontSize > -4 && rest != []
    ensures var c := Capacity(ContinuationTop, fontSize);
      var n := Min(|rest|, c);
      1 <= n <= c && (n < c ==> n == |rest|) &&
      Continuations(rest, fontSize) == [Column(rest[..n], ContinuationTop, fontSize)] + Continuations(rest[n..], fontSize)
  {
  }

  /** The continuation pages are the fewest pages of Capacity(750) rows that
      hold the remaining lines: none for no lines, otherwise k pages with
      (k - 1) * capacity < lines <= k * capacity. */
  lemma {:induction false} ContinuationCount(rest: seq<string>, fontSize: int)
    requires fontSize > -4
    ensures var k := |Continuations(rest, fontSize)|;
      var c := Capacity(ContinuationTop, fontSize);
      (k == 0 <==> rest == []) && (k - 1) * c < |rest| <= k * c
    decreases |rest|
  {
    var c := Capacity(ContinuationTop, fontSize);
    if rest != [] {
      ContinuationsCons(rest, fontSize);
      var n := Min(|rest|, c);
      ContinuationCount(rest[n..], fontSize);
      var m := |Continuations(rest[n..], fontSize)|;
      assert |Continuations(rest, fontSize)| == m + 1;
      if |rest| <= c {
        assert rest[n..] == [];
      } else {
        assert |rest[n..]| == |rest| - c;
        assert (m + 1) * c == m * c + c;
        assert (m - 1) * c + c == m * c;
      }
    }
  }

  /** Continuation page k holds 1 to Capacity(750) rows, exactly that many
      unless it is the last page, and its row j is a body line drawn at
      750 - j * lineHeight. */
  lemma {:induction false} ContinuationPage(rest: seq<string>, fontSize: int, k: nat)
    requires fontSize > -4 && k < |Continuations(rest, fontSize)|
    ensures var q := Continuations(rest, fontSize);
      var c := Capacity(ContinuationTop, fontSize);
      1 <= |q[k]| <= c && (k < |q| - 1 ==> |q[k]| == c) &&
      forall j :: 0 <= j < |q[k]| ==>
        q[k][j] == BodyPlacement(q[k][j].text, ContinuationTop - j * LineHeight(fontSize), fontSize)
    decreases |rest|
  {
    ContinuationsCons(rest, fontSize);
    var n := Min(|rest|, Capacity(ContinuationTop, fontSize));
    var tail := Continuations(rest[n..], fontSize);
    if k == 0 {
      if 0 < |tail| {
        assert rest[n..] != [];
      }
    } else {
      ContinuationPage(rest[n..], fontSize, k - 1);
      assert Continuations(rest, fontSize)[k] == tail[k - 1];
    }
  }

  /** Page count and page sizes: the first page holds the title and
      min(n, 650 / lineHeight + 1) lines; the first is full when a second
      page exists; every continuation page holds between 1 and
      700 / lineHeight + 1 lines, all but the last exactly that many. */
  lemma LayoutShape(lines: seq<string>, title: string, fontSize: int)
    requires fontSize > -4
    ensures var p := Layout(lines, title, fontSize);
      var c1 := Capacity(FirstTop, fontSize);
      var c2 := Capacity(ContinuationTop, fontSize);
      c1 == 650 / LineHeight(fontSize) + 1 && c2 == 700 / LineHeight(fontSize) + 1 &&
      var over := Max(0, |lines| - c1);
      (|p| == 1 <==> over == 0) && (|p| - 2) * c2 < over <= (|p| - 1) * c2 &&
      |p[0]| == 1 + Min(|lines|, c1) &&
      (|p| > 1 ==> |p[0]| == 1 + c1) &&
      (forall k :: 1 <= k < |p| ==> 1 <= |p[k]| <= c2 && (k < |p| - 1 ==> |p[k]| == c2))
  {
    var p := Layout(lines, title, fontSize);
    var c := Min(|lines|, Capacity(FirstTop, fontSize));
    var rest := Continuations(lines[c..], fontSize);
    ContinuationCount(lines[c..], fontSize);
    assert p == [p[0]] + rest;
    forall k | 1 <= k < |p|
      ensures 1 <= |p[k]| <= Capacity(ContinuationTop, fontSize)
      ensures k < |p| - 1 ==> |p[k]| == Capacity(ContinuationTop, fontSize)
    {
      assert p[k] == rest[k - 1];
      ContinuationPage(lines[c..], fontSize, k - 1);
    }
    if |p| > 1 {
      assert lines[c..] != [];
    }
  }

  /** Geometry: the title is the only bold placement, first on the first page
      at (50, 750) with size fontSize + 2; every body line is drawn at x = 50
      with size fontSize, at 700 - r * lineHeight for row r of the first page
      and at 750 - r * lineHeight for row r of a continuation page, and never
      below 50 nor above 750. */
  lemma LayoutGeometry(lines: seq<string>, title: string, fontSize: int)
    requires fontSize > -4
    ensures var p := Layout(lines, title, fontSize);
      |p| >= 1 && |p[0]| >= 1 && p[0][0] == TitlePlacement(title, fontSize) &&
      forall k, j :: 0 <= k < |p| && 0 <= j < |p[k]| && !(k == 0 && j == 0) ==>
        p[k][j] == BodyPlacement(p[k][j].text, p[k][j].y, fontSize) &&
        p[k][j].y == (if k == 0 then FirstTop - (j - 1) * LineHeight(fontSize) else ContinuationTop - j * LineHeight(fontSize)) &&
        LowWater <= p[k][j].y <= ContinuationTop
  {
    var p: seq<Page> := Layout(lines, title, fontSize);
    var c1 := Capacity(FirstTop, fontSize);
    var c2 := Capacity(ContinuationTop, fontSize);
    var c := Min(|lines|, c1);
    var rest := Continuations(lines[c..], fontSize);
    forall k: int, j: int | 0 <= k < |p| && 0 <= j < |p[k]| && !(k == 0 && j == 0)
      ensures p[k][j] == BodyPlacement(p[k][j].text, p[k][j].y, fontSize)
      ensures p[k][j].y == (if k == 0 then FirstTop - (j - 1) * LineHeight(fontSize) else ContinuationTop - j * LineHeight(fontSize))
      ensures LowWater <= p[k][j].y <= ContinuationTop
    {
      if k == 0 {
        RowInRange(FirstTop, j - 1, fontSize);
      } else {
        assert p[k] == rest[k - 1];
        ContinuationPage(lines[c..], fontSize, k - 1);
        RowInRange(ContinuationTop, j, fontSize);
      }
    }
  }
}
