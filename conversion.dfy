/** One conversion of a flow file whose content has been parsed into a tree:
    format the tree, split the text into lines, lay the lines out on pages,
    and set the attributes of the converted flow file. */
module Conversion {
  import opened TextLines
  import opened JsonText
  import opened Pagination
  import opened FileName

  /** What a successful conversion produces: the document's pages and the
      two attributes the processor writes. */
  datatype Converted = Converted(pages: seq<Page>, mimeType: string, filename: string)

  const PdfMimeType := "application/pdf"

  /** The lines the body loop iterates over: the formatted tree cut with
      `split("\n")`. */
  function BodyLines(root: Json, includeKeys: bool): seq<string>
  {
    JavaSplit(Format(root, includeKeys, 0))
  }

  /** The conversion: format the tree at level 0, split it, paginate under the
      title, mark the result as a PDF and rename the file. */
  method Convert(root: Json, title: string, fontSize: int, includeKeys: bool, filename: string)
    returns (out: Converted)
    requires fontSize > -4
    ensures out.pages == Layout(BodyLines(root, includeKeys), title, fontSize)
    ensures out.mimeType == PdfMimeType
    ensures out.filename == RenameToPdf(filename)
  {
    var formattedText := FormatJsonToText(root, includeKeys, 0);
    FormatIsTerminated(root, includeKeys, 0);
    var lines := JavaSplit(formattedText);
    var pages := Paginate(lines, title, fontSize);
    out := Converted(pages, PdfMimeType, RenameToPdf(filename));
  }

  /** When no key or scalar text holds a line feed, the body lines are the
      formatter's lines without the trailing empty ones, or a single empty
      line when the formatter produced none. */
  lemma BodyLinesOfPlainTree(root: Json, includeKeys: bool)
    requires Plain(root)
    ensures var ls := Lines(root, includeKeys, 0);
      BodyLines(root, includeKeys) == if ls == [] then [""] else StripTrailingEmpty(ls)
  {
    LinesPlain(root, includeKeys, 0);
    FormatIsTerminated(root, includeKeys, 0);
    SplitTerminated(Lines(root, includeKeys, 0));
  }

  /** End to end: the document shows the title and then, in order and once
      each, the formatter's lines (trailing empty ones dropped, a single empty
      line for an empty tree); at most max(1, non-root nodes) lines. Both
      need a tree without line feeds in its keys and scalar texts. */
  lemma DocumentShowsTree(root: Json, title: string, fontSize: int, includeKeys: bool)
    requires fontSize > -4 && Plain(root)
    ensures var ls := Lines(root, includeKeys, 0);
      Texts(Flatten(Layout(BodyLines(root, includeKeys), title, fontSize))) ==
        [title] + (if ls == [] then [""] else StripTrailingEmpty(ls))
    ensures |BodyLines(root, includeKeys)| <= Max(1, Size(root) - (if root.Scalar? then 0 else 1))
  {
    BodyLinesOfPlainTree(root, includeKeys);
    LayoutDrawsEachLineOnce(BodyLines(root, includeKeys), title, fontSize);
    LineCount(root, includeKeys, 0);
  }

  /** Without keys every body line is blank or the text of one of the tree's
      scalars: nothing is indented and no key is shown. */
  lemma KeylessBodyLines(root: Json)
    requires Plain(root)
    ensures forall l :: l in BodyLines(root, false) ==> l == "" || HasScalarText(root, l)
  {
    BodyLinesOfPlainTree(root, false);
    LinesKeyless(root, 0);
    var ls := Lines(root, false, 0);
    if ls != [] {
      var r := StripTrailingEmpty(ls);
      forall l | l in r ensures l in ls {
        var i :| 0 <= i < |r| && r[i] == l;
        assert ls[i] == l;
      }
    }
  }

  /** `{"person":{"name":"Jo"}}` without keys: two lines, the first blank,
      because the nested object still starts a line. */
  lemma PersonKeyless()
    ensures BodyLines(Obj([Field("person", Obj([Field("name", Scalar("Jo"))]))]), false) == ["", "Jo"]
  {
    NestedExample();
    JavaSplitExamples();
  }

  /** The formatter's lines for `{"person":{"name":"Jo"}}` with keys. */
  lemma PersonKeyedLines()
    ensures Lines(Obj([Field("person", Obj([Field("name", Scalar("Jo"))]))]), true, 0) == ["person: ", "  name: Jo"]
  {
    var inner := Obj([Field("name", Scalar("Jo"))]);
    var fs := [Field("person", inner)];
    assert fs[1..] == [];
    assert [Field("name", Scalar("Jo"))][1..] == [];
    assert Indent(0) == "" && Indent(1) == "  ";
    assert Prefix(true, 0, "person") == "person: ";
    assert Prefix(true, 1, "name") + "Jo" == "  name: Jo";
    assert Lines(inner, true, 1) == ["  name: Jo"] + [];
    assert EntryLines("person", inner, true, 0) == ["person: "] + ["  name: Jo"];
    assert FieldLines(fs, true, 0) == EntryLines("person", inner, true, 0) + FieldLines(fs[1..], true, 0);
    assert Lines(Obj(fs), true, 0) == EntryLines("person", inner, true, 0) + [];
  }

  /** `{"person":{"name":"Jo"}}` with keys: the key line, then the nested
      field indented by two spaces. */
  lemma PersonKeyed()
    ensures BodyLines(Obj([Field("person", Obj([Field("name", Scalar("Jo"))]))]), true) == ["person: ", "  name: Jo"]
  {
    var person := Obj([Field("person", Obj([Field("name", Scalar("Jo"))]))]);
    var keyed := ["person: ", "  name: Jo"];
    PersonKeyedLines();
    FormatIsTerminated(person, true, 0);
    assert NoLineFeeds(keyed);
    SplitTerminated(keyed);
    assert StripTrailingEmpty(keyed) == keyed;
  }

  /** An empty object formats to no text, so the body is one empty line. */
  lemma EmptyObjectBody(includeKeys: bool)
    ensures BodyLines(Obj([]), includeKeys) == [""]
  {
    JavaSplitExamples();
    assert Format(Obj([]), includeKeys, 0) == "";
  }

  /** An empty object still yields one page with the title and one blank line
      at the top of the body. */
  lemma EmptyObjectDocument(title: string, fontSize: int, includeKeys: bool)
    requires fontSize > -4
    ensures Layout(BodyLines(Obj([]), includeKeys), title, fontSize) ==
      [[TitlePlacement(title, fontSize), BodyPlacement("", FirstTop, fontSize)]]
  {
    EmptyObjectBody(includeKeys);
    LayoutOneLine("", title, fontSize);
  }

  /** The formatter's lines for `{"a":"x","b":{}}` without keys. */
  lemma TrailingBlankLines()
    ensures Lines(Obj([Field("a", Scalar("x")), Field("b", Obj([]))]), false, 0) == ["x", ""]
  {
    var fs := [Field("a", Scalar("x")), Field("b", Obj([]))];
    assert fs[1..] == [fs[1]] && fs[1..][1..] == [];
    assert Lines(Obj([]), false, 1) == [];
    assert EntryLines("b", Obj([]), false, 0) == [""];
    assert FieldLines([fs[1]], false, 0) == [""];
    assert Prefix(false, 0, "a") == "";
    assert "" + "x" == "x";
    assert EntryLines("a", Scalar("x"), false, 0) == ["x"];
  }

  /** An empty container as the last field gives a trailing blank line when
      keys are off, and `split` drops it: `{"a":"x","b":{}}` shows only "x". */
  lemma TrailingBlankDropped()
    ensures BodyLines(Obj([Field("a", Scalar("x")), Field("b", Obj([]))]), false) == ["x"]
  {
    var fs := [Field("a", Scalar("x")), Field("b", Obj([]))];
    TrailingBlankLines();
    assert Plain(Obj(fs)) by {
      assert Plain(Scalar("x")) && Plain(Obj([]));
    }
    BodyLinesOfPlainTree(Obj(fs), false);
    assert ["x", ""][..1] == ["x"];
  }
}
