/** The recursive JSON-to-text formatter: a JSON tree becomes indented text,
    one line per field or element, each line ended by "\n". */
module JsonText {
  import opened TextLines

  /** A parsed JSON tree as the formatter sees it. Object fields are kept in
      the parser's iteration order; a scalar (string, number, boolean, null)
      carries the text the parser renders for it. */
  datatype Json = Obj(fields: seq<Field>) | Arr(items: seq<Json>) | Scalar(text: string)

  /** One key/value pair of an object. */
  datatype Field = Field(key: string, value: Json)

  predicate IsContainer(v: Json)
  {
    v.Obj? || v.Arr?
  }

  /** Two spaces per indentation level. */
  function Indent(level: nat): (r: string)
    ensures |r| == 2 * level
    ensures forall i :: 0 <= i < |r| ==> r[i] == ' '
  {
    if level == 0 then "" else Indent(level - 1) + "  "
  }

  function DigitChar(d: nat): (c: char)
    requires d < 10
    ensures '0' <= c <= '9'
  {
    ('0' as int + d) as char
  }

  /** Decimal rendering of a non-negative integer, as Java appends an int. */
  function Decimal(n: nat): (r: string)
    ensures |r| >= 1
    ensures forall i :: 0 <= i < |r| ==> '0' <= r[i] <= '9'
  {
    if n < 10 then [DigitChar(n)] else Decimal(n / 10) + [DigitChar(n % 10)]
  }

  /** The value a string of decimal digits denotes. */
  function DecimalValue(s: string): nat
  {
    if s == [] then 0
    else DecimalValue(s[..|s| - 1]) * 10 + (if '0' <= s[|s| - 1] <= '9' then s[|s| - 1] as nat - '0' as nat else 0)
  }

  /** The synthetic key of the i-th array element: "[i]". */
  function IndexKey(i: nat): string
  {
    "[" + Decimal(i) + "]"
  }

  /** What is written before a field's or element's value: the indentation,
      the key and ": " when keys are included, nothing otherwise. */
  function Prefix(includeKeys: bool, level: nat, key: string): string
  {
    if includeKeys then Indent(level) + key + ": " else ""
  }

  /** The text one object field or array element contributes at `level`. */
  function Entry(key: string, value: Json, includeKeys: bool, level: nat): string
    decreases value, 1
  {
    Prefix(includeKeys, level, key) +
    (if IsContainer(value) then "\n" + Format(value, includeKeys, level + 1) else value.text + "\n")
  }

  function FormatFields(fields: seq<Field>, includeKeys: bool, level: nat): string
    decreases fields, 0
  {
    if fields == [] then ""
    else Entry(fields[0].key, fields[0].value, includeKeys, level) + FormatFields(fields[1..], includeKeys, level)
  }

  /** The elements of `items`, the first of them labelled with index `first`. */
  function FormatItems(items: seq<Json>, first: nat, includeKeys: bool, level: nat): string
    decreases items, 0
  {
    if items == [] then ""
    else Entry(IndexKey(first), items[0], includeKeys, level) + FormatItems(items[1..], first + 1, includeKeys, level)
  }

  /** The formatter's output for `node` at indentation `level`. */
  function Format(node: Json, includeKeys: bool, level: nat): string
    decreases node, 0
  {
    match node
    case Obj(fields) => FormatFields(fields, includeKeys, level)
    case Arr(items) => FormatItems(items, 0, includeKeys, level)
    case Scalar(text) => text + "\n"
  }

  /** Arrays are formatted exactly like the object whose keys are "[0]",
      "[1]", ... in index order. */
  function Labelled(items: seq<Json>, first: nat): (r: seq<Field>)
    ensures |r| == |items|
    ensures forall i :: 0 <= i < |items| ==> r[i] == Field(IndexKey(first + i), items[i])
  {
    seq(|items|, i requires 0 <= i < |items| => Field(IndexKey(first + i), items[i]))
  }

  lemma {:induction false} ItemsAsFields(items: seq<Json>, first: nat, includeKeys: bool, level: nat)
    ensures FormatItems(items, first, includeKeys, level) == FormatFields(Labelled(items, first), includeKeys, level)
  {
    if items != [] {
      ItemsAsFields(items[1..], first + 1, includeKeys, level);
      assert Labelled(items, first)[1..] == Labelled(items[1..], first + 1);
    }
  }

  /** An array writes its i-th element (0-based, in index order) under the key "[i]". */
  lemma ArrayAsObject(items: seq<Json>, includeKeys: bool, level: nat)
    ensures Format(Arr(items), includeKeys, level) == Format(Obj(Labelled(items, 0)), includeKeys, level)
  {
    ItemsAsFields(items, 0, includeKeys, level);
  }

  /** The value of an index key's digits is the index itself (no leading zeros
      beyond a lone "0"); keys of distinct elements therefore differ. */
  lemma {:induction false} DecimalRoundTrip(n: nat)
    ensures DecimalValue(Decimal(n)) == n
    ensures Decimal(n)[0] == '0' <==> n == 0
  {
    if n >= 10 {
      DecimalRoundTrip(n / 10);
      var d := Decimal(n / 10);
      var c := DigitChar(n % 10);
      assert Decimal(n) == d + [c];
      assert (d + [c])[..|d|] == d;
      assert c as nat - '0' as nat == n % 10;
      assert DecimalValue(d + [c]) == (n / 10) * 10 + n % 10;
    }
  }

  // ---------------------------------------------------------------------
  // The line view: the same output as a sequence of lines, each of which is
  // written followed by "\n".
  // ---------------------------------------------------------------------

  /** The lines one field or element contributes: a container contributes its
      prefix as a line of its own and then its lines one level deeper; a
      scalar contributes one line, its prefix and its text. */
  function EntryLines(key: string, value: Json, includeKeys: bool, level: nat): seq<string>
    decreases value, 1
  {
    if IsContainer(value) then [Prefix(includeKeys, level, key)] + Lines(value, includeKeys, level + 1)
    else [Prefix(includeKeys, level, key) + value.text]
  }

  function FieldLines(fields: seq<Field>, includeKeys: bool, level: nat): seq<string>
    decreases fields, 0
  {
    if fields == [] then []
    else EntryLines(fields[0].key, fields[0].value, includeKeys, level) + FieldLines(fields[1..], includeKeys, level)
  }

  function ItemLines(items: seq<Json>, first: nat, includeKeys: bool, level: nat): seq<string>
    decreases items, 0
  {
    if items == [] then []
    else EntryLines(IndexKey(first), items[0], includeKeys, level) + ItemLines(items[1..], first + 1, includeKeys, level)
  }

  /** The lines of `node`: no line for an empty container, exactly one line
      (its text) for a scalar root. */
  function Lines(node: Json, includeKeys: bool, level: nat): seq<string>
    decreases node, 0
  {
    match node
    case Obj(fields) => FieldLines(fields, includeKeys, level)
    case Arr(items) => ItemLines(items, 0, includeKeys, level)
    case Scalar(text) => [text]
  }

  lemma {:induction false} EntryIsTerminated(key: string, value: Json, includeKeys: bool, level: nat)
    ensures Entry(key, value, includeKeys, level) == Terminated(EntryLines(key, value, includeKeys, level))
    decreases value, 1
  {
    var p := Prefix(includeKeys, level, key);
    if IsContainer(value) {
      FormatIsTerminated(value, includeKeys, level + 1);
      assert ([p] + Lines(value, includeKeys, level + 1))[1..] == Lines(value, includeKeys, level + 1);
    }
  }

  lemma {:induction false} FieldsAreTerminated(fields: seq<Field>, includeKeys: bool, level: nat)
    ensures FormatFields(fields, includeKeys, level) == Terminated(FieldLines(fields, includeKeys, level))
    decreases fields, 0
  {
    if fields != [] {
      EntryIsTerminated(fields[0].key, fields[0].value, includeKeys, level);
      FieldsAreTerminated(fields[1..], includeKeys, level);
      TerminatedAppend(EntryLines(fields[0].key, fields[0].value, includeKeys, level), FieldLines(fields[1..], includeKeys, level));
    }
  }

  lemma {:induction false} ItemsAreTerminated(items: seq<Json>, first: nat, includeKeys: bool, level: nat)
    ensures FormatItems(items, first, includeKeys, level) == Terminated(ItemLines(items, first, includeKeys, level))
    decreases items, 0
  {
    if items != [] {
      EntryIsTerminated(IndexKey(first), items[0], includeKeys, level);
      ItemsAreTerminated(items[1..], first + 1, includeKeys, level);
      TerminatedAppend(EntryLines(IndexKey(first), items[0], includeKeys, level), ItemLines(items[1..], first + 1, includeKeys, level));
    }
  }

  /** The formatted text is exactly its lines, each followed by "\n". */
  lemma {:induction false} FormatIsTerminated(node: Json, includeKeys: bool, level: nat)
    ensures Format(node, includeKeys, level) == Terminated(Lines(node, includeKeys, level))
    decreases node, 0
  {
    match node
    case Obj(fields) => FieldsAreTerminated(fields, includeKeys, level);
    case Arr(items) => ItemsAreTerminated(items, 0, includeKeys, level);
    case Scalar(text) =>
  }

  // ---------------------------------------------------------------------
  // Counting and indentation.
  // ---------------------------------------------------------------------

  /** Number of nodes of the tree, the root included. */
  function Size(node: Json): nat
    decreases node, 0
  {
    match node
    case Obj(fields) => 1 + FieldsSize(fields)
    case Arr(items) => 1 + ItemsSize(items)
    case Scalar(_) => 1
  }

  function FieldsSize(fields: seq<Field>): nat
    decreases fields
  {
    if fields == [] then 0 else Size(fields[0].value) + FieldsSize(fields[1..])
  }

  function ItemsSize(items: seq<Json>): nat
    decreases items
  {
    if items == [] then 0 else Size(items[0]) + ItemsSize(items[1..])
  }

  lemma {:induction false} EntryLineCount(key: string, value: Json, includeKeys: bool, level: nat)
    ensures |EntryLines(key, value, includeKeys, level)| == Size(value)
    decreases value, 1
  {
    if IsContainer(value) {
      LineCount(value, includeKeys, level + 1);
    }
  }

  lemma {:induction false} FieldLineCount(fields: seq<Field>, includeKeys: bool, level: nat)
    ensures |FieldLines(fields, includeKeys, level)| == FieldsSize(fields)
    decreases fields, 0
  {
    if fields != [] {
      EntryLineCount(fields[0].key, fields[0].value, includeKeys, level);
      FieldLineCount(fields[1..], includeKeys, level);
    }
  }

  lemma {:induction false} ItemLineCount(items: seq<Json>, first: nat, includeKeys: bool, level: nat)
    ensures |ItemLines(items, first, includeKeys, level)| == ItemsSize(items)
    decreases items, 0
  {
    if items != [] {
      EntryLineCount(IndexKey(first), items[0], includeKeys, level);
      ItemLineCount(items[1..], first + 1, includeKeys, level);
    }
  }

  /** One line per node below the root, whether or not keys are included,
      plus one for a scalar root. */
  lemma {:induction false} LineCount(node: Json, includeKeys: bool, level: nat)
    ensures |Lines(node, includeKeys, level)| == Size(node) - (if node.Scalar? then 0 else 1)
    decreases node, 0
  {
    match node
    case Obj(fields) => FieldLineCount(fields, includeKeys, level);
    case Arr(items) => ItemLineCount(items, 0, includeKeys, level);
    case Scalar(_) =>
  }

  /** No key and no scalar text of the tree contains a line feed. */
  predicate Plain(node: Json)
    decreases node, 0
  {
    match node
    case Obj(fields) => forall i :: 0 <= i < |fields| ==> '\n' !in fields[i].key && Plain(fields[i].value)
    case Arr(items) => forall i :: 0 <= i < |items| ==> Plain(items[i])
    case Scalar(text) => '\n' !in text
  }

  lemma {:induction false} IndexKeyPlain(i: nat)
    ensures '\n' !in IndexKey(i)
  {
    var d := Decimal(i);
    assert IndexKey(i) == "[" + d + "]";
    forall k | 0 <= k < |IndexKey(i)| ensures IndexKey(i)[k] != '\n' {
      if 0 < k < |d| + 1 {
        assert IndexKey(i)[k] == d[k - 1];
      }
    }
  }

  lemma PrefixPlain(includeKeys: bool, level: nat, key: string)
    requires '\n' !in key
    ensures '\n' !in Prefix(includeKeys, level, key)
  {
    if includeKeys {
      var ind := Indent(level);
      assert Prefix(includeKeys, level, key) == ind + key + ": ";
      assert '\n' !in ind;
    }
  }

  lemma {:induction false} EntryLinesPlain(key: string, value: Json, includeKeys: bool, level: nat)
    requires '\n' !in key && Plain(value)
    ensures NoLineFeeds(EntryLines(key, value, includeKeys, level))
    decreases value, 1
  {
    PrefixPlain(includeKeys, level, key);
    if IsContainer(value) {
      LinesPlain(value, includeKeys, level + 1);
    }
  }

  lemma {:induction false} FieldLinesPlain(fields: seq<Field>, includeKeys: bool, level: nat)
    requires forall i :: 0 <= i < |fields| ==> '\n' !in fields[i].key && Plain(fields[i].value)
    ensures NoLineFeeds(FieldLines(fields, includeKeys, level))
    decreases fields, 0
  {
    if fields != [] {
      EntryLinesPlain(fields[0].key, fields[0].value, includeKeys, level);
      FieldLinesPlain(fields[1..], includeKeys, level);
    }
  }

  lemma {:induction false} ItemLinesPlain(items: seq<Json>, first: nat, includeKeys: bool, level: nat)
    requires forall i :: 0 <= i < |items| ==> Plain(items[i])
    ensures NoLineFeeds(ItemLines(items, first, includeKeys, level))
    decreases items, 0
  {
    if items != [] {
      IndexKeyPlain(first);
      EntryLinesPlain(IndexKey(first), items[0], includeKeys, level);
      ItemLinesPlain(items[1..], first + 1, includeKeys, level);
    }
  }

  /** A tree free of line feeds gives lines free of line feeds. */
  lemma {:induction false} LinesPlain(node: Json, includeKeys: bool, level: nat)
    requires Plain(node)
    ensures NoLineFeeds(Lines(node, includeKeys, level))
    decreases node, 0
  {
    match node
    case Obj(fields) => FieldLinesPlain(fields, includeKeys, level);
    case Arr(items) => ItemLinesPlain(items, 0, includeKeys, level);
    case Scalar(_) =>
  }

  /** The output holds exactly one "\n" per node below the root, plus one for
      a scalar root. */
  lemma LineFeedCount(node: Json, includeKeys: bool, level: nat)
    requires Plain(node)
    ensures Occurrences('\n', Format(node, includeKeys, level)) == Size(node) - (if node.Scalar? then 0 else 1)
  {
    FormatIsTerminated(node, includeKeys, level);
    LinesPlain(node, includeKeys, level);
    TerminatedSplitAll(Lines(node, includeKeys, level));
    LineCount(node, includeKeys, level);
  }

  /** t is the text of some scalar node of the tree. */
  predicate HasScalarText(node: Json, t: string)
    decreases node, 0
  {
    match node
    case Obj(fields) => exists i :: 0 <= i < |fields| && HasScalarText(fields[i].value, t)
    case Arr(items) => exists i :: 0 <= i < |items| && HasScalarText(items[i], t)
    case Scalar(text) => text == t
  }

  lemma {:induction false} EntryLinesKeyless(key: string, value: Json, level: nat)
    ensures EntryLines(key, value, false, level) == EntryLines(key, value, false, 0)
    ensures forall l :: l in EntryLines(key, value, false, level) ==> l == "" || HasScalarText(value, l)
    decreases value, 1
  {
    if IsContainer(value) {
      LinesKeyless(value, level + 1);
      LinesKeyless(value, 1);
    }
  }

  lemma {:induction false} FieldLinesKeyless(fields: seq<Field>, level: nat)
    ensures FieldLines(fields, false, level) == FieldLines(fields, false, 0)
    ensures forall l :: l in FieldLines(fields, false, level) ==>
      l == "" || exists i :: 0 <= i < |fields| && HasScalarText(fields[i].value, l)
    decreases fields, 0
  {
    if fields != [] {
      EntryLinesKeyless(fields[0].key, fields[0].value, level);
      FieldLinesKeyless(fields[1..], level);
      forall l | l in FieldLines(fields[1..], false, level) && l != ""
        ensures exists i :: 0 <= i < |fields| && HasScalarText(fields[i].value, l)
      {
        var j :| 0 <= j < |fields[1..]| && HasScalarText(fields[1..][j].value, l);
        assert fields[1..][j] == fields[j + 1];
      }
    }
  }

  lemma {:induction false} ItemLinesKeyless(items: seq<Json>, first: nat, level: nat)
    ensures ItemLines(items, first, false, level) == ItemLines(items, first, false, 0)
    ensures forall l :: l in ItemLines(items, first, false, level) ==>
      l == "" || exists i :: 0 <= i < |items| && HasScalarText(items[i], l)
    decreases items, 0
  {
    if items != [] {
      EntryLinesKeyless(IndexKey(first), items[0], level);
      ItemLinesKeyless(items[1..], first + 1, level);
      var rest := ItemLines(items[1..], first + 1, false, level);
      forall l | l in rest && l != ""
        ensures exists i :: 0 <= i < |items| && HasScalarText(items[i], l)
      {
        var j :| 0 <= j < |items[1..]| && HasScalarText(items[1..][j], l);
        assert items[1..][j] == items[j + 1];
      }
    }
  }

  /** Without keys nothing is indented: the lines do not depend on the level,
      and each one is empty (for a container) or a scalar's text. */
  lemma {:induction false} LinesKeyless(node: Json, level: nat)
    ensures Lines(node, false, level) == Lines(node, false, 0)
    ensures forall l :: l in Lines(node, false, level) ==> l == "" || HasScalarText(node, l)
    decreases node, 0
  {
    match node
    case Obj(fields) => FieldLinesKeyless(fields, level);
    case Arr(items) => ItemLinesKeyless(items, 0, level);
    case Scalar(_) =>
  }

  lemma IndentGrows(level: nat)
    ensures Indent(level + 1) == Indent(level) + "  "
  {
  }

  lemma {:induction false} EntryLinesIndented(key: string, value: Json, level: nat)
    ensures forall l :: l in EntryLines(key, value, true, level) ==> Indent(level) <= l
    decreases value, 1
  {
    var ind := Indent(level);
    var p := Prefix(true, level, key);
    assert p == ind + (key + ": ");
    assert ind <= p;
    if IsContainer(value) {
      LinesIndented(value, level + 1);
      IndentGrows(level);
      var sub := Lines(value, true, level + 1);
      forall l | l in sub ensures ind <= l {
        assert Indent(level + 1) <= l;
        assert l[..|ind|] == Indent(level + 1)[..|ind|];
      }
    }
  }

  lemma {:induction false} FieldLinesIndented(fields: seq<Field>, level: nat)
    ensures forall l :: l in FieldLines(fields, true, level) ==> Indent(level) <= l
    decreases fields, 0
  {
    if fields != [] {
      EntryLinesIndented(fields[0].key, fields[0].value, level);
      FieldLinesIndented(fields[1..], level);
    }
  }

  lemma {:induction false} ItemLinesIndented(items: seq<Json>, first: nat, level: nat)
    ensures forall l :: l in ItemLines(items, first, true, level) ==> Indent(level) <= l
    decreases items, 0
  {
    if items != [] {
      EntryLinesIndented(IndexKey(first), items[0], level);
      ItemLinesIndented(items[1..], first + 1, level);
    }
  }

  /** With keys, every line of a container's expansion at `level` starts with
      that level's indentation (deeper lines with more of it). */
  lemma {:induction false} LinesIndented(node: Json, level: nat)
    requires IsContainer(node)
    ensures forall l :: l in Lines(node, true, level) ==> Indent(level) <= l
    decreases node, 0
  {
    match node
    case Obj(fields) => FieldLinesIndented(fields, level);
    case Arr(items) => ItemLinesIndented(items, 0, level);
  }

  // ---------------------------------------------------------------------
  // Worked examples.
  // ---------------------------------------------------------------------

  /** The formatted text of a one-field object. */
  lemma SingleField(key: string, value: Json, includeKeys: bool, level: nat)
    ensures Format(Obj([Field(key, value)]), includeKeys, level) == Entry(key, value, includeKeys, level)
  {
    var fs := [Field(key, value)];
    assert fs[1..] == [];
    assert FormatFields(fs, includeKeys, level) == Entry(key, value, includeKeys, level) + "";
  }

  /** The inner object {"name":"Jo"} one level down. */
  lemma NestedInner(includeKeys: bool)
    ensures Format(Obj([Field("name", Scalar("Jo"))]), includeKeys, 1) == if includeKeys then "  name: Jo\n" else "Jo\n"
  {
    SingleField("name", Scalar("Jo"), includeKeys, 1);
    assert Indent(1) == "  ";
    if includeKeys {
      assert Entry("name", Scalar("Jo"), true, 1) == "  name: " + "Jo\n";
    } else {
      assert Entry("name", Scalar("Jo"), false, 1) == "" + "Jo\n";
    }
  }

  /** {"person":{"name":"Jo"}}: with keys the nested field is indented one
      level; without keys the container field still writes its "\n". */
  lemma NestedExample()
    ensures Format(Obj([Field("person", Obj([Field("name", Scalar("Jo"))]))]), true, 0) == "person: \n  name: Jo\n"
    ensures Format(Obj([Field("person", Obj([Field("name", Scalar("Jo"))]))]), false, 0) == "\nJo\n"
  {
    var inner := Obj([Field("name", Scalar("Jo"))]);
    NestedInner(true);
    NestedInner(false);
    SingleField("person", inner, true, 0);
    SingleField("person", inner, false, 0);
    assert Indent(0) == "";
    assert Entry("person", inner, true, 0) == "person: " + ("\n" + "  name: Jo\n");
    assert Entry("person", inner, false, 0) == "" + ("\n" + "Jo\n");
  }

  /** {"name":"John Doe","age":30} gives two unindented lines in field order. */
  lemma FlatExample()
    ensures Lines(Obj([Field("name", Scalar("John Doe")), Field("age", Scalar("30"))]), true, 0) == ["name: John Doe", "age: 30"]
  {
    var fs := [Field("name", Scalar("John Doe")), Field("age", Scalar("30"))];
    assert fs[1..] == [fs[1]] && fs[1..][1..] == [];
    assert Indent(0) == "";
    assert Prefix(true, 0, "age") + "30" == "age: 30";
    assert Prefix(true, 0, "name") + "John Doe" == "name: John Doe";
    assert FieldLines([fs[1]], true, 0) == ["age: 30"];
  }

  /** The text and the lines of a node are empty exactly when it is an empty
      object or an empty array, whatever the flag and the level. */
  lemma EmptyOutput(node: Json, includeKeys: bool, level: nat)
    ensures Format(node, includeKeys, level) == "" <==> node == Obj([]) || node == Arr([])
    ensures Lines(node, includeKeys, level) == [] <==> node == Obj([]) || node == Arr([])
  {
    match node
    case Obj(fields) =>
      if fields != [] {
        var e := Entry(fields[0].key, fields[0].value, includeKeys, level);
        assert |e| > 0;
        assert |FormatFields(fields, includeKeys, level)| >= |e|;
        assert |FieldLines(fields, includeKeys, level)| >= |EntryLines(fields[0].key, fields[0].value, includeKeys, level)| > 0;
      }
    case Arr(items) =>
      if items != [] {
        var e := Entry(IndexKey(0), items[0], includeKeys, level);
        assert |e| > 0;
        assert |FormatItems(items, 0, includeKeys, level)| >= |e|;
        assert |ItemLines(items, 0, includeKeys, level)| >= |EntryLines(IndexKey(0), items[0], includeKeys, level)| > 0;
      }
    case Scalar(text) =>
      assert |Lines(node, includeKeys, level)| == 1;
  }

  /** An empty object or array as a field value or element leaves only its
      prefix, on a line of its own. */
  lemma EmptyContainerEntry(key: string, includeKeys: bool, level: nat)
    ensures Entry(key, Obj([]), includeKeys, level) == Prefix(includeKeys, level, key) + "\n"
    ensures Entry(key, Arr([]), includeKeys, level) == Prefix(includeKeys, level, key) + "\n"
    ensures EntryLines(key, Obj([]), includeKeys, level) == [Prefix(includeKeys, level, key)]
    ensures EntryLines(key, Arr([]), includeKeys, level) == [Prefix(includeKeys, level, key)]
  {
    EmptyOutput(Obj([]), includeKeys, level + 1);
    EmptyOutput(Arr([]), includeKeys, level + 1);
  }

  /** An object whose values are all scalars gives one line per field, in
      field order: with keys the indented "key: text", without keys the text
      alone. */
  lemma {:induction false} ScalarFieldLines(fields: seq<Field>, level: nat)
    requires forall i :: 0 <= i < |fields| ==> fields[i].value.Scalar?
    ensures FieldLines(fields, true, level) ==
      seq(|fields|, i requires 0 <= i < |fields| => Indent(level) + fields[i].key + ": " + fields[i].value.text)
    ensures FieldLines(fields, false, level) ==
      seq(|fields|, i requires 0 <= i < |fields| => fields[i].value.text)
  {
    if fields != [] {
      ScalarFieldLines(fields[1..], level);
      var f := fields[0];
      assert EntryLines(f.key, f.value, false, level) == [f.value.text] by {
        assert Prefix(false, level, f.key) + f.value.text == f.value.text;
      }
    }
  }

  /** The formatted text of a one-element run of array items. */
  lemma SingleItem(item: Json, first: nat, includeKeys: bool, level: nat)
    ensures FormatItems([item], first, includeKeys, level) == Entry(IndexKey(first), item, includeKeys, level)
  {
    assert [item][1..] == [];
    assert FormatItems([item], first, includeKeys, level) == Entry(IndexKey(first), item, includeKeys, level) + "";
  }

  /** ["x",["y"]]: elements are keyed by their index, nested arrays indented. */
  lemma ArrayExample()
    ensures Format(Arr([Scalar("x"), Arr([Scalar("y")])]), true, 0) == "[0]: x\n[1]: \n  [0]: y\n"
  {
    var inner := Arr([Scalar("y")]);
    var outer := [Scalar("x"), inner];
    ArrayNested();
    ArrayFirstElement();
    assert outer[1..] == [inner];
    assert FormatItems(outer, 0, true, 0) == Entry(IndexKey(0), Scalar("x"), true, 0) + FormatItems([inner], 1, true, 0);
  }

  /** The element at index 0 of ["x",["y"]]. */
  lemma ArrayFirstElement()
    ensures Entry(IndexKey(0), Scalar("x"), true, 0) == "[0]: x\n"
  {
    assert Decimal(0) == "0" && IndexKey(0) == "[0]" && Indent(0) == "";
    assert Entry("[0]", Scalar("x"), true, 0) == "[0]: " + "x\n";
  }

  /** The nested array ["y"] one level down. */
  lemma ArrayInner()
    ensures Format(Arr([Scalar("y")]), true, 1) == "  [0]: y\n"
  {
    assert Decimal(0) == "0" && IndexKey(0) == "[0]" && Indent(1) == "  ";
    SingleItem(Scalar("y"), 0, true, 1);
    assert Entry("[0]", Scalar("y"), true, 1) == "  [0]: " + "y\n";
  }

  /** The element at index 1 of ["x",["y"]]: its key line, then the nested
      array one level deeper. */
  lemma ArrayNested()
    ensures FormatItems([Arr([Scalar("y")])], 1, true, 0) == "[1]: \n  [0]: y\n"
  {
    var inner := Arr([Scalar("y")]);
    ArrayInner();
    assert Decimal(1) == "1" && IndexKey(1) == "[1]" && Indent(0) == "";
    SingleItem(inner, 1, true, 0);
    assert Entry("[1]", inner, true, 0) == "[1]: " + ("\n" + "  [0]: y\n");
  }

  /** A scalar root is its text and one "\n", with or without keys. */
  lemma ScalarRoot(text: string, level: nat)
    ensures Format(Scalar(text), true, level) == text + "\n"
    ensures Format(Scalar(text), false, level) == text + "\n"
  {
  }

  // ---------------------------------------------------------------------
  // The formatter as the source writes it: a StringBuilder filled in a loop
  // over the fields or elements, recursing into containers.
  // ---------------------------------------------------------------------

  lemma FieldsStep(fields: seq<Field>, k: nat, includeKeys: bool, level: nat)
    requires k < |fields|
    ensures FormatFields(fields[k..], includeKeys, level)
         == Entry(fields[k].key, fields[k].value, includeKeys, level) + FormatFields(fields[k + 1..], includeKeys, level)
  {
    assert fields[k..][1..] == fields[k + 1..];
  }

  lemma ItemsStep(items: seq<Json>, i: nat, includeKeys: bool, level: nat)
    requires i < |items|
    ensures FormatItems(items[i..], i, includeKeys, level)
         == Entry(IndexKey(i), items[i], includeKeys, level) + FormatItems(items[i + 1..], i + 1, includeKeys, level)
  {
    assert items[i..][1..] == items[i + 1..];
  }

  /** Lines 195-204 and 208-217 of the source: the prefix when keys are
      included, then either "\n" and the child's expansion one level deeper,
      or the scalar's text and "\n". */
  method AppendEntry(sb: string, key: string, value: Json, includeKeys: bool, indentLevel: nat) returns (r: string)
    ensures r == sb + Entry(key, value, includeKeys, indentLevel)
    decreases value, 1
  {
    r := sb;
    if includeKeys {
      r := r + Indent(indentLevel) + key + ": ";
    }
    assert r == sb + Prefix(includeKeys, indentLevel, key);
    if IsContainer(value) {
      r := r + "\n";
      var sub := FormatJsonToText(value, includeKeys, indentLevel + 1);
      FormatIsTerminated(value, includeKeys, indentLevel + 1);
      r := r + sub;
    } else {
      r := r + value.text + "\n";
    }
  }

  /** The loop over an object's fields, in iteration order (lines 192-205). */
  method AppendFields(fields: seq<Field>, includeKeys: bool, indentLevel: nat) returns (sb: string)
    ensures sb == FormatFields(fields, includeKeys, indentLevel)
    decreases fields, 0
  {
    sb := "";
    var k := 0;
    while k < |fields|
      invariant 0 <= k <= |fields|
      invariant sb + FormatFields(fields[k..], includeKeys, indentLevel) == FormatFields(fields, includeKeys, indentLevel)
    {
      var field := fields[k];
      FieldsStep(fields, k, includeKeys, indentLevel);
      sb := AppendEntry(sb, field.key, field.value, includeKeys, indentLevel);
      k := k + 1;
    }
  }

  /** The loop over an array's elements, in index order (lines 207-218). */
  method AppendItems(items: seq<Json>, includeKeys: bool, indentLevel: nat) returns (sb: string)
    ensures sb == FormatItems(items, 0, includeKeys, indentLevel)
    decreases items, 0
  {
    sb := "";
    for i := 0 to |items|
      invariant sb + FormatItems(items[i..], i, includeKeys, indentLevel) == FormatItems(items, 0, includeKeys, indentLevel)
    {
      ItemsStep(items, i, includeKeys, indentLevel);
      sb := AppendEntry(sb, IndexKey(i), items[i], includeKeys, indentLevel);
    }
  }

  /** The source's `formatJsonToText`: the text of an object, an array or a
      scalar at the given indentation level. */
  method FormatJsonToText(node: Json, includeKeys: bool, indentLevel: nat) returns (s: string)
    ensures s == Terminated(Lines(node, includeKeys, indentLevel))
    decreases node, 0
  {
    if node.Obj? {
      s := AppendFields(node.fields, includeKeys, indentLevel);
    } else if node.Arr? {
      s := AppendItems(node.items, includeKeys, indentLevel);
    } else {
      s := node.text + "\n";
    }
    FormatIsTerminated(node, includeKeys, indentLevel);
  }
}
