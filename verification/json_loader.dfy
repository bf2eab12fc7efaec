/**
 * The JSON document loader: `JSONLoader._json_to_text`, a recursive
 * pretty-printer that flattens a decoded JSON value into indented lines, and
 * the one document `JSONLoader.load` builds from it.
 */
module JsonLoader {
  import opened Text
  import opened Domain
  import Paths

  /**
   * A value as `json.load` returns it. Objects keep their keys in insertion
   * order. A float is kept as the text Python's `str()` gives for it, since
   * float formatting is not part of the model. `json.load` keeps only the
   * last value of a repeated key, so a decoded object never holds a key
   * twice; `JObject` does not enforce that, and nothing here depends on it
   * (members are rendered in order, one entry each).
   */
  datatype Json =
    | JString(s: string)
    | JInt(i: int)
    | JFloat(repr: string)
    | JBool(b: bool)
    | JNull
    | JObject(members: seq<Member>)
    | JArray(items: seq<Json>)

  datatype Member = Member(key: string, value: Json)

  /** `isinstance(value, (dict, list))`. */
  predicate IsContainer(j: Json)
  {
    j.JObject? || j.JArray?
  }

  /** `f"{value}"` for a scalar: Python's `str()`. */
  function ScalarText(j: Json): string
    requires !IsContainer(j)
  {
    match j
    case JString(s) => s
    case JInt(i) => IntToString(i)
    case JFloat(r) => r
    case JBool(b) => if b then "True" else "False"
    case JNull => "None"
  }

  /** `"  " * indent`: two spaces per level. */
  function Prefix(indent: nat): (p: string)
    ensures |p| == 2 * indent
    ensures forall i :: 0 <= i < |p| ==> p[i] == ' '
  {
    if indent == 0 then "" else "  " + Prefix(indent - 1)
  }

  /** `_json_to_text(data, indent)`: the collected lines joined by newlines. */
  function ToText(data: Json, indent: nat): string
    decreases data, 1
  {
    Join(Lines(data, indent), "\n")
  }

  /** The `lines` list `_json_to_text` builds before joining. */
  function Lines(data: Json, indent: nat): seq<string>
    decreases data, 0
  {
    match data
    case JObject(ms) =>
      Concat(seq(|ms|, i requires 0 <= i < |ms| => MemberLines(ms[i], indent)))
    case JArray(items) =>
      Concat(seq(|items|, i requires 0 <= i < |items| => ItemLines(items[i], i + 1, indent)))
    case _ => [Prefix(indent) + ScalarText(data)]
  }

  /** What one dictionary entry appends: `key: value`, or `key:` and the nested rendering. */
  function MemberLines(m: Member, indent: nat): seq<string>
    decreases m, 2
  {
    if IsContainer(m.value) then [Prefix(indent) + m.key + ":", ToText(m.value, indent + 1)]
    else [Prefix(indent) + m.key + ": " + ScalarText(m.value)]
  }

  /** What the `number`-th list item (1-based) appends: `- item`, or `Item k:` and the nested rendering. */
  function ItemLines(item: Json, number: nat, indent: nat): seq<string>
    decreases item, 2
  {
    if IsContainer(item) then [Prefix(indent) + "Item " + NatToString(number) + ":", ToText(item, indent + 1)]
    else [Prefix(indent) + "- " + ScalarText(item)]
  }

  /*
   * A reference rendering, line by line: each nested container contributes
   * its own lines in place instead of one multi-line string, and an empty
   * nested container contributes one empty line (the empty string it renders
   * to).
   */

  function AtLeastOneLine(lines: seq<string>): seq<string>
  {
    if lines == [] then [""] else lines
  }

  function FlatLines(data: Json, indent: nat): seq<string>
    decreases data, 0
  {
    match data
    case JObject(ms) =>
      Concat(seq(|ms|, i requires 0 <= i < |ms| => FlatMember(ms[i], indent)))
    case JArray(items) =>
      Concat(seq(|items|, i requires 0 <= i < |items| => FlatItem(items[i], i + 1, indent)))
    case _ => [Prefix(indent) + ScalarText(data)]
  }

  function FlatMember(m: Member, indent: nat): seq<string>
    decreases m, 1
  {
    if IsContainer(m.value) then [Prefix(indent) + m.key + ":"] + AtLeastOneLine(FlatLines(m.value, indent + 1))
    else [Prefix(indent) + m.key + ": " + ScalarText(m.value)]
  }

  function FlatItem(item: Json, number: nat, indent: nat): seq<string>
    decreases item, 1
  {
    if IsContainer(item) then [Prefix(indent) + "Item " + NatToString(number) + ":"] + AtLeastOneLine(FlatLines(item, indent + 1))
    else [Prefix(indent) + "- " + ScalarText(item)]
  }

  lemma JoinAtLeastOneLine(lines: seq<string>)
    ensures Join(AtLeastOneLine(lines), "\n") == Join(lines, "\n")
  {
  }

  /** The nested joins of `_json_to_text` produce exactly the reference lines, joined once. */
  lemma {:induction false} ToTextIsFlatLines(data: Json, indent: nat)
    ensures ToText(data, indent) == Join(FlatLines(data, indent), "\n")
    decreases data, 1
  {
    match data
    case JObject(ms) => ObjectIsFlat(ms, indent);
    case JArray(items) => ArrayIsFlat(items, indent);
    case _ =>
  }

  lemma {:induction false} ObjectIsFlat(ms: seq<Member>, indent: nat)
    ensures ToText(JObject(ms), indent) == Join(FlatLines(JObject(ms), indent), "\n")
    decreases JObject(ms), 0
  {
    var blocks := seq(|ms|, i requires 0 <= i < |ms| => MemberLines(ms[i], indent));
    var flat := seq(|ms|, i requires 0 <= i < |ms| => FlatMember(ms[i], indent));
    forall i | 0 <= i < |ms|
      ensures Join(blocks[i], "\n") == Join(flat[i], "\n")
    {
      MemberIsFlat(ms[i], indent);
    }
    JoinConcat(blocks, "\n");
    JoinConcat(flat, "\n");
    assert JoinEach(blocks, "\n") == JoinEach(flat, "\n");
  }

  lemma {:induction false} ArrayIsFlat(items: seq<Json>, indent: nat)
    ensures ToText(JArray(items), indent) == Join(FlatLines(JArray(items), indent), "\n")
    decreases JArray(items), 0
  {
    var blocks := seq(|items|, i requires 0 <= i < |items| => ItemLines(items[i], i + 1, indent));
    var flat := seq(|items|, i requires 0 <= i < |items| => FlatItem(items[i], i + 1, indent));
    forall i | 0 <= i < |items|
      ensures Join(blocks[i], "\n") == Join(flat[i], "\n")
    {
      ItemIsFlat(items[i], i + 1, indent);
    }
    JoinConcat(blocks, "\n");
    JoinConcat(flat, "\n");
    assert JoinEach(blocks, "\n") == JoinEach(flat, "\n");
  }

  lemma {:induction false} MemberIsFlat(m: Member, indent: nat)
    ensures Join(MemberLines(m, indent), "\n") == Join(FlatMember(m, indent), "\n")
    decreases m, 2
  {
    if IsContainer(m.value) {
      var header := Prefix(indent) + m.key + ":";
      var nested := FlatLines(m.value, indent + 1);
      ToTextIsFlatLines(m.value, indent + 1);
      JoinAtLeastOneLine(nested);
      JoinAppend([header], AtLeastOneLine(nested), "\n");
    }
  }

  lemma {:induction false} ItemIsFlat(item: Json, number: nat, indent: nat)
    ensures Join(ItemLines(item, number, indent), "\n") == Join(FlatItem(item, number, indent), "\n")
    decreases item, 2
  {
    if IsContainer(item) {
      var header := Prefix(indent) + "Item " + NatToString(number) + ":";
      var nested := FlatLines(item, indent + 1);
      ToTextIsFlatLines(item, indent + 1);
      JoinAtLeastOneLine(nested);
      JoinAppend([header], AtLeastOneLine(nested), "\n");
    }
  }

  /** Keys and scalar texts hold no newline of their own. */
  predicate SingleLineText(data: Json)
    decreases data
  {
    match data
    case JObject(ms) => forall i :: 0 <= i < |ms| ==> '\n' !in ms[i].key && SingleLineText(ms[i].value)
    case JArray(items) => forall i :: 0 <= i < |items| ==> SingleLineText(items[i])
    case _ => '\n' !in ScalarText(data)
  }

  lemma {:induction false} FlatLinesAreSingleLines(data: Json, indent: nat)
    requires SingleLineText(data)
    ensures forall k :: 0 <= k < |FlatLines(data, indent)| ==> '\n' !in FlatLines(data, indent)[k]
    decreases data, 1
  {
    var p := (l: string) => '\n' !in l;
    match data
    case JObject(ms) =>
      var flat := seq(|ms|, i requires 0 <= i < |ms| => FlatMember(ms[i], indent));
      forall i, j | 0 <= i < |flat| && 0 <= j < |flat[i]|
        ensures p(flat[i][j])
      {
        FlatMemberIsSingleLines(ms[i], indent);
      }
      ConcatAll(flat, p);
    case JArray(items) =>
      var flat := seq(|items|, i requires 0 <= i < |items| => FlatItem(items[i], i + 1, indent));
      forall i, j | 0 <= i < |flat| && 0 <= j < |flat[i]|
        ensures p(flat[i][j])
      {
        FlatItemIsSingleLines(items[i], i + 1, indent);
      }
      ConcatAll(flat, p);
    case _ =>
  }

  lemma {:induction false} FlatMemberIsSingleLines(m: Member, indent: nat)
    requires '\n' !in m.key && SingleLineText(m.value)
    ensures forall k :: 0 <= k < |FlatMember(m, indent)| ==> '\n' !in FlatMember(m, indent)[k]
    decreases m, 2
  {
    if IsContainer(m.value) {
      FlatLinesAreSingleLines(m.value, indent + 1);
    }
  }

  lemma {:induction false} FlatItemIsSingleLines(item: Json, number: nat, indent: nat)
    requires SingleLineText(item)
    ensures forall k :: 0 <= k < |FlatItem(item, number, indent)| ==> '\n' !in FlatItem(item, number, indent)[k]
    decreases item, 2
  {
    if IsContainer(item) {
      FlatLinesAreSingleLines(item, indent + 1);
    }
  }

  /**
   * When keys and scalars are single-line, the rendered text splits back into
   * exactly the reference lines: one line per scalar entry or item, one
   * header line per nested container followed by its own lines, and one
   * empty line for a nested empty container.
   */
  lemma RenderedLines(data: Json, indent: nat)
    requires SingleLineText(data)
    requires FlatLines(data, indent) != []
    ensures Split(ToText(data, indent), '\n') == FlatLines(data, indent)
  {
    ToTextIsFlatLines(data, indent);
    FlatLinesAreSingleLines(data, indent);
    LinesRoundTrip(FlatLines(data, indent));
  }

  /** A line is blank or starts with the indentation of its level. */
  predicate IndentedAtLeast(line: string, indent: nat)
  {
    line == "" || Prefix(indent) <= line
  }

  lemma PrefixOfDeeper(indent: nat)
    ensures Prefix(indent) <= Prefix(indent + 1)
  {
    var p, q := Prefix(indent), Prefix(indent + 1);
    assert forall i :: 0 <= i < |p| ==> p[i] == q[i];
  }

  /** Every line of a rendering at level `indent` is blank or indented by at least `2 * indent` spaces. */
  lemma {:induction false} LinesAreIndented(data: Json, indent: nat)
    ensures forall k :: 0 <= k < |FlatLines(data, indent)| ==> IndentedAtLeast(FlatLines(data, indent)[k], indent)
    decreases data, 1
  {
    var p := (l: string) => IndentedAtLeast(l, indent);
    match data
    case JObject(ms) =>
      var flat := seq(|ms|, i requires 0 <= i < |ms| => FlatMember(ms[i], indent));
      forall i, j | 0 <= i < |flat| && 0 <= j < |flat[i]|
        ensures p(flat[i][j])
      {
        MemberIsIndented(ms[i], indent);
      }
      ConcatAll(flat, p);
    case JArray(items) =>
      var flat := seq(|items|, i requires 0 <= i < |items| => FlatItem(items[i], i + 1, indent));
      forall i, j | 0 <= i < |flat| && 0 <= j < |flat[i]|
        ensures p(flat[i][j])
      {
        ItemIsIndented(items[i], i + 1, indent);
      }
      ConcatAll(flat, p);
    case _ =>
  }

  lemma {:induction false} MemberIsIndented(m: Member, indent: nat)
    ensures forall k :: 0 <= k < |FlatMember(m, indent)| ==> IndentedAtLeast(FlatMember(m, indent)[k], indent)
    decreases m, 2
  {
    if IsContainer(m.value) {
      LinesAreIndented(m.value, indent + 1);
      PrefixOfDeeper(indent);
    }
  }

  lemma {:induction false} ItemIsIndented(item: Json, number: nat, indent: nat)
    ensures forall k :: 0 <= k < |FlatItem(item, number, indent)| ==> IndentedAtLeast(FlatItem(item, number, indent)[k], indent)
    decreases item, 2
  {
    if IsContainer(item) {
      LinesAreIndented(item, indent + 1);
      PrefixOfDeeper(indent);
    }
  }

  /** A top-level scalar renders as its text alone; an empty dictionary or list renders as `""`. */
  lemma ScalarsAndEmptyContainers(data: Json, indent: nat)
    ensures !IsContainer(data) ==> ToText(data, 0) == ScalarText(data)
    ensures ToText(JObject([]), indent) == "" && ToText(JArray([]), indent) == ""
  {
  }

  /** The lines of an object with one or two entries are those entries' lines in order. */
  lemma LinesOfOneMember(m: Member, indent: nat)
    ensures Lines(JObject([m]), indent) == MemberLines(m, indent)
  {
    var ms := [m];
    assert seq(|ms|, i requires 0 <= i < |ms| => MemberLines(ms[i], indent)) == [MemberLines(m, indent)];
    assert Concat([MemberLines(m, indent)]) == MemberLines(m, indent) + [];
  }

  lemma LinesOfTwoMembers(m0: Member, m1: Member, indent: nat)
    ensures Lines(JObject([m0, m1]), indent) == MemberLines(m0, indent) + MemberLines(m1, indent)
  {
    var ms := [m0, m1];
    assert seq(|ms|, i requires 0 <= i < |ms| => MemberLines(ms[i], indent)) == [MemberLines(m0, indent), MemberLines(m1, indent)];
    ConcatPair(MemberLines(m0, indent), MemberLines(m1, indent));
  }

  /** The lines of a list with one or two items are those items' lines in order, numbered from 1. */
  lemma LinesOfOneItem(item: Json, indent: nat)
    ensures Lines(JArray([item]), indent) == ItemLines(item, 1, indent)
  {
    var items := [item];
    assert seq(|items|, i requires 0 <= i < |items| => ItemLines(items[i], i + 1, indent)) == [ItemLines(item, 1, indent)];
    assert Concat([ItemLines(item, 1, indent)]) == ItemLines(item, 1, indent) + [];
  }

  lemma LinesOfTwoItems(item0: Json, item1: Json, indent: nat)
    ensures Lines(JArray([item0, item1]), indent) == ItemLines(item0, 1, indent) + ItemLines(item1, 2, indent)
  {
    var items := [item0, item1];
    assert seq(|items|, i requires 0 <= i < |items| => ItemLines(items[i], i + 1, indent))
      == [ItemLines(item0, 1, indent), ItemLines(item1, 2, indent)];
    ConcatPair(ItemLines(item0, 1, indent), ItemLines(item1, 2, indent));
  }

  /** A nested empty container still emits its header, followed by an empty line. */
  lemma NestedEmptyContainers()
    ensures ToText(JObject([Member("a", JObject([]))]), 0) == "a:\n"
    ensures ToText(JArray([JArray([])]), 0) == "Item 1:\n"
  {
    NestedEmptyObject();
    NestedEmptyList();
  }

  lemma NestedEmptyObject()
    ensures ToText(JObject([Member("a", JObject([]))]), 0) == "a:\n"
  {
    var m := Member("a", JObject([]));
    assert ToText(JObject([]), 1) == "";
    assert Prefix(0) == "";
    assert Prefix(0) + "a" + ":" == "a:";
    assert MemberLines(m, 0) == ["a:", ""];
    LinesOfOneMember(m, 0);
    assert Join(["a:", ""], "\n") == "a:" + "\n" + "";
  }

  lemma NestedEmptyList()
    ensures ToText(JArray([JArray([])]), 0) == "Item 1:\n"
  {
    assert ToText(JArray([]), 1) == "";
    assert NatToString(1) == "1";
    assert Prefix(0) == "";
    assert Prefix(0) + "Item " + NatToString(1) + ":" == "Item 1:";
    assert ItemLines(JArray([]), 1, 0) == ["Item 1:", ""];
    LinesOfOneItem(JArray([]), 0);
    assert Join(["Item 1:", ""], "\n") == "Item 1:" + "\n" + "";
  }

  /** A dictionary of scalars renders as `key: value` lines at its level. */
  lemma ScalarEntryExample()
    ensures ToText(JObject([Member("retry", JInt(2))]), 2) == "    retry: 2"
  {
    var m := Member("retry", JInt(2));
    assert IntToString(2) == "2";
    assert Prefix(2) == "    ";
    assert Prefix(2) + "retry" + ": " + ScalarText(JInt(2)) == "    retry: 2";
    assert MemberLines(m, 2) == ["    retry: 2"];
    LinesOfOneMember(m, 2);
  }

  lemma ListExampleLines()
    ensures Lines(JArray([JString("restart"), JObject([Member("retry", JInt(2))])]), 1)
            == ["  - restart", "  Item 2:", "    retry: 2"]
  {
    var item0, item1 := JString("restart"), JObject([Member("retry", JInt(2))]);
    var first, second := ["  - restart"], ["  Item 2:", "    retry: 2"];
    assert ItemLines(item0, 1, 1) == first by {
      assert Prefix(1) == "  ";
      assert Prefix(1) + "- " + ScalarText(JString("restart")) == "  - restart";
    }
    assert ItemLines(item1, 2, 1) == second by {
      ScalarEntryExample();
      assert Prefix(1) == "  ";
      assert NatToString(2) == "2";
      assert Prefix(1) + "Item " + NatToString(2) + ":" == "  Item 2:";
    }
    LinesOfTwoItems(item0, item1, 1);
  }

  /** List scalars render as `- item`; a nested item as `Item k:` (1-based) and its own lines one level deeper. */
  lemma ListExample()
    ensures ToText(JArray([JString("restart"), JObject([Member("retry", JInt(2))])]), 1)
            == "  - restart\n  Item 2:\n    retry: 2"
  {
    ListExampleLines();
    JoinThree("  - restart", "  Item 2:", "    retry: 2", "\n");
  }

  lemma MixedExampleLines()
    ensures Lines(JObject([Member("name", JString("VPN")),
                           Member("steps", JArray([JString("restart"), JObject([Member("retry", JInt(2))])]))]), 0)
            == ["name: VPN", "steps:", ToText(JArray([JString("restart"), JObject([Member("retry", JInt(2))])]), 1)]
  {
    var list := JArray([JString("restart"), JObject([Member("retry", JInt(2))])]);
    var m0, m1 := Member("name", JString("VPN")), Member("steps", list);
    var first, second := ["name: VPN"], ["steps:", ToText(list, 1)];
    assert MemberLines(m0, 0) == first by {
      assert Prefix(0) == "";
      assert Prefix(0) + "name" + ": " + ScalarText(JString("VPN")) == "name: VPN";
    }
    assert MemberLines(m1, 0) == second by {
      assert Prefix(0) == "";
      assert Prefix(0) + "steps" + ":" == "steps:";
    }
    LinesOfTwoMembers(m0, m1, 0);
  }

  /** Keys keep their order, and a nested container's rendering follows its `key:` header on the next line. */
  lemma MixedExample()
    ensures ToText(JObject([Member("name", JString("VPN")),
                            Member("steps", JArray([JString("restart"), JObject([Member("retry", JInt(2))])]))]), 0)
            == "name: VPN\nsteps:\n" + ToText(JArray([JString("restart"), JObject([Member("retry", JInt(2))])]), 1)
  {
    var nested := ToText(JArray([JString("restart"), JObject([Member("retry", JInt(2))])]), 1);
    MixedExampleLines();
    JoinThree("name: VPN", "steps:", nested, "\n");
    assert "name: VPN" + "\n" + "steps:" + "\n" == "name: VPN\nsteps:\n";
  }

  /**
   * `JSONLoader.load` once the file has been read and decoded: exactly one
   * document holding the flattened text, its `source` the path's basename and
   * its `file_type` `"json"`.
   */
  function Load(path: string, data: Json): (docs: seq<Document>)
    ensures |docs| == 1
    ensures docs[0].pageContent == ToText(data, 0)
    ensures docs[0].metadata.Keys == {"source", "file_type"}
    ensures docs[0].metadata["source"] == Str(Paths.Basename(path))
    ensures docs[0].metadata["file_type"] == Str("json")
  {
    [Document(ToText(data, 0), map["source" := Str(Paths.Basename(path)), "file_type" := Str("json")])]
  }
}
