/** The bytes charged to a history are the lengths of texts that can be written out. */
module Sizes {
  import opened Prelude
  import Decimal
  import opened Json
  import opened Messages
  import NumberParsing
  import Base64
  import Codec

  function HexDigit(d: nat): char
    requires d < 16
  {
    if d < 10 then ('0' as int + d) as char else ('a' as int + d - 10) as char
  }

  /** A character of JSON string text (section 7 of RFC 8259), in the shortest form. */
  function Escaped(c: char): string {
    if c == '"' then "\\\""
    else if c == '\\' then "\\\\"
    else if c == '\n' then "\\n"
    else if c == '\r' then "\\r"
    else if c == '\t' then "\\t"
    else if c == '\U{0008}' then "\\b"
    else if c == '\U{000C}' then "\\f"
    else if c as int < 0x20 then "\\u00" + [HexDigit(c as int / 16), HexDigit(c as int % 16)]
    else [c]
  }

  function EscapedText(s: string): string {
    if s == "" then "" else Escaped(s[0]) + EscapedText(s[1..])
  }

  function Quoted(s: string): string { "\"" + EscapedText(s) + "\"" }

  function KeyName(key: Key): string {
    match key
    case ActionKey => "action"
    case LimitKey => "limit"
    case OffsetKey => "offset"
    case PatchKey => "patch"
    case PathKey => "path"
    case QueryKey => "query"
    case SideKey => "side"
    case _ => ""
  }

  /** Compact text of the scalar values that arguments hold. */
  function ScalarText(value: Json): string {
    match value
    case Num(n) => NumberParsing.NumberText(n)
    case Str(s) => Quoted(s)
    case _ => "null"
  }

  function FieldText(key: Key, value: Json): string {
    Quoted(KeyName(key)) + ":" + ScalarText(value)
  }

  /** The present fields in the given order, separated by commas. */
  function FieldsText(fields: map<Key, Json>, order: seq<Key>): string {
    if order == [] then ""
    else
      var before := FieldsText(fields, order[..|order| - 1]);
      var key := order[|order| - 1];
      if key !in fields then before
      else (if before == "" then "" else before + ",") + FieldText(key, fields[key])
  }

  const READ_ORDER: seq<Key> := [ActionKey, LimitKey, OffsetKey, PathKey, QueryKey, SideKey]
  const WRITE_ORDER: seq<Key> := [PatchKey, PathKey]

  /** The compact JSON text of a call's arguments, fields in declaration order. */
  function ArgumentsText(call: ToolCall): string {
    "{" + FieldsText(ArgumentsJson(call).fields, if call.arguments.Read? then READ_ORDER else WRITE_ORDER) + "}"
  }

  lemma {:induction false} Utf8Concat(a: string, b: string)
    ensures Utf8Bytes(a + b) == Utf8Bytes(a) + Utf8Bytes(b)
    decreases |a|
  {
    if a == "" {
      assert a + b == b;
    } else {
      Utf8Concat(a[1..], b);
      assert (a + b)[1..] == a[1..] + b;
    }
  }

  predicate IsAscii(s: string) {
    forall i :: 0 <= i < |s| ==> s[i] as int < 0x80
  }

  lemma {:induction false} AsciiLength(s: string)
    requires IsAscii(s)
    ensures Utf8Bytes(s) == |s|
    decreases |s|
  {
    if s != "" {
      AsciiLength(s[1..]);
    }
  }

  lemma {:induction false} EscapedLength(c: char)
    ensures Utf8Bytes(Escaped(c)) == EscapedBytes(c) && Escaped(c) != ""
  {
    if IsAscii(Escaped(c)) {
      AsciiLength(Escaped(c));
    } else {
      assert [c][1..] == "";
    }
  }

  lemma {:induction false} QuotedLength(s: string)
    ensures Utf8Bytes(EscapedText(s)) == StringBytes(s)
    ensures Utf8Bytes(Quoted(s)) == 2 + StringBytes(s)
    decreases |s|
  {
    if s != "" {
      hide Escaped, EscapedBytes;
      QuotedLength(s[1..]);
      EscapedLength(s[0]);
      Utf8Concat(Escaped(s[0]), EscapedText(s[1..]));
    }
    AsciiLength("\"");
    Utf8Concat("\"", EscapedText(s));
    Utf8Concat("\"" + EscapedText(s), "\"");
  }

  /** Plain lower-case names are written as they are. */
  predicate IsName(s: string) {
    forall i :: 0 <= i < |s| ==> 'a' <= s[i] <= 'z'
  }

  lemma {:induction false} NameLength(s: string)
    requires IsName(s)
    ensures StringBytes(s) == |s|
    decreases |s|
  {
    if s != "" {
      NameLength(s[1..]);
    }
  }

  lemma {:induction false} FieldLength(key: Key, value: Json)
    requires key in READ_ORDER || key in WRITE_ORDER
    ensures Utf8Bytes(FieldText(key, value)) == |KeyName(key)| + 3 + Utf8Bytes(ScalarText(value))
  {
    var name := KeyName(key);
    assert IsName(name);
    hide KeyName, ScalarText, Quoted;
    NameLength(name);
    QuotedLength(name);
    AsciiLength(":");
    Utf8Concat(Quoted(name), ":");
    Utf8Concat(Quoted(name) + ":", ScalarText(value));
  }

  /** Bytes of a field and the comma or brace after it. */
  function FieldSize(fields: map<Key, Json>, key: Key): nat {
    if key in fields then |KeyName(key)| + 4 + Utf8Bytes(ScalarText(fields[key])) else 0
  }

  function FieldsSize(fields: map<Key, Json>, order: seq<Key>): nat {
    if order == [] then 0 else FieldsSize(fields, order[..|order| - 1]) + FieldSize(fields, order[|order| - 1])
  }

  lemma {:induction false} FieldsLength(fields: map<Key, Json>, order: seq<Key>)
    requires forall i :: 0 <= i < |order| ==> order[i] in READ_ORDER || order[i] in WRITE_ORDER
    ensures (FieldsText(fields, order) == "") == (FieldsSize(fields, order) == 0)
    ensures FieldsText(fields, order) != "" ==> Utf8Bytes(FieldsText(fields, order)) + 1 == FieldsSize(fields, order)
    decreases |order|
  {
    if order != [] {
      hide KeyName, ScalarText;
      var front, key := order[..|order| - 1], order[|order| - 1];
      FieldsLength(fields, front);
      if key in fields {
        var before, text := FieldsText(fields, front), FieldText(key, fields[key]);
        FieldLength(key, fields[key]);
        AsciiLength(",");
        Utf8Concat(before, ",");
        Utf8Concat(before + ",", text);
        assert "" + text == text;
        hide FieldText;
      }
    }
  }

  lemma {:induction false} ObjectLength(fields: map<Key, Json>, order: seq<Key>)
    requires forall i :: 0 <= i < |order| ==> order[i] in READ_ORDER || order[i] in WRITE_ORDER
    ensures Utf8Bytes("{" + FieldsText(fields, order) + "}") ==
            if FieldsSize(fields, order) == 0 then 2 else 1 + FieldsSize(fields, order)
  {
    hide FieldsText, FieldsSize;
    FieldsLength(fields, order);
    var text := FieldsText(fields, order);
    AsciiLength("{");
    AsciiLength("}");
    Utf8Concat("{", text);
    Utf8Concat("{" + text, "}");
    AsciiLength("");
  }

  lemma {:induction false} NumberLength(v: nat)
    ensures var n := NumberParsing.FromNat(v); Utf8Bytes(ScalarText(Num(n))) == |NumberParsing.NumberText(n)|
  {
    AsciiLength(Decimal.Text(v));
  }

  /** One optional field, as the object holds it and as it is charged. */
  lemma {:induction false} FieldIsCharged(fields: map<Key, Json>, key: Key, value: Option<Json>, size: Option<nat>)
    requires value.Some? == size.Some?
    requires value.Some? ==> size.value == Utf8Bytes(ScalarText(value.value))
    requires Codec.Holds(fields, key, value)
    ensures FieldSize(fields, key) == FieldBytes(KeyName(key), size)
  {
    hide KeyName, ScalarText;
  }

  lemma {:induction false} StringIsCharged(value: Option<string>)
    ensures QuotedBytes(value).Some? == StringJson(value).Some?
    ensures value.Some? ==> QuotedBytes(value).value == Utf8Bytes(ScalarText(StringJson(value).value))
  {
    if value.Some? {
      QuotedLength(value.value);
    }
  }

  lemma {:induction false} NumberIsCharged(value: Option<nat>)
    ensures NumberBytes(value).Some? == NumberJson(value).Some?
    ensures value.Some? ==> NumberBytes(value).value == Utf8Bytes(ScalarText(NumberJson(value).value))
  {
    if value.Some? {
      NumberLength(value.value);
    }
  }

  lemma {:induction false} SizeSnoc(fields: map<Key, Json>, order: seq<Key>, key: Key)
    ensures FieldsSize(fields, order + [key]) == FieldsSize(fields, order) + FieldSize(fields, key)
  {
    hide FieldSize;
    assert (order + [key])[..|order|] == order;
  }

  lemma {:induction false} ReadOrderSize(fields: map<Key, Json>)
    ensures FieldsSize(fields, READ_ORDER) ==
            FieldSize(fields, ActionKey) + FieldSize(fields, LimitKey) + FieldSize(fields, OffsetKey)
            + FieldSize(fields, PathKey) + FieldSize(fields, QueryKey) + FieldSize(fields, SideKey)
  {
    hide FieldSize;
    SizeSnoc(fields, [], ActionKey);
    SizeSnoc(fields, [ActionKey], LimitKey);
    SizeSnoc(fields, [ActionKey, LimitKey], OffsetKey);
    SizeSnoc(fields, [ActionKey, LimitKey, OffsetKey], PathKey);
    SizeSnoc(fields, [ActionKey, LimitKey, OffsetKey, PathKey], QueryKey);
    SizeSnoc(fields, [ActionKey, LimitKey, OffsetKey, PathKey, QueryKey], SideKey);
    assert FieldsSize(fields, []) == 0;
    hide FieldsSize;
    assert [] + [ActionKey] == [ActionKey];
    assert [ActionKey] + [LimitKey] == [ActionKey, LimitKey];
    assert [ActionKey, LimitKey] + [OffsetKey] == [ActionKey, LimitKey, OffsetKey];
    assert [ActionKey, LimitKey, OffsetKey] + [PathKey] == [ActionKey, LimitKey, OffsetKey, PathKey];
    assert [ActionKey, LimitKey, OffsetKey, PathKey] + [QueryKey] == [ActionKey, LimitKey, OffsetKey, PathKey, QueryKey];
    assert [ActionKey, LimitKey, OffsetKey, PathKey, QueryKey] + [SideKey] == READ_ORDER;
  }

  lemma {:induction false} WriteOrderSize(fields: map<Key, Json>)
    ensures FieldsSize(fields, WRITE_ORDER) == FieldSize(fields, PatchKey) + FieldSize(fields, PathKey)
  {
    hide FieldSize;
    SizeSnoc(fields, [], PatchKey);
    SizeSnoc(fields, [PatchKey], PathKey);
    assert [PatchKey] + [PathKey] == WRITE_ORDER && [] + [PatchKey] == [PatchKey];
  }

  lemma {:induction false} ReadIsCharged(a: ReadArguments)
    ensures var f := ReadFields(a);
            FieldsSize(f, READ_ORDER) ==
            FieldBytes("action", if a.action == File then None else QuotedBytes(Some(ActionName(a.action))))
            + FieldBytes("limit", NumberBytes(a.limit)) + FieldBytes("offset", NumberBytes(a.offset))
            + FieldBytes("path", QuotedBytes(a.path)) + FieldBytes("query", QuotedBytes(a.query))
            + FieldBytes("side", if a.side.Some? then QuotedBytes(Some(SideName(a.side.value))) else None)
  {
    hide FieldsSize, FieldSize, FieldBytes, ScalarText, ActionName, SideName, QuotedBytes, NumberBytes, ReadFields, Codec.Holds;
    var f := ReadFields(a);
    Codec.ReadFieldsHold(a);
    ReadOrderSize(f);
    var action := if a.action == File then None else Some(ActionName(a.action));
    var side := if a.side.Some? then Some(SideName(a.side.value)) else None;
    StringIsCharged(action);
    StringIsCharged(side);
    StringIsCharged(a.path);
    StringIsCharged(a.query);
    NumberIsCharged(a.limit);
    NumberIsCharged(a.offset);
    NoneIsFree();
    FieldIsCharged(f, ActionKey, StringJson(action), QuotedBytes(action));
    FieldIsCharged(f, LimitKey, NumberJson(a.limit), NumberBytes(a.limit));
    FieldIsCharged(f, OffsetKey, NumberJson(a.offset), NumberBytes(a.offset));
    FieldIsCharged(f, PathKey, StringJson(a.path), QuotedBytes(a.path));
    FieldIsCharged(f, QueryKey, StringJson(a.query), QuotedBytes(a.query));
    FieldIsCharged(f, SideKey, StringJson(side), QuotedBytes(side));
  }

  lemma {:induction false} NoneIsFree()
    ensures QuotedBytes(None) == None
  {
  }

  lemma {:induction false} WriteIsCharged(a: WriteArguments)
    ensures FieldsSize(map[PatchKey := Str(a.patch), PathKey := Str(a.path)], WRITE_ORDER) ==
            FieldBytes("patch", QuotedBytes(Some(a.patch))) + FieldBytes("path", QuotedBytes(Some(a.path)))
  {
    hide FieldsSize, FieldSize, FieldBytes, ScalarText, QuotedBytes;
    var f := map[PatchKey := Str(a.patch), PathKey := Str(a.path)];
    WriteOrderSize(f);
    StringIsCharged(Some(a.patch));
    StringIsCharged(Some(a.path));
    FieldIsCharged(f, PatchKey, StringJson(Some(a.patch)), QuotedBytes(Some(a.patch)));
    FieldIsCharged(f, PathKey, StringJson(Some(a.path)), QuotedBytes(Some(a.path)));
  }

  lemma {:induction false} FieldIsNotFree(name: string, size: nat)
    ensures FieldBytes(name, Some(size)) > 0
  {
  }

  /** The charge for a call's arguments is the length of their compact JSON text. */
  lemma {:induction false} ArgumentsAreCharged(call: ToolCall)
    ensures ArgumentsBytes(call) == Utf8Bytes(ArgumentsText(call))
  {
    hide FieldsText, FieldsSize, FieldBytes, QuotedBytes, NumberBytes, ReadFields, Utf8Bytes, ActionName, SideName;
    match call.arguments
    case Read(a) =>
      ObjectLength(ReadFields(a), READ_ORDER);
      ReadIsCharged(a);
    case Write(a) =>
      var f := map[PatchKey := Str(a.patch), PathKey := Str(a.path)];
      ObjectLength(f, WRITE_ORDER);
      WriteIsCharged(a);
      StringIsCharged(Some(a.patch));
      FieldIsNotFree("patch", QuotedBytes(Some(a.patch)).value);
  }

  // ---------- messages ----------

  lemma {:induction false} EncodedIsAscii(bytes: seq<Byte>)
    ensures IsAscii(Base64.Encode(bytes))
    decreases |bytes|
  {
    if |bytes| > 2 {
      EncodedIsAscii(bytes[3..]);
    }
  }

  lemma {:induction false} ImageIsCharged(image: ImageContent)
    ensures EncodedImageBytes(image) == Utf8Bytes(DataUrl(image))
  {
    hide Base64.Encode;
    EncodedIsAscii(image.bytes);
    DataUrlLength(image);
    AsciiLength(DataUrl(image));
  }

  function BlockText(block: InputBlock): string {
    match block
    case Image(image) => DataUrl(image)
    case Text(text) => text
  }

  function CallTexts(call: ToolCall): seq<string> {
    [call.id, ToolName(call), ArgumentsText(call)] + (if call.reasoning.Some? then [call.reasoning.value] else [])
  }

  /** The texts of several calls. */
  function CallsTexts(calls: seq<ToolCall>): seq<string> {
    if calls == [] then [] else CallsTexts(calls[..|calls| - 1]) + CallTexts(calls[|calls| - 1])
  }

  function BlocksTexts(blocks: seq<InputBlock>): seq<string> {
    if blocks == [] then [] else BlocksTexts(blocks[..|blocks| - 1]) + [BlockText(blocks[|blocks| - 1])]
  }

  /** The texts that replaying a message sends. */
  function Texts(m: ModelMessage): seq<string> {
    match m
    case Assistant(content) => [content]
    case System(content) => [content]
    case User(content) => [content]
    case AssistantReasoning(content, reasoning) => [content, reasoning]
    case AssistantToolCall(call) => CallTexts(call)
    case AssistantToolCalls(calls) => CallsTexts(calls)
    case ToolResult(callId, content, name) => [callId, content, name]
    case UserInput(input) => BlocksTexts(input.blocks)
  }

  function TotalBytes(texts: seq<string>): nat {
    if texts == [] then 0 else TotalBytes(texts[..|texts| - 1]) + Utf8Bytes(texts[|texts| - 1])
  }

  lemma {:induction false} TotalConcat(a: seq<string>, b: seq<string>)
    ensures TotalBytes(a + b) == TotalBytes(a) + TotalBytes(b)
  {
    hide Utf8Bytes;
    if b == [] {
      assert a + b == a;
    } else {
      TotalConcat(a, b[..|b| - 1]);
      assert (a + b)[..|a + b| - 1] == a + b[..|b| - 1];
    }
  }

  lemma {:induction false} TotalOne(t: string)
    ensures TotalBytes([t]) == Utf8Bytes(t)
  {
    hide Utf8Bytes;
    assert [t][..0] == [];
  }

  lemma {:induction false} TotalTwo(t: string, u: string)
    ensures TotalBytes([t, u]) == Utf8Bytes(t) + Utf8Bytes(u)
  {
    hide Utf8Bytes, TotalBytes;
    TotalOne(t);
    TotalOne(u);
    TotalConcat([t], [u]);
    assert [t] + [u] == [t, u];
  }

  lemma {:induction false} TotalThree(t: string, u: string, v: string)
    ensures TotalBytes([t, u, v]) == Utf8Bytes(t) + Utf8Bytes(u) + Utf8Bytes(v)
  {
    hide Utf8Bytes, TotalBytes;
    TotalTwo(t, u);
    TotalOne(v);
    TotalConcat([t, u], [v]);
    assert [t, u] + [v] == [t, u, v];
  }

  lemma {:induction false} CallIsCharged(before: nat, call: ToolCall)
    requires before + TotalBytes(CallTexts(call)) <= USIZE_MAX
    ensures CallBytes(before, call) == before + TotalBytes(CallTexts(call))
  {
    hide Utf8Bytes, TotalBytes, ArgumentsBytes, ArgumentsText, ToolName;
    ArgumentsAreCharged(call);
    var first := [call.id, ToolName(call), ArgumentsText(call)];
    TotalThree(call.id, ToolName(call), ArgumentsText(call));
    if call.reasoning.Some? {
      TotalOne(call.reasoning.value);
      TotalConcat(first, [call.reasoning.value]);
    } else {
      assert CallTexts(call) == first;
    }
  }

  lemma {:induction false} CallsAreCharged(calls: seq<ToolCall>)
    requires TotalBytes(CallsTexts(calls)) <= USIZE_MAX
    ensures CallsBytes(calls) == TotalBytes(CallsTexts(calls))
  {
    if calls != [] {
      hide CallBytes, CallTexts;
      var front, last := calls[..|calls| - 1], calls[|calls| - 1];
      TotalConcat(CallsTexts(front), CallTexts(last));
      hide TotalBytes;
      CallsAreCharged(front);
      CallIsCharged(CallsBytes(front), last);
    }
  }

  lemma {:induction false} BlocksAreCharged(blocks: seq<InputBlock>)
    requires TotalBytes(BlocksTexts(blocks)) <= USIZE_MAX
    ensures InputBytes(blocks) == TotalBytes(BlocksTexts(blocks))
  {
    if blocks != [] {
      hide Utf8Bytes, DataUrl, EncodedImageBytes;
      var front, last := blocks[..|blocks| - 1], blocks[|blocks| - 1];
      TotalConcat(BlocksTexts(front), [BlockText(last)]);
      TotalOne(BlockText(last));
      hide TotalBytes;
      BlocksAreCharged(front);
      if last.Image? {
        ImageIsCharged(last.image);
      }
    }
  }

  /** The bytes charged for a message are the summed lengths of the texts it sends, within the machine range. */
  lemma {:induction false} MessageIsCharged(m: ModelMessage)
    requires TotalBytes(Texts(m)) <= USIZE_MAX
    ensures RetainedBytes(m) == TotalBytes(Texts(m))
  {
    hide TotalBytes, Utf8Bytes, CallTexts, CallBytes, CallsBytes, CallsTexts, InputBytes, BlocksTexts;
    match m
    case Assistant(content) => TotalOne(content);
    case System(content) => TotalOne(content);
    case User(content) => TotalOne(content);
    case AssistantReasoning(content, reasoning) => TotalTwo(content, reasoning);
    case AssistantToolCall(call) => CallIsCharged(0, call);
    case AssistantToolCalls(calls) => CallsAreCharged(calls);
    case ToolResult(callId, content, name) => TotalThree(callId, content, name);
    case UserInput(input) => BlocksAreCharged(input.blocks);
  }
}
