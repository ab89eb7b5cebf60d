/** Conversation entries shared by the store, the engine and the message codec. */
module Messages {
  import opened Prelude
  import opened Json
  import NumberParsing
  import Base64

  datatype ReadAction = Diff | File | List | Search | Show

  datatype ReadSide = Base | Head

  /** Corrective feedback for a field combination that an action rejects. */
  datatype ReadMistake =
    | DiffTakesPath
    | FileTakesPathAndLines
    | ListTakesPathAndLimit
    | SearchTakesQuery
    | ShowTakesPathAndSide

  datatype ReadArguments = ReadArguments(
    action: ReadAction,
    limit: Option<nat>,
    offset: Option<nat>,
    path: Option<string>,
    query: Option<string>,
    side: Option<ReadSide>,
    validationError: Option<ReadMistake>)

  datatype WriteArguments = WriteArguments(patch: string, path: string)

  datatype ToolArguments = Read(read: ReadArguments) | Write(write: WriteArguments)

  datatype ToolCall = ToolCall(id: string, arguments: ToolArguments, reasoning: Option<string>)

  datatype MediaType = Jpeg | Png

  datatype ImageContent = ImageContent(mediaType: MediaType, bytes: seq<Byte>)

  datatype InputBlock = Image(image: ImageContent) | Text(text: string)

  datatype TurnInput = TurnInput(blocks: seq<InputBlock>)

  datatype ModelMessage =
    | Assistant(content: string)
    | AssistantReasoning(content: string, reasoning: string)
    | AssistantToolCall(call: ToolCall)
    | AssistantToolCalls(calls: seq<ToolCall>)
    | System(content: string)
    | ToolResult(callId: string, content: string, name: string)
    | User(content: string)
    | UserInput(input: TurnInput)

  predicate HasImages(input: TurnInput) {
    exists i :: 0 <= i < |input.blocks| && input.blocks[i].Image?
  }

  /** Text blocks joined by a blank line; image blocks contribute nothing. */
  function JoinedText(blocks: seq<InputBlock>): string {
    if blocks == [] then ""
    else
      var before := JoinedText(blocks[..|blocks| - 1]);
      match blocks[|blocks| - 1]
      case Image(_) => before
      case Text(text) => (if before == "" then "" else before + "\n\n") + text
  }

  /** The texts of an input's text blocks, in order. */
  function TextsOf(blocks: seq<InputBlock>): seq<string> {
    if blocks == [] then []
    else (if blocks[0].Text? then [blocks[0].text] else []) + TextsOf(blocks[1..])
  }

  function WithoutLeadingEmpty(texts: seq<string>): seq<string> {
    if texts == [] || texts[0] != "" then texts else WithoutLeadingEmpty(texts[1..])
  }

  function JoinedByBlankLine(texts: seq<string>): string {
    if texts == [] then ""
    else if |texts| == 1 then texts[0]
    else texts[0] + "\n\n" + JoinedByBlankLine(texts[1..])
  }

  lemma {:induction false} TextsSnoc(blocks: seq<InputBlock>, last: InputBlock)
    ensures TextsOf(blocks + [last]) == TextsOf(blocks) + if last.Text? then [last.text] else []
  {
    if blocks == [] {
      assert [] + [last] == [last] && [last][1..] == [];
    } else {
      TextsSnoc(blocks[1..], last);
      assert (blocks + [last])[1..] == blocks[1..] + [last];
    }
  }

  lemma {:induction false} LeadingSnoc(texts: seq<string>, text: string)
    ensures WithoutLeadingEmpty(texts + [text]) ==
            if WithoutLeadingEmpty(texts) == [] && text == "" then [] else WithoutLeadingEmpty(texts) + [text]
    ensures WithoutLeadingEmpty(texts) != [] ==> WithoutLeadingEmpty(texts)[0] != ""
  {
    if texts == [] {
      assert [] + [text] == [text] && [text][1..] == [];
    } else {
      assert (texts + [text])[1..] == texts[1..] + [text];
      LeadingSnoc(texts[1..], text);
    }
  }

  lemma {:induction false} JoinSnoc(texts: seq<string>, text: string)
    ensures JoinedByBlankLine(texts + [text]) ==
            if texts == [] then text else JoinedByBlankLine(texts) + "\n\n" + text
    ensures texts != [] && texts[0] != "" ==> JoinedByBlankLine(texts) != ""
  {
    if texts == [] {
      assert [] + [text] == [text];
    } else {
      assert (texts + [text])[1..] == texts[1..] + [text];
      JoinSnoc(texts[1..], text);
      if |texts| > 1 {
        assert texts[0] + "\n\n" + (JoinedByBlankLine(texts[1..]) + "\n\n" + text)
            == texts[0] + "\n\n" + JoinedByBlankLine(texts[1..]) + "\n\n" + text;
      } else {
        assert texts[1..] == [];
      }
    }
  }

  /** The text of an input is its texts, from the first that is not empty, joined by blank lines. */
  lemma {:induction false} JoinedTextIsJoin(blocks: seq<InputBlock>)
    ensures JoinedText(blocks) == JoinedByBlankLine(WithoutLeadingEmpty(TextsOf(blocks)))
  {
    if blocks != [] {
      hide JoinedByBlankLine, WithoutLeadingEmpty, TextsOf;
      var front, last := blocks[..|blocks| - 1], blocks[|blocks| - 1];
      JoinedTextIsJoin(front);
      TextsSnoc(front, last);
      assert blocks == front + [last];
      var texts := TextsOf(front);
      if last.Text? {
        LeadingSnoc(texts, last.text);
        JoinSnoc(WithoutLeadingEmpty(texts), last.text);
        NothingJoined();
      } else {
        assert texts + [] == texts;
      }
    } else {
      NothingJoined();
    }
  }

  lemma {:induction false} NothingJoined()
    ensures JoinedByBlankLine([]) == "" && WithoutLeadingEmpty(TextsOf([])) == []
  {
  }

  function UserMessage(input: TurnInput): ModelMessage {
    if HasImages(input) then UserInput(input) else User(JoinedText(input.blocks))
  }

  function ToolName(call: ToolCall): string {
    if call.arguments.Read? then "read" else "write"
  }

  function MediaTypeName(mediaType: MediaType): string {
    match mediaType
    case Jpeg => "image/jpeg"
    case Png => "image/png"
  }

  function ActionName(action: ReadAction): string {
    match action
    case Diff => "diff"
    case File => "file"
    case List => "list"
    case Search => "search"
    case Show => "show"
  }

  function SideName(side: ReadSide): string {
    if side == Base then "base" else "head"
  }

  function Present(key: Key, value: Option<Json>): map<Key, Json> {
    if value.Some? then map[key := value.value] else map[]
  }

  function NumberJson(value: Option<nat>): Option<Json> {
    if value.Some? then Some(Num(NumberParsing.FromNat(value.value))) else None
  }

  function StringJson(value: Option<string>): Option<Json> {
    if value.Some? then Some(Str(value.value)) else None
  }

  function ActionJson(action: ReadAction): Option<Json> {
    if action == File then None else Some(Str(ActionName(action)))
  }

  function SideJson(side: Option<ReadSide>): Option<Json> {
    if side.Some? then Some(Str(SideName(side.value))) else None
  }

  /** The default action and absent fields are omitted; the diagnostic is never stored. */
  function ReadFields(a: ReadArguments): map<Key, Json> {
    Present(ActionKey, ActionJson(a.action))
    + Present(LimitKey, NumberJson(a.limit))
    + Present(OffsetKey, NumberJson(a.offset))
    + Present(PathKey, StringJson(a.path))
    + Present(QueryKey, StringJson(a.query))
    + Present(SideKey, SideJson(a.side))
  }

  function ArgumentsJson(call: ToolCall): Json {
    match call.arguments
    case Read(a) => Obj(ReadFields(a))
    case Write(a) => Obj(map[PatchKey := Str(a.patch), PathKey := Str(a.path)])
  }

  /** Size of `"name":value,` in compact text, or nothing when the field is omitted. */
  function FieldBytes(name: string, value: Option<nat>): nat {
    if value.Some? then |name| + value.value + 4 else 0
  }

  function NumberBytes(value: Option<nat>): Option<nat> {
    if value.Some? then Some(|NumberParsing.NumberText(NumberParsing.FromNat(value.value))|) else None
  }

  function QuotedBytes(value: Option<string>): Option<nat> {
    if value.Some? then Some(2 + StringBytes(value.value)) else None
  }

  /** Length of the compact JSON text of a call's arguments. */
  function ArgumentsBytes(call: ToolCall): nat {
    match call.arguments
    case Read(a) =>
      var fields :=
        FieldBytes("action", if a.action == File then None else QuotedBytes(Some(ActionName(a.action))))
        + FieldBytes("limit", NumberBytes(a.limit))
        + FieldBytes("offset", NumberBytes(a.offset))
        + FieldBytes("path", QuotedBytes(a.path))
        + FieldBytes("query", QuotedBytes(a.query))
        + FieldBytes("side", if a.side.Some? then QuotedBytes(Some(SideName(a.side.value))) else None);
      if fields == 0 then 2 else 1 + fields
    case Write(a) =>
      1 + FieldBytes("patch", QuotedBytes(Some(a.patch))) + FieldBytes("path", QuotedBytes(Some(a.path)))
  }

  function EncodedImageBytes(image: ImageContent): nat {
    |"data:"| + |MediaTypeName(image.mediaType)| + |";base64,"| + (|image.bytes| + 2) / 3 * 4
  }

  function InputBytes(blocks: seq<InputBlock>): nat {
    if blocks == [] then 0
    else
      SaturatingAdd(
        InputBytes(blocks[..|blocks| - 1]),
        match blocks[|blocks| - 1]
        case Image(image) => EncodedImageBytes(image)
        case Text(text) => Utf8Bytes(text))
  }

  function CallBytes(before: nat, call: ToolCall): nat {
    SaturatingAdd(
      SaturatingAdd(
        SaturatingAdd(SaturatingAdd(before, Utf8Bytes(call.id)), Utf8Bytes(ToolName(call))),
        ArgumentsBytes(call)),
      if call.reasoning.Some? then Utf8Bytes(call.reasoning.value) else 0)
  }

  function CallsBytes(calls: seq<ToolCall>): nat {
    if calls == [] then 0 else CallBytes(CallsBytes(calls[..|calls| - 1]), calls[|calls| - 1])
  }

  /** Payload bytes charged against a session's replay budget. */
  function RetainedBytes(message: ModelMessage): nat {
    match message
    case Assistant(content) => Utf8Bytes(content)
    case System(content) => Utf8Bytes(content)
    case User(content) => Utf8Bytes(content)
    case AssistantReasoning(content, reasoning) => SaturatingAdd(Utf8Bytes(content), Utf8Bytes(reasoning))
    case AssistantToolCall(call) => CallBytes(0, call)
    case AssistantToolCalls(calls) => CallsBytes(calls)
    case ToolResult(callId, content, name) =>
      SaturatingAdd(SaturatingAdd(Utf8Bytes(callId), Utf8Bytes(content)), Utf8Bytes(name))
    case UserInput(input) => InputBytes(input.blocks)
  }

  function DataUrl(image: ImageContent): string {
    "data:" + MediaTypeName(image.mediaType) + ";base64," + Base64.Encode(image.bytes)
  }

  /** The accounted image size is the length of the data URL that replay sends. */
  lemma {:induction false} DataUrlLength(image: ImageContent)
    ensures |DataUrl(image)| == EncodedImageBytes(image)
  {}
}
