/** Storage form of one message: a kind, a JSON payload and the bytes it is charged. */
module Codec {
  import opened Prelude
  import opened Json
  import opened Messages
  import opened NumberParsing
  import Base64

  const MAX_PATCH_BYTES := 1024 * 1024
  const MAX_PATH_BYTES := 4 * 1024
  const MAX_QUERY_BYTES := 4 * 1024

  datatype CodecError =
    | SystemPrompt
    | InvalidJson
    | UnknownTool
    | UnknownKind
    | InvalidInput

  /** The values of a stored message's kind column. */
  datatype Kind =
    | AssistantKind | ReasoningKind | ToolCallKind | ToolCallsKind | ToolResultKind | UserKind | InputKind
    | OtherKind(name: string)

  datatype Stored = Stored(kind: Kind, payload: Json)

  datatype Encoded = Encoded(stored: Stored, retainedBytes: nat)

  // ---------- validated arguments ----------

  function Components(path: string): (parts: seq<string>)
    ensures |parts| >= 1
  {
    if path == "" then [""]
    else
      var rest := Components(path[1..]);
      if path[0] == '/' then [""] + rest else [[path[0]] + rest[0]] + rest[1..]
  }

  function LowerAscii(c: char): char {
    if 'A' <= c <= 'Z' then (c as int + 32) as char else c
  }

  predicate IsGitComponent(part: string) {
    |part| == 4 && part[0] == '.' && LowerAscii(part[1]) == 'g' && LowerAscii(part[2]) == 'i' && LowerAscii(part[3]) == 't'
  }

  predicate ValidPath(path: string) {
    && path != "" && Utf8Bytes(path) <= MAX_PATH_BYTES
    && path[0] != '/' && '\\' !in path && '\0' !in path
    && forall i :: 0 <= i < |Components(path)| ==>
         var part := Components(path)[i];
         part != "" && part != "." && part != ".." && !IsGitComponent(part)
  }

  predicate ValidQuery(query: string) {
    query != "" && Utf8Bytes(query) <= MAX_QUERY_BYTES && '\0' !in query
  }

  predicate ValidPatch(patch: string) {
    patch != "" && Utf8Bytes(patch) <= MAX_PATCH_BYTES
  }

  /** The corrective diagnostic for a field combination, recomputed whenever arguments are decoded. */
  function Diagnostic(a: ReadArguments): Option<ReadMistake> {
    match a.action
    case Diff =>
      if a.limit.None? && a.offset.None? && a.query.None? && a.side.None? then None
      else Some(DiffTakesPath)
    case File =>
      if a.path.Some? && a.query.None? && a.side.None? then None
      else Some(FileTakesPathAndLines)
    case List =>
      if a.offset.None? && a.query.None? && a.side.None? then None
      else Some(ListTakesPathAndLimit)
    case Search =>
      if a.query.Some? && a.offset.None? && a.side.None? then None
      else Some(SearchTakesQuery)
    case Show =>
      if a.path.Some? && a.side.Some? && a.query.None? then None
      else Some(ShowTakesPathAndSide)
  }

  /** The fields an action accepts besides itself, and those it needs. */
  function AcceptedFields(action: ReadAction): set<Key> {
    match action
    case Diff => {PathKey}
    case File => {PathKey, OffsetKey, LimitKey}
    case List => {PathKey, LimitKey}
    case Search => {QueryKey, PathKey, LimitKey}
    case Show => {PathKey, SideKey, OffsetKey, LimitKey}
  }

  function RequiredFields(action: ReadAction): set<Key> {
    match action
    case Diff => {}
    case File => {PathKey}
    case List => {}
    case Search => {QueryKey}
    case Show => {PathKey, SideKey}
  }

  function GivenFields(a: ReadArguments): set<Key> {
    (if a.limit.Some? then {LimitKey} else {}) + (if a.offset.Some? then {OffsetKey} else {})
    + (if a.path.Some? then {PathKey} else {}) + (if a.query.Some? then {QueryKey} else {})
    + (if a.side.Some? then {SideKey} else {})
  }

  /** Arguments draw a diagnostic exactly when a needed field is missing or one is given that the action rejects. */
  lemma {:induction false} DiagnosticIsExact(a: ReadArguments)
    ensures Diagnostic(a).None? <==> RequiredFields(a.action) <= GivenFields(a) <= AcceptedFields(a.action)
  {
    var given := GivenFields(a);
    assert (LimitKey in given <==> a.limit.Some?) && (OffsetKey in given <==> a.offset.Some?);
    assert (PathKey in given <==> a.path.Some?) && (QueryKey in given <==> a.query.Some?);
    assert SideKey in given <==> a.side.Some?;
  }

  predicate ValidLimit(limit: Option<nat>) {
    limit.Some? ==> 1 <= limit.value <= U64_MAX
  }

  predicate ValidRead(a: ReadArguments) {
    && ValidLimit(a.limit) && ValidLimit(a.offset)
    && (a.path.Some? ==> ValidPath(a.path.value))
    && (a.query.Some? ==> ValidQuery(a.query.value))
    && a.validationError == Diagnostic(a)
  }

  predicate ValidCall(call: ToolCall) {
    match call.arguments
    case Read(a) => ValidRead(a)
    case Write(a) => ValidPatch(a.patch) && ValidPath(a.path)
  }

  function Signature(mediaType: MediaType): seq<Byte> {
    match mediaType
    case Jpeg => [0xFF, 0xD8, 0xFF]
    case Png => [0x89, 0x50, 0x4E, 0x47, 0x0D, 0x0A, 0x1A, 0x0A]
  }

  predicate ValidImage(image: ImageContent) {
    image.bytes != [] && Signature(image.mediaType) <= image.bytes
  }

  predicate ValidBlocks(blocks: seq<InputBlock>) {
    forall i :: 0 <= i < |blocks| && blocks[i].Image? ==> ValidImage(blocks[i].image)
  }

  /** What every constructed message satisfies: validated arguments and images, and images present. */
  predicate ValidMessage(m: ModelMessage) {
    match m
    case AssistantToolCall(call) => ValidCall(call)
    case AssistantToolCalls(calls) => forall i :: 0 <= i < |calls| ==> ValidCall(calls[i])
    case UserInput(input) => HasImages(input) && ValidBlocks(input.blocks)
    case _ => true
  }

  // ---------- encoding ----------

  function StoredCall(call: ToolCall): Json {
    Obj(map[
      ArgumentsKey := ArgumentsJson(call),
      IdKey := Str(call.id),
      NameKey := Str(ToolName(call)),
      ReasoningKey := if call.reasoning.Some? then Str(call.reasoning.value) else Null])
  }

  function StoredCalls(calls: seq<ToolCall>): (items: seq<Json>)
    ensures |items| == |calls|
  {
    if calls == [] then [] else [StoredCall(calls[0])] + StoredCalls(calls[1..])
  }

  function StoredBlock(block: InputBlock): Json {
    match block
    case Image(image) =>
      Obj(map[
        KindKey := Str("image"),
        BytesKey := Str(Base64.Encode(image.bytes)),
        MediaTypeKey := Str(MediaTypeName(image.mediaType))])
    case Text(text) => Obj(map[KindKey := Str("text"), TextKey := Str(text)])
  }

  function StoredBlocks(blocks: seq<InputBlock>): seq<Json> {
    if blocks == [] then [] else [StoredBlock(blocks[0])] + StoredBlocks(blocks[1..])
  }

  /** System prompts live on the session and are refused here. */
  function StoredForm(m: ModelMessage): Result<Stored, CodecError> {
    match m
    case Assistant(content) => Ok(Stored(AssistantKind, Str(content)))
    case AssistantReasoning(content, reasoning) =>
      Ok(Stored(ReasoningKind, Obj(map[ContentKey := Str(content), ReasoningKey := Str(reasoning)])))
    case AssistantToolCall(call) => Ok(Stored(ToolCallKind, StoredCall(call)))
    case AssistantToolCalls(calls) => Ok(Stored(ToolCallsKind, Arr(StoredCalls(calls))))
    case System(_) => Err(SystemPrompt)
    case ToolResult(callId, content, name) =>
      Ok(Stored(ToolResultKind, Obj(map[CallIdKey := Str(callId), ContentKey := Str(content), NameKey := Str(name)])))
    case User(content) => Ok(Stored(UserKind, Str(content)))
    case UserInput(input) =>
      Ok(Stored(InputKind, Obj(map[BlocksKey := Arr(StoredBlocks(input.blocks)), VersionKey := Num(FromNat(1))])))
  }

  function Encode(m: ModelMessage): Result<Encoded, CodecError> {
    match StoredForm(m)
    case Ok(stored) => Ok(Encoded(stored, Min(RetainedBytes(m), I64_MAX)))
    case Err(e) => Err(e)
  }

  // ---------- decoding ----------

  type Fields = map<Key, Json>

  function GetString(fields: Fields, key: Key): Option<string> {
    if key in fields && fields[key].Str? then Some(fields[key].value) else None
  }

  /** A missing or null field is absent; a field of another type is an error. */
  function OptionalString(fields: Fields, key: Key): Result<Option<string>, CodecError> {
    if key !in fields || fields[key].Null? then Ok(None)
    else if fields[key].Str? then Ok(Some(fields[key].value))
    else Err(InvalidJson)
  }

  function OptionalPositive(fields: Fields, key: Key): (r: Result<Option<nat>, CodecError>)
    ensures r.Ok? ==> ValidLimit(r.value)
  {
    if key !in fields || fields[key].Null? then Ok(None)
    else if !fields[key].Num? || !WellFormed(fields[key].number) then Err(InvalidJson)
    else
      var value := ExactInteger(fields[key].number);
      assert IsExact(fields[key].number, value);
      if value.Some? then Ok(value) else Err(InvalidJson)
  }

  function ActionOf(name: string): Option<ReadAction> {
    match name
    case "diff" => Some(Diff)
    case "file" => Some(File)
    case "list" => Some(List)
    case "search" => Some(Search)
    case "show" => Some(Show)
    case _ => None
  }

  function DecodeAction(fields: Fields): Result<ReadAction, CodecError> {
    if ActionKey !in fields then Ok(File)
    else
      var name := GetString(fields, ActionKey);
      if name.None? || ActionOf(name.value).None? then Err(InvalidJson) else Ok(ActionOf(name.value).value)
  }

  function SideOf(name: string): Option<ReadSide> {
    match name
    case "base" => Some(Base)
    case "head" => Some(Head)
    case _ => None
  }

  function DecodeSide(fields: Fields): Result<Option<ReadSide>, CodecError> {
    match OptionalString(fields, SideKey)
    case Ok(None) => Ok(None)
    case Ok(Some(name)) => if SideOf(name).None? then Err(InvalidJson) else Ok(Some(SideOf(name).value))
    case Err(e) => Err(e)
  }

  function DecodePath(fields: Fields): (r: Result<Option<string>, CodecError>)
    ensures r.Ok? && r.value.Some? ==> ValidPath(r.value.value)
  {
    match OptionalString(fields, PathKey)
    case Ok(Some(path)) => if ValidPath(path) then Ok(Some(path)) else Err(InvalidJson)
    case other => other
  }

  function DecodeQuery(fields: Fields): (r: Result<Option<string>, CodecError>)
    ensures r.Ok? && r.value.Some? ==> ValidQuery(r.value.value)
  {
    match OptionalString(fields, QueryKey)
    case Ok(Some(query)) => if ValidQuery(query) then Ok(Some(query)) else Err(InvalidJson)
    case other => other
  }

  function DecodeRead(arguments: Json): (r: Result<ReadArguments, CodecError>)
    ensures r.Ok? ==> ValidRead(r.value)
  {
    if !arguments.Obj? || !(arguments.fields.Keys <= {ActionKey, LimitKey, OffsetKey, PathKey, QueryKey, SideKey})
    then Err(InvalidJson)
    else
      var fields := arguments.fields;
      var action, side := DecodeAction(fields), DecodeSide(fields);
      var limit, offset := OptionalPositive(fields, LimitKey), OptionalPositive(fields, OffsetKey);
      var path, query := DecodePath(fields), DecodeQuery(fields);
      if action.Err? || side.Err? || limit.Err? || offset.Err? || path.Err? || query.Err? then Err(InvalidJson)
      else
        var a := ReadArguments(
                   action.value, limit.value, offset.value, path.value, query.value, side.value, None);
        Ok(a.(validationError := Diagnostic(a)))
  }

  function DecodeWrite(arguments: Json): (r: Result<WriteArguments, CodecError>)
    ensures r.Ok? ==> ValidPatch(r.value.patch) && ValidPath(r.value.path)
  {
    if !arguments.Obj? || !(arguments.fields.Keys <= {PatchKey, PathKey}) then Err(InvalidJson)
    else
      var patch, path := GetString(arguments.fields, PatchKey), GetString(arguments.fields, PathKey);
      if patch.None? || path.None? || !ValidPatch(patch.value) || !ValidPath(path.value) then Err(InvalidJson)
      else Ok(WriteArguments(patch.value, path.value))
  }

  function DecodeArguments(name: string, arguments: Json): (r: Result<ToolArguments, CodecError>) {
    if name == "read" then
      match DecodeRead(arguments)
      case Ok(a) => Ok(Read(a))
      case Err(e) => Err(e)
    else if name == "write" then
      match DecodeWrite(arguments)
      case Ok(a) => Ok(Write(a))
      case Err(e) => Err(e)
    else Err(UnknownTool)
  }

  function DecodeCall(stored: Json): (r: Result<ToolCall, CodecError>)
    ensures r.Ok? ==> ValidCall(r.value)
  {
    if !stored.Obj? then Err(InvalidJson)
    else
      var fields := stored.fields;
      var id, name := GetString(fields, IdKey), GetString(fields, NameKey);
      var reasoning := OptionalString(fields, ReasoningKey);
      if id.None? || name.None? || reasoning.Err? || ArgumentsKey !in fields then Err(InvalidJson)
      else
        match DecodeArguments(name.value, fields[ArgumentsKey])
        case Ok(a) => Ok(ToolCall(id.value, a, reasoning.value))
        case Err(e) => Err(e)
  }

  function DecodeCalls(items: seq<Json>): (r: Result<seq<ToolCall>, CodecError>)
    ensures r.Ok? ==> forall i :: 0 <= i < |r.value| ==> ValidCall(r.value[i])
  {
    if items == [] then Ok([])
    else
      match (DecodeCall(items[0]), DecodeCalls(items[1..]))
      case (Err(e), _) => Err(e)
      case (Ok(_), Err(e)) => Err(e)
      case (Ok(call), Ok(calls)) => Ok([call] + calls)
  }

  function MediaTypeOf(name: string): Option<MediaType> {
    match name
    case "image/jpeg" => Some(Jpeg)
    case "image/png" => Some(Png)
    case _ => None
  }

  /** Stored images are checked for integrity only, never against the bounds on new input. */
  function DecodeBlock(stored: Json): (r: Result<InputBlock, CodecError>)
    ensures r.Ok? && r.value.Image? ==> ValidImage(r.value.image)
  {
    if !stored.Obj? then Err(InvalidJson)
    else
      match GetString(stored.fields, KindKey)
      case Some("text") =>
        var text := GetString(stored.fields, TextKey);
        if text.None? then Err(InvalidJson) else Ok(Text(text.value))
      case Some("image") =>
        var bytes, mediaType := GetString(stored.fields, BytesKey), GetString(stored.fields, MediaTypeKey);
        if bytes.None? || mediaType.None? then Err(InvalidJson) else DecodeImage(mediaType.value, bytes.value)
      case _ => Err(InvalidJson)
  }

  function DecodeImage(name: string, text: string): (r: Result<InputBlock, CodecError>)
    ensures r.Ok? ==> r.value.Image? && ValidImage(r.value.image)
  {
    var mediaType, bytes := MediaTypeOf(name), Base64.Decode(text);
    if mediaType.None? || bytes.None? then Err(InvalidInput)
    else
      var image := ImageContent(mediaType.value, bytes.value);
      if ValidImage(image) then Ok(Image(image)) else Err(InvalidInput)
  }

  function DecodeBlocks(items: seq<Json>): (r: Result<seq<InputBlock>, CodecError>)
    ensures r.Ok? ==> ValidBlocks(r.value)
  {
    if items == [] then Ok([])
    else
      match (DecodeBlock(items[0]), DecodeBlocks(items[1..]))
      case (Err(e), _) => Err(e)
      case (Ok(_), Err(e)) => Err(e)
      case (Ok(block), Ok(blocks)) => Ok([block] + blocks)
  }

  function DecodeInput(payload: Json): (r: Result<ModelMessage, CodecError>)
    ensures r.Ok? ==> ValidMessage(r.value) && !r.value.System?
  {
    if !payload.Obj? || VersionKey !in payload.fields || BlocksKey !in payload.fields then Err(InvalidJson)
    else if !payload.fields[BlocksKey].Arr? || !payload.fields[VersionKey].Num? then Err(InvalidJson)
    else if payload.fields[VersionKey].number != FromNat(1) then Err(InvalidInput)
    else
      match DecodeBlocks(payload.fields[BlocksKey].items)
      case Ok(blocks) => Ok(UserMessage(TurnInput(blocks)))
      case Err(e) => Err(e)
  }

  /** Every decoded message is a valid non-system message. */
  function Decode(stored: Stored): (r: Result<ModelMessage, CodecError>)
    ensures r.Ok? ==> ValidMessage(r.value) && !r.value.System?
  {
    var payload := stored.payload;
    match stored.kind
    case AssistantKind => if payload.Str? then Ok(Assistant(payload.value)) else Err(InvalidJson)
    case ReasoningKind =>
      if !payload.Obj? then Err(InvalidJson)
      else
        (match (GetString(payload.fields, ContentKey), GetString(payload.fields, ReasoningKey))
         case (Some(content), Some(reasoning)) => Ok(AssistantReasoning(content, reasoning))
         case _ => Err(InvalidJson))
    case ToolCallKind =>
      (match DecodeCall(payload)
       case Ok(call) => Ok(AssistantToolCall(call))
       case Err(e) => Err(e))
    case ToolCallsKind =>
      if !payload.Arr? then Err(InvalidJson)
      else
        (match DecodeCalls(payload.items)
         case Ok(calls) => Ok(AssistantToolCalls(calls))
         case Err(e) => Err(e))
    case ToolResultKind =>
      if !payload.Obj? then Err(InvalidJson)
      else
        var fields := payload.fields;
        (match (GetString(fields, CallIdKey), GetString(fields, ContentKey), GetString(fields, NameKey))
         case (Some(callId), Some(content), Some(name)) => Ok(ToolResult(callId, content, name))
         case _ => Err(InvalidJson))
    case UserKind => if payload.Str? then Ok(User(payload.value)) else Err(InvalidJson)
    case InputKind => DecodeInput(payload)
    case OtherKind(_) => Err(UnknownKind)
  }

  // ---------- round trips ----------

  /** The object holds exactly this optional value under the key. */
  ghost predicate Holds(fields: Fields, key: Key, value: Option<Json>) {
    if value.Some? then key in fields && fields[key] == value.value else key !in fields
  }

  ghost predicate HoldsRead(fields: Fields, a: ReadArguments) {
    && fields.Keys <= {ActionKey, LimitKey, OffsetKey, PathKey, QueryKey, SideKey}
    && Holds(fields, ActionKey, ActionJson(a.action))
    && Holds(fields, LimitKey, NumberJson(a.limit))
    && Holds(fields, OffsetKey, NumberJson(a.offset))
    && Holds(fields, PathKey, StringJson(a.path))
    && Holds(fields, QueryKey, StringJson(a.query))
    && Holds(fields, SideKey, SideJson(a.side))
  }

  /** Adding an optional field under a new key. */
  lemma {:induction false} AddField(fields: Fields, key: Key, value: Option<Json>)
    requires key !in fields
    ensures var next := fields + Present(key, value);
            && Holds(next, key, value)
            && next.Keys <= fields.Keys + {key}
            && forall k, v :: k != key && Holds(fields, k, v) ==> Holds(next, k, v)
  {
  }

  lemma {:induction false} FirstFieldsHold(action: Option<Json>, limit: Option<Json>, offset: Option<Json>)
    ensures var fields := Present(ActionKey, action) + Present(LimitKey, limit) + Present(OffsetKey, offset);
            && fields.Keys <= {ActionKey, LimitKey, OffsetKey}
            && Holds(fields, ActionKey, action) && Holds(fields, LimitKey, limit) && Holds(fields, OffsetKey, offset)
  {
    hide Present, Holds;
    var first := Present(ActionKey, action);
    AddField(map[], ActionKey, action);
    assert map[] + first == first;
    AddField(first, LimitKey, limit);
    AddField(first + Present(LimitKey, limit), OffsetKey, offset);
  }

  lemma {:induction false} LastFieldsHold(fields: Fields, path: Option<Json>, query: Option<Json>, side: Option<Json>)
    requires fields.Keys <= {ActionKey, LimitKey, OffsetKey}
    ensures var next := fields + Present(PathKey, path) + Present(QueryKey, query) + Present(SideKey, side);
            && next.Keys <= {ActionKey, LimitKey, OffsetKey, PathKey, QueryKey, SideKey}
            && Holds(next, PathKey, path) && Holds(next, QueryKey, query) && Holds(next, SideKey, side)
            && forall k, v :: k in {ActionKey, LimitKey, OffsetKey} && Holds(fields, k, v) ==> Holds(next, k, v)
  {
    hide Present, Holds;
    AddField(fields, PathKey, path);
    var middle := fields + Present(PathKey, path);
    AddField(middle, QueryKey, query);
    AddField(middle + Present(QueryKey, query), SideKey, side);
  }

  lemma {:induction false} ReadFieldsHold(a: ReadArguments)
    ensures HoldsRead(ReadFields(a), a)
  {
    hide Present, Holds, ActionJson, NumberJson, StringJson, SideJson;
    FirstFieldsHold(ActionJson(a.action), NumberJson(a.limit), NumberJson(a.offset));
    LastFieldsHold(Present(ActionKey, ActionJson(a.action)) + Present(LimitKey, NumberJson(a.limit))
                   + Present(OffsetKey, NumberJson(a.offset)),
                   StringJson(a.path), StringJson(a.query), SideJson(a.side));
  }

  lemma {:induction false} ActionFromField(fields: Fields, action: ReadAction)
    requires Holds(fields, ActionKey, ActionJson(action))
    ensures DecodeAction(fields) == Ok(action)
  {
    assert ActionOf(ActionName(action)) == Some(action);
  }

  lemma {:induction false} SideFromField(fields: Fields, side: Option<ReadSide>)
    requires Holds(fields, SideKey, SideJson(side))
    ensures DecodeSide(fields) == Ok(side)
  {
    assert side.Some? ==> SideOf(SideName(side.value)) == Some(side.value);
  }

  lemma {:induction false} LimitFromField(fields: Fields, key: Key, value: Option<nat>)
    requires ValidLimit(value) && Holds(fields, key, NumberJson(value))
    ensures OptionalPositive(fields, key) == Ok(value)
  {
    if value.Some? {
      FromNatIsExact(value.value);
    }
  }

  lemma {:induction false} TextFromField(fields: Fields, a: ReadArguments)
    requires a.path.Some? ==> ValidPath(a.path.value)
    requires a.query.Some? ==> ValidQuery(a.query.value)
    requires Holds(fields, PathKey, StringJson(a.path)) && Holds(fields, QueryKey, StringJson(a.query))
    ensures DecodePath(fields) == Ok(a.path) && DecodeQuery(fields) == Ok(a.query)
  {}

  /** Arguments come back with their diagnostic recomputed and their limits reparsed. */
  lemma {:induction false} ReadFromFields(fields: Fields, a: ReadArguments)
    requires ValidRead(a) && HoldsRead(fields, a)
    ensures DecodeRead(Obj(fields)) == Ok(a)
  {
    hide DecodeAction, DecodeSide, OptionalPositive, DecodePath, DecodeQuery, ValidPath, ValidQuery, Holds,
      ActionJson, SideJson, NumberJson, StringJson;
    ActionFromField(fields, a.action);
    SideFromField(fields, a.side);
    LimitFromField(fields, LimitKey, a.limit);
    LimitFromField(fields, OffsetKey, a.offset);
    TextFromField(fields, a);
    var bare := a.(validationError := None);
    assert a == bare.(validationError := Diagnostic(bare));
  }

  lemma {:induction false} CallRoundTrip(call: ToolCall)
    requires ValidCall(call)
    ensures DecodeCall(StoredCall(call)) == Ok(call)
  {
    hide ReadFields, DecodeRead, ValidRead, ValidPath, ValidPatch;
    if call.arguments.Read? {
      ReadFieldsHold(call.arguments.read);
      ReadFromFields(ReadFields(call.arguments.read), call.arguments.read);
    } else {
      var a := call.arguments.write;
      assert DecodeWrite(ArgumentsJson(call)) == Ok(a);
    }
  }

  lemma {:induction false} CallsRoundTrip(calls: seq<ToolCall>)
    requires forall i :: 0 <= i < |calls| ==> ValidCall(calls[i])
    ensures DecodeCalls(StoredCalls(calls)) == Ok(calls)
  {
    hide StoredCall, DecodeCall, ValidCall;
    if calls != [] {
      CallRoundTrip(calls[0]);
      CallsRoundTrip(calls[1..]);
      assert StoredCalls(calls)[1..] == StoredCalls(calls[1..]);
      assert calls == [calls[0]] + calls[1..];
    }
  }

  lemma {:induction false} MediaTypeRoundTrip(mediaType: MediaType)
    ensures MediaTypeOf(MediaTypeName(mediaType)) == Some(mediaType)
  {}

  lemma {:induction false} ImageRoundTrip(image: ImageContent, name: string, text: string)
    requires ValidImage(image)
    requires MediaTypeOf(name) == Some(image.mediaType) && Base64.Decode(text) == Some(image.bytes)
    ensures DecodeImage(name, text) == Ok(Image(image))
  {}

  lemma {:induction false} BlockRoundTrip(block: InputBlock)
    requires block.Image? ==> ValidImage(block.image)
    ensures DecodeBlock(StoredBlock(block)) == Ok(block)
  {
    var fields := StoredBlock(block).fields;
    match block
    case Text(text) =>
      assert GetString(fields, KindKey) == Some("text");
    case Image(image) =>
      var name, text := MediaTypeName(image.mediaType), Base64.Encode(image.bytes);
      Base64.RoundTrip(image.bytes);
      MediaTypeRoundTrip(image.mediaType);
      ImageRoundTrip(image, name, text);
      ImageFields(fields, name, text);
  }

  lemma {:induction false} ImageFields(fields: Fields, name: string, text: string)
    requires Holds(fields, KindKey, Some(Str("image")))
    requires Holds(fields, BytesKey, Some(Str(text))) && Holds(fields, MediaTypeKey, Some(Str(name)))
    ensures DecodeBlock(Obj(fields)) == DecodeImage(name, text)
  {}

  lemma {:induction false} BlocksRoundTrip(blocks: seq<InputBlock>)
    requires ValidBlocks(blocks)
    ensures DecodeBlocks(StoredBlocks(blocks)) == Ok(blocks)
  {
    if blocks != [] {
      BlockRoundTrip(blocks[0]);
      BlocksRoundTrip(blocks[1..]);
      assert StoredBlocks(blocks)[1..] == StoredBlocks(blocks[1..]);
      assert blocks == [blocks[0]] + blocks[1..];
    }
  }

  lemma {:induction false} InputRoundTrip(input: TurnInput)
    requires HasImages(input) && ValidBlocks(input.blocks)
    ensures DecodeInput(Obj(map[BlocksKey := Arr(StoredBlocks(input.blocks)), VersionKey := Num(FromNat(1))]))
            == Ok(UserInput(input))
  {
    BlocksRoundTrip(input.blocks);
  }

  lemma {:induction false} PlainRoundTrip(m: ModelMessage)
    requires m.Assistant? || m.AssistantReasoning? || m.ToolResult? || m.User?
    ensures Decode(StoredForm(m).value) == Ok(m)
  {}

  /** Every constructed message other than a system prompt decodes from its stored form to itself. */
  lemma {:induction false} StoredFormRoundTrip(m: ModelMessage)
    requires ValidMessage(m) && !m.System?
    ensures Decode(StoredForm(m).value) == Ok(m)
  {
    match m
    case AssistantToolCall(call) => CallRoundTrip(call);
    case AssistantToolCalls(calls) => CallsRoundTrip(calls);
    case UserInput(input) => InputRoundTrip(input);
    case _ => PlainRoundTrip(m);
  }

  /** A message is refused exactly when it is a system prompt; otherwise it reads back unchanged, bytes included. */
  lemma {:induction false} RoundTrip(m: ModelMessage)
    requires ValidMessage(m)
    ensures Encode(m).Err? <==> m.System?
    ensures Encode(m).Ok? ==>
              && Decode(Encode(m).value.stored) == Ok(m)
              && Encode(m).value.retainedBytes == Min(RetainedBytes(m), I64_MAX)
  {
    if !m.System? {
      StoredFormRoundTrip(m);
    }
  }

  /** Whatever decodes can be stored again and reads back the same. */
  lemma {:induction false} DecodedIsStable(stored: Stored)
    requires Decode(stored).Ok?
    ensures var m := Decode(stored).value; StoredForm(m).Ok? && Decode(StoredForm(m).value) == Ok(m)
  {
    StoredFormRoundTrip(Decode(stored).value);
  }
}
