/** JSON values as the codec sees them: numbers exactly as written, objects as maps over known keys. */
module Json {
  import opened NumberParsing

  datatype Key =
    | ActionKey | ArgumentsKey | BlocksKey | BytesKey | CallIdKey | ContentKey | IdKey | KindKey
    | LimitKey | MediaTypeKey | NameKey | OffsetKey | PatchKey | PathKey | QueryKey | ReasoningKey
    | SideKey | TextKey | VersionKey
    | OtherKey(name: string)

  datatype Json =
    | Null
    | Num(number: JsonNumber)
    | Str(value: string)
    | Arr(items: seq<Json>)
    | Obj(fields: map<Key, Json>)

  /** UTF-8 length of one character. */
  function CharBytes(c: char): (n: nat)
    ensures 1 <= n <= 4
  {
    var code := c as int;
    if code < 0x80 then 1 else if code < 0x800 then 2 else if code < 0x1_0000 then 3 else 4
  }

  function Utf8Bytes(s: string): nat {
    if s == "" then 0 else CharBytes(s[0]) + Utf8Bytes(s[1..])
  }

  /** Characters with a two-byte escape, other control characters as \u00XX. */
  function EscapedBytes(c: char): nat {
    if c in {'"', '\\', '\n', '\r', '\t', '\U{0008}', '\U{000C}'} then 2
    else if c as int < 0x20 then 6
    else CharBytes(c)
  }

  /** Length of the JSON text of a string, without its quotes. */
  function StringBytes(s: string): nat {
    if s == "" then 0 else EscapedBytes(s[0]) + StringBytes(s[1..])
  }
}
