/** Canonical padded base64 (section 4 of RFC 4648), with strict decoding. */
module Base64 {
  import opened Prelude

  function Symbol(v: nat): (c: char)
    requires v < 64
    ensures c != '='
    ensures SymbolValue(c) == Some(v)
  {
    if v < 26 then ('A' as int + v) as char
    else if v < 52 then ('a' as int + v - 26) as char
    else if v < 62 then ('0' as int + v - 52) as char
    else if v == 62 then '+' else '/'
  }

  function SymbolValue(c: char): (v: Option<nat>)
    ensures v.Some? ==> v.value < 64
  {
    if 'A' <= c <= 'Z' then Some(c as int - 'A' as int)
    else if 'a' <= c <= 'z' then Some(c as int - 'a' as int + 26)
    else if '0' <= c <= '9' then Some(c as int - '0' as int + 52)
    else if c == '+' then Some(62)
    else if c == '/' then Some(63)
    else None
  }

  /** A group of 24 bits seen as four six-bit values. */
  datatype Group = Group(v: nat, w: nat, x: nat, y: nat)

  predicate IsGroup(g: Group) { g.v < 64 && g.w < 64 && g.x < 64 && g.y < 64 }

  function Split(a: Byte, b: Byte, c: Byte): (g: Group)
    ensures IsGroup(g)
  {
    Group(a / 4, a % 4 * 16 + b / 16, b % 16 * 4 + c / 64, c % 64)
  }

  function Join(g: Group): (bytes: seq<Byte>)
    requires IsGroup(g)
    ensures |bytes| == 3
  {
    [g.v * 4 + g.w / 16, g.w % 16 * 16 + g.x / 4, g.x % 4 * 64 + g.y]
  }

  lemma {:induction false} JoinSplit(a: Byte, b: Byte, c: Byte)
    ensures Join(Split(a, b, c)) == [a, b, c]
  {}

  lemma {:induction false} SplitJoin(g: Group)
    requires IsGroup(g)
    ensures var t := Join(g); Split(t[0], t[1], t[2]) == g
  {
    var t := Join(g);
    assert t[0] / 4 == g.v && t[0] % 4 == g.w / 16;
    assert t[1] / 16 == g.w % 16 && t[1] % 16 == g.x / 4;
    assert t[2] / 64 == g.x % 4 && t[2] % 64 == g.y;
  }

  function Symbols(g: Group): (text: string)
    requires IsGroup(g)
    ensures |text| == 4
  {
    [Symbol(g.v), Symbol(g.w), Symbol(g.x), Symbol(g.y)]
  }

  /** The group spelled by four characters, reading padding as zero bits. */
  function GroupOf(text: string): (g: Option<Group>)
    requires |text| == 4
    ensures g.Some? ==> IsGroup(g.value)
  {
    match (ValueOrPadding(text[0]), ValueOrPadding(text[1]), ValueOrPadding(text[2]), ValueOrPadding(text[3]))
    case (Some(v), Some(w), Some(x), Some(y)) => Some(Group(v, w, x, y))
    case _ => None
  }

  function ValueOrPadding(c: char): (v: Option<nat>)
    ensures v.Some? ==> v.value < 64
  {
    if c == '=' then Some(0) else SymbolValue(c)
  }

  function Encode(bytes: seq<Byte>): (text: string)
    ensures |text| == (|bytes| + 2) / 3 * 4
  {
    if bytes == [] then ""
    else if |bytes| == 1 then Symbols(Split(bytes[0], 0, 0))[..2] + "=="
    else if |bytes| == 2 then Symbols(Split(bytes[0], bytes[1], 0))[..3] + "="
    else Symbols(Split(bytes[0], bytes[1], bytes[2])) + Encode(bytes[3..])
  }

  /** How many of the four places of the last group are padding, if they are placed legally. */
  function Padding(text: string): Option<nat>
    requires |text| == 4
  {
    if text[0] == '=' || text[1] == '=' then None
    else if text[2] == '=' then (if text[3] == '=' then Some(2) else None)
    else if text[3] == '=' then Some(1)
    else Some(0)
  }

  /** Rejects bad symbols, missing padding, early padding and nonzero discarded bits. */
  function Decode(text: string): (bytes: Option<seq<Byte>>)
  {
    if text == "" then Some([])
    else if |text| < 4 then None
    else
      var group, padding := GroupOf(text[..4]), Padding(text[..4]);
      if group.None? || padding.None? then None
      else if padding.value == 0 then
        var tail := Decode(text[4..]);
        if tail.None? then None else Some(Join(group.value) + tail.value)
      else if |text| > 4 then None
      else if padding.value == 1 then
        if group.value.x % 4 != 0 then None else Some(Join(group.value)[..2])
      else
        if group.value.w % 16 != 0 then None else Some(Join(group.value)[..1])
  }

  lemma {:induction false} SymbolOfValue(c: char)
    requires SymbolValue(c).Some?
    ensures c != '=' && Symbol(SymbolValue(c).value) == c
  {}

  lemma {:induction false} GroupOfSymbols(g: Group)
    requires IsGroup(g)
    ensures GroupOf(Symbols(g)) == Some(g) && Padding(Symbols(g)) == Some(0)
    ensures g.y == 0 ==> GroupOf(Symbols(g)[..3] + "=") == Some(g) && Padding(Symbols(g)[..3] + "=") == Some(1)
    ensures g.y == 0 && g.x == 0 ==>
              GroupOf(Symbols(g)[..2] + "==") == Some(g) && Padding(Symbols(g)[..2] + "==") == Some(2)
  {}

  lemma {:induction false} SymbolsOfGroup(text: string)
    requires |text| == 4 && GroupOf(text).Some? && Padding(text).Some?
    ensures Symbols(GroupOf(text).value)[..4 - Padding(text).value] == text[..4 - Padding(text).value]
    ensures Padding(text).value >= 1 ==> GroupOf(text).value.y == 0 && text[3] == '='
    ensures Padding(text).value == 2 ==> GroupOf(text).value.x == 0 && text[2] == '='
  {
    forall i | 0 <= i < 4 - Padding(text).value
      ensures Symbols(GroupOf(text).value)[i] == text[i]
    {
      SymbolOfValue(text[i]);
    }
  }

  lemma {:induction false} SplitPadded(a: Byte, b: Byte)
    ensures Split(a, b, 0).y == 0 && Split(a, b, 0).x % 4 == 0
    ensures Split(a, 0, 0).x == 0 && Split(a, 0, 0).w % 16 == 0
  {}

  /** Decoding an encoding gives back the bytes. */
  lemma {:induction false} RoundTrip(bytes: seq<Byte>)
    ensures Decode(Encode(bytes)) == Some(bytes)
  {
    hide Split, Join, GroupOf, Padding, Symbols, SymbolValue;
    if bytes != [] {
      var b := if |bytes| >= 2 then bytes[1] else 0;
      var c := if |bytes| >= 3 then bytes[2] else 0;
      var g := Split(bytes[0], b, c);
      JoinSplit(bytes[0], b, c);
      SplitPadded(bytes[0], b);
      GroupOfSymbols(g);
      if |bytes| >= 3 {
        RoundTrip(bytes[3..]);
        assert Encode(bytes)[..4] == Symbols(g) && Encode(bytes)[4..] == Encode(bytes[3..]);
        assert bytes == [bytes[0], b, c] + bytes[3..];
      } else {
        assert Encode(bytes)[..4] == Encode(bytes);
        assert bytes == [bytes[0], b, c][..|bytes|];
      }
    }
  }

  /** Bytes that a padded group does not carry are zero. */
  lemma {:induction false} PaddedBytesAreZero(g: Group)
    requires IsGroup(g) && g.y == 0 && g.x % 4 == 0
    ensures Join(g)[2] == 0
    ensures g.x == 0 && g.w % 16 == 0 ==> Join(g)[1] == 0
  {}

  lemma {:induction false} LastGroupIsCanonical(text: string)
    requires |text| == 4 && Decode(text).Some? && Padding(text).value > 0
    ensures Encode(Decode(text).value) == text
  {
    assert text[..4] == text;
    hide Split, Join, GroupOf, Padding, Symbols, SymbolValue;
    SymbolsOfGroup(text);
    var g := GroupOf(text).value;
    SplitJoin(g);
    PaddedBytesAreZero(g);
    if Padding(text).value == 1 {
      OnePadIsCanonical(text, g);
    } else {
      TwoPadsAreCanonical(text, g);
    }
  }

  lemma {:induction false} OnePadIsCanonical(text: string, g: Group)
    requires |text| == 4 && IsGroup(g) && text[3] == '=' && Symbols(g)[..3] == text[..3]
    requires Join(g)[2] == 0 && Split(Join(g)[0], Join(g)[1], 0) == g
    ensures Encode(Join(g)[..2]) == text
  {
    hide Split, Join, Symbols;
    assert text == text[..3] + "=";
  }

  lemma {:induction false} TwoPadsAreCanonical(text: string, g: Group)
    requires |text| == 4 && IsGroup(g) && text[2] == '=' && text[3] == '=' && Symbols(g)[..2] == text[..2]
    requires Split(Join(g)[0], 0, 0) == g
    ensures Encode(Join(g)[..1]) == text
  {
    hide Split, Join, Symbols;
    assert text == text[..2] + "==";
  }

  /** Only canonical text decodes: re-encoding gives back the text. */
  lemma {:induction false} DecodeIsCanonical(text: string)
    requires Decode(text).Some?
    ensures Encode(Decode(text).value) == text
  {
    hide Split, Join, GroupOf, Padding, Symbols, SymbolValue;
    if text != "" {
      var head := text[..4];
      if Padding(head).value > 0 {
        assert text == head;
        LastGroupIsCanonical(text);
      } else {
        DecodeIsCanonical(text[4..]);
        SymbolsOfGroup(head);
        var g := GroupOf(head).value;
        SplitJoin(g);
        assert (Join(g) + Decode(text[4..]).value)[3..] == Decode(text[4..]).value;
        assert Symbols(g)[..4] == Symbols(g) && head[..4] == head;
        assert text == head + text[4..];
      }
    }
  }
}
