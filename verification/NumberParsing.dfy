/** Exact conversion of a JSON number's text to a positive 64-bit integer. */
module NumberParsing {
  import opened Prelude
  import opened Decimal

  const U64_MAX: int := 0xFFFF_FFFF_FFFF_FFFF
  const I64_MIN: int := -0x8000_0000_0000_0000

  datatype Exponent = Exponent(marker: char, sign: Option<char>, digits: string)

  /** The structure of section 6 of RFC 8259. */
  datatype JsonNumber = JsonNumber(
    negative: bool, whole: string, fraction: Option<string>, exponent: Option<Exponent>)

  predicate WellFormed(n: JsonNumber) {
    && AllDigits(n.whole) && n.whole != "" && (n.whole[0] == '0' ==> |n.whole| == 1)
    && (n.fraction.Some? ==> AllDigits(n.fraction.value) && n.fraction.value != "")
    && (n.exponent.Some? ==>
          var e := n.exponent.value;
          && e.marker in {'e', 'E'}
          && (e.sign.Some? ==> e.sign.value in {'+', '-'})
          && AllDigits(e.digits) && e.digits != "")
  }

  function FractionDigits(n: JsonNumber): string {
    if n.fraction.Some? then n.fraction.value else ""
  }

  function MantissaText(n: JsonNumber): string {
    (if n.negative then "-" else "") + n.whole
    + (if n.fraction.Some? then "." + n.fraction.value else "")
  }

  function SignedText(e: Exponent): string {
    (if e.sign.Some? then [e.sign.value] else "") + e.digits
  }

  function NumberText(n: JsonNumber): string {
    MantissaText(n) + (if n.exponent.Some? then [n.exponent.value.marker] + SignedText(n.exponent.value) else "")
  }

  function Signed(e: Exponent): int
    requires AllDigits(e.digits)
  {
    var magnitude: int := Value(e.digits);
    if e.sign == Some('-') then -magnitude else magnitude
  }

  /** The exponent as an unbounded integer. */
  function ExponentValue(n: JsonNumber): int
    requires WellFormed(n)
  {
    if n.exponent.None? then 0
    else Signed(n.exponent.value)
  }

  function Significand(n: JsonNumber): nat
    requires WellFormed(n)
  {
    Value(n.whole + FractionDigits(n))
  }

  function Scale(n: JsonNumber): int
    requires WellFormed(n)
  {
    ExponentValue(n) - |FractionDigits(n)|
  }

  /** The number's rational value, Significand * 10^Scale up to sign, is exactly the integer `v`. */
  ghost predicate Denotes(n: JsonNumber, v: int)
    requires WellFormed(n)
  {
    var signed := if n.negative then -v else v;
    if Scale(n) >= 0 then signed == Significand(n) * Pow10(Scale(n))
    else signed * Pow10(-Scale(n)) == Significand(n)
  }

  /** What the parser must return: the denoted integer when it is positive and fits, else nothing. */
  ghost predicate IsExact(n: JsonNumber, r: Option<nat>)
    requires WellFormed(n)
  {
    match r
    case Some(v) => 1 <= v <= U64_MAX && Denotes(n, v)
    case None => forall v :: 1 <= v <= U64_MAX ==> !Denotes(n, v)
  }

  function InRange(v: nat): Option<nat> {
    if 1 <= v <= U64_MAX then Some(v) else None
  }

  /** The denoted positive 64-bit integer, by unbounded arithmetic on the number's parts. */
  function ExactInteger(n: JsonNumber): (r: Option<nat>)
    requires WellFormed(n)
    ensures IsExact(n, r)
  {
    if n.negative then
      NegativeDenotesNothing(n);
      None
    else if Scale(n) >= 0 then InRange(Significand(n) * Pow10(Scale(n)))
    else
      var p := Pow10(-Scale(n));
      QuotientDenotes(n);
      if Significand(n) % p == 0 then InRange(Significand(n) / p) else None
  }

  lemma {:induction false} QuotientDenotes(n: JsonNumber)
    requires WellFormed(n) && !n.negative && Scale(n) < 0
    ensures var p := Pow10(-Scale(n));
            forall v :: Denotes(n, v) <==> v == Significand(n) / p && Significand(n) % p == 0
  {
    hide Denotes, Pow10, Significand, Scale, WellFormed;
    var p := Pow10(-Scale(n));
    DivideAndRemainder(Significand(n), p);
    forall v: int
      ensures Denotes(n, v) <==> v == Significand(n) / p && Significand(n) % p == 0
    {
      DenotesQuotient(n, v);
      ExactQuotient(v, Significand(n) / p, p, Significand(n) % p);
    }
  }

  lemma {:induction false} DivideAndRemainder(a: nat, p: nat)
    requires p > 0
    ensures a == a / p * p + a % p && a % p < p
  {
  }

  lemma {:induction false} DenotesQuotient(n: JsonNumber, v: int)
    requires WellFormed(n) && !n.negative && Scale(n) < 0
    ensures Denotes(n, v) <==> v * Pow10(-Scale(n)) == Significand(n)
  {
    hide Pow10, Significand;
  }

  lemma {:induction false} ExactIsUnique(n: JsonNumber, a: Option<nat>, b: Option<nat>)
    requires WellFormed(n) && IsExact(n, a) && IsExact(n, b)
    ensures a == b
  {
    if a.Some? && b.Some? && Scale(n) < 0 {
      var p := Pow10(-Scale(n));
      ExactQuotient(a.value, b.value, p, 0);
    }
  }

  method FindFirst(s: string, wanted: set<char>) returns (at: Option<nat>)
    ensures at.Some? ==> at.value < |s| && s[at.value] in wanted
    ensures at.Some? ==> forall i :: 0 <= i < at.value ==> s[i] !in wanted
    ensures at.None? ==> forall i :: 0 <= i < |s| ==> s[i] !in wanted
  {
    for i := 0 to |s|
      invariant forall j :: 0 <= j < i ==> s[j] !in wanted
    {
      if s[i] in wanted {
        return Some(i);
      }
    }
    return None;
  }

  /** Checked accumulation of decimal digits below `limit`. */
  method ParseBounded(digits: string, limit: nat) returns (r: Option<nat>)
    requires AllDigits(digits)
    ensures r == if Value(digits) <= limit then Some(Value(digits)) else None
  {
    var total := 0;
    assert digits[..0] == "";
    for i := 0 to |digits|
      invariant total == Value(digits[..i]) <= limit
    {
      assert digits[..i + 1][..i] == digits[..i];
      if 10 * total + DigitValue(digits[i]) > limit {
        ValueConcat(digits[..i + 1], digits[i + 1..]);
        assert digits[..i + 1] + digits[i + 1..] == digits;
        ScaleUp(Value(digits[..i + 1]), Pow10(|digits[i + 1..]|));
        return None;
      }
      total := 10 * total + DigitValue(digits[i]);
    }
    assert digits[..|digits|] == digits;
    return Some(total);
  }

  /** Signed 64-bit parsing of an exponent, failing outside the range. */
  method ParseExponent(ghost e: Exponent, text: string) returns (r: Option<int>)
    requires AllDigits(e.digits) && e.digits != "" && text == SignedText(e)
    requires e.sign.Some? ==> e.sign.value in {'+', '-'}
    ensures r == if I64_MIN <= Signed(e) <= I64_MAX then Some(Signed(e)) else None
  {
    if text[0] == '-' {
      assert text[1..] == e.digits;
      var magnitude := ParseBounded(text[1..], -I64_MIN);
      if magnitude.None? {
        return None;
      }
      var v: int := magnitude.value;
      return Some(-v);
    } else if text[0] == '+' {
      assert text[1..] == e.digits;
      r := ParseBounded(text[1..], I64_MAX);
    } else {
      assert text == e.digits;
      r := ParseBounded(text, I64_MAX);
    }
  }

  method TrimLeadingZeros(digits: string) returns (r: string)
    requires AllDigits(digits)
    ensures AllDigits(r) && Value(r) == Value(digits)
    ensures r != "" ==> r[0] != '0'
  {
    var i := 0;
    while i < |digits| && digits[i] == '0'
      invariant i <= |digits|
      invariant forall j :: 0 <= j < i ==> digits[j] == '0'
    {
      i := i + 1;
    }
    assert digits == digits[..i] + digits[i..];
    ValueConcat(digits[..i], digits[i..]);
    ZerosHaveNoValue(digits[..i]);
    r := digits[i..];
  }

  /** Multiplies by ten `zeros` times, failing on overflow. */
  method AppendZeros(value: nat, zeros: nat) returns (r: Option<nat>)
    requires value <= U64_MAX
    ensures var v := value * Pow10(zeros); r == if v <= U64_MAX then Some(v) else None
  {
    var total := value;
    for i := 0 to zeros
      invariant total == value * Pow10(i) <= U64_MAX
    {
      assert value * Pow10(i + 1) == 10 * total;
      if total * 10 > U64_MAX {
        PowMonotone(i + 1, zeros);
        MulMonotone(Pow10(i + 1), Pow10(zeros), value);
        return None;
      }
      total := total * 10;
    }
    return Some(total);
  }

  method AllZeros(s: string) returns (r: bool)
    ensures r <==> forall i :: 0 <= i < |s| ==> s[i] == '0'
  {
    for i := 0 to |s|
      invariant forall j :: 0 <= j < i ==> s[j] == '0'
    {
      if s[i] != '0' {
        return false;
      }
    }
    return true;
  }

  lemma {:induction false} NoMultiple(v: int, p: int, s: nat)
    requires v >= 1 && s < p
    ensures v * p != s && (-v) * p != s
  {
    ScaleUp(p, v);
    assert (-v) * p == -(v * p);
  }

  lemma {:induction false} MulMonotone(a: nat, b: nat, c: nat)
    requires a <= b
    ensures a * c <= b * c
  {}

  /** Too small: the digits cannot reach the decimal point. */
  lemma {:induction false} BelowOne(n: JsonNumber)
    requires WellFormed(n)
    requires Scale(n) <= -|n.whole + FractionDigits(n)|
    ensures IsExact(n, None)
  {
    var digits := n.whole + FractionDigits(n);
    ValueBound(digits);
    PowMonotone(|digits|, -Scale(n));
    forall v | 1 <= v <= U64_MAX ensures !Denotes(n, v) {
      NoMultiple(v, Pow10(-Scale(n)), Significand(n));
    }
  }

  /** Too large: an exponent beyond 64 bits outweighs any fraction a string can hold. */
  lemma {:induction false} ExponentTooLarge(n: JsonNumber)
    requires WellFormed(n) && |NumberText(n)| <= I64_MAX
    requires ExponentValue(n) > I64_MAX
    ensures IsExact(n, None)
  {
    var e := n.exponent.value;
    ValueBound(e.digits);
    Pow10Twenty();
    if |e.digits| <= 18 {
      PowMonotone(|e.digits|, 18);
      assert false;
    }
    assert |NumberText(n)| >= |n.whole| + |FractionDigits(n)| + |e.digits|;
    assert Scale(n) >= 20;
    PowMonotone(20, Scale(n));
    forall v | 1 <= v <= U64_MAX ensures !Denotes(n, v) {
      if Significand(n) > 0 {
        ScaleUp(Pow10(Scale(n)), Significand(n));
      }
    }
  }

  /** An exponent outside 64 bits never denotes a value in range. */
  lemma {:induction false} ExponentOutOfRange(n: JsonNumber)
    requires WellFormed(n) && |NumberText(n)| <= I64_MAX
    requires !(I64_MIN <= ExponentValue(n) <= I64_MAX)
    ensures IsExact(n, None)
  {
    if ExponentValue(n) > I64_MAX {
      ExponentTooLarge(n);
    } else {
      assert |NumberText(n)| >= |n.whole| + |FractionDigits(n)|;
      BelowOne(n);
    }
  }

  /** Removing trailing digits is exact precisely when they are all zero. */
  lemma {:induction false} RemoveDigits(n: JsonNumber, kept: string, tail: string)
    requires WellFormed(n) && !n.negative && Scale(n) < 0 && |tail| == -Scale(n)
    requires AllDigits(kept) && AllDigits(tail) && kept + tail == n.whole + FractionDigits(n)
    ensures Value(tail) == 0 ==> forall v :: Denotes(n, v) <==> v == Value(kept)
    ensures Value(tail) != 0 ==> forall v :: !Denotes(n, v)
  {
    hide Denotes, Pow10, Value, Scale, WellFormed, AllDigits;
    ValueConcat(kept, tail);
    ValueBound(tail);
    forall v: int
      ensures Denotes(n, v) <==> v == Value(kept) && Value(tail) == 0
    {
      DenotesQuotient(n, v);
      ExactQuotient(v, Value(kept), Pow10(|tail|), Value(tail));
    }
  }

  lemma {:induction false} ExactQuotient(v: int, k: int, p: int, t: nat)
    requires t < p
    ensures v * p == k * p + t <==> v == k && t == 0
  {
    var q := v - k;
    assert v * p == k * p + q * p;
    if q >= 1 {
      assert q * p >= p;
    } else if q <= -1 {
      assert q * p <= -p;
    }
  }

  /** A value whose digits and appended zeros exceed twenty places does not fit. */
  lemma {:induction false} TooManyDigits(digits: string, zeros: nat)
    requires AllDigits(digits) && digits != "" && digits[0] != '0' && |digits| + zeros > 20
    ensures Value(digits) * Pow10(zeros) > U64_MAX
  {
    LeadingDigitBound(digits);
    PowAdd(|digits| - 1, zeros);
    PowMonotone(20, |digits| - 1 + zeros);
    Pow10Twenty();
    MulMonotone(Pow10(|digits| - 1), Value(digits), Pow10(zeros));
  }

  /** The denoted integers of a nonnegative number, once its digits are kept and its zeros known. */
  ghost predicate Reduced(n: JsonNumber, kept: string, zeros: nat)
    requires WellFormed(n)
  {
    AllDigits(kept) && forall v :: Denotes(n, v) <==> v == Value(kept) * Pow10(zeros)
  }

  /** Turns kept digits and appended zeros into a 64-bit value, failing when it is zero or too large. */
  method Accumulate(ghost n: JsonNumber, kept: string, zeros: nat) returns (r: Option<nat>)
    requires WellFormed(n) && Reduced(n, kept, zeros)
    ensures IsExact(n, r)
  {
    var digits := TrimLeadingZeros(kept);
    if digits == "" || |digits| + zeros > 20 {
      if digits != "" {
        TooManyDigits(digits, zeros);
      }
      return None;
    }
    var value := ParseBounded(digits, U64_MAX);
    if value.None? {
      ScaleUp(Value(digits), Pow10(zeros));
      return None;
    }
    r := AppendZeros(value.value, zeros);
    LeadingDigitBound(digits);
    ScaleUp(Value(digits), Pow10(zeros));
  }

  /** Splitting at the first marker and point recovers the number's parts. */
  lemma {:induction false} SplitParts(n: JsonNumber)
    requires WellFormed(n)
    ensures forall i :: 0 <= i < |MantissaText(n)| ==> MantissaText(n)[i] !in {'e', 'E'}
    ensures MantissaText(n)[0] == '-' <==> n.negative
    ensures forall i :: 0 <= i < |n.whole| ==> n.whole[i] != '.'
    ensures n.exponent.Some? ==>
              && |NumberText(n)| > |MantissaText(n)|
              && NumberText(n)[|MantissaText(n)|] == n.exponent.value.marker
  {
    forall i | 0 <= i < |n.whole| ensures n.whole[i] !in {'e', 'E', '.', '-'} {
      assert IsDigit(n.whole[i]);
    }
    if n.fraction.Some? {
      forall i | 0 <= i < |n.fraction.value| ensures n.fraction.value[i] !in {'e', 'E'} {
        assert IsDigit(n.fraction.value[i]);
      }
    }
  }

  /**
   * For every JSON number text the result is the denoted integer when that lies in
   * 1..=u64::MAX, and nothing otherwise. The length bound is that of any Rust string.
   */
  method ParsePositiveJsonInteger(ghost n: JsonNumber, number: string) returns (r: Option<nat>)
    requires WellFormed(n) && number == NumberText(n)
    requires |number| <= I64_MAX
    ensures r == ExactInteger(n)
    ensures IsExact(n, r)
  {
    r := ParseParts(n, number);
    ExactIsUnique(n, r, ExactInteger(n));
  }

  /** Splits off the exponent and rejects a sign, then parses what is left. */
  method ParseParts(ghost n: JsonNumber, number: string) returns (r: Option<nat>)
    requires WellFormed(n) && number == NumberText(n)
    requires |number| <= I64_MAX
    ensures IsExact(n, r)
  {
    SplitParts(n);
    var marker := FindFirst(number, {'e', 'E'});
    var mantissa, exponent := number, 0;
    if marker.Some? {
      assert marker.value == |MantissaText(n)|;
      mantissa := number[..marker.value];
      assert number[marker.value + 1..] == SignedText(n.exponent.value);
      var parsed := ParseExponent(n.exponent.value, number[marker.value + 1..]);
      if parsed.None? {
        ExponentOutOfRange(n);
        return None;
      }
      exponent := parsed.value;
    }
    assert mantissa == MantissaText(n) && exponent == ExponentValue(n);
    if mantissa[0] == '-' {
      NegativeDenotesNothing(n);
      return None;
    }
    r := ParseUnsigned(n, mantissa, exponent);
  }

  lemma {:induction false} NegativeDenotesNothing(n: JsonNumber)
    requires WellFormed(n) && n.negative
    ensures IsExact(n, None)
  {
    forall v | 1 <= v <= U64_MAX ensures !Denotes(n, v) {
      if Scale(n) < 0 {
        ScaleUp(Pow10(-Scale(n)), v);
        assert (-v) * Pow10(-Scale(n)) == -(v * Pow10(-Scale(n)));
      }
    }
  }

  /** Splits a mantissa at its point. */
  method SplitMantissa(ghost n: JsonNumber, mantissa: string) returns (whole: string, fraction: string)
    requires WellFormed(n) && !n.negative && mantissa == MantissaText(n)
    ensures whole == n.whole && fraction == FractionDigits(n)
  {
    SplitParts(n);
    var point := FindFirst(mantissa, {'.'});
    whole, fraction := mantissa, "";
    assert forall i :: 0 <= i < |n.whole| ==> mantissa[i] == n.whole[i];
    assert n.fraction.Some? ==> mantissa[|n.whole|] == '.';
    if point.Some? {
      whole, fraction := mantissa[..point.value], mantissa[point.value + 1..];
    }
  }

  /** The tail of the parser: split off the fraction, apply the scale, accumulate. */
  method ParseUnsigned(ghost n: JsonNumber, mantissa: string, exponent: int) returns (r: Option<nat>)
    requires WellFormed(n) && !n.negative && mantissa == MantissaText(n)
    requires exponent == ExponentValue(n) && I64_MIN <= exponent <= I64_MAX
    requires |NumberText(n)| <= I64_MAX
    ensures IsExact(n, r)
  {
    var whole, fraction := SplitMantissa(n, mantissa);
    var digits := whole + fraction;
    var scale := exponent - |fraction|;
    assert |digits| <= |NumberText(n)|;
    if scale < I64_MIN {
      BelowOne(n);
      return None;
    }
    if scale < 0 {
      r := Shorten(n, digits, -scale);
    } else {
      r := Accumulate(n, digits, scale);
    }
  }

  lemma {:induction false} DigitsOnly(n: JsonNumber)
    requires WellFormed(n)
    ensures AllDigits(n.whole + FractionDigits(n))
  {
  }

  /** A negative scale drops trailing digits, which must all be zero. */
  method Shorten(ghost n: JsonNumber, digits: string, removed: nat) returns (r: Option<nat>)
    requires WellFormed(n) && !n.negative && digits == n.whole + FractionDigits(n)
    requires removed > 0 && Scale(n) + removed == 0
    ensures IsExact(n, r)
  {
    hide Denotes, Pow10, Value, Scale, Significand, WellFormed;
    DigitsOnly(n);
    if removed >= |digits| {
      BelowOne(n);
      return None;
    }
    var kept, tail := digits[..|digits| - removed], digits[|digits| - removed..];
    assert kept + tail == digits;
    RemoveDigits(n, kept, tail);
    var exact := AllZeros(tail);
    if !exact {
      ghost var k :| 0 <= k < |tail| && tail[k] != '0';
      NonzeroDigitHasValue(tail, k);
      return None;
    }
    ZerosHaveNoValue(tail);
    ReducedWhole(n, kept);
    r := Accumulate(n, kept, 0);
  }

  lemma {:induction false} ReducedWhole(n: JsonNumber, kept: string)
    requires WellFormed(n) && AllDigits(kept) && forall v :: Denotes(n, v) <==> v == Value(kept)
    ensures Reduced(n, kept, 0)
  {
    hide Denotes, Value;
  }

  /** The JSON number whose text is the shortest decimal form of `v`. */
  function FromNat(v: nat): (n: JsonNumber)
    ensures WellFormed(n) && NumberText(n) == Text(v)
  {
    JsonNumber(false, Text(v), None, None)
  }

  /** A stored 64-bit limit survives being written and reparsed. */
  lemma {:induction false} FromNatIsExact(v: nat)
    requires 1 <= v <= U64_MAX
    ensures ExactInteger(FromNat(v)) == Some(v)
  {
    var n := FromNat(v);
    assert n.whole + FractionDigits(n) == Text(v);
    assert Denotes(n, v);
  }
}
