/**
 * The parts of the Java platform whose exact behaviour decides how the
 * adapter reads its configuration: `Boolean.parseBoolean` (and
 * `Boolean.getBoolean`, which applies it to a system property),
 * `String.equalsIgnoreCase`, `Integer.parseInt` and `Integer.decode`
 * (and `Integer.getInteger`, which applies it to a system property).
 * Characters are modelled as ASCII: case mapping and digit values of
 * other Unicode characters are not modelled.
 */
module JavaLang {
  import opened Wrappers

  /** Bounds of Java's 32-bit `int`. */
  const IntMin: int := -0x8000_0000
  const IntMax: int := 0x7fff_ffff

  predicate InIntRange(n: int) {
    IntMin <= n <= IntMax
  }

  // ---------------------------------------------------------------------
  // Case-insensitive comparison and Boolean.parseBoolean
  // ---------------------------------------------------------------------

  function ToUpper(c: char): char {
    if 'a' <= c <= 'z' then (c as int - 32) as char else c
  }

  function ToLower(c: char): char {
    if 'A' <= c <= 'Z' then (c as int + 32) as char else c
  }

  /** One step of `String.regionMatches(true, ...)`: equal as is, upper-cased, or lower-cased after upper-casing. */
  predicate CharEqualsIgnoreCase(c1: char, c2: char) {
    c1 == c2 || ToUpper(c1) == ToUpper(c2) || ToLower(ToUpper(c1)) == ToLower(ToUpper(c2))
  }

  /** The character-by-character scan of `String.regionMatches(true, 0, b, 0, |a|)`. */
  predicate RegionMatchesIgnoreCase(a: string, b: string)
    requires |a| == |b|
  {
    |a| == 0 || (CharEqualsIgnoreCase(a[0], b[0]) && RegionMatchesIgnoreCase(a[1..], b[1..]))
  }

  /** `a.equalsIgnoreCase(b)` for a non-null `b`. */
  predicate EqualsIgnoreCase(a: string, b: string) {
    |a| == |b| && RegionMatchesIgnoreCase(a, b)
  }

  lemma {:induction false} RegionMatchesPointwise(a: string, b: string)
    requires |a| == |b|
    ensures RegionMatchesIgnoreCase(a, b) <==> forall i :: 0 <= i < |a| ==> CharEqualsIgnoreCase(a[i], b[i])
  {
    if |a| > 0 {
      RegionMatchesPointwise(a[1..], b[1..]);
      assert forall i :: 1 <= i < |a| ==> a[1..][i - 1] == a[i] && b[1..][i - 1] == b[i];
    }
  }

  /** The spellings `Boolean.parseBoolean` accepts: the word "true" in any mix of cases. */
  predicate IsTrueIgnoringCase(s: string) {
    |s| == 4 && s[0] in "tT" && s[1] in "rR" && s[2] in "uU" && s[3] in "eE"
  }

  lemma EqualsTrueIgnoringCase(s: string)
    ensures EqualsIgnoreCase(s, "true") <==> IsTrueIgnoringCase(s)
  {
    if |s| == 4 {
      RegionMatchesPointwise(s, "true");
    }
  }

  /**
   * `Boolean.parseBoolean(s)`: true exactly for a non-null string equal to
   * "true" when case is ignored; `null` and every other string give false.
   */
  function ParseBoolean(s: Option<string>): (r: bool)
    ensures r <==> s.Some? && IsTrueIgnoringCase(s.value)
  {
    if s.None? then false
    else
      EqualsTrueIgnoringCase(s.value);
      EqualsIgnoreCase(s.value, "true")
  }

  // ---------------------------------------------------------------------
  // Integer.parseInt and Integer.decode
  // ---------------------------------------------------------------------

  /** What `Character.digit(c, 36)` gives an ASCII digit or letter; 36 (no digit in any radix) for anything else. */
  function DigitOf(c: char): nat {
    if '0' <= c <= '9' then c as nat - '0' as nat
    else if 'a' <= c <= 'z' then c as nat - 'a' as nat + 10
    else if 'A' <= c <= 'Z' then c as nat - 'A' as nat + 10
    else 36
  }

  predicate IsDigit(c: char, radix: nat) {
    DigitOf(c) < radix
  }

  predicate AllDigits(ds: string, radix: nat) {
    forall i :: 0 <= i < |ds| ==> IsDigit(ds[i], radix)
  }

  /**
   * The positional value of `ds` read most significant digit first, each
   * step multiplying what was read so far by `radix` and adding the next
   * digit; `acc` is the value of the digits already read.
   */
  function HornerValue(acc: nat, ds: string, radix: nat): nat
    decreases |ds|
  {
    if |ds| == 0 then acc
    else HornerValue(acc * radix + DigitOf(ds[0]), ds[1..], radix)
  }

  /** The value of a run of digits in `radix`. */
  function DigitsValue(ds: string, radix: nat): nat {
    HornerValue(0, ds, radix)
  }

  /** Appending a digit multiplies the value read so far by the radix and adds the digit. */
  lemma {:induction false} HornerAppend(acc: nat, ds: string, c: char, radix: nat)
    ensures HornerValue(acc, ds + [c], radix) == HornerValue(acc, ds, radix) * radix + DigitOf(c)
    decreases |ds|
  {
    if |ds| == 0 {
      assert (ds + [c])[1..] == [];
    } else {
      assert (ds + [c])[1..] == ds[1..] + [c];
      HornerAppend(acc * radix + DigitOf(ds[0]), ds[1..], c, radix);
    }
  }

  /**
   * The unsigned value of a run of digits in `radix`, read from its last
   * digit back; `None` (a NumberFormatException) when the run is empty or
   * holds a non-digit. The JDK stops early on overflow; it then throws as
   * well, which the callers below reproduce by checking the signed result
   * against the `int` range.
   */
  function Magnitude(ds: string, radix: nat): (r: Option<nat>)
    ensures r == if |ds| > 0 && AllDigits(ds, radix) then Some(DigitsValue(ds, radix)) else None
    decreases |ds|
  {
    if |ds| == 0 then None
    else
      var last := ds[|ds| - 1];
      if !IsDigit(last, radix) then None
      else if |ds| == 1 then
        assert ds == [] + [last];
        HornerAppend(0, [], last, radix);
        Some(DigitOf(last))
      else
        var init := ds[..|ds| - 1];
        assert ds == init + [last];
        HornerAppend(0, init, last, radix);
        match Magnitude(init, radix)
        case None => None
        case Some(m) => Some(m * radix + DigitOf(last))
  }

  /** A value with its sign applied, kept only when it fits in an `int`. */
  function Signed(negative: bool, m: Option<nat>): (r: Option<int>)
    ensures r.Some? ==> InIntRange(r.value)
  {
    match m
    case None => None
    case Some(mag) =>
      var v: int := if negative then -(mag as int) else mag;
      if InIntRange(v) then Some(v) else None
  }

  /** The text after an optional leading '+' or '-'. */
  function Unsigned(s: string): string
    requires |s| > 0
  {
    if s[0] == '-' || s[0] == '+' then s[1..] else s
  }

  /** An optional sign followed by at least one decimal digit. */
  predicate IsDecimalText(s: string) {
    |s| > 0 && |Unsigned(s)| > 0 && AllDigits(Unsigned(s), 10)
  }

  /** The value such text denotes, negated when it starts with '-'. */
  function DecimalTextValue(s: string): int
    requires IsDecimalText(s)
  {
    if s[0] == '-' then -(DigitsValue(Unsigned(s), 10) as int) else DigitsValue(Unsigned(s), 10)
  }

  /**
   * `Integer.parseInt(s)`: accepted exactly when `s` is an optional sign
   * followed by decimal digits whose value fits in an `int`, and then that
   * value; `None` stands for the NumberFormatException thrown otherwise,
   * overflow included.
   */
  function ParseInt(s: string): (r: Option<int>)
    ensures r.Some? <==> IsDecimalText(s) && InIntRange(DecimalTextValue(s))
    ensures r.Some? ==> r.value == DecimalTextValue(s)
  {
    if |s| == 0 then None
    else Signed(s[0] == '-', Magnitude(Unsigned(s), 10))
  }

  /** The radix prefix `Integer.decode` recognises after the sign, and the digits that follow it. */
  function SplitRadix(rest: string): (nat, string) {
    if |rest| >= 2 && rest[0] == '0' && (rest[1] == 'x' || rest[1] == 'X') then (16, rest[2..])
    else if |rest| >= 1 && rest[0] == '#' then (16, rest[1..])
    else if |rest| >= 2 && rest[0] == '0' then (8, rest[1..])
    else (10, rest)
  }

  /** "0x", "0X" or "#" followed by at least one hexadecimal digit. */
  predicate IsHexForm(b: string) {
    (|b| > 2 && b[0] == '0' && (b[1] == 'x' || b[1] == 'X') && AllDigits(b[2..], 16)) ||
    (|b| > 1 && b[0] == '#' && AllDigits(b[1..], 16))
  }

  /** The hexadecimal digits after the prefix. */
  function HexDigitsOf(b: string): string
    requires IsHexForm(b)
  {
    if b[0] == '#' then b[1..] else b[2..]
  }

  /** "0" followed by at least one octal digit. */
  predicate IsOctalForm(b: string) {
    |b| > 1 && b[0] == '0' && AllDigits(b[1..], 8)
  }

  /** Decimal digits without a leading zero, or a lone "0". */
  predicate IsDecimalForm(b: string) {
    |b| > 0 && AllDigits(b, 10) && (b[0] != '0' || |b| == 1)
  }

  /** The text `Integer.decode` reads as a number: an optional sign, then one of the three forms. */
  predicate IsDecodableText(s: string) {
    |s| > 0 && (IsHexForm(Unsigned(s)) || IsOctalForm(Unsigned(s)) || IsDecimalForm(Unsigned(s)))
  }

  /** The value such text denotes, read in the radix its form names and negated after '-'. */
  function DecodableTextValue(s: string): int
    requires IsDecodableText(s)
  {
    var b := Unsigned(s);
    var m :=
      if IsHexForm(b) then DigitsValue(HexDigitsOf(b), 16)
      else if IsOctalForm(b) then DigitsValue(b[1..], 8)
      else DigitsValue(b, 10);
    if s[0] == '-' then -(m as int) else m
  }

  /**
   * `SplitRadix` finds the radix and digits of each form, and on text of
   * none of the forms leaves no valid run of digits.
   */
  lemma SplitRadixForms(b: string)
    ensures IsHexForm(b) ==> SplitRadix(b) == (16, HexDigitsOf(b))
    ensures IsOctalForm(b) ==> SplitRadix(b) == (8, b[1..])
    ensures IsDecimalForm(b) ==> SplitRadix(b) == (10, b)
    ensures !IsHexForm(b) && !IsOctalForm(b) && !IsDecimalForm(b) ==>
      var (radix, digits) := SplitRadix(b);
      !(|digits| > 0 && AllDigits(digits, radix))
  {
  }

  /**
   * `Integer.decode(s)`: accepted exactly when `s` is an optional sign
   * followed by "0x", "0X" or "#" and hexadecimal digits, by "0" and octal
   * digits, or by decimal digits without a leading zero, and its value
   * fits in an `int`; then that value. A sign after the prefix, an empty
   * digit run and overflow are all refused (a NumberFormatException).
   */
  function Decode(s: string): (r: Option<int>)
    ensures r.Some? <==> IsDecodableText(s) && InIntRange(DecodableTextValue(s))
    ensures r.Some? ==> r.value == DecodableTextValue(s)
  {
    if |s| == 0 then None
    else
      var negative := s[0] == '-';
      var index := if s[0] == '-' || s[0] == '+' then 1 else 0;
        var (radix, digits) := SplitRadix(s[index..]);
      SplitRadixForms(s[index..]);
      if |digits| > 0 && (digits[0] == '-' || digits[0] == '+') then None
      else Signed(negative, Magnitude(digits, radix))
  }

  /** The value `decode` gives digits `ds` in `radix` after `sign`, or `None` when it does not fit in an `int`. */
  function SignedDigits(sign: string, ds: string, radix: nat): Option<int> {
    var v: int := if sign == "-" then -(DigitsValue(ds, radix) as int) else DigitsValue(ds, radix);
    if InIntRange(v) then Some(v) else None
  }

  predicate IsSign(sign: string) {
    sign == "" || sign == "+" || sign == "-"
  }

  /** After a sign (or none), `Unsigned` gives back the body and the sign decides the negation. */
  lemma UnsignedAfterSign(sign: string, body: string)
    requires IsSign(sign) && |body| > 0 && body[0] != '-' && body[0] != '+'
    ensures Unsigned(sign + body) == body
    ensures (sign + body)[0] == '-' <==> sign == "-"
  {
  }

  /** `decode` of a body after a sign, by the form of the body. */
  lemma DecodeByForm(sign: string, b: string)
    requires IsSign(sign) && |b| > 0 && b[0] != '-' && b[0] != '+'
    ensures Decode(sign + b) ==
      if IsHexForm(b) then SignedDigits(sign, HexDigitsOf(b), 16)
      else if IsOctalForm(b) then SignedDigits(sign, b[1..], 8)
      else if IsDecimalForm(b) then SignedDigits(sign, b, 10)
      else None
  {
    UnsignedAfterSign(sign, b);
  }

  /** "0x", "0X" and "#" select hexadecimal. */
  lemma DecodeHex(sign: string, prefix: string, ds: string)
    requires IsSign(sign) && (prefix == "0x" || prefix == "0X" || prefix == "#")
    requires |ds| > 0 && AllDigits(ds, 16)
    ensures Decode(sign + prefix + ds) == SignedDigits(sign, ds, 16)
  {
    var b := prefix + ds;
    assert sign + prefix + ds == sign + b;
    assert IsHexForm(b) && HexDigitsOf(b) == ds;
    DecodeByForm(sign, b);
  }

  /** A leading '0' followed by more digits selects octal. */
  lemma DecodeOctal(sign: string, ds: string)
    requires IsSign(sign)
    requires |ds| > 0 && AllDigits(ds, 8)
    ensures Decode(sign + "0" + ds) == SignedDigits(sign, ds, 8)
  {
    var b := "0" + ds;
    assert sign + "0" + ds == sign + b;
    assert !IsHexForm(b);
    DecodeByForm(sign, b);
  }

  /** Without a prefix, digits not starting with '0' (or a lone "0") are decimal. */
  lemma DecodeDecimal(sign: string, ds: string)
    requires IsSign(sign)
    requires |ds| > 0 && AllDigits(ds, 10) && (ds[0] != '0' || |ds| == 1)
    ensures Decode(sign + ds) == SignedDigits(sign, ds, 10)
  {
    DecodeByForm(sign, ds);
  }

  /** A body whose radix prefix (of length `k`) is followed by a sign has none of the decodable forms. */
  lemma SignAfterPrefixNoForm(b: string, k: nat)
    requires |b| > k && (b[k] == '+' || b[k] == '-')
    requires (k == 1 && (b[0] == '#' || b[0] == '0')) || (k == 2 && b[0] == '0' && (b[1] == 'x' || b[1] == 'X'))
    ensures !IsHexForm(b) && !IsOctalForm(b) && !IsDecimalForm(b)
  {
    assert !IsDigit(b[k], 16);
    if k == 2 {
      assert b[2..][0] == b[k];
    } else {
      assert b[1..][0] == b[k];
    }
  }

  /** A sign after the radix prefix is refused. */
  lemma DecodeSignAfterPrefix(sign: string, prefix: string, sign2: string, rest: string)
    requires IsSign(sign) && (prefix == "0x" || prefix == "0X" || prefix == "#" || prefix == "0")
    requires sign2 == "+" || sign2 == "-"
    ensures Decode(sign + prefix + sign2 + rest) == None
  {
    var b := prefix + sign2 + rest;
    assert sign + prefix + sign2 + rest == sign + b;
    var k := |prefix|;
    assert b[0] == prefix[0] && b[k] == sign2[0];
    assert k == 2 ==> b[1] == prefix[1];
    SignAfterPrefixNoForm(b, k);
    DecodeByForm(sign, b);
  }

  /** One step of the most-significant-first reading. */
  lemma HornerStep(acc: nat, c: char, ds: string, radix: nat)
    ensures HornerValue(acc, [c] + ds, radix) == HornerValue(acc * radix + DigitOf(c), ds, radix)
  {
  }

  // The two lemmas below take their digit characters as parameters fixed by
  // the requires rather than as a string literal, which the verifier would
  // unfold at great cost; the reading then goes one HornerStep at a time.

  /** The magnitude 0x80000000, one more than the largest `int`. */
  lemma HexMinMagnitude(e: char, z: char)
    requires e == '8' && z == '0'
    ensures DigitsValue([e, z, z, z, z, z, z, z], 16) == 0x8000_0000
  {
    HornerStep(0, e, [z, z, z, z, z, z, z], 16);
    HornerStep(0x8, z, [z, z, z, z, z, z], 16);
    HornerStep(0x80, z, [z, z, z, z, z], 16);
    HornerStep(0x800, z, [z, z, z, z], 16);
    HornerStep(0x8000, z, [z, z, z], 16);
    HornerStep(0x80000, z, [z, z], 16);
    HornerStep(0x800000, z, [z], 16);
    HornerStep(0x8000000, z, [], 16);
  }

  /** The magnitude 0x7fffffff, the largest `int`. */
  lemma HexMaxMagnitude(s: char, f: char)
    requires s == '7' && f == 'f'
    ensures DigitsValue([s, f, f, f, f, f, f, f], 16) == 0x7fff_ffff
  {
    HornerStep(0, s, [f, f, f, f, f, f, f], 16);
    HornerStep(0x7, f, [f, f, f, f, f, f], 16);
    HornerStep(0x7f, f, [f, f, f, f, f], 16);
    HornerStep(0x7ff, f, [f, f, f, f], 16);
    HornerStep(0x7fff, f, [f, f, f], 16);
    HornerStep(0x7ffff, f, [f, f], 16);
    HornerStep(0x7fffff, f, [f], 16);
    HornerStep(0x7ffffff, f, [], 16);
  }

  /** "-0x80000000" decodes to the least `int`. */
  lemma DecodeHexMin()
    ensures Decode("-" + "0x" + "80000000") == Some(IntMin)
  {
    HexMinMagnitude('8', '0');
    DecodeHex("-", "0x", "80000000");
  }

  /** "0x80000000" is one past the largest `int` and is refused. */
  lemma DecodeHexOverflow()
    ensures Decode("" + "0x" + "80000000") == None
  {
    HexMinMagnitude('8', '0');
    DecodeHex("", "0x", "80000000");
  }

  /** "0x7fffffff" decodes to the largest `int`. */
  lemma DecodeHexMax()
    ensures Decode("" + "0x" + "7fffffff") == Some(IntMax)
  {
    HexMaxMagnitude('7', 'f');
    DecodeHex("", "0x", "7fffffff");
  }

  /** `parseInt` takes a '+' sign and leading zeros, and reads the digits as decimal. */
  lemma ParseIntNonCanonical()
    ensures ParseInt("+7") == Some(7)
    ensures ParseInt("007") == Some(7)
    ensures ParseInt("-007") == Some(-7)
  {
  }

  // ---------------------------------------------------------------------
  // Integer.toString, the reference the two parsers are checked against
  // ---------------------------------------------------------------------

  function DigitChar(d: nat): (c: char)
    requires d < 10
    ensures IsDigit(c, 10) && DigitOf(c) == d
  {
    ('0' as int + d) as char
  }

  function NatToDecimal(n: nat): (s: string)
    ensures |s| > 0
    decreases n
  {
    if n < 10 then [DigitChar(n)] else NatToDecimal(n / 10) + [DigitChar(n % 10)]
  }

  /** `Integer.toString(n)`: decimal digits with a leading '-' for a negative value. */
  function ToDecimal(n: int): string {
    if n < 0 then "-" + NatToDecimal(-n) else NatToDecimal(n)
  }

  lemma {:induction false} MagnitudeOfDecimal(n: nat)
    ensures Magnitude(NatToDecimal(n), 10) == Some(n)
    decreases n
  {
    if n >= 10 {
      MagnitudeOfDecimal(n / 10);
    }
  }

  /** Integer.toString writes no leading zero: its text starts with '0' only for zero itself. */
  lemma {:induction false} DecimalLeadingZero(n: nat)
    ensures NatToDecimal(n)[0] == '0' <==> n == 0
    decreases n
  {
    if n >= 10 {
      DecimalLeadingZero(n / 10);
    }
  }

  /** Integer.parseInt reads back every `int` Integer.toString writes. */
  lemma ParseIntRoundTrip(n: int)
    requires InIntRange(n)
    ensures ParseInt(ToDecimal(n)) == Some(n)
  {
    var m := if n < 0 then -n else n;
    MagnitudeOfDecimal(m);
  }

  /** Decimal text of a value outside the `int` range is refused, not wrapped around. */
  lemma ParseIntRefusesOverflow(n: int)
    requires !InIntRange(n)
    ensures ParseInt(ToDecimal(n)) == None
  {
    var m := if n < 0 then -n else n;
    MagnitudeOfDecimal(m);
  }

  /** Integer.decode reads a plain decimal `int` as Integer.parseInt does. */
  lemma DecodeRoundTrip(n: int)
    requires InIntRange(n)
    ensures Decode(ToDecimal(n)) == Some(n)
  {
    var m := if n < 0 then -n else n;
    MagnitudeOfDecimal(m);
    DecimalLeadingZero(m);
  }

  /**
   * The two parsers disagree on text written the way C and Java write
   * octal or hexadecimal literals: "010" is ten to parseInt and eight to
   * decode, and "0x10" is refused by parseInt and sixteen to decode.
   */
  lemma DecodeDiffersFromParseInt()
    ensures ParseInt("010") == Some(10) && Decode("010") == Some(8)
    ensures ParseInt("0x10") == None && Decode("0x10") == Some(16)
  {
    assert "010"[1..] == "10" && "0x10"[2..] == "10";
  }
}
