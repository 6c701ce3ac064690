/** The pieces of JavaScript's standard library that the two timer screens
    lean on: `parseInt`, the decimal `toString` of a non-negative integer and
    `String.prototype.padStart`. Numbers are modelled as unbounded integers;
    `parseInt`'s NaN is `None`. */
module JsText {

  datatype Option<+T> = None | Some(value: T)

  /** The value of `c` read as a digit in a radix up to 16, or -1. */
  function DigitOf(c: char): (d: int)
    ensures -1 <= d < 16
    ensures '0' <= c <= '9' <==> 0 <= d < 10
  {
    if '0' <= c <= '9' then c as int - '0' as int
    else if 'a' <= c <= 'f' then c as int - 'a' as int + 10
    else if 'A' <= c <= 'F' then c as int - 'A' as int + 10
    else -1
  }

  predicate IsDigit(c: char, radix: nat)
  {
    0 <= DigitOf(c) < radix
  }

  predicate AllDigits(s: string, radix: nat)
  {
    forall i :: 0 <= i < |s| ==> IsDigit(s[i], radix)
  }

  /** `s` holds no decimal digit anywhere. */
  predicate NoDecimalDigit(s: string)
  {
    forall i :: 0 <= i < |s| ==> !IsDigit(s[i], 10)
  }

  /** The number a string of digits denotes, most significant digit first. */
  function Value(s: string, radix: nat): int
  {
    if s == [] then 0
    else
      Value(s[..|s| - 1], radix) * radix + DigitOf(s[|s| - 1])
  }

  /** The character that writes the decimal digit `d`. */
  function DecimalDigit(d: nat): (c: char)
    requires d < 10
    ensures IsDigit(c, 10) && DigitOf(c) == d
  {
    ('0' as int + d) as char
  }

  /** `n.toString()` for a non-negative integer: its decimal digits, without
      leading zeros. */
  function NatToDecimal(n: nat): (r: string)
    ensures r != [] && AllDigits(r, 10) && Value(r, 10) == n
    ensures r[0] == '0' ==> r == "0"
    ensures n < 10 <==> |r| == 1
    ensures n < 100 <==> |r| <= 2
  {
    if n < 10 then [DecimalDigit(n)]
    else
      var p := NatToDecimal(n / 10);
      var r := p + [DecimalDigit(n % 10)];
      assert r[..|r| - 1] == p;
      r
  }

  /** `s.padStart(width, fill)` for a one-character `fill`. */
  function PadStart(s: string, width: nat, fill: char): (r: string)
    ensures |r| == if |s| < width then width else |s|
    ensures r[|r| - |s|..] == s
    ensures forall i :: 0 <= i < |r| - |s| ==> r[i] == fill
  {
    if |s| < width then seq(width - |s|, _ => fill) + s else s
  }

  /** Padding a string of decimal digits with '0' leaves its digits and its
      value as they were. */
  lemma {:induction false} ZeroPaddedValue(s: string, width: nat)
    requires AllDigits(s, 10)
    ensures AllDigits(PadStart(s, width, '0'), 10)
    ensures Value(PadStart(s, width, '0'), 10) == Value(s, 10)
  {
    var r := PadStart(s, width, '0');
    var k := |r| - |s|;
    assert r == r[..k] + s;
    LeadingZerosValue(r[..k], s);
  }

  /** `String(x).padStart(2, '0')`: the two-character fields of a clock display. */
  function Pad2(x: nat): (r: string)
    ensures |r| >= 2 && AllDigits(r, 10) && Value(r, 10) == x
    ensures x < 100 <==> |r| == 2
    ensures r[0] == '0' ==> x < 10
  {
    ZeroPaddedValue(NatToDecimal(x), 2);
    PadStart(NatToDecimal(x), 2, '0')
  }

  /** A number written by `toString` parses back to itself. */
  lemma ParseDecimal(n: nat)
    ensures ParseInt(NatToDecimal(n), true) == Some(n)
  {
    ParseIntOfDigits(NatToDecimal(n), true);
  }

  /** A number written by `toString` and padded parses back to itself. */
  lemma ParsePad2(n: nat)
    ensures ParseInt(Pad2(n), true) == Some(n)
  {
    ParseIntOfDigits(Pad2(n), true);
  }

  /** Zeros written in front of a string of decimal digits change nothing. */
  lemma {:induction false} LeadingZerosValue(z: string, s: string)
    requires forall i :: 0 <= i < |z| ==> z[i] == '0'
    requires AllDigits(s, 10)
    ensures AllDigits(z + s, 10) && Value(z + s, 10) == Value(s, 10)
  {
    if s == [] {
      assert z + s == z;
      ZerosValue(z);
    } else {
      var s' := s[..|s| - 1];
      assert (z + s)[..|z + s| - 1] == z + s';
      LeadingZerosValue(z, s');
    }
  }

  lemma {:induction false} ZerosValue(z: string)
    requires forall i :: 0 <= i < |z| ==> z[i] == '0'
    ensures AllDigits(z, 10) && Value(z, 10) == 0
  {
    if z != [] {
      ZerosValue(z[..|z| - 1]);
    }
  }

  /** The white space and line terminators `parseInt` skips at the start of
      its argument (ECMAScript's StrWhiteSpaceChar). */
  predicate IsJsSpace(c: char)
  {
    c == '\t' || c == '\n' || c == '\U{000B}' || c == '\U{000C}' || c == '\r' ||
    c == ' ' || c == '\U{00A0}' || c == '\U{1680}' || '\U{2000}' <= c <= '\U{200A}' ||
    c == '\U{2028}' || c == '\U{2029}' || c == '\U{202F}' || c == '\U{205F}' ||
    c == '\U{3000}' || c == '\U{FEFF}'
  }

  /** Digits denote a number that is not negative. */
  lemma {:induction false} DigitsValue(s: string, radix: nat)
    requires AllDigits(s, radix)
    ensures Value(s, radix) >= 0
  {
    if s != [] {
      DigitsValue(s[..|s| - 1], radix);
    }
  }

  /** The length of the longest prefix of `s` made of digits of `radix`. */
  function DigitRun(s: string, radix: nat): (k: nat)
    ensures k <= |s|
  {
    if s == [] || !IsDigit(s[0], radix) then 0 else 1 + DigitRun(s[1..], radix)
  }

  /** `DigitRun` stops at the first character that is not a digit. */
  lemma {:induction false} DigitRunIsLongest(s: string, radix: nat)
    ensures AllDigits(s[..DigitRun(s, radix)], radix)
    ensures DigitRun(s, radix) < |s| ==> !IsDigit(s[DigitRun(s, radix)], radix)
  {
    if s != [] && IsDigit(s[0], radix) {
      var k := DigitRun(s, radix);
      DigitRunIsLongest(s[1..], radix);
      assert forall i :: 1 <= i < k ==> s[..k][i] == s[1..][..k - 1][i - 1];
    }
  }

  /** JavaScript's `parseInt(s, 10)` when `radixGiven`, and `parseInt(s)`
      otherwise, for which a "0x" or "0X" after the sign switches to base
      16. Leading white space is skipped one character at a time, then one
      sign, then the longest run of digits is read; `None` (NaN) when that
      run is empty. */
  function ParseInt(s: string, radixGiven: bool): (r: Option<int>)
    ensures NoDecimalDigit(s) ==> r == None
    decreases |s|
  {
    if s != [] && IsJsSpace(s[0]) then ParseInt(s[1..], radixGiven)
    else if s != [] && s[0] == '-' then Negate(ParseUnsigned(s[1..], radixGiven))
    else if s != [] && s[0] == '+' then ParseUnsigned(s[1..], radixGiven)
    else ParseUnsigned(s, radixGiven)
  }

  /** The sign applied to a parsed magnitude; NaN stays NaN. */
  function Negate(n: Option<int>): (r: Option<int>)
    ensures r.Some? <==> n.Some?
    ensures r.Some? ==> r.value + n.value == 0
  {
    if n.Some? then Some(-n.value) else None
  }

  /** What follows the sign: a "0x"/"0X" prefix selects base 16 when no
      radix was given, otherwise base 10. */
  function ParseUnsigned(u: string, radixGiven: bool): (r: Option<int>)
    ensures r.Some? ==> r.value >= 0 && u != [] && IsDigit(u[0], 10)
    ensures radixGiven ==> (r.Some? <==> u != [] && IsDigit(u[0], 10))
  {
    if !radixGiven && |u| >= 2 && u[0] == '0' && (u[1] == 'x' || u[1] == 'X')
    then LeadingNumber(u[2..], 16)
    else LeadingNumber(u, 10)
  }

  /** The value of the longest run of digits at the start of `body`, or
      NaN when there is none. */
  function LeadingNumber(body: string, radix: nat): (r: Option<int>)
    ensures r.Some? <==> body != [] && IsDigit(body[0], radix)
    ensures r.Some? ==> r.value >= 0
  {
    var k := DigitRun(body, radix);
    if k == 0 then None
    else
      DigitRunIsLongest(body, radix);
      DigitsValue(body[..k], radix);
      Some(Value(body[..k], radix))
  }

  /** A non-empty string of decimal digits parses, with or without the radix,
      to the number it writes. */
  lemma ParseIntOfDigits(s: string, radixGiven: bool)
    requires s != [] && AllDigits(s, 10)
    ensures ParseInt(s, radixGiven) == Some(Value(s, 10))
  {
    assert IsDigit(s[0], 10);
    assert |s| >= 2 ==> IsDigit(s[1], 10);
    var k := DigitRun(s, 10);
    DigitRunIsLongest(s, 10);
    assert k == |s|;
    assert s[..k] == s;
  }

  /** A run of digits followed by text that does not start with a digit is
      exactly as long as the run. */
  lemma {:induction false} DigitRunOfPrefix(d: string, rest: string, radix: nat)
    requires AllDigits(d, radix)
    requires rest == [] || !IsDigit(rest[0], radix)
    ensures DigitRun(d + rest, radix) == |d|
  {
    if d != [] {
      assert IsDigit(d[0], radix);
      assert (d + rest)[1..] == d[1..] + rest;
      DigitRunOfPrefix(d[1..], rest, radix);
    } else {
      assert d + rest == rest;
    }
  }

  /** The digits at the start are read, and whatever follows them is
      ignored. */
  lemma LeadingNumberOfPrefix(d: string, rest: string, radix: nat)
    requires d != [] && AllDigits(d, radix)
    requires rest == [] || !IsDigit(rest[0], radix)
    ensures LeadingNumber(d + rest, radix) == Some(Value(d, radix))
  {
    DigitRunOfPrefix(d, rest, radix);
    assert (d + rest)[..|d|] == d;
  }

  /** `parseInt` of decimal digits followed by other text ("1.5", "5 min")
      reads the digits and ignores the rest, after an optional sign; without
      a radix this holds unless the text is "0x"/"0X" and more. */
  lemma ParseIntOfPrefix(d: string, rest: string, radixGiven: bool)
    requires d != [] && AllDigits(d, 10)
    requires rest == [] || !IsDigit(rest[0], 10)
    requires !radixGiven ==> !(d == "0" && rest != [] && (rest[0] == 'x' || rest[0] == 'X'))
    ensures ParseInt(d + rest, radixGiven) == Some(Value(d, 10))
    ensures ParseInt("+" + d + rest, radixGiven) == Some(Value(d, 10))
    ensures ParseInt("-" + d + rest, radixGiven) == Some(-Value(d, 10))
  {
    var u := d + rest;
    assert IsDigit(u[0], 10);
    assert |d| >= 2 ==> IsDigit(u[1], 10);
    assert |d| == 1 ==> u[1..] == rest;
    LeadingNumberOfPrefix(d, rest, 10);
    assert ("+" + d + rest)[1..] == u;
    assert ("-" + d + rest)[1..] == u;
  }

  /** White space in front changes nothing: " 3" reads as "3". */
  lemma ParseIntSkipsSpace(c: char, s: string, radixGiven: bool)
    requires IsJsSpace(c)
    ensures ParseInt([c] + s, radixGiven) == ParseInt(s, radixGiven)
  {
    assert ([c] + s)[1..] == s;
  }

  /** Without a radix, "0x" followed by hexadecimal digits is read in base
      16; with radix 10 the same text stops at the 'x' and reads 0. */
  lemma ParseIntOfHex(digits: string)
    requires digits != [] && AllDigits(digits, 16)
    ensures ParseInt("0x" + digits, false) == Some(Value(digits, 16))
    ensures ParseInt("0x" + digits, true) == Some(0)
  {
    var s := "0x" + digits;
    assert s[2..] == digits;
    var k := DigitRun(digits, 16);
    DigitRunIsLongest(digits, 16);
    assert k == |digits|;
    assert digits[..k] == digits;
    assert DigitRun(s, 10) == 1;
    assert s[..1] == "0";
    assert Value("0", 10) == 0;
  }
}
