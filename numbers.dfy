/**
 * The three library conversions the assembler relies on, over ASCII text:
 * `std::strtol(s, &end, 10)` (decimal immediates), `std::stoul(s, nullptr, 16)`
 * (hex literals and ORG) and `std::to_string` (jump addresses), followed by
 * the narrowing casts to `uint16_t` the source applies to their results.
 */
module Numbers {
  import opened Chars
  import opened Outcomes

  /** The C++ `uint8_t` and `uint16_t`. */
  type byte = x: int | 0 <= x < 0x100
  type u16 = x: int | 0 <= x < 0x1_0000

  /** LONG_MAX on the 64-bit platforms the assembler targets. */
  const LongMax: nat := 0x7FFF_FFFF_FFFF_FFFF
  /** ULONG_MAX + 1: `std::stoul` throws `std::out_of_range` at or past it. */
  const ULongLimit: nat := 0x1_0000_0000_0000_0000

  function DigitValue(c: char): (d: nat)
    requires IsDigit(c)
    ensures d < 10
  {
    (c - '0') as nat
  }

  function HexDigitValue(c: char): (d: nat)
    requires IsHexDigit(c)
    ensures d < 16
  {
    if IsDigit(c) then (c - '0') as nat
    else if 'a' <= c <= 'f' then (c - 'a') as nat + 10
    else (c - 'A') as nat + 10
  }

  /** The value of a string of decimal digits, most significant first. */
  function DecimalValue(ds: string): nat
    requires AllIn(ds, Digit)
  {
    if ds == [] then 0 else DecimalValue(ds[..|ds| - 1]) * 10 + DigitValue(ds[|ds| - 1])
  }

  /** The value of a string of hex digits, most significant first. */
  function HexValue(ds: string): nat
    requires AllIn(ds, HexDigit)
  {
    if ds == [] then 0 else HexValue(ds[..|ds| - 1]) * 16 + HexDigitValue(ds[|ds| - 1])
  }

  /**
   * `std::strtol(s, &end, 10)` on text that starts with its digits: the
   * value of the longest decimal-digit prefix (0 when there is none),
   * clamped to LONG_MAX on overflow.
   */
  function Strtol10(s: string): (v: nat)
    ensures v <= LongMax
  {
    var ds := s[..RunEnd(s, 0, Digit)];
    var n := DecimalValue(ds);
    if n > LongMax then LongMax else n
  }

  /**
   * Where the hex digits start: after a `0x` or `0X` prefix when a hex digit
   * follows it, otherwise at the beginning (so "0xZ" reads as the lone "0").
   */
  function HexDigitsStart(s: string): (i: nat)
    ensures i <= |s|
    ensures i == 0 || i == 2
  {
    if |s| >= 3 && s[0] == '0' && (s[1] == 'x' || s[1] == 'X') && IsHexDigit(s[2]) then 2 else 0
  }

  /**
   * `std::stoul(s, nullptr, 16)` on text that starts with its digits or a
   * `0x` prefix: the value of the longest hex-digit prefix; no digit at all
   * throws `std::invalid_argument` and a value past ULONG_MAX throws
   * `std::out_of_range`, neither of which the assembler catches.
   */
  function Stoul16(s: string): (r: Result<nat>)
    ensures r.Success? ==> r.value < ULongLimit
    ensures r.Failure? ==> r.error == InvalidArgument || r.error == NumberOutOfRange
  {
    var i := HexDigitsStart(s);
    var e := RunEnd(s, i, HexDigit);
    if e == i then Failure(InvalidArgument)
    else
      var n := HexValue(s[i..e]);
      if n >= ULongLimit then Failure(NumberOutOfRange) else Success(n)
  }

  /**
   * The C++ conversion of an unsigned or non-negative value to `uint16_t`:
   * the one 16-bit value that differs from `n` by a multiple of 2^16, so a
   * value that already fits is kept.
   */
  function ToU16(n: nat): (v: u16)
    ensures n < 0x1_0000 ==> v == n
    ensures (n - v) % 0x1_0000 == 0
  {
    n % 0x1_0000
  }

  /** Truncating part way through a sum changes nothing: 16-bit addition wraps. */
  lemma ToU16Wrap(a: nat, b: nat)
    ensures ToU16(a + b) == ToU16(ToU16(a) + b)
  {
    var q := a / 0x1_0000;
    assert a + b == q * 0x1_0000 + (ToU16(a) + b);
    ModAddMultiple(ToU16(a) + b, q);
  }

  /** Adding whole multiples of 2^16 leaves the remainder alone. */
  lemma {:induction false} ModAddMultiple(x: nat, q: nat)
    ensures (q * 0x1_0000 + x) % 0x1_0000 == x % 0x1_0000
  {
    if q > 0 {
      ModAddMultiple(x, q - 1);
      assert q * 0x1_0000 + x == 0x1_0000 + ((q - 1) * 0x1_0000 + x);
    }
  }

  /** `std::to_string` of a non-negative value: its decimal digits, no leading zeros. */
  function NatToDecimal(n: nat): (s: string)
    ensures |s| > 0 && AllIn(s, Digit)
    ensures |s| > 1 ==> s[0] != '0'
    decreases n
  {
    if n < 10 then ['0' + n as char]
    else NatToDecimal(n / 10) + ['0' + (n % 10) as char]
  }

  /** The hex digits of a value, upper case, no leading zeros. */
  function NatToHex(n: nat): (s: string)
    ensures |s| > 0 && AllIn(s, HexDigit)
    decreases n
  {
    if n < 16 then [HexChar(n)]
    else NatToHex(n / 16) + [HexChar(n % 16)]
  }

  function HexChar(d: nat): (c: char)
    requires d < 16
    ensures IsHexDigit(c) && HexDigitValue(c) == d
  {
    if d < 10 then '0' + d as char else 'A' + (d - 10) as char
  }

  /** `std::to_string` is undone by reading the digits back. */
  lemma {:induction false} DecimalRoundTrip(n: nat)
    ensures DecimalValue(NatToDecimal(n)) == n
    decreases n
  {
    var s := NatToDecimal(n);
    if n >= 10 {
      DecimalRoundTrip(n / 10);
      assert s[..|s| - 1] == NatToDecimal(n / 10);
    }
  }

  /** Printing in hex and reading the digits back gives the value again. */
  lemma {:induction false} HexRoundTrip(n: nat)
    ensures HexValue(NatToHex(n)) == n
    decreases n
  {
    var s := NatToHex(n);
    if n >= 16 {
      HexRoundTrip(n / 16);
      assert s[..|s| - 1] == NatToHex(n / 16);
    }
  }

  /** Digits read by strtol stop at the first non-digit; a whole digit string is read entirely. */
  lemma StrtolOfDigits(ds: string)
    requires AllIn(ds, Digit)
    ensures RunEnd(ds, 0, Digit) == |ds|
    ensures Strtol10(ds) == if DecimalValue(ds) > LongMax then LongMax else DecimalValue(ds)
  {
    RunEndUnique(ds, 0, Digit, |ds|);
    assert ds[..|ds|] == ds;
  }

  /** strtol reads back what `std::to_string` wrote, for every value up to LONG_MAX. */
  lemma StrtolOfToString(n: nat)
    requires n <= LongMax
    ensures Strtol10(NatToDecimal(n)) == n
  {
    StrtolOfDigits(NatToDecimal(n));
    DecimalRoundTrip(n);
  }

  /**
   * stoul in base 16 reads a `0x`-prefixed hex digit string in full, and
   * fails only when its value does not fit an unsigned long.
   */
  lemma {:induction false} StoulOfPrefixedHex(ds: string)
    requires |ds| > 0 && AllIn(ds, HexDigit)
    ensures Stoul16("0x" + ds) ==
      if HexValue(ds) >= ULongLimit then Failure(NumberOutOfRange) else Success(HexValue(ds))
  {
    var s := "0x" + ds;
    assert HexDigitsStart(s) == 2 by { assert s[2] == ds[0]; }
    forall k | 2 <= k < |s| ensures InClass(s[k], HexDigit) {
      assert s[k] == ds[k - 2];
    }
    RunEndUnique(s, 2, HexDigit, |s|);
    assert s[2..|s|] == ds;
  }

  /** The hex text the assembler would read for a 16-bit value gives that value back. */
  lemma StoulOfHexText(v: u16)
    ensures Stoul16("0x" + NatToHex(v)) == Success(v)
  {
    HexRoundTrip(v);
    StoulOfPrefixedHex(NatToHex(v));
  }
}
