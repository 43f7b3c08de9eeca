/**
 * The few pieces of the Java platform that the two components rely on for their
 * arithmetic and parameter handling: 32-bit `int` arithmetic, `Integer.parseInt`,
 * `String.valueOf(int)` and Apache Commons' `StringUtils.isBlank`.
 */
module JavaLang {
  import opened Wrappers

  const TwoTo31: int := 0x8000_0000
  const TwoTo32: int := 0x1_0000_0000

  /** Values a Java `int` can hold. */
  predicate IsInt32(x: int) {
    -TwoTo31 <= x < TwoTo31
  }

  /** The Java `int` that an exact result becomes: its low 32 bits, read as two's complement. */
  function Wrap32(x: int): (r: int)
    ensures IsInt32(r)
    ensures (r - x) % TwoTo32 == 0
  {
    var w := (x + TwoTo31) % TwoTo32 - TwoTo31;
    assert x + TwoTo31 == TwoTo32 * ((x + TwoTo31) / TwoTo32) + (x + TwoTo31) % TwoTo32;
    assert w - x == -TwoTo32 * ((x + TwoTo31) / TwoTo32);
    w
  }

  /** Two numbers that differ by a multiple of 2^32 wrap to the same `int`. */
  lemma Wrap32Congruent(x: int, y: int, k: int)
    requires y == x + k * TwoTo32
    ensures Wrap32(y) == Wrap32(x)
  {
  }

  lemma Wrap32Identity(x: int)
    requires IsInt32(x)
    ensures Wrap32(x) == x
  {
  }

  /** Java's `a * b` on `int` operands where `a` already wrapped: wrapping once at the end gives the same value. */
  lemma Wrap32Mul(a: int, b: int)
    ensures Wrap32(Wrap32(a) * b) == Wrap32(a * b)
  {
    var p := (Wrap32(a) - a) / TwoTo32;
    assert Wrap32(a) == a + p * TwoTo32;
    assert Wrap32(a) * b == a * b + (p * b) * TwoTo32;
    Wrap32Congruent(a * b, Wrap32(a) * b, p * b);
  }

  // ---------------------------------------------------------------------------
  // StringUtils.isBlank

  /**
   * `Character.isWhitespace`: the ASCII separators, the information separators
   * U+001C..U+001F and the Unicode space, line and paragraph separators other
   * than the three no-break spaces.
   */
  predicate IsWhitespace(c: char): (w: bool)
    ensures c == ' ' || c == '\t' || c == '\n' || c == '\r' ==> w
    ensures c == '\U{A0}' || c == '\U{2007}' || c == '\U{202F}' ==> !w
    ensures '0' <= c <= '9' || '+' == c || '-' == c ==> !w
  {
    c == ' ' || ('\t' <= c <= '\r') || ('\U{1C}' <= c <= '\U{1F}')
    || c == '\U{1680}' || ('\U{2000}' <= c <= '\U{2006}') || ('\U{2008}' <= c <= '\U{200A}')
    || c == '\U{2028}' || c == '\U{2029}' || c == '\U{205F}' || c == '\U{3000}'
  }

  /** `StringUtils.isBlank`: null, empty, or nothing but whitespace. */
  predicate IsBlank(s: Option<string>): (b: bool)
    ensures s == Some("") ==> b
    ensures !b <==> s.Some? && exists i :: 0 <= i < |s.value| && !IsWhitespace(s.value[i])
  {
    s.None? || forall i :: 0 <= i < |s.value| ==> IsWhitespace(s.value[i])
  }

  // ---------------------------------------------------------------------------
  // Decimal digits

  predicate IsDigit(c: char) {
    '0' <= c <= '9'
  }

  function DigitValue(c: char): (d: nat)
    requires IsDigit(c)
    ensures d < 10
  {
    c as int - '0' as int
  }

  function DigitChar(d: nat): (c: char)
    requires d < 10
    ensures IsDigit(c) && DigitValue(c) == d
  {
    ('0' as int + d) as char
  }

  predicate AllDigits(s: string) {
    forall i :: 0 <= i < |s| ==> IsDigit(s[i])
  }

  /** The number a string of decimal digits denotes, most significant digit first. */
  function DigitsValue(s: string): nat
    requires AllDigits(s)
  {
    if s == [] then 0 else DigitsValue(s[..|s| - 1]) * 10 + DigitValue(s[|s| - 1])
  }

  // ---------------------------------------------------------------------------
  // Integer.parseInt and String.valueOf

  /**
   * `Integer.parseInt(s)`: an optional `+` or `-` followed by at least one decimal
   * digit, whose value fits in an `int`; `None` is the `NumberFormatException`.
   */
  function ParseInt(s: string): (r: Option<int>)
    ensures r.Some? ==> IsInt32(r.value)
    ensures r.Some? ==> |s| > 0 && forall i :: 0 < i < |s| ==> IsDigit(s[i])
    ensures r.Some? ==> IsDigit(s[0]) || ((s[0] == '-' || s[0] == '+') && |s| > 1)
  {
    if |s| == 0 then None
    else
      var digits := if s[0] == '-' || s[0] == '+' then s[1..] else s;
      if |digits| == 0 || !AllDigits(digits) then None
      else
        var v: int := if s[0] == '-' then 0 - (DigitsValue(digits) as int) else DigitsValue(digits);
        if IsInt32(v) then Some(v) else None
  }

  /** Decimal digits of a natural number, without leading zeros. */
  function NatToString(n: nat): (s: string)
    ensures |s| > 0 && AllDigits(s)
    ensures s[0] == '0' ==> n == 0
  {
    if n < 10 then [DigitChar(n)] else NatToString(n / 10) + [DigitChar(n % 10)]
  }

  /** `String.valueOf(int)`: a minus sign for negative values, then the digits of the magnitude. */
  function IntToString(n: int): (s: string)
    ensures |s| > 0
    ensures s[0] == '-' <==> n < 0
    ensures n >= 0 ==> IsDigit(s[0])
  {
    if n < 0 then "-" + NatToString(-n) else NatToString(n)
  }

  /**
   * `String.valueOf` writes the canonical decimal: after an optional `-` come one or
   * more digits, the first of which is `0` only for 0 itself (no `+`, no leading zeros).
   */
  lemma IntToStringCanonical(n: int)
    ensures var s := IntToString(n);
      && (forall i :: 0 < i < |s| ==> IsDigit(s[i]))
      && var digits := if n < 0 then s[1..] else s;
      |digits| > 0 && (digits[0] == '0' ==> n == 0)
  {
  }

  lemma {:induction false} NatToStringValue(n: nat)
    ensures DigitsValue(NatToString(n)) == n
  {
    if n >= 10 {
      var s := NatToString(n);
      var front := NatToString(n / 10);
      assert s[..|s| - 1] == front;
      NatToStringValue(n / 10);
    }
  }

  /** `Integer.parseInt` reads back what `String.valueOf` writes, for every `int`. */
  lemma ParseIntRoundTrip(n: int)
    requires IsInt32(n)
    ensures ParseInt(IntToString(n)) == Some(n)
  {
    var s := IntToString(n);
    if n < 0 {
      NatToStringValue(-n);
      assert s[1..] == NatToString(-n);
    } else {
      NatToStringValue(n);
    }
  }

  /** The value an optional sign followed by decimal digits denotes. */
  function SignedValue(sign: string, digits: string): int
    requires AllDigits(digits)
  {
    if sign == "-" then 0 - (DigitsValue(digits) as int) else DigitsValue(digits)
  }

  /**
   * Conversely, every optional `+` or `-` followed by at least one digit is read as
   * the number it denotes when that fits in an `int`: leading zeros and a leading
   * `+` are accepted, so `"007"` is 7 and `"+5"` is 5.
   */
  lemma ParseIntAcceptsWellFormed(sign: string, digits: string)
    requires sign == "" || sign == "+" || sign == "-"
    requires |digits| > 0 && AllDigits(digits)
    requires IsInt32(SignedValue(sign, digits))
    ensures ParseInt(sign + digits) == Some(SignedValue(sign, digits))
  {
    var s := sign + digits;
    if sign == "" {
      assert s == digits;
    } else {
      assert s[0] == sign[0];
      assert s[1..] == digits;
    }
  }

  /** A numeral whose value does not fit in an `int` is refused: `"2147483648"` throws. */
  lemma ParseIntRejectsOverflow(sign: string, digits: string)
    requires sign == "" || sign == "+" || sign == "-"
    requires |digits| > 0 && AllDigits(digits)
    requires !IsInt32(SignedValue(sign, digits))
    ensures ParseInt(sign + digits) == None
  {
    var s := sign + digits;
    if sign == "" {
      assert s == digits;
    } else {
      assert s[0] == sign[0];
      assert s[1..] == digits;
    }
  }

  /** A string holding a whitespace character is not a number: `" 5"` is refused, not trimmed. */
  lemma ParseIntRejectsWhitespace(s: string, i: nat)
    requires i < |s| && IsWhitespace(s[i])
    ensures ParseInt(s) == None
  {
  }
}
