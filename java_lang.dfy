/**
 * The parts of the Java platform the builder relies on, written out: the integer widths,
 * `long` wrap-around, truncating division, `Integer.parseInt`/`Long.parseLong`,
 * `String.contains`, and the exceptions the builder lets escape.
 */
module JavaLang {
  import opened Wrappers

  const TWO_63: int := 0x8000_0000_0000_0000
  const TWO_64: int := 0x1_0000_0000_0000_0000

  /** Java `int`. */
  type Int32 = x: int | -0x8000_0000 <= x < 0x8000_0000
  /** Java `long`. */
  type Int64 = x: int | -0x8000_0000_0000_0000 <= x < 0x8000_0000_0000_0000

  /** The exceptions that can escape a build. */
  datatype Exception =
    | IllegalArgument(message: string)
      // java.lang.NumberFormatException, thrown by Long.parseLong on the given text
    | NumberFormat(input: string)
      // java.lang.StringIndexOutOfBoundsException from String.charAt at the given index
    | StringIndexOutOfBounds(index: int)

  /** 2^n, unfolded eight bits at a time so that the verifier evaluates it on literals. */
  function Pow2(n: nat): (r: nat)
    ensures r >= 1
  {
    if n >= 8 then 256 * Pow2(n - 8)
    else if n == 0 then 1
    else 2 * Pow2(n - 1)
  }

  lemma {:induction false} Pow2Succ(n: nat)
    ensures Pow2(n + 1) == 2 * Pow2(n)
  {
    if n >= 8 {
      Pow2Succ(n - 8);
    } else if n == 7 {
      assert Pow2(8) == 256 * Pow2(0);
    }
  }

  /** A value that fits a two's-complement field of the given width: -2^(bits-1) <= v < 2^(bits-1). */
  ghost predicate FitsSigned(v: int, bits: nat) {
    -(Pow2(bits) as int) <= 2 * v < Pow2(bits)
  }

  /** A value that fits an unsigned field of the given width. */
  ghost predicate FitsUnsigned(v: int, bits: nat) {
    0 <= v < Pow2(bits)
  }

  /** Java `long` arithmetic: the long congruent to x modulo 2^64. */
  function WrapLong(x: int): (r: Int64)
    ensures -TWO_63 <= x < TWO_63 ==> r == x
    ensures (x - r) % TWO_64 == 0
  {
    var m := x % TWO_64;
    if m >= TWO_63 then m - TWO_64 else m
  }

  /** Java integer division `a / b` for a positive divisor: the quotient rounded toward zero. */
  function JavaDiv(a: int, b: int): (q: int)
    requires b > 0
    ensures a >= 0 ==> 0 <= a - q * b < b
    ensures a < 0 ==> -b < a - q * b <= 0
  {
    if a >= 0 then a / b else -((-a) / b)
  }

  predicate IsDigit(c: char) {
    '0' <= c <= '9'
  }

  predicate AllDigits(s: string) {
    forall i | 0 <= i < |s| :: IsDigit(s[i])
  }

  /** The value of a run of decimal digits, most significant first. */
  function DigitsValue(ds: string): nat
    requires AllDigits(ds)
  {
    if ds == [] then 0
    else DigitsValue(ds[..|ds| - 1]) * 10 + (ds[|ds| - 1] as int - '0' as int)
  }

  /**
   * The syntax shared by Integer.parseInt and Long.parseLong in radix 10: an optional
   * leading '-' or '+', then one or more digits; the value before any range check.
   */
  function ParseDecimal(s: string): Option<int> {
    if |s| > 0 && (s[0] == '-' || s[0] == '+') then
      if |s| > 1 && AllDigits(s[1..]) then
        Some(if s[0] == '-' then -(DigitsValue(s[1..]) as int) else DigitsValue(s[1..]))
      else None
    else if |s| > 0 && AllDigits(s) then Some(DigitsValue(s))
    else None
  }

  /** Integer.parseInt(s): None where Java throws NumberFormatException. */
  function ParseInt(s: string): (r: Option<Int32>)
    ensures r.Some? ==> ParseDecimal(s) == Some(r.value as int)
    ensures r.None? && ParseDecimal(s).Some? ==> !(-0x8000_0000 <= ParseDecimal(s).value < 0x8000_0000)
  {
    match ParseDecimal(s)
    case Some(v) => if -0x8000_0000 <= v < 0x8000_0000 then Some(v as Int32) else None
    case None => None
  }

  /** Long.parseLong(s): None where Java throws NumberFormatException. */
  function ParseLong(s: string): (r: Option<Int64>)
    ensures r.Some? ==> ParseDecimal(s) == Some(r.value as int)
    ensures r.None? && ParseDecimal(s).Some? ==> !(-TWO_63 <= ParseDecimal(s).value < TWO_63)
  {
    match ParseDecimal(s)
    case Some(v) => if -TWO_63 <= v < TWO_63 then Some(v as Int64) else None
    case None => None
  }

  /** A string that parses as an int also parses as a long, to the same value. */
  lemma ParseIntImpliesParseLong(s: string)
    requires ParseInt(s).Some?
    ensures ParseLong(s) == Some(ParseInt(s).value as Int64)
  {
  }

  /** The decimal digits of n, without leading zeros (the digits Long.toString writes). */
  function Digits(n: nat): (s: string)
    decreases n
  {
    if n < 10 then ['0' + n as char]
    else Digits(n / 10) + ['0' + (n % 10) as char]
  }

  /** Long.toString(n) in radix 10. */
  function ToDecimal(n: int): string {
    if n < 0 then "-" + Digits(-n) else Digits(n)
  }

  lemma {:induction false} DigitsRoundTrip(n: nat)
    ensures |Digits(n)| > 0 && AllDigits(Digits(n)) && DigitsValue(Digits(n)) == n
    decreases n
  {
    if n >= 10 {
      DigitsRoundTrip(n / 10);
      var d := Digits(n);
      assert d[..|d| - 1] == Digits(n / 10);
    }
  }

  /** Parsing what toString writes gives the number back. */
  lemma ParseDecimalOfToDecimal(n: int)
    ensures ParseDecimal(ToDecimal(n)) == Some(n)
  {
    if n < 0 {
      var d := Digits(-n);
      DigitsRoundTrip(-n);
      var s := ToDecimal(n);
      assert s == "-" + d;
      assert s[0] == '-' && s[1..] == d;
      assert AllDigits(s[1..]);
    } else {
      var d := Digits(n);
      DigitsRoundTrip(n);
      assert IsDigit(d[0]);
    }
  }

  lemma ParseIntOfToDecimal(n: Int32)
    ensures ParseInt(ToDecimal(n)) == Some(n)
  {
    ParseDecimalOfToDecimal(n);
  }

  lemma ParseLongOfToDecimal(n: Int64)
    ensures ParseLong(ToDecimal(n)) == Some(n)
  {
    ParseDecimalOfToDecimal(n);
  }

  /** `pattern` occurs in `text` as a contiguous run of characters starting at some index. */
  ghost predicate OccursIn(pattern: string, text: string) {
    exists i :: OccursAt(pattern, text, i)
  }

  ghost predicate OccursAt(pattern: string, text: string, i: int) {
    0 <= i && i + |pattern| <= |text| && text[i..i + |pattern|] == pattern
  }

  /** String.contains: scan the start positions of text from left to right. */
  function Contains(text: string, pattern: string): bool
    decreases |text|
  {
    if |pattern| <= |text| && text[..|pattern|] == pattern then true
    else if text == [] then false
    else Contains(text[1..], pattern)
  }

  lemma OccursInTail(text: string, pattern: string)
    requires text != []
    ensures OccursIn(pattern, text[1..]) ==> OccursIn(pattern, text)
  {
    if OccursIn(pattern, text[1..]) {
      var i :| OccursAt(pattern, text[1..], i);
      assert text[i + 1..i + 1 + |pattern|] == pattern;
      assert OccursAt(pattern, text, i + 1);
    }
  }

  lemma OccursLater(text: string, pattern: string)
    requires text != [] && !(|pattern| <= |text| && text[..|pattern|] == pattern)
    ensures OccursIn(pattern, text) ==> OccursIn(pattern, text[1..])
  {
    if OccursIn(pattern, text) {
      var i :| OccursAt(pattern, text, i);
      assert i != 0;
      assert text[1..][i - 1..i - 1 + |pattern|] == pattern;
      assert OccursAt(pattern, text[1..], i - 1);
    }
  }

  lemma {:induction false} ContainsIffOccurs(text: string, pattern: string)
    ensures Contains(text, pattern) <==> OccursIn(pattern, text)
    decreases |text|
  {
    if |pattern| <= |text| && text[..|pattern|] == pattern {
      assert OccursAt(pattern, text, 0);
    } else if text == [] {
    } else {
      ContainsIffOccurs(text[1..], pattern);
      OccursInTail(text, pattern);
      OccursLater(text, pattern);
    }
  }
}
