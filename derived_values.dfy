/**
 * The values the builder computes rather than copies: the 16-bit heading slice read from a
 * bit string, the start year and minute of the year, and the nine-byte packet identifier.
 */
module DerivedValues {
  import opened Wrappers
  import opened JavaLang
  import opened ByteBuffers
  import opened TimValidators
  import In = TimInput

  const SHORT_PATTERNS: int := 0x1_0000
  const MILLIS_PER_MINUTE: int := 60_000

  // ---------------------------------------------------------------------------------------
  // Heading slice

  /** The bit a heading character sets: only '1' counts, every other character reads as 0. */
  function Bit(c: char): (b: int)
    ensures b == 0 || b == 1
    ensures b == 1 <==> c == '1'
  {
    if c == '1' then 1 else 0
  }

  /** The characters of s read as a binary number, most significant first. */
  function BinaryValue(s: string): (v: nat)
    ensures v < Pow2(|s|)
  {
    if s == [] then 0
    else
      Pow2Succ(|s| - 1);
      2 * BinaryValue(s[..|s| - 1]) + Bit(s[|s| - 1])
  }

  /**
   * The 16-bit pattern of the heading slice for a heading of at least 16 characters:
   * characters 1 to 15 as binary digits, shifted left once. Character 0 and everything
   * after character 15 play no part, and the lowest bit is always clear.
   */
  function HeadingPattern(heading: string): (p: int)
    requires |heading| >= 16
    ensures 0 <= p < SHORT_PATTERNS && p % 2 == 0
  {
    assert Pow2(15) == 0x8000;
    2 * BinaryValue(heading[1..16])
  }

  /**
   * getHeadingSlice: two zero bytes for an empty heading; a heading shorter than 16
   * characters fails at the first missing index; otherwise the two big-endian bytes of
   * HeadingPattern.
   */
  function HeadingSlice(heading: string): (r: Result<seq<byte>, Exception>)
    ensures r.Ok? ==> |r.value| == 2
    ensures |heading| == 0 ==> r == Ok([0, 0])
    ensures |heading| >= 16 ==> r == Ok(PutShort(HeadingPattern(heading)))
    ensures r.Err? <==> 0 < |heading| < 16
    ensures r.Err? ==> r.error == StringIndexOutOfBounds(|heading|)
  {
    if |heading| == 0 then Ok([0, 0])
    else if |heading| < 16 then Err(StringIndexOutOfBounds(|heading|))
    else Ok(PutShort(HeadingPattern(heading)))
  }

  /** A heading that passes ValidateHeading always has a slice. */
  lemma ValidHeadingHasSlice(heading: string)
    requires ValidateHeading(heading).Pass?
    ensures HeadingSlice(heading) == Ok(PutShort(HeadingPattern(heading)))
  {
  }

  /** Java `x | 1` on the bit pattern of a short. */
  function BitOrOne(x: int): (r: int)
    requires 0 <= x < SHORT_PATTERNS
    ensures 0 <= r < SHORT_PATTERNS && r % 2 == 1
    ensures x % 2 == 1 ==> r == x
    ensures x % 2 == 0 ==> r == x + 1
  {
    if x % 2 == 0 then x + 1 else x
  }

  /** The accumulator of the heading loop after reading the first i characters. */
  ghost function HeadingAccumulator(heading: string, i: nat): int
    requires i <= |heading|
  {
    (2 * BinaryValue(heading[..i])) % SHORT_PATTERNS
  }

  lemma ModAddMultiple(a: int, q: int, m: int)
    requires m > 0
    ensures (a + q * m) % m == a % m
  {
    DivModUnique(a + q * m, m, a / m + q, a % m);
  }

  /** One turn of the heading loop: set the low bit for a '1', then shift and truncate to 16 bits. */
  lemma {:induction false} HeadingAccumulatorStep(heading: string, i: nat)
    requires i < |heading|
    ensures HeadingAccumulator(heading, i) % 2 == 0
    ensures (2 * (HeadingAccumulator(heading, i) + Bit(heading[i]))) % SHORT_PATTERNS
      == HeadingAccumulator(heading, i + 1)
  {
    var x := 2 * BinaryValue(heading[..i]);
    var m := SHORT_PATTERNS;
    DivModUnique(x, m, x / m, x % m);
    assert x == (x / m) * m + x % m;
    assert (x % m) % 2 == 0 by {
      assert x % m == x - (x / m) * m;
      assert (x / m) * m == 2 * ((x / m) * 0x8000);
    }
    assert heading[..i + 1][..i] == heading[..i];
    var b := Bit(heading[i]);
    assert BinaryValue(heading[..i + 1]) == 2 * BinaryValue(heading[..i]) + b;
    calc {
      (2 * (x % m + b)) % m;
      { ModAddMultiple(2 * (x % m + b), 2 * (x / m), m); }
      (2 * (x % m + b) + 2 * (x / m) * m) % m;
      { assert 2 * (x % m + b) + 2 * (x / m) * m == 2 * (x + b); }
      (2 * (x + b)) % m;
    }
  }

  /** Prepending a character adds its bit at the top. */
  lemma {:induction false} BinaryValueCons(c: char, t: string)
    ensures BinaryValue([c] + t) == Bit(c) * Pow2(|t|) + BinaryValue(t)
    decreases |t|
  {
    if t != [] {
      var s := [c] + t;
      var n := |t| - 1;
      var b, p := Bit(c), Pow2(n);
      assert s[..|s| - 1] == [c] + t[..n];
      assert s[|s| - 1] == t[n];
      BinaryValueCons(c, t[..n]);
      Pow2Succ(n);
      assert b * Pow2(|t|) == 2 * (b * p) by {
        if b == 0 { } else { assert b == 1; }
      }
      assert BinaryValue(s) == 2 * BinaryValue([c] + t[..n]) + Bit(t[n]);
      assert BinaryValue(t) == 2 * BinaryValue(t[..n]) + Bit(t[n]);
    }
  }

  /** After sixteen turns the shift has pushed character 0 out of the 16-bit accumulator. */
  lemma HeadingAccumulatorDone(heading: string)
    requires |heading| >= 16
    ensures HeadingAccumulator(heading, 16) == HeadingPattern(heading)
  {
    var u := heading[1..16];
    assert heading[..16] == [heading[0]] + u;
    BinaryValueCons(heading[0], u);
    assert Pow2(15) == 0x8000;
    var p := 2 * BinaryValue(u);
    assert 2 * BinaryValue(heading[..16]) == Bit(heading[0]) * SHORT_PATTERNS + p;
    DivModUnique(2 * BinaryValue(heading[..16]), SHORT_PATTERNS, Bit(heading[0]), p);
  }

  lemma HalveDiv(x: int, b: int, m: int)
    requires x >= 0 && m >= 1 && (b == 0 || b == 1)
    ensures (2 * x + b) / (2 * m) == x / m
    ensures (2 * x + b) % 2 == b
  {
    DivModUnique(x, m, x / m, x % m);
    DivModUnique(2 * x + b, 2 * m, x / m, 2 * (x % m) + b);
    DivModUnique(2 * x + b, 2, x, b);
  }

  /** Digit j of a binary string is the bit of weight 2^(|s|-1-j) of its value. */
  lemma {:induction false} BinaryValueBit(s: string, j: nat)
    requires j < |s|
    ensures (BinaryValue(s) / Pow2(|s| - 1 - j)) % 2 == Bit(s[j])
    decreases |s|
  {
    var n := |s| - 1;
    var t := s[..n];
    HalveDiv(BinaryValue(t), Bit(s[n]), 1);
    if j < n {
      assert t[j] == s[j];
      BinaryValueBit(t, j);
      var k := n - 1 - j;
      Pow2Succ(k);
      HalveDiv(BinaryValue(t), Bit(s[n]), Pow2(k));
    }
  }

  /**
   * The heading slice's pattern bit by bit: bit 16-k holds character k for k in 1..15, and
   * bit 0 is clear.
   */
  lemma HeadingPatternBits(heading: string)
    requires |heading| >= 16
    ensures HeadingPattern(heading) % 2 == 0
    ensures forall k | 1 <= k < 16 :: (HeadingPattern(heading) / Pow2(16 - k)) % 2 == Bit(heading[k])
  {
    var u := heading[1..16];
    forall k | 1 <= k < 16
      ensures (HeadingPattern(heading) / Pow2(16 - k)) % 2 == Bit(heading[k])
    {
      BinaryValueBit(u, k - 1);
      assert u[k - 1] == heading[k];
      Pow2Succ(15 - k);
      HalveDiv(BinaryValue(u), 0, Pow2(15 - k));
    }
  }

  // ---------------------------------------------------------------------------------------
  // Start year and start time

  /** The value of java.util.Calendar.YEAR, the field number the year check is handed. */
  const CALENDAR_YEAR_FIELD: int := 1

  /**
   * getStartYear: the year check is applied to the field number Calendar.YEAR instead of the
   * year, so it never fails, and the parsed year is returned unchecked.
   */
  function StartYear(t: In.StartTime): (r: Result<int, Exception>)
    ensures r == Ok(t.year)
  {
    var year := t.year;
    match ValidateStartYear(CALENDAR_YEAR_FIELD)
    case Fail(e) => Err(e)
    case Pass => Ok(year)
  }

  /** Even a year the year check rejects is returned: the check never sees it. */
  lemma StartYearOutOfRangeAccepted(t: In.StartTime)
    requires ValidateStartYear(t.year).Fail?
    ensures StartYear(t) == Ok(t.year)
    ensures t.year < 0 || t.year > 4095
  {
  }

  /** The minute of the year as getStartTime computes it, before its range check. */
  function StartMinute(t: In.StartTime): int {
    JavaDiv(WrapLong(t.startMillis - t.yearStartMillis), MILLIS_PER_MINUTE)
  }

  /**
   * getStartTime: the long difference of the two instants, divided by 60000 with Java's
   * truncating division, accepted when it is a minute of a leap year.
   */
  function StartTimeOf(t: In.StartTime): (r: Result<int, Exception>)
    ensures r.Ok? <==> 0 <= StartMinute(t) <= MINUTES_IN_LEAP_YEAR
    ensures r.Ok? ==> r.value == StartMinute(t)
    ensures r.Err? ==> r.error == IllegalArgument("Invalid start Time")
  {
    var minutes := StartMinute(t);
    :- ValidateStartTime(minutes);
    Ok(minutes)
  }

  /** A start m whole minutes and some seconds after the reference instant gives minute m. */
  lemma StartTimeWholeMinutes(t: In.StartTime, m: int, rest: int)
    requires 0 <= m <= MINUTES_IN_LEAP_YEAR && 0 <= rest < MILLIS_PER_MINUTE
    requires t.startMillis - t.yearStartMillis == m * MILLIS_PER_MINUTE + rest
    ensures StartTimeOf(t) == Ok(m)
  {
    var d := t.startMillis - t.yearStartMillis;
    assert WrapLong(d) == d;
    DivModUnique(d, MILLIS_PER_MINUTE, m, rest);
  }

  /**
   * Truncation toward zero: a start less than a minute before the reference instant is minute 0
   * and is accepted.
   */
  lemma StartTimeJustBeforeYear(t: In.StartTime)
    requires -MILLIS_PER_MINUTE < t.startMillis - t.yearStartMillis < 0
    ensures StartTimeOf(t) == Ok(0)
  {
    var d := t.startMillis - t.yearStartMillis;
    assert WrapLong(d) == d;
    DivModUnique(-d, MILLIS_PER_MINUTE, 0, -d);
  }

  /** A start a whole minute or more before the reference instant, with no long overflow, is rejected. */
  lemma StartTimeBeforeYearRejected(t: In.StartTime)
    requires -TWO_63 <= t.startMillis - t.yearStartMillis <= -MILLIS_PER_MINUTE
    ensures StartTimeOf(t) == Err(IllegalArgument("Invalid start Time"))
  {
    var d := t.startMillis - t.yearStartMillis;
    assert WrapLong(d) == d;
    var q := (-d) / MILLIS_PER_MINUTE;
    DivModUnique(-d, MILLIS_PER_MINUTE, q, (-d) % MILLIS_PER_MINUTE);
    assert q >= 1;
  }

  // ---------------------------------------------------------------------------------------
  // Packet identifier

  /** The nine bytes of the packet id: a zero byte, then the message id as a big-endian long. */
  function PacketId(uniqueMsgId: Int64): (r: seq<byte>)
    ensures |r| == 9 && r[0] == 0
    ensures GetLong(r[1..]) == uniqueMsgId
  {
    PutLongRoundTrip(uniqueMsgId);
    var bs := [0] + PutLong(uniqueMsgId);
    assert bs[1..] == PutLong(uniqueMsgId);
    bs
  }
}
