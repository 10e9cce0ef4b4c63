# Traveler Information Message builder

This project models `OssTravelerMessageBuilder`, the part of the ODE plugins that turns an
operator's traveler-input document into the message tree of an SAE J2735 Traveler Information
Message (TIM). The tree is then handed to the PER encoder. The builder has three layers:

- **Field validators.** About forty-five checks. Each one returns normally or throws
  `IllegalArgumentException` with a fixed message.
- **Derived values.**
  - The 16-bit heading slice packed from a bit string.
  - The start year.
  - The minute of the year.
  - The nine-byte packet id.
- **The tree builder.** It walks frames, regions, descriptions, areas, node lists and
  content, picks each choice by its tag text, and runs the checks in the order the code does.

The Dafny project is split the same way:

| file | module | what it holds |
|---|---|---|
| `wrappers.dfy` | `Wrappers` | `Option`, `Result` and the `Outcome` of a check that throws or returns |
| `java_lang.dfy` | `JavaLang` | Java semantics the builder relies on: `long` wrap-around, truncating division, `Integer.parseInt`/`Long.parseLong` on decimal strings, `String.contains` |
| `byte_buffers.dfy` | `ByteBuffers` | `ByteBuffer.putLong`/`putShort` as big-endian byte sequences |
| `validators.dfy` | `TimValidators` | every `validate*` check, each with the exact set of values it accepts and the message it throws |
| `tim_input.dfy` | `TimInput` | the input document (`J2735TravelerInputData`) |
| `tim_tree.dfy` | `TimTree` | the message tree, with every ASN.1 CHOICE as a datatype |
| `fail_fast.dfy` | `FailFast` | building a list where the first element that throws aborts the list |
| `derived_values.dfy` | `DerivedValues` | heading slice, start year, minute of the year, packet id |
| `tim_spec.dfy` | `TimSpec` | the whole build as functions: what each builder method returns or throws |
| `builder.dfy` | `TravelerMessageBuilder` | the class `OssTravelerMessageBuilder`, with its `travelerInfo` field and one loop per `for` loop of the source |
| `properties.dfy` | `TimProperties` | what the builder guarantees, proved over `TimSpec` |

**Exceptions.** A thrown exception is the `Err` of a `Result`. Its value is one of:
- `IllegalArgument(message)`;
- `NumberFormat(text)`, the failure of `Long.parseLong`;
- `StringIndexOutOfBounds(index)`, the failure of `charAt`.

**Methods and the specification.** Each method of the class is proved to return exactly what
its `TimSpec` function gives. The properties are lemmas about those functions.

**Quirks kept as written.** The model keeps the code's behaviour wherever it differs from what
the field names suggest:
- The heading slice drops character 0 and always clears bit 0.
- The start-year check is handed the constant `Calendar.YEAR` (1), so any year passes.
- Node lists are built without any check: no offset, attribute, speed or angle check is called.
- An unknown delta tag still sets a delta on the node, with no alternative chosen; the model writes that as `None`.
- The `node-LatLon` point, and every `node-LL1`..`node-LL6` point, stores the latitude in the
  longitude slot and the longitude in the latitude slot. J2735 defines these types with the
  longitude first, and the code passes the latitude first.
- The computed lane picks its y axis by the large *x* offset.
- Text items pass the code-or-text check and then throw at `Long.parseLong`. A decimal number
  too wide for an `int` passes as "text" and is stored.
- An `ll` path without nodes has no offset.
- The minute of the year is counted from the instant that the text `"01/01/" + year + " 12:00 AM"`
  parses to. It uses Java's truncating division, so an instant less than a minute before that
  reference instant counts as minute 0.
- `buildRegions` accepts an empty region list.
- `buildTravelerInformation` stores each field in the public static `travelerInfo` as soon as
  its check passes, before the later checks run. After a failed build, the field holds the
  message as far as it got.

## Model

All source paths are `jpo-ode-plugins/src/main/java/us/dot/its/jpo/ode/plugin/j2735/oss/OssTravelerMessageBuilder.java`, written in full in each row.

| member | source | states |
|---|---|---|
| JavaLang.WrapLong | jpo-ode-plugins/src/main/java/us/dot/its/jpo/ode/plugin/j2735/oss/OssTravelerMessageBuilder.java:617 | the `long` subtraction of two instants: the exact difference when it fits 64 bits, otherwise that difference modulo 2^64 |
| JavaLang.JavaDiv | jpo-ode-plugins/src/main/java/us/dot/its/jpo/ode/plugin/j2735/oss/OssTravelerMessageBuilder.java:617 | Java `/` by a positive divisor rounds toward zero: the remainder has the sign of the dividend and is smaller than the divisor |
| JavaLang.ParseInt | jpo-ode-plugins/src/main/java/us/dot/its/jpo/ode/plugin/j2735/oss/OssTravelerMessageBuilder.java:720 | `Integer.parseInt` succeeds with the decimal value of the text when that value fits 32 bits; a decimal outside 32 bits is refused |
| JavaLang.ParseLong | jpo-ode-plugins/src/main/java/us/dot/its/jpo/ode/plugin/j2735/oss/OssTravelerMessageBuilder.java:122 | `Long.parseLong` succeeds with the decimal value when it fits 64 bits; a decimal outside 64 bits is refused |
| JavaLang.ParseIntImpliesParseLong | jpo-ode-plugins/src/main/java/us/dot/its/jpo/ode/plugin/j2735/oss/OssTravelerMessageBuilder.java:720-722 | text that `Integer.parseInt` reads is read by `Long.parseLong` to the same value |
| JavaLang.ParseLongOfToDecimal | jpo-ode-plugins/src/main/java/us/dot/its/jpo/ode/plugin/j2735/oss/OssTravelerMessageBuilder.java:122 | round trip: `Long.parseLong` of a long's decimal string is that long |
| JavaLang.ParseIntOfToDecimal | jpo-ode-plugins/src/main/java/us/dot/its/jpo/ode/plugin/j2735/oss/OssTravelerMessageBuilder.java:720 | round trip: `Integer.parseInt` of an int's decimal string is that int |
| JavaLang.ContainsIffOccurs | jpo-ode-plugins/src/main/java/us/dot/its/jpo/ode/plugin/j2735/oss/OssTravelerMessageBuilder.java:894 | the character-by-character search of `String.contains` answers exactly whether the pattern occurs at some index of the text |
| ByteBuffers.BigEndianRoundTrip | jpo-ode-plugins/src/main/java/us/dot/its/jpo/ode/plugin/j2735/oss/OssTravelerMessageBuilder.java:35 | reading back n big-endian bytes of a value gives the value modulo 256^n |
| ByteBuffers.PutLongRoundTrip | jpo-ode-plugins/src/main/java/us/dot/its/jpo/ode/plugin/j2735/oss/OssTravelerMessageBuilder.java:35 | `putLong` writes 8 bytes that read back as the same signed long |
| ByteBuffers.PutShort | jpo-ode-plugins/src/main/java/us/dot/its/jpo/ode/plugin/j2735/oss/OssTravelerMessageBuilder.java:230 | `putShort` writes two bytes, high byte first, that read back as the 16-bit pattern |
| TimValidators.InRange | jpo-ode-plugins/src/main/java/us/dot/its/jpo/ode/plugin/j2735/oss/OssTravelerMessageBuilder.java:630-633 | the shape of every range check: passes exactly on the closed interval, otherwise throws the given message |
| TimValidators.ValidateMessageCount | jpo-ode-plugins/src/main/java/us/dot/its/jpo/ode/plugin/j2735/oss/OssTravelerMessageBuilder.java:630-633 | passes exactly for 0..127; otherwise "Invalid message count" |
| TimValidators.ValidateUrl | jpo-ode-plugins/src/main/java/us/dot/its/jpo/ode/plugin/j2735/oss/OssTravelerMessageBuilder.java:635-640 | passes exactly for lengths 1..45; an empty URL throws "Invalid empty url", a longer one "Invalid URL provided" |
| TimValidators.ValidateUrlShort | jpo-ode-plugins/src/main/java/us/dot/its/jpo/ode/plugin/j2735/oss/OssTravelerMessageBuilder.java:642-647 | passes exactly for lengths 1..15; empty gives "Invalid empty Short url", longer "Invalid URL provided" |
| TimValidators.ValidateFrameCount | jpo-ode-plugins/src/main/java/us/dot/its/jpo/ode/plugin/j2735/oss/OssTravelerMessageBuilder.java:649-652 | passes exactly for 1..8 frames |
| TimValidators.ValidateMessageId | jpo-ode-plugins/src/main/java/us/dot/its/jpo/ode/plugin/j2735/oss/OssTravelerMessageBuilder.java:654-658 | passes exactly for "RoadSignID" and "furtherInfoID"; the empty string fails the string check first, anything else gives "Invalid messageID" |
| TimValidators.ValidateStartYear | jpo-ode-plugins/src/main/java/us/dot/its/jpo/ode/plugin/j2735/oss/OssTravelerMessageBuilder.java:660-663 | passes exactly for 0..4095 |
| TimValidators.ValidateStartTime | jpo-ode-plugins/src/main/java/us/dot/its/jpo/ode/plugin/j2735/oss/OssTravelerMessageBuilder.java:665-668 | passes exactly for 0..527040, the minutes of a leap year |
| TimValidators.ValidateMinutesDuration | jpo-ode-plugins/src/main/java/us/dot/its/jpo/ode/plugin/j2735/oss/OssTravelerMessageBuilder.java:670-673 | passes exactly for 0..32000 |
| TimValidators.ValidateHeaderIndex | jpo-ode-plugins/src/main/java/us/dot/its/jpo/ode/plugin/j2735/oss/OssTravelerMessageBuilder.java:675-678 | an SSP index passes exactly for 0..31 |
| TimValidators.ValidateInfoType | jpo-ode-plugins/src/main/java/us/dot/its/jpo/ode/plugin/j2735/oss/OssTravelerMessageBuilder.java:680-683 | only negative frame types are rejected; there is no upper bound |
| TimValidators.ValidateLat | jpo-ode-plugins/src/main/java/us/dot/its/jpo/ode/plugin/j2735/oss/OssTravelerMessageBuilder.java:685-688 | passes exactly for -900000000..900000001 |
| TimValidators.ValidateLong | jpo-ode-plugins/src/main/java/us/dot/its/jpo/ode/plugin/j2735/oss/OssTravelerMessageBuilder.java:690-693 | passes exactly for -1799999999..1800000001; -1800000000 itself is rejected |
| TimValidators.ValidateElevation | jpo-ode-plugins/src/main/java/us/dot/its/jpo/ode/plugin/j2735/oss/OssTravelerMessageBuilder.java:695-698 | passes exactly for -4096..61439 |
| TimValidators.ValidateHeading | jpo-ode-plugins/src/main/java/us/dot/its/jpo/ode/plugin/j2735/oss/OssTravelerMessageBuilder.java:700-705 | passes exactly for strings of 16 characters, whatever the characters; empty gives "Invalid Empty String", otherwise "Invalid BitString" |
| TimValidators.ValidateMutcdCode | jpo-ode-plugins/src/main/java/us/dot/its/jpo/ode/plugin/j2735/oss/OssTravelerMessageBuilder.java:707-710 | passes exactly for 0..6 |
| TimValidators.ValidateSign | jpo-ode-plugins/src/main/java/us/dot/its/jpo/ode/plugin/j2735/oss/OssTravelerMessageBuilder.java:712-715 | a priority passes exactly for 0..7 |
| TimValidators.ValidateCodeOrText | jpo-ode-plugins/src/main/java/us/dot/its/jpo/ode/plugin/j2735/oss/OssTravelerMessageBuilder.java:717-743 | text that parses as an int passes exactly when it is in 0..65535; other text passes exactly when its length is 1..the limit; each case has its own message |
| TimValidators.ValidateItisCodes | jpo-ode-plugins/src/main/java/us/dot/its/jpo/ode/plugin/j2735/oss/OssTravelerMessageBuilder.java:717-729 | an int passes exactly for 0..65535; any other text passes exactly for lengths 1..500 |
| TimValidators.ValidateContentCodes | jpo-ode-plugins/src/main/java/us/dot/its/jpo/ode/plugin/j2735/oss/OssTravelerMessageBuilder.java:731-743 | an int passes exactly for 0..65535; any other text passes exactly for lengths 1..16 |
| TimValidators.ValidateString | jpo-ode-plugins/src/main/java/us/dot/its/jpo/ode/plugin/j2735/oss/OssTravelerMessageBuilder.java:745-748 | passes exactly for a non-empty string |
| TimValidators.ValidateGeoName | jpo-ode-plugins/src/main/java/us/dot/its/jpo/ode/plugin/j2735/oss/OssTravelerMessageBuilder.java:750-753 | passes exactly for lengths 1..63 |
| TimValidators.ValidateRoadId | jpo-ode-plugins/src/main/java/us/dot/its/jpo/ode/plugin/j2735/oss/OssTravelerMessageBuilder.java:755-758 | passes exactly for 0..65535 |
| TimValidators.ValidateLaneWidth | jpo-ode-plugins/src/main/java/us/dot/its/jpo/ode/plugin/j2735/oss/OssTravelerMessageBuilder.java:760-763 | passes exactly for 0..32767 |
| TimValidators.ValidateDirectionality | jpo-ode-plugins/src/main/java/us/dot/its/jpo/ode/plugin/j2735/oss/OssTravelerMessageBuilder.java:765-768 | passes exactly for 0..3 |
| TimValidators.ValidateZoom | jpo-ode-plugins/src/main/java/us/dot/its/jpo/ode/plugin/j2735/oss/OssTravelerMessageBuilder.java:770-773 | passes exactly for 0..15 |
| TimValidators.ValidateExtent | jpo-ode-plugins/src/main/java/us/dot/its/jpo/ode/plugin/j2735/oss/OssTravelerMessageBuilder.java:775-778 | passes exactly for 0..15 |
| TimValidators.ValidateRadius | jpo-ode-plugins/src/main/java/us/dot/its/jpo/ode/plugin/j2735/oss/OssTravelerMessageBuilder.java:780-783 | passes exactly for 0..4095 |
| TimValidators.ValidateUnits | jpo-ode-plugins/src/main/java/us/dot/its/jpo/ode/plugin/j2735/oss/OssTravelerMessageBuilder.java:785-788 | passes exactly for 0..7 |
| TimValidators.ValidateX16Offset | jpo-ode-plugins/src/main/java/us/dot/its/jpo/ode/plugin/j2735/oss/OssTravelerMessageBuilder.java:790-793 | passes exactly for a signed 16-bit value |
| TimValidators.ValidateY16Offset | jpo-ode-plugins/src/main/java/us/dot/its/jpo/ode/plugin/j2735/oss/OssTravelerMessageBuilder.java:795-798 | passes exactly for a signed 16-bit value |
| TimValidators.ValidateZ16Offset | jpo-ode-plugins/src/main/java/us/dot/its/jpo/ode/plugin/j2735/oss/OssTravelerMessageBuilder.java:800-803 | passes exactly for a signed 16-bit value |
| TimValidators.ValidateB10Offset | jpo-ode-plugins/src/main/java/us/dot/its/jpo/ode/plugin/j2735/oss/OssTravelerMessageBuilder.java:805-808 | passes exactly for -512..511 |
| TimValidators.ValidateB11Offset | jpo-ode-plugins/src/main/java/us/dot/its/jpo/ode/plugin/j2735/oss/OssTravelerMessageBuilder.java:810-813 | passes exactly for -1024..1023 |
| TimValidators.ValidateB12Offset | jpo-ode-plugins/src/main/java/us/dot/its/jpo/ode/plugin/j2735/oss/OssTravelerMessageBuilder.java:815-818 | passes exactly for -2048..2047 |
| TimValidators.ValidateB13Offset | jpo-ode-plugins/src/main/java/us/dot/its/jpo/ode/plugin/j2735/oss/OssTravelerMessageBuilder.java:820-823 | passes exactly for -4096..4095 |
| TimValidators.ValidateB14Offset | jpo-ode-plugins/src/main/java/us/dot/its/jpo/ode/plugin/j2735/oss/OssTravelerMessageBuilder.java:825-828 | passes exactly for -8192..8191 |
| TimValidators.ValidateB16Offset | jpo-ode-plugins/src/main/java/us/dot/its/jpo/ode/plugin/j2735/oss/OssTravelerMessageBuilder.java:830-833 | passes exactly for -32768..32767 |
| TimValidators.ValidateLl12Offset | jpo-ode-plugins/src/main/java/us/dot/its/jpo/ode/plugin/j2735/oss/OssTravelerMessageBuilder.java:835-838 | passes exactly for a signed 12-bit value; throws the B10 message the code reuses |
| TimValidators.ValidateLl14Offset | jpo-ode-plugins/src/main/java/us/dot/its/jpo/ode/plugin/j2735/oss/OssTravelerMessageBuilder.java:840-843 | passes exactly for a signed 14-bit value; throws the B11 message |
| TimValidators.ValidateLl16Offset | jpo-ode-plugins/src/main/java/us/dot/its/jpo/ode/plugin/j2735/oss/OssTravelerMessageBuilder.java:845-848 | passes exactly for a signed 16-bit value; throws the B12 message |
| TimValidators.ValidateLl18Offset | jpo-ode-plugins/src/main/java/us/dot/its/jpo/ode/plugin/j2735/oss/OssTravelerMessageBuilder.java:850-853 | passes exactly for a signed 18-bit value; throws the B13 message |
| TimValidators.ValidateLl22Offset | jpo-ode-plugins/src/main/java/us/dot/its/jpo/ode/plugin/j2735/oss/OssTravelerMessageBuilder.java:855-858 | passes exactly for a signed 22-bit value; throws the B14 message |
| TimValidators.ValidateLl24Offset | jpo-ode-plugins/src/main/java/us/dot/its/jpo/ode/plugin/j2735/oss/OssTravelerMessageBuilder.java:860-863 | passes exactly for -8388608..8388607; throws the B16 message |
| TimValidators.ValidateLaneId | jpo-ode-plugins/src/main/java/us/dot/its/jpo/ode/plugin/j2735/oss/OssTravelerMessageBuilder.java:865-868 | passes exactly for 0..255 |
| TimValidators.ValidateSmallDrivenLine | jpo-ode-plugins/src/main/java/us/dot/its/jpo/ode/plugin/j2735/oss/OssTravelerMessageBuilder.java:870-873 | passes exactly for -2047..2047 |
| TimValidators.ValidateLargeDrivenLine | jpo-ode-plugins/src/main/java/us/dot/its/jpo/ode/plugin/j2735/oss/OssTravelerMessageBuilder.java:875-878 | passes exactly for -32767..32767 |
| TimValidators.ValidateAngle | jpo-ode-plugins/src/main/java/us/dot/its/jpo/ode/plugin/j2735/oss/OssTravelerMessageBuilder.java:880-883 | passes exactly for 0..28800, a full turn in 0.0125-degree units |
| TimValidators.ValidateB12Scale | jpo-ode-plugins/src/main/java/us/dot/its/jpo/ode/plugin/j2735/oss/OssTravelerMessageBuilder.java:885-888 | passes exactly for -2048..2047 |
| TimValidators.ValidateInVocabulary | jpo-ode-plugins/src/main/java/us/dot/its/jpo/ode/plugin/j2735/oss/OssTravelerMessageBuilder.java:890-918 | passes exactly when the argument occurs somewhere in the space-joined vocabulary |
| TimValidators.ValidateNodeAttribute | jpo-ode-plugins/src/main/java/us/dot/its/jpo/ode/plugin/j2735/oss/OssTravelerMessageBuilder.java:890-898 | passes exactly for substrings of the node attribute vocabulary |
| TimValidators.ValidateSegmentAttribute | jpo-ode-plugins/src/main/java/us/dot/its/jpo/ode/plugin/j2735/oss/OssTravelerMessageBuilder.java:900-908 | passes exactly for substrings of the segment attribute vocabulary |
| TimValidators.ValidateSpeedLimitType | jpo-ode-plugins/src/main/java/us/dot/its/jpo/ode/plugin/j2735/oss/OssTravelerMessageBuilder.java:910-918 | passes exactly for substrings of the speed-limit type vocabulary |
| TimValidators.ValidateVelocity | jpo-ode-plugins/src/main/java/us/dot/its/jpo/ode/plugin/j2735/oss/OssTravelerMessageBuilder.java:920-923 | passes exactly for 0..8191 |
| TimValidators.ValidateDeltaAngle | jpo-ode-plugins/src/main/java/us/dot/its/jpo/ode/plugin/j2735/oss/OssTravelerMessageBuilder.java:925-928 | passes exactly for -150..150 |
| TimValidators.ValidateCrownPoint | jpo-ode-plugins/src/main/java/us/dot/its/jpo/ode/plugin/j2735/oss/OssTravelerMessageBuilder.java:930-933 | passes exactly for -128..127 |
| TimValidators.ValidateLaneAngle | jpo-ode-plugins/src/main/java/us/dot/its/jpo/ode/plugin/j2735/oss/OssTravelerMessageBuilder.java:935-938 | passes exactly for -180..180 |
| TimValidators.JoinWordsHasEachWord | jpo-ode-plugins/src/main/java/us/dot/its/jpo/ode/plugin/j2735/oss/OssTravelerMessageBuilder.java:891 | every word of a vocabulary occurs in its space-joined string |
| DerivedValues.Bit | jpo-ode-plugins/src/main/java/us/dot/its/jpo/ode/plugin/j2735/oss/OssTravelerMessageBuilder.java:225-227 | a heading character sets a bit exactly when it is '1'; any other character counts as 0 |
| DerivedValues.BinaryValue | jpo-ode-plugins/src/main/java/us/dot/its/jpo/ode/plugin/j2735/oss/OssTravelerMessageBuilder.java:224-229 | a bit string of length n reads as a number below 2^n |
| DerivedValues.HeadingPattern | jpo-ode-plugins/src/main/java/us/dot/its/jpo/ode/plugin/j2735/oss/OssTravelerMessageBuilder.java:223-229 | the accumulated `short` is a 16-bit pattern whose lowest bit is always clear |
| DerivedValues.HeadingSlice | jpo-ode-plugins/src/main/java/us/dot/its/jpo/ode/plugin/j2735/oss/OssTravelerMessageBuilder.java:219-232 | an empty heading gives the bytes 00 00; a heading of 16 or more characters gives the two big-endian bytes of its 16-bit pattern; the call throws exactly for headings of 1..15 characters, with the index equal to the length |
| DerivedValues.ValidHeadingHasSlice | jpo-ode-plugins/src/main/java/us/dot/its/jpo/ode/plugin/j2735/oss/OssTravelerMessageBuilder.java:252-253 | a heading that passed the heading check always packs, so the bound check before each slice rules out the index exception |
| DerivedValues.BitOrOne | jpo-ode-plugins/src/main/java/us/dot/its/jpo/ode/plugin/j2735/oss/OssTravelerMessageBuilder.java:226 | `result \|= 1` on a 16-bit pattern sets the low bit and leaves an odd pattern unchanged |
| DerivedValues.HeadingAccumulatorStep | jpo-ode-plugins/src/main/java/us/dot/its/jpo/ode/plugin/j2735/oss/OssTravelerMessageBuilder.java:225-228 | one loop turn (or-in the bit, shift left, truncate to 16 bits) turns the value of the first i characters into that of the first i+1 |
| DerivedValues.BinaryValueCons | jpo-ode-plugins/src/main/java/us/dot/its/jpo/ode/plugin/j2735/oss/OssTravelerMessageBuilder.java:224-229 | a leading character contributes its bit at weight 2^(length of the rest) |
| DerivedValues.HeadingAccumulatorDone | jpo-ode-plugins/src/main/java/us/dot/its/jpo/ode/plugin/j2735/oss/OssTravelerMessageBuilder.java:224-230 | after sixteen turns the accumulator is the pattern of characters 1..15: character 0 has been shifted out of the short |
| DerivedValues.BinaryValueBit | jpo-ode-plugins/src/main/java/us/dot/its/jpo/ode/plugin/j2735/oss/OssTravelerMessageBuilder.java:224-229 | character j of a bit string is the bit of weight 2^(n-1-j) of its value |
| DerivedValues.HeadingPatternBits | jpo-ode-plugins/src/main/java/us/dot/its/jpo/ode/plugin/j2735/oss/OssTravelerMessageBuilder.java:224-230 | bit 16-k of the pattern is character k for k in 1..15, and bit 0 is clear |
| DerivedValues.StartYear | jpo-ode-plugins/src/main/java/us/dot/its/jpo/ode/plugin/j2735/oss/OssTravelerMessageBuilder.java:622-628 | the year check is run on the field number `Calendar.YEAR`, which always passes, so the parsed year is always returned |
| DerivedValues.StartYearOutOfRangeAccepted | jpo-ode-plugins/src/main/java/us/dot/its/jpo/ode/plugin/j2735/oss/OssTravelerMessageBuilder.java:622-628 | a year outside 0..4095, which the year check rejects, is still returned as the start year |
| DerivedValues.StartTimeOf | jpo-ode-plugins/src/main/java/us/dot/its/jpo/ode/plugin/j2735/oss/OssTravelerMessageBuilder.java:613-620 | succeeds exactly when the truncated minute difference is in 0..527040, returning it; otherwise "Invalid start Time" |
| DerivedValues.StartTimeWholeMinutes | jpo-ode-plugins/src/main/java/us/dot/its/jpo/ode/plugin/j2735/oss/OssTravelerMessageBuilder.java:617-619 | a start m whole minutes plus under a minute after the reference instant is minute m |
| DerivedValues.StartTimeJustBeforeYear | jpo-ode-plugins/src/main/java/us/dot/its/jpo/ode/plugin/j2735/oss/OssTravelerMessageBuilder.java:617-619 | truncation toward zero: a start under a minute before the reference instant is accepted as minute 0 |
| DerivedValues.StartTimeBeforeYearRejected | jpo-ode-plugins/src/main/java/us/dot/its/jpo/ode/plugin/j2735/oss/OssTravelerMessageBuilder.java:617-619 | a start a minute or more before the reference instant is rejected |
| DerivedValues.PacketId | jpo-ode-plugins/src/main/java/us/dot/its/jpo/ode/plugin/j2735/oss/OssTravelerMessageBuilder.java:35-36 | nine bytes: a zero byte, then eight bytes that read back as the unique message id |
| FailFast.MapAll | jpo-ode-plugins/src/main/java/us/dot/its/jpo/ode/plugin/j2735/oss/OssTravelerMessageBuilder.java:118-125 | a list built by a `for` loop whose body may throw has one entry per input when it completes |
| FailFast.MapTotal | jpo-ode-plugins/src/main/java/us/dot/its/jpo/ode/plugin/j2735/oss/OssTravelerMessageBuilder.java:419-421 | a list built by a loop that cannot throw has entry i built from input i |
| FailFast.MapAllOk | jpo-ode-plugins/src/main/java/us/dot/its/jpo/ode/plugin/j2735/oss/OssTravelerMessageBuilder.java:118-125 | the loop returns a list exactly when every element builds, and returns the built elements in input order |
| FailFast.MapAllErr | jpo-ode-plugins/src/main/java/us/dot/its/jpo/ode/plugin/j2735/oss/OssTravelerMessageBuilder.java:118-125 | the loop throws e exactly when some element throws e and every element before it builds |
| FailFast.MapAllFailsAt | jpo-ode-plugins/src/main/java/us/dot/its/jpo/ode/plugin/j2735/oss/OssTravelerMessageBuilder.java:118-125 | once the prefix built and element i throws, the whole loop throws that exception |
| TimSpec.Position | jpo-ode-plugins/src/main/java/us/dot/its/jpo/ode/plugin/j2735/oss/OssTravelerMessageBuilder.java:211-217 | a position is built exactly when latitude, longitude and elevation all pass, and it holds those three values |
| TimProperties.PositionFailsAtFirstCheck | jpo-ode-plugins/src/main/java/us/dot/its/jpo/ode/plugin/j2735/oss/OssTravelerMessageBuilder.java:211-217 | a position that throws throws the exception of its first failing check: latitude, then longitude, then elevation |
| TravelerMessageBuilder.OssTravelerMessageBuilder.constructor | jpo-ode-plugins/src/main/java/us/dot/its/jpo/ode/plugin/j2735/oss/OssTravelerMessageBuilder.java:26 | the shared message field starts empty |
| TravelerMessageBuilder.OssTravelerMessageBuilder.BuildTravelerInformation | jpo-ode-plugins/src/main/java/us/dot/its/jpo/ode/plugin/j2735/oss/OssTravelerMessageBuilder.java:29-43 | overwrites the field with the message as far as the checks let it get, and returns or throws what `TimSpec.Build` says; `StoredAfterFailure` gives the stored fields and the exception of each failing check |
| TravelerMessageBuilder.OssTravelerMessageBuilder.BuildDataFrames | jpo-ode-plugins/src/main/java/us/dot/its/jpo/ode/plugin/j2735/oss/OssTravelerMessageBuilder.java:45-87 | the frame loop checks the count, then builds the frames in order and stops at the first that throws; `FramesInOrder` and `FramesFailAtFirstBadFrame` give the count's precedence and which frame's exception is thrown |
| TravelerMessageBuilder.OssTravelerMessageBuilder.BuildDataFrame | jpo-ode-plugins/src/main/java/us/dot/its/jpo/ode/plugin/j2735/oss/OssTravelerMessageBuilder.java:51-83 | one frame equal to `DataFrameOf`: `FrameFields` gives every field of a built frame, including Rights1 from the message types and Rights2 from the message content, and `FrameChecksInOrder` gives the exception of the first failing check in the source's order |
| TravelerMessageBuilder.OssTravelerMessageBuilder.BuildContent | jpo-ode-plugins/src/main/java/us/dot/its/jpo/ode/plugin/j2735/oss/OssTravelerMessageBuilder.java:98-114 | the content alternative chosen by the content text, holding the items of its codes |
| TravelerMessageBuilder.OssTravelerMessageBuilder.BuildItems | jpo-ode-plugins/src/main/java/us/dot/its/jpo/ode/plugin/j2735/oss/OssTravelerMessageBuilder.java:116-179 | the item loop checks and parses each code in order and stops at the first that throws; `ItemChecksInOrder` gives the check before the parse |
| TravelerMessageBuilder.OssTravelerMessageBuilder.GetMessageId | jpo-ode-plugins/src/main/java/us/dot/its/jpo/ode/plugin/j2735/oss/OssTravelerMessageBuilder.java:181-209 | the message id alternative, with the road-sign checks in the source's order, as `MessageIdChecksInOrder` states |
| TravelerMessageBuilder.OssTravelerMessageBuilder.GetHeadingSlice | jpo-ode-plugins/src/main/java/us/dot/its/jpo/ode/plugin/j2735/oss/OssTravelerMessageBuilder.java:219-232 | the sixteen-turn or-and-shift loop on a 16-bit accumulator gives exactly the heading slice, including the index exception for a short heading |
| TravelerMessageBuilder.OssTravelerMessageBuilder.BuildRegions | jpo-ode-plugins/src/main/java/us/dot/its/jpo/ode/plugin/j2735/oss/OssTravelerMessageBuilder.java:234-332 | the region loop builds each region in order and stops at the first that throws |
| TravelerMessageBuilder.OssTravelerMessageBuilder.BuildRegion | jpo-ode-plugins/src/main/java/us/dot/its/jpo/ode/plugin/j2735/oss/OssTravelerMessageBuilder.java:237-330 | one geographical path equal to `RegionOf`: `RegionFields` gives every field of a built path, and `RegionChecksInOrder` gives the exception of the first failing check |
| TravelerMessageBuilder.OssTravelerMessageBuilder.BuildDescription | jpo-ode-plugins/src/main/java/us/dot/its/jpo/ode/plugin/j2735/oss/OssTravelerMessageBuilder.java:254-328 | the description and legacy area chosen by their texts; `PathChecksOnlyZoom`, `GeometryDescriptionBuilt`, `OldRegionDescriptionBuilt`, `ShapePointSetBuilt`, `RegionPointSetBuilt` and `CircleAreaBuilt` give each branch's checks, value and first failing check |
| TravelerMessageBuilder.OssTravelerMessageBuilder.BuildRegionOffsets | jpo-ode-plugins/src/main/java/us/dot/its/jpo/ode/plugin/j2735/oss/OssTravelerMessageBuilder.java:334-347 | the offset loop checks x, y, z of each entry in order and stops at the first that throws; `RegionOffsetChecksInOrder` gives the order within an entry |
| TravelerMessageBuilder.OssTravelerMessageBuilder.BuildCircle | jpo-ode-plugins/src/main/java/us/dot/its/jpo/ode/plugin/j2735/oss/OssTravelerMessageBuilder.java:349-367 | a circle of either kind equal to `CircleOf`, which `CircleBuilt` characterises: built exactly when the centre, radius and units pass, holding them, and otherwise throwing the first failing check's exception |
| TimProperties.CircleBuilt | jpo-ode-plugins/src/main/java/us/dot/its/jpo/ode/plugin/j2735/oss/OssTravelerMessageBuilder.java:349-367 | a circle is built exactly when its centre, radius and units pass, then holds the centre position, radius and units; otherwise it throws the first failing check's exception in that order |
| TravelerMessageBuilder.OssTravelerMessageBuilder.BuildNodeXYList | jpo-ode-plugins/src/main/java/us/dot/its/jpo/ode/plugin/j2735/oss/OssTravelerMessageBuilder.java:369-478 | the XY node loop, one node per point in order, with the delta its tag selects and no checks |
| TravelerMessageBuilder.OssTravelerMessageBuilder.BuildNodeLLList | jpo-ode-plugins/src/main/java/us/dot/its/jpo/ode/plugin/j2735/oss/OssTravelerMessageBuilder.java:506-611 | the LL node loop, one node per point in order, with the delta its tag selects and no checks |
| TravelerMessageBuilder.OssTravelerMessageBuilder.BuildAttributes | jpo-ode-plugins/src/main/java/us/dot/its/jpo/ode/plugin/j2735/oss/OssTravelerMessageBuilder.java:414-472 | the attribute set: each inner list only when non-empty, plus the width and elevation deltas |
| TravelerMessageBuilder.OssTravelerMessageBuilder.BuildLocalNodeList | jpo-ode-plugins/src/main/java/us/dot/its/jpo/ode/plugin/j2735/oss/OssTravelerMessageBuilder.java:417-423 | one local-node attribute per input, in order |
| TravelerMessageBuilder.OssTravelerMessageBuilder.BuildSegmentList | jpo-ode-plugins/src/main/java/us/dot/its/jpo/ode/plugin/j2735/oss/OssTravelerMessageBuilder.java:425-439 | one segment attribute per input, in order |
| TravelerMessageBuilder.OssTravelerMessageBuilder.BuildLaneDataList | jpo-ode-plugins/src/main/java/us/dot/its/jpo/ode/plugin/j2735/oss/OssTravelerMessageBuilder.java:441-464 | one lane data record per input, in order |
| TravelerMessageBuilder.OssTravelerMessageBuilder.BuildSpeedLimitList | jpo-ode-plugins/src/main/java/us/dot/its/jpo/ode/plugin/j2735/oss/OssTravelerMessageBuilder.java:453-459 | one speed limit per input, in order |
| TravelerMessageBuilder.OssTravelerMessageBuilder.BuildComputedLane | jpo-ode-plugins/src/main/java/us/dot/its/jpo/ode/plugin/j2735/oss/OssTravelerMessageBuilder.java:480-504 | the computed lane with both axes chosen by the large x offset |
| TimProperties.BinaryValueAllOnes | jpo-ode-plugins/src/main/java/us/dot/its/jpo/ode/plugin/j2735/oss/OssTravelerMessageBuilder.java:224-229 | a string of n ones reads as 2^n - 1 |
| TimProperties.HeadingSliceAllOnes | jpo-ode-plugins/src/main/java/us/dot/its/jpo/ode/plugin/j2735/oss/OssTravelerMessageBuilder.java:219-232 | sixteen '1's pack to the bytes FF FE |
| TimProperties.HeadingSliceReadsCharactersOneToFifteen | jpo-ode-plugins/src/main/java/us/dot/its/jpo/ode/plugin/j2735/oss/OssTravelerMessageBuilder.java:219-232 | two headings that agree on characters 1..15 pack alike: character 0 and any character past 15 never matter |
| TimProperties.HeadingSliceBits | jpo-ode-plugins/src/main/java/us/dot/its/jpo/ode/plugin/j2735/oss/OssTravelerMessageBuilder.java:219-232 | the two bytes, read big-endian, hold character k at bit 16-k for k in 1..15 and a clear bit 0 |
| TimProperties.ItemAccepted | jpo-ode-plugins/src/main/java/us/dot/its/jpo/ode/plugin/j2735/oss/OssTravelerMessageBuilder.java:116-179 | an item builds exactly when `Long.parseLong` reads it and the code-or-text check passes; the item is the parsed number |
| TimProperties.ItemChecksInOrder | jpo-ode-plugins/src/main/java/us/dot/its/jpo/ode/plugin/j2735/oss/OssTravelerMessageBuilder.java:116-179 | an item builds exactly when neither the kind's code-or-text check nor `Long.parseLong` throws; otherwise the check's exception comes first, and the parse's `NumberFormatException` only for a code the check lets through |
| TimProperties.EmptyItemRejected | jpo-ode-plugins/src/main/java/us/dot/its/jpo/ode/plugin/j2735/oss/OssTravelerMessageBuilder.java:723-725 | the empty code throws "Invalid empty string" from the check, before `Long.parseLong` is reached |
| TimProperties.TextItemsFail | jpo-ode-plugins/src/main/java/us/dot/its/jpo/ode/plugin/j2735/oss/OssTravelerMessageBuilder.java:120-122 | a non-numeric phrase always throws; a phrase that passes the text check throws at the number parse |
| TimProperties.WideNumberStoredAsItem | jpo-ode-plugins/src/main/java/us/dot/its/jpo/ode/plugin/j2735/oss/OssTravelerMessageBuilder.java:720-727 | a decimal of 2^31 or more short enough to pass as text is stored with its value, above the 0..65535 range |
| TimProperties.ItisCodeStoredAsItem | jpo-ode-plugins/src/main/java/us/dot/its/jpo/ode/plugin/j2735/oss/OssTravelerMessageBuilder.java:118-125 | every code 0..65535 in decimal becomes the item with that value |
| TimProperties.ContentKindByText | jpo-ode-plugins/src/main/java/us/dot/its/jpo/ode/plugin/j2735/oss/OssTravelerMessageBuilder.java:102-112 | each of the four content texts selects its own alternative, and the generic sign is chosen exactly for every other text |
| TimProperties.ContentItemsInOrder | jpo-ode-plugins/src/main/java/us/dot/its/jpo/ode/plugin/j2735/oss/OssTravelerMessageBuilder.java:98-179 | content builds exactly when every code does; it then holds one parsed item per code, in order, under the chosen alternative |
| TimProperties.ContentFailsAtFirstBadCode | jpo-ode-plugins/src/main/java/us/dot/its/jpo/ode/plugin/j2735/oss/OssTravelerMessageBuilder.java:116-179 | content throws exactly the exception of its first failing code |
| TimProperties.RoadSignIdBuilt | jpo-ode-plugins/src/main/java/us/dot/its/jpo/ode/plugin/j2735/oss/OssTravelerMessageBuilder.java:185-198 | a road-sign id builds exactly when longitude, latitude, elevation, a 16-character view angle and a MUTCD code 0..6 pass; it holds the position, the packed view angle and the code |
| TimProperties.RoadSignLongitudeFirst | jpo-ode-plugins/src/main/java/us/dot/its/jpo/ode/plugin/j2735/oss/OssTravelerMessageBuilder.java:188-189 | a bad longitude is reported before the latitude |
| TimProperties.MessageIdChecksInOrder | jpo-ode-plugins/src/main/java/us/dot/its/jpo/ode/plugin/j2735/oss/OssTravelerMessageBuilder.java:181-209 | a message id builds exactly when no check throws; otherwise the first failing check's exception, in the order id text, longitude, latitude, elevation, view angle, MUTCD code |
| TimProperties.FurtherInfoIdBuilt | jpo-ode-plugins/src/main/java/us/dot/its/jpo/ode/plugin/j2735/oss/OssTravelerMessageBuilder.java:199-201 | "furtherInfoID" always gives the further-info id 00 00, whatever else the frame holds |
| TimProperties.OtherMessageIdRejected | jpo-ode-plugins/src/main/java/us/dot/its/jpo/ode/plugin/j2735/oss/OssTravelerMessageBuilder.java:183 | any other message id text throws: the empty one as an empty string, others as an invalid message id |
| TimProperties.DeltaXYByTag | jpo-ode-plugins/src/main/java/us/dot/its/jpo/ode/plugin/j2735/oss/OssTravelerMessageBuilder.java:378-413 | an XY node has a delta exactly for the six XY tags and the lat/lon tag; the XY forms hold x and y |
| TimProperties.DeltaLLByTag | jpo-ode-plugins/src/main/java/us/dot/its/jpo/ode/plugin/j2735/oss/OssTravelerMessageBuilder.java:515-548 | an LL node has a delta exactly for the six LL tags and the lat/lon tag; every form holds the node's latitude in its longitude slot and its longitude in its latitude slot |
| TimProperties.LatLonSlotsSwapped | jpo-ode-plugins/src/main/java/us/dot/its/jpo/ode/plugin/j2735/oss/OssTravelerMessageBuilder.java:408-411 | both lists put the node's latitude in the longitude slot and its longitude in the latitude slot |
| TimProperties.PathChecksOnlyZoom | jpo-ode-plugins/src/main/java/us/dot/its/jpo/ode/plugin/j2735/oss/OssTravelerMessageBuilder.java:255-275 | a path description fails exactly when its zoom does, with the zoom check's message; nothing in its nodes is checked; a built one holds the zoom and the offset its type selects |
| TimProperties.GeometryDescriptionBuilt | jpo-ode-plugins/src/main/java/us/dot/its/jpo/ode/plugin/j2735/oss/OssTravelerMessageBuilder.java:276-287 | a geometry description is built exactly when direction, extent, lane width and circle pass, and holds the packed direction, extent, lane width and circle; otherwise the first failing check's exception |
| TimProperties.OldRegionDescriptionBuilt | jpo-ode-plugins/src/main/java/us/dot/its/jpo/ode/plugin/j2735/oss/OssTravelerMessageBuilder.java:288-328 | any other description text gives an old region, built exactly when direction, extent and area pass, holding the packed direction, extent and area; otherwise the first failing check's exception |
| TimProperties.PathOffsetByType | jpo-ode-plugins/src/main/java/us/dot/its/jpo/ode/plugin/j2735/oss/OssTravelerMessageBuilder.java:259-273 | "xy" gives the node list or, without nodes, the computed lane; "ll" gives the LL list; the offset is missing exactly for an empty "ll" path or an unknown type |
| TimProperties.NodeListKeepsOrder | jpo-ode-plugins/src/main/java/us/dot/its/jpo/ode/plugin/j2735/oss/OssTravelerMessageBuilder.java:372-476 | node i of either list is built from input point i, and the lists have the input's length |
| TimProperties.AttributeListsPresentWhenNonEmpty | jpo-ode-plugins/src/main/java/us/dot/its/jpo/ode/plugin/j2735/oss/OssTravelerMessageBuilder.java:414-472 | each inner attribute list is set exactly when its input is non-empty; the local-node, disabled and enabled lists then hold the input types in order, each lane data record keeps its input fields and speed limits, and the width and elevation deltas are copied |
| TimProperties.LaneDataOfKeeps | jpo-ode-plugins/src/main/java/us/dot/its/jpo/ode/plugin/j2735/oss/OssTravelerMessageBuilder.java:443-460 | a lane data record holds its input's end-point angle, the three crown points and the lane angle, and speed limit j is input limit j with its type and velocity |
| TimProperties.ComputedLaneAxesFollowLargeX | jpo-ode-plugins/src/main/java/us/dot/its/jpo/ode/plugin/j2735/oss/OssTravelerMessageBuilder.java:486-497 | both axes are large exactly when the large x offset is positive; the large y offset alone selects nothing |
| TimProperties.RegionFields | jpo-ode-plugins/src/main/java/us/dot/its/jpo/ode/plugin/j2735/oss/OssTravelerMessageBuilder.java:237-253 | a built region holds its name, regulator id, segment id, anchor, lane width, directionality, closed flag and packed direction, each equal to its input and in range, and the description `DescriptionOf` builds |
| TimProperties.RegionChecksInOrder | jpo-ode-plugins/src/main/java/us/dot/its/jpo/ode/plugin/j2735/oss/OssTravelerMessageBuilder.java:237-330 | a region is built exactly when none of its checks throws; otherwise it throws the first failing one: name, regulator id, segment id, anchor, lane width, directionality, direction, description |
| TimProperties.AreaByText | jpo-ode-plugins/src/main/java/us/dot/its/jpo/ode/plugin/j2735/oss/OssTravelerMessageBuilder.java:294-325 | "shapePointSet" and "regionPointSet" select their areas, and the circle is chosen exactly for every other text |
| TimProperties.ShapePointSetBuilt | jpo-ode-plugins/src/main/java/us/dot/its/jpo/ode/plugin/j2735/oss/OssTravelerMessageBuilder.java:295-311 | a shape point set is built exactly when anchor, lane width and directionality pass, and holds them with its node list; otherwise the first failing check's exception |
| TimProperties.RegionPointSetBuilt | jpo-ode-plugins/src/main/java/us/dot/its/jpo/ode/plugin/j2735/oss/OssTravelerMessageBuilder.java:312-321 | a region point set is built exactly when anchor, zoom and every offset pass, and holds the anchor, zoom and offsets in order; otherwise the first failing check's exception |
| TimProperties.CircleAreaBuilt | jpo-ode-plugins/src/main/java/us/dot/its/jpo/ode/plugin/j2735/oss/OssTravelerMessageBuilder.java:322-325 | any other area text gives the circle: built exactly when the circle is, holding it, with the circle's exception otherwise |
| TimProperties.RegionOffsetsChecked | jpo-ode-plugins/src/main/java/us/dot/its/jpo/ode/plugin/j2735/oss/OssTravelerMessageBuilder.java:334-347 | the offsets build exactly when every x, y and z is a signed 16-bit value, and keep their count and order |
| TimProperties.RegionOffsetChecksInOrder | jpo-ode-plugins/src/main/java/us/dot/its/jpo/ode/plugin/j2735/oss/OssTravelerMessageBuilder.java:336-344 | one entry's offsets are kept exactly when x, y and z pass; otherwise the first failing coordinate's exception, in the order x, y, z |
| TimProperties.RegionsInOrder | jpo-ode-plugins/src/main/java/us/dot/its/jpo/ode/plugin/j2735/oss/OssTravelerMessageBuilder.java:234-332 | one path per region, in order, exactly when every region builds; an empty region list is accepted |
| TimProperties.FrameHeaderCheckedFirst | jpo-ode-plugins/src/main/java/us/dot/its/jpo/ode/plugin/j2735/oss/OssTravelerMessageBuilder.java:54 | a frame with a bad TIM rights index throws the header message before anything else |
| TimProperties.FrameFields | jpo-ode-plugins/src/main/java/us/dot/its/jpo/ode/plugin/j2735/oss/OssTravelerMessageBuilder.java:51-83 | a built frame holds the four SSP indices, each equal to its input (Rights1 from the message types, Rights2 from the message content) and 5-bit, the frame type, message id, year, minute, duration, priority, one path per region equal to `RegionOf` of that region, the content `ContentOf` builds with item i parsed from code i, and the short URL |
| TimProperties.FrameChecksInOrder | jpo-ode-plugins/src/main/java/us/dot/its/jpo/ode/plugin/j2735/oss/OssTravelerMessageBuilder.java:51-83 | a frame is built exactly when none of its checks throws; otherwise it throws the first failing one in the source's order: TIM rights, info type, message id, start year, start time, duration, priority, location rights, regions, message types, message content, content, URL |
| TimProperties.StartYearUnchecked | jpo-ode-plugins/src/main/java/us/dot/its/jpo/ode/plugin/j2735/oss/OssTravelerMessageBuilder.java:622-628 | changing only the year of a frame that builds gives the same frame with that year, whatever its value |
| TimProperties.FramesInOrder | jpo-ode-plugins/src/main/java/us/dot/its/jpo/ode/plugin/j2735/oss/OssTravelerMessageBuilder.java:45-87 | a count outside 1..8 throws "Invalid number of dataFrames" whatever the frames hold; within it the result is the frame list; frames build exactly when there are 1..8 and every one builds, and frame i of the output is input frame i |
| TimProperties.FramesFailAtFirstBadFrame | jpo-ode-plugins/src/main/java/us/dot/its/jpo/ode/plugin/j2735/oss/OssTravelerMessageBuilder.java:50-86 | with a count in range, the frames throw exactly the exception of the first frame that throws |
| TimProperties.BuildSucceedsIff | jpo-ode-plugins/src/main/java/us/dot/its/jpo/ode/plugin/j2735/oss/OssTravelerMessageBuilder.java:29-43 | a build returns exactly when the message count, the URL and every frame pass |
| TimProperties.BuiltMessage | jpo-ode-plugins/src/main/java/us/dot/its/jpo/ode/plugin/j2735/oss/OssTravelerMessageBuilder.java:29-43 | the returned message is the stored one and holds the count, the nine-byte packet id of the unique id, the URL and the frames `DataFramesOf` builds, frame i built from input frame i |
| TimProperties.StoredAfterFailure | jpo-ode-plugins/src/main/java/us/dot/its/jpo/ode/plugin/j2735/oss/OssTravelerMessageBuilder.java:32-39 | after a throw the stored message holds every field set before the failing check and none after; frames are never stored; the exception is the count's, then the URL's ("Invalid empty url" or "Invalid URL provided"), then the frames' |
| TimProperties.VocabularyAcceptsFragments | jpo-ode-plugins/src/main/java/us/dot/its/jpo/ode/plugin/j2735/oss/OssTravelerMessageBuilder.java:890-918 | a vocabulary check accepts every word and every piece of a word, the empty string included |
| TimProperties.AttributeWordsAccepted | jpo-ode-plugins/src/main/java/us/dot/its/jpo/ode/plugin/j2735/oss/OssTravelerMessageBuilder.java:890-918 | each of the three checks accepts every word of its own vocabulary and the empty string |

## Left out

- Null fields. Every `NullPointerException` the code can throw on a missing field or array is left out, including the `null` branch of the heading slice. Each input field is always present.
- Date parsing. `SimpleDateFormat`, `Calendar` and the default time zone are left out. A frame's start time is given as its year, the instant its text parses to, and the instant that the text `"01/01/" + year + " 12:00 AM"` parses to under `"MM/dd/yyyy HH:mm a"`, all in milliseconds.
- Encoding. `getHexTravelerInformation`, the PER `Coder` and `CodecUtils.toHex` are left out: they are an external encoder.
- Position packing. `OssPosition3D.position3D` is not part of this model. A built position holds the three checked values.
- Enum conversions. `TravelerInfoType.valueOf` and `MUTCDCode.valueOf` are not part of this model. The frame keeps the checked frame type and the MUTCD code as integers.
- Integer widths of input fields. The Java `short`/`int` widths of the input fields are not enforced: the input fields are unbounded integers. The `long` difference of the two instants is wrapped explicitly.
- UTF-16 code units. Strings are sequences of Unicode characters, so every length and index counts characters. Java's `String.length()` and `charAt` count UTF-16 code units. The two agree only on text inside the Basic Multilingual Plane. This affects the URL, short URL, name and heading lengths, the 500- and 16-character text limits, and the index at which the heading slice's `charAt` throws.
- Unicode digits. `Integer.parseInt` and `Long.parseLong` are modelled on ASCII digits with an optional sign. The other Unicode decimal digits they also accept are left out.
- Constructor argument order. The generated classes `Node_LL_24B` to `Node_LL_48B` are not part of this model. Their two-argument constructors are taken to follow the J2735 field order, longitude then latitude, as the model's `NodeLL1`..`NodeLL6` do. `Node_LLmD_64b` takes a `Longitude` and then a `Latitude`, so its order is certain.
- Merged node types. The generated `NodeOffsetPointXY`/`NodeOffsetPointLL` classes share one `NodeOffsetPoint` datatype, and so do the XY and LL attribute sets. The two node lists still construct different alternatives.
- Attribute guard. A node's attribute set is always built. `point.attributes.equals("")` compares an object with a string and is never true.
- Object existence. The code relies on the `offsetXaxis`/`offsetYaxis` holder objects of a computed lane, which belong to generated code that is not part of this model. The model always has them.
- Static field. The public static `travelerInfo` is modelled as a field of one builder object, so sharing it between builders is not modelled.
- Unused validators. The B10–B16 and LL12–LL24 offsets, lane id, driven line, angle, scale, velocity, delta angle, crown point, lane angle and the three vocabulary checks are modelled on their own. The builder never calls them, and neither does the model.
