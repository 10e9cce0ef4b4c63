/**
 * The builder's field validators. Each returns normally (Pass) or throws
 * IllegalArgumentException with a fixed message (Fail). The ranges are those of the
 * SAE J2735 fields they guard; each contract states the exact set of accepted values,
 * as a bit width where the bounds are those of a signed or unsigned field and as the
 * literal bounds otherwise.
 */
module TimValidators {
  import opened Wrappers
  import opened JavaLang

  type Check = Outcome<Exception>

  /** r passes, or fails with exactly IllegalArgumentException(message). */
  predicate PassesOr(r: Check, message: string) {
    r == Pass || r == Fail(IllegalArgument(message))
  }

  /** The shape every range validator has: throw unless lo <= v <= hi. */
  function InRange(v: int, lo: int, hi: int, message: string): (r: Check)
    ensures r.Pass? <==> lo <= v <= hi
    ensures PassesOr(r, message)
  {
    if v < lo || v > hi then Fail(IllegalArgument(message)) else Pass
  }

  /** Latitude and longitude are in units of 1/10 micro degree. */
  const DEGREE: int := 10_000_000
  /** The minutes of a leap year, the largest minute-of-the-year value. */
  const MINUTES_IN_LEAP_YEAR: int := 366 * 24 * 60
  /** Angle is in units of 0.0125 degrees. */
  const ANGLE_UNITS_PER_TURN: int := 360 * 80

  // ---------------------------------------------------------------- counts and header

  function ValidateMessageCount(msg: int): (r: Check)
    ensures r.Pass? <==> FitsUnsigned(msg, 7)
    ensures PassesOr(r, "Invalid message count")
  {
    InRange(msg, 0, 127, "Invalid message count")
  }

  function ValidateFrameCount(count: int): (r: Check)
    ensures r.Pass? <==> 1 <= count <= 8
    ensures PassesOr(r, "Invalid number of dataFrames")
  {
    InRange(count, 1, 8, "Invalid number of dataFrames")
  }

  function ValidateHeaderIndex(count: int): (r: Check)
    ensures r.Pass? <==> FitsUnsigned(count, 5)
    ensures PassesOr(r, "Invalid header sspIndex")
  {
    InRange(count, 0, 31, "Invalid header sspIndex")
  }

  /** Only a lower bound: every non-negative frame type passes. */
  function ValidateInfoType(num: int): (r: Check)
    ensures r.Pass? <==> num >= 0
    ensures PassesOr(r, "Invalid enumeration")
  {
    if num < 0 then Fail(IllegalArgument("Invalid enumeration")) else Pass
  }

  function ValidateStartYear(year: int): (r: Check)
    ensures r.Pass? <==> FitsUnsigned(year, 12)
    ensures PassesOr(r, "Not a valid start year")
  {
    InRange(year, 0, 4095, "Not a valid start year")
  }

  /** A minute of the year: at most the number of minutes in a leap year. */
  function ValidateStartTime(time: int): (r: Check)
    ensures r.Pass? <==> 0 <= time <= MINUTES_IN_LEAP_YEAR
    ensures PassesOr(r, "Invalid start Time")
  {
    InRange(time, 0, 527040, "Invalid start Time")
  }

  function ValidateMinutesDuration(dur: int): (r: Check)
    ensures r.Pass? <==> 0 <= dur <= 32000
    ensures PassesOr(r, "Invalid Duration")
  {
    InRange(dur, 0, 32000, "Invalid Duration")
  }

  function ValidateSign(sign: int): (r: Check)
    ensures r.Pass? <==> FitsUnsigned(sign, 3)
    ensures PassesOr(r, "Invalid Sign Priority")
  {
    InRange(sign, 0, 7, "Invalid Sign Priority")
  }

  function ValidateMutcdCode(mutc: int): (r: Check)
    ensures r.Pass? <==> 0 <= mutc <= 6
    ensures PassesOr(r, "Invalid Enumeration")
  {
    InRange(mutc, 0, 6, "Invalid Enumeration")
  }

  // ---------------------------------------------------------------- strings

  function ValidateString(str: string): (r: Check)
    ensures r.Pass? <==> str != []
    ensures PassesOr(r, "Invalid Empty String")
  {
    if |str| == 0 then Fail(IllegalArgument("Invalid Empty String")) else Pass
  }

  /** A URL of 1 to 45 characters; the empty one has its own message. */
  function ValidateUrl(url: string): (r: Check)
    ensures r.Pass? <==> 1 <= |url| <= 45
    ensures |url| == 0 ==> r == Fail(IllegalArgument("Invalid empty url"))
    ensures |url| > 45 ==> r == Fail(IllegalArgument("Invalid URL provided"))
  {
    if |url| == 0 then Fail(IllegalArgument("Invalid empty url"))
    else if |url| < 1 || |url| > 45 then Fail(IllegalArgument("Invalid URL provided"))
    else Pass
  }

  /** A short URL of 1 to 15 characters; the empty one has its own message. */
  function ValidateUrlShort(url: string): (r: Check)
    ensures r.Pass? <==> 1 <= |url| <= 15
    ensures |url| == 0 ==> r == Fail(IllegalArgument("Invalid empty Short url"))
    ensures |url| > 15 ==> r == Fail(IllegalArgument("Invalid URL provided"))
  {
    if |url| == 0 then Fail(IllegalArgument("Invalid empty Short url"))
    else if |url| < 1 || |url| > 15 then Fail(IllegalArgument("Invalid URL provided"))
    else Pass
  }

  /** Exactly the two message-identifier tags pass. */
  function ValidateMessageId(str: string): (r: Check)
    ensures r.Pass? <==> str == "RoadSignID" || str == "furtherInfoID"
    ensures str == [] ==> r == Fail(IllegalArgument("Invalid Empty String"))
    ensures str != [] ==> PassesOr(r, "Invalid messageID")
  {
    if ValidateString(str).Fail? then ValidateString(str)
    else if str != "RoadSignID" && str != "furtherInfoID" then Fail(IllegalArgument("Invalid messageID"))
    else Pass
  }

  /** A heading bit-string has exactly 16 characters; the empty one has its own message. */
  function ValidateHeading(head: string): (r: Check)
    ensures r.Pass? <==> |head| == 16
    ensures head == [] ==> r == Fail(IllegalArgument("Invalid Empty String"))
    ensures head != [] ==> PassesOr(r, "Invalid BitString")
  {
    if ValidateString(head).Fail? then ValidateString(head)
    else if |head| != 16 then Fail(IllegalArgument("Invalid BitString")) else Pass
  }

  function ValidateGeoName(name: string): (r: Check)
    ensures r.Pass? <==> 1 <= |name| <= 63
    ensures PassesOr(r, "Invalid Descriptive name")
  {
    InRange(|name|, 1, 63, "Invalid Descriptive name")
  }

  /**
   * The check shared by ITIS codes and content codes: a string Integer.parseInt accepts
   * must be in 0..65535; any other string must have 1..maxText characters.
   */
  function ValidateCodeOrText(code: string, maxText: nat): (r: Check)
    ensures ParseInt(code).Some? ==> (r.Pass? <==> FitsUnsigned(ParseInt(code).value, 16))
    ensures ParseInt(code).None? ==> (r.Pass? <==> 1 <= |code| <= maxText)
    ensures ParseInt(code).Some? ==> PassesOr(r, "Invalid ITIS code")
    ensures ParseInt(code).None? && code == [] ==> r == Fail(IllegalArgument("Invalid empty string"))
    ensures ParseInt(code).None? && code != [] ==> PassesOr(r, "Invalid test Phrase")
  {
    match ParseInt(code)
    case Some(cd) => InRange(cd, 0, 65535, "Invalid ITIS code")
    case None =>
      if |code| == 0 then Fail(IllegalArgument("Invalid empty string"))
      else InRange(|code|, 1, maxText, "Invalid test Phrase")
  }

  /** An ITIS code, or a free-text phrase of at most 500 characters. */
  function ValidateItisCodes(code: string): (r: Check)
    ensures ParseInt(code).Some? ==> (r.Pass? <==> 0 <= ParseInt(code).value <= 65535)
    ensures ParseInt(code).None? ==> (r.Pass? <==> 1 <= |code| <= 500)
  {
    ValidateCodeOrText(code, 500)
  }

  /** A content code, or a free-text phrase of at most 16 characters. */
  function ValidateContentCodes(code: string): (r: Check)
    ensures ParseInt(code).Some? ==> (r.Pass? <==> 0 <= ParseInt(code).value <= 65535)
    ensures ParseInt(code).None? ==> (r.Pass? <==> 1 <= |code| <= 16)
  {
    ValidateCodeOrText(code, 16)
  }

  // ---------------------------------------------------------------- position

  /** Latitude in 1/10 micro degree: -90 to +90 degrees, plus the "unavailable" value. */
  function ValidateLat(lat: int): (r: Check)
    ensures r.Pass? <==> -90 * DEGREE <= lat <= 90 * DEGREE + 1
    ensures PassesOr(r, "Invalid Latitude")
  {
    InRange(lat, -900000000, 900000001, "Invalid Latitude")
  }

  /** Longitude in 1/10 micro degree: just above -180 to +180 degrees, plus "unavailable". */
  function ValidateLong(lonng: int): (r: Check)
    ensures r.Pass? <==> -180 * DEGREE < lonng <= 180 * DEGREE + 1
    ensures PassesOr(r, "Invalid Longitude")
  {
    InRange(lonng, -1799999999, 1800000001, "Invalid Longitude")
  }

  /** Elevation in decimetres: 16 bits offset by -4096 (-409.6 m to 6143.9 m). */
  function ValidateElevation(elev: int): (r: Check)
    ensures r.Pass? <==> FitsUnsigned(elev + 4096, 16)
    ensures PassesOr(r, "Invalid Elevation")
  {
    InRange(elev, -4096, 61439, "Invalid Elevation")
  }

  // ---------------------------------------------------------------- regions

  function ValidateRoadId(id: int): (r: Check)
    ensures r.Pass? <==> FitsUnsigned(id, 16)
    ensures PassesOr(r, "Invalid RoadID")
  {
    InRange(id, 0, 65535, "Invalid RoadID")
  }

  function ValidateLaneWidth(width: int): (r: Check)
    ensures r.Pass? <==> FitsUnsigned(width, 15)
    ensures PassesOr(r, "Invalid lane width")
  {
    InRange(width, 0, 32767, "Invalid lane width")
  }

  function ValidateDirectionality(dir: int): (r: Check)
    ensures r.Pass? <==> FitsUnsigned(dir, 2)
    ensures PassesOr(r, "Invalid enumeration")
  {
    InRange(dir, 0, 3, "Invalid enumeration")
  }

  function ValidateZoom(z: int): (r: Check)
    ensures r.Pass? <==> FitsUnsigned(z, 4)
    ensures PassesOr(r, "Invalid zoom")
  {
    InRange(z, 0, 15, "Invalid zoom")
  }

  function ValidateExtent(ex: int): (r: Check)
    ensures r.Pass? <==> FitsUnsigned(ex, 4)
    ensures PassesOr(r, "Invalid extent enumeration")
  {
    InRange(ex, 0, 15, "Invalid extent enumeration")
  }

  function ValidateRadius(rad: int): (r: Check)
    ensures r.Pass? <==> FitsUnsigned(rad, 12)
    ensures PassesOr(r, "Invalid radius")
  {
    InRange(rad, 0, 4095, "Invalid radius")
  }

  function ValidateUnits(unit: int): (r: Check)
    ensures r.Pass? <==> FitsUnsigned(unit, 3)
    ensures PassesOr(r, "Invalid units enumeration")
  {
    InRange(unit, 0, 7, "Invalid units enumeration")
  }

  function ValidateX16Offset(x: int): (r: Check)
    ensures r.Pass? <==> FitsSigned(x, 16)
    ensures PassesOr(r, "Invalid x offset")
  {
    InRange(x, -32768, 32767, "Invalid x offset")
  }

  function ValidateY16Offset(y: int): (r: Check)
    ensures r.Pass? <==> FitsSigned(y, 16)
    ensures PassesOr(r, "Invalid y offset")
  {
    InRange(y, -32768, 32767, "Invalid y offset")
  }

  function ValidateZ16Offset(z: int): (r: Check)
    ensures r.Pass? <==> FitsSigned(z, 16)
    ensures PassesOr(r, "Invalid z offset")
  {
    InRange(z, -32768, 32767, "Invalid z offset")
  }

  // ---------------------------------------------------------------- node offsets

  function ValidateB10Offset(b: int): (r: Check)
    ensures r.Pass? <==> FitsSigned(b, 10)
    ensures PassesOr(r, "Invalid B10_Offset")
  {
    InRange(b, -512, 511, "Invalid B10_Offset")
  }

  function ValidateB11Offset(b: int): (r: Check)
    ensures r.Pass? <==> FitsSigned(b, 11)
    ensures PassesOr(r, "Invalid B11_Offset")
  {
    InRange(b, -1024, 1023, "Invalid B11_Offset")
  }

  function ValidateB12Offset(b: int): (r: Check)
    ensures r.Pass? <==> FitsSigned(b, 12)
    ensures PassesOr(r, "Invalid B12_Offset")
  {
    InRange(b, -2048, 2047, "Invalid B12_Offset")
  }

  function ValidateB13Offset(b: int): (r: Check)
    ensures r.Pass? <==> FitsSigned(b, 13)
    ensures PassesOr(r, "Invalid B13_Offset")
  {
    InRange(b, -4096, 4095, "Invalid B13_Offset")
  }

  function ValidateB14Offset(b: int): (r: Check)
    ensures r.Pass? <==> FitsSigned(b, 14)
    ensures PassesOr(r, "Invalid B14_Offset")
  {
    InRange(b, -8192, 8191, "Invalid B14_Offset")
  }

  function ValidateB16Offset(b: int): (r: Check)
    ensures r.Pass? <==> FitsSigned(b, 16)
    ensures PassesOr(r, "Invalid B16_Offset")
  {
    InRange(b, -32768, 32767, "Invalid B16_Offset")
  }

  // The geographic offset validators reuse the Cartesian ones' messages, as written.

  function ValidateLl12Offset(b: int): (r: Check)
    ensures r.Pass? <==> FitsSigned(b, 12)
    ensures PassesOr(r, "Invalid B10_Offset")
  {
    InRange(b, -2048, 2047, "Invalid B10_Offset")
  }

  function ValidateLl14Offset(b: int): (r: Check)
    ensures r.Pass? <==> FitsSigned(b, 14)
    ensures PassesOr(r, "Invalid B11_Offset")
  {
    InRange(b, -8192, 8191, "Invalid B11_Offset")
  }

  function ValidateLl16Offset(b: int): (r: Check)
    ensures r.Pass? <==> FitsSigned(b, 16)
    ensures PassesOr(r, "Invalid B12_Offset")
  {
    InRange(b, -32768, 32767, "Invalid B12_Offset")
  }

  function ValidateLl18Offset(b: int): (r: Check)
    ensures r.Pass? <==> FitsSigned(b, 18)
    ensures PassesOr(r, "Invalid B13_Offset")
  {
    InRange(b, -131072, 131071, "Invalid B13_Offset")
  }

  function ValidateLl22Offset(b: int): (r: Check)
    ensures r.Pass? <==> FitsSigned(b, 22)
    ensures PassesOr(r, "Invalid B14_Offset")
  {
    InRange(b, -2097152, 2097151, "Invalid B14_Offset")
  }

  function ValidateLl24Offset(b: int): (r: Check)
    ensures r.Pass? <==> FitsSigned(b, 24)
    ensures PassesOr(r, "Invalid B16_Offset")
  {
    InRange(b, -8388608, 8388607, "Invalid B16_Offset")
  }

  // ---------------------------------------------------------------- computed lanes

  function ValidateLaneId(lane: int): (r: Check)
    ensures r.Pass? <==> FitsUnsigned(lane, 8)
    ensures PassesOr(r, "Invalid LaneID")
  {
    InRange(lane, 0, 255, "Invalid LaneID")
  }

  /** A 12-bit signed offset without its most negative value. */
  function ValidateSmallDrivenLine(line: int): (r: Check)
    ensures r.Pass? <==> FitsSigned(line, 12) && line != -2048
    ensures PassesOr(r, "Invalid Small Offset")
  {
    InRange(line, -2047, 2047, "Invalid Small Offset")
  }

  /** A 16-bit signed offset without its most negative value. */
  function ValidateLargeDrivenLine(line: int): (r: Check)
    ensures r.Pass? <==> FitsSigned(line, 16) && line != -32768
    ensures PassesOr(r, "Invalid Large Offset")
  {
    InRange(line, -32767, 32767, "Invalid Large Offset")
  }

  /** A rotation of at most one full turn in 0.0125-degree units. */
  function ValidateAngle(ang: int): (r: Check)
    ensures r.Pass? <==> 0 <= ang <= ANGLE_UNITS_PER_TURN
    ensures PassesOr(r, "Invalid Angle")
  {
    InRange(ang, 0, 28800, "Invalid Angle")
  }

  function ValidateB12Scale(b: int): (r: Check)
    ensures r.Pass? <==> FitsSigned(b, 12)
    ensures PassesOr(r, "Invalid B12 Scale")
  {
    InRange(b, -2048, 2047, "Invalid B12 Scale")
  }

  // ---------------------------------------------------------------- lane data

  function ValidateVelocity(vel: int): (r: Check)
    ensures r.Pass? <==> FitsUnsigned(vel, 13)
    ensures PassesOr(r, "Invalid Velocity")
  {
    InRange(vel, 0, 8191, "Invalid Velocity")
  }

  function ValidateDeltaAngle(d: int): (r: Check)
    ensures r.Pass? <==> -150 <= d <= 150
    ensures PassesOr(r, "Invalid Delta Angle")
  {
    InRange(d, -150, 150, "Invalid Delta Angle")
  }

  function ValidateCrownPoint(c: int): (r: Check)
    ensures r.Pass? <==> FitsSigned(c, 8)
    ensures PassesOr(r, "Invalid Crown Point")
  {
    InRange(c, -128, 127, "Invalid Crown Point")
  }

  /** A merge/diverge angle of at most half a turn either way, in degrees. */
  function ValidateLaneAngle(a: int): (r: Check)
    ensures r.Pass? <==> -180 <= a <= 180
    ensures PassesOr(r, "Invalid LaneAngle")
  {
    InRange(a, -180, 180, "Invalid LaneAngle")
  }

  // ---------------------------------------------------------------- vocabularies

  /** The words joined by single spaces. */
  function JoinWords(words: seq<string>): string {
    if |words| == 0 then ""
    else if |words| == 1 then words[0]
    else words[0] + " " + JoinWords(words[1..])
  }

  lemma {:induction false} JoinWordsHasEachWord(words: seq<string>, k: nat)
    requires k < |words|
    ensures OccursIn(words[k], JoinWords(words))
  {
    var joined := JoinWords(words);
    if k == 0 {
      assert joined[0..0 + |words[0]|] == words[0];
      assert OccursAt(words[0], joined, 0);
    } else {
      JoinWordsHasEachWord(words[1..], k - 1);
      var rest := JoinWords(words[1..]);
      assert joined == words[0] + " " + rest;
      var i :| OccursAt(words[k], rest, i);
      var off := |words[0]| + 1;
      assert joined[off + i..off + i + |words[k]|] == rest[i..i + |words[k]|];
      assert OccursAt(words[k], joined, off + i);
    }
  }

  const NODE_ATTRIBUTE_WORDS: seq<string> := [
    "reserved", "stopLine", "roundedCapStyleA", "roundedCapStyleB", "mergePoint",
    "divergePoint", "downstreamStopLine", "donwstreamStartNode", "closedToTraffic",
    "safeIsland", "curbPresentAtStepOff", "hydrantPresent"]

  const SEGMENT_ATTRIBUTE_WORDS: seq<string> := [
    "reserved", "doNotBlock", "whiteLine", "mergingLaneLeft", "mergingLaneRight",
    "curbOnLeft", "curbOnRight", "loadingzoneOnLeft", "loadingzoneOnRight",
    "turnOutPointOnLeft", "turnOutPointOnRight", "adjacentParkingOnLeft",
    "adjacentParkingOnRight", "sharedBikeLane", "bikeBoxInFront", "transitStopOnLeft",
    "transitStopOnRight", "transitStopInLane", "sharedWithTrackedVehicle", "safeIsland",
    "lowCurbsPresent", "rumbleStripPresent", "audibleSignalingPresent",
    "adaptiveTimingPresent", "rfSignalRequestPresent", "partialCurbIntrusion",
    "taperToLeft", "taperToRight", "taperToCenterLine", "parallelParking",
    "headInParking", "freeParking", "timeRestrictionsOnParking", "costToPark",
    "midBlockCurbPresent", "unEvenPavementPresent"]

  const SPEED_LIMIT_TYPE_WORDS: seq<string> := [
    "unknown", "maxSpeedInSchoolZone", "maxSpeedInSchoolZoneWhenChildrenArePresent",
    "maxSpeedInConstructionZone", "vehicleMinSpeed", "vehicleMaxSpeed",
    "vehicleNightMaxSpeed", "truckMinSpeed", "truckMaxSpeed", "truckNightMaxSpeed",
    "vehiclesWithTrailerMinSpeed", "vehiclesWithTrailersMaxSpeed",
    "vehiclesWithTrailersNightMaxSpeed"]

  /** A membership test by String.contains on the space-separated vocabulary. */
  function ValidateInVocabulary(words: seq<string>, str: string, message: string): (r: Check)
    ensures r.Pass? <==> OccursIn(str, JoinWords(words))
    ensures PassesOr(r, message)
  {
    ContainsIffOccurs(JoinWords(words), str);
    if Contains(JoinWords(words), str) then Pass else Fail(IllegalArgument(message))
  }

  function ValidateNodeAttribute(str: string): (r: Check)
    ensures r.Pass? <==> OccursIn(str, JoinWords(NODE_ATTRIBUTE_WORDS))
    ensures PassesOr(r, "Invalid NodeAttribute Enumeration")
  {
    ValidateInVocabulary(NODE_ATTRIBUTE_WORDS, str, "Invalid NodeAttribute Enumeration")
  }

  function ValidateSegmentAttribute(str: string): (r: Check)
    ensures r.Pass? <==> OccursIn(str, JoinWords(SEGMENT_ATTRIBUTE_WORDS))
    ensures PassesOr(r, "Invalid SegmentAttribute Enumeration")
  {
    ValidateInVocabulary(SEGMENT_ATTRIBUTE_WORDS, str, "Invalid SegmentAttribute Enumeration")
  }

  function ValidateSpeedLimitType(str: string): (r: Check)
    ensures r.Pass? <==> OccursIn(str, JoinWords(SPEED_LIMIT_TYPE_WORDS))
    ensures PassesOr(r, "Invalid SpeedLimitAttribute Enumeration")
  {
    ValidateInVocabulary(SPEED_LIMIT_TYPE_WORDS, str, "Invalid SpeedLimitAttribute Enumeration")
  }
}
