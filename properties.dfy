/**
 * What the builder guarantees about the message it produces, stated over the TimSpec
 * functions that the builder's methods are proved to compute.
 */
module TimProperties {
  import opened Wrappers
  import opened JavaLang
  import opened ByteBuffers
  import opened TimValidators
  import opened DerivedValues
  import opened FailFast
  import In = TimInput
  import opened TimTree
  import opened TimSpec

  // ---------------------------------------------------------------------------------------
  // Heading slice

  /** A string of ones reads as the largest number of its length. */
  lemma {:induction false} BinaryValueAllOnes(s: string)
    requires forall i | 0 <= i < |s| :: s[i] == '1'
    ensures BinaryValue(s) == Pow2(|s|) - 1
  {
    if s != [] {
      var n := |s| - 1;
      assert forall i | 0 <= i < n :: s[..n][i] == s[i];
      BinaryValueAllOnes(s[..n]);
      Pow2Succ(n);
    }
  }

  /** Sixteen ones give every bit but the lowest: the bytes 0xFF, 0xFE. */
  lemma HeadingSliceAllOnes(heading: string)
    requires |heading| == 16 && forall i | 0 <= i < 16 :: heading[i] == '1'
    ensures HeadingSlice(heading) == Ok([0xFF, 0xFE])
  {
    var u := heading[1..16];
    BinaryValueAllOnes(u);
    assert Pow2(15) == 0x8000;
  }

  /** The slice ignores the first character and everything after the sixteenth. */
  lemma HeadingSliceReadsCharactersOneToFifteen(h1: string, h2: string)
    requires |h1| >= 16 && |h2| >= 16 && h1[1..16] == h2[1..16]
    ensures HeadingSlice(h1) == HeadingSlice(h2)
  {
  }

  /**
   * The two bytes of a slice, read as a big-endian number, hold character k in bit 16-k
   * for k in 1..15 and a clear lowest bit.
   */
  lemma HeadingSliceBits(heading: string)
    requires |heading| >= 16
    ensures HeadingSlice(heading).Ok?
    ensures var bs := HeadingSlice(heading).value;
      var v := bs[0] as int * 256 + bs[1] as int;
      v % 2 == 0 && bs[1] % 2 == 0 &&
      forall k | 1 <= k < 16 :: (v / Pow2(16 - k)) % 2 == Bit(heading[k])
  {
    HeadingPatternBits(heading);
  }

  // ---------------------------------------------------------------------------------------
  // Content items

  /** The text length the item check allows for the kind: 500 for advisories, 16 otherwise. */
  function MaxText(kind: ContentKind): nat {
    if kind == Advisory then 500 else 16
  }

  /**
   * An item is accepted exactly when Long.parseLong reads the code and the check lets it
   * through: a code that fits an int must be in 0..65535, any other (a wider number) only
   * needs to be short enough to pass as text. The item is the parsed number.
   */
  lemma ItemAccepted(kind: ContentKind, code: string)
    ensures ItemFor(kind)(code).Ok? <==>
      ParseLong(code).Some? &&
      (ParseInt(code).Some? ==> 0 <= ParseInt(code).value <= 65535) &&
      (ParseInt(code).None? ==> |code| <= MaxText(kind))
    ensures ItemFor(kind)(code).Ok? ==> ParseLong(code) == Some(ItemFor(kind)(code).value as Int64)
  {
    if ParseInt(code).Some? {
      ParseIntImpliesParseLong(code);
    }
  }

  /** Text phrases pass the check but always throw at Long.parseLong. */
  lemma TextItemsFail(kind: ContentKind, code: string)
    requires ParseDecimal(code).None?
    ensures ItemFor(kind)(code).Err?
    ensures 1 <= |code| <= MaxText(kind) ==> ItemFor(kind)(code) == Err(NumberFormat(code))
  {
    assert ParseInt(code).None?;
  }

  /** A decimal number too wide for an int passes as a short text and is stored as an ITIS item. */
  lemma WideNumberStoredAsItem(kind: ContentKind, n: Int64)
    requires n >= 0x8000_0000 && |ToDecimal(n)| <= MaxText(kind)
    ensures ItemFor(kind)(ToDecimal(n)) == Ok(n)
  {
    ParseDecimalOfToDecimal(n);
    ParseLongOfToDecimal(n);
  }

  /** Every ITIS code 0..65535, written in decimal, becomes the item with that value. */
  lemma ItisCodeStoredAsItem(kind: ContentKind, n: int)
    requires 0 <= n <= 65535
    ensures ItemFor(kind)(ToDecimal(n)) == Ok(n)
  {
    ParseIntOfToDecimal(n);
    ParseLongOfToDecimal(n);
  }

  /** The steps of one item, in the order they run: the kind's code check, then Long.parseLong. */
  function ItemSteps(kind: ContentKind, code: string): seq<Option<Exception>> {
    [Raised(if kind == Advisory then ValidateItisCodes(code) else ValidateContentCodes(code)),
     if ParseLong(code).None? then Some(NumberFormat(code)) else None]
  }

  /**
   * An item is built exactly when neither step throws; otherwise it throws the first failing
   * step's exception, so a code the check rejects never reaches Long.parseLong.
   */
  lemma ItemChecksInOrder(kind: ContentKind, code: string)
    ensures ItemFor(kind)(code).Ok? <==> ItemSteps(kind, code)[0].None? && ItemSteps(kind, code)[1].None?
    ensures forall k | FirstThrownAt(ItemSteps(kind, code), k) ::
      ItemFor(kind)(code) == Err(ItemSteps(kind, code)[k].value)
  {
    var steps := ItemSteps(kind, code);
    forall k | FirstThrownAt(steps, k)
      ensures ItemFor(kind)(code) == Err(steps[k].value)
    {
      if k > 0 {
        assert steps[0].None?;
      }
    }
  }

  /** The empty code is rejected by the check, with its own message, before any parse. */
  lemma EmptyItemRejected(kind: ContentKind)
    ensures ItemFor(kind)("") == Err(IllegalArgument("Invalid empty string"))
  {
    assert ParseInt("").None?;
  }

  /** The alternative is picked by the exact content text; everything else is a generic sign. */
  lemma ContentKindByText(contentType: string)
    ensures ContentKindOf(contentType) == Advisory <==> contentType == "Advisory"
    ensures ContentKindOf(contentType) == WorkZone <==> contentType == "Work Zone"
    ensures ContentKindOf(contentType) == SpeedLimit <==> contentType == "Speed Limit"
    ensures ContentKindOf(contentType) == ExitService <==> contentType == "Exit Service"
    ensures ContentKindOf(contentType) == GenericSign <==>
      contentType !in {"Advisory", "Work Zone", "Speed Limit", "Exit Service"}
  {
  }

  /** Content holds one item per code, in order, each the parsed code. */
  lemma ContentItemsInOrder(contentType: string, codes: seq<string>)
    ensures ContentOf(contentType, codes).Ok? <==>
      forall i | 0 <= i < |codes| :: ItemFor(ContentKindOf(contentType))(codes[i]).Ok?
    ensures ContentOf(contentType, codes).Ok? ==>
      var c := ContentOf(contentType, codes).value;
      c.kind == ContentKindOf(contentType) && |c.items| == |codes| &&
      forall i | 0 <= i < |codes| ::
        ParseLong(codes[i]).Some? && c.items[i] == ParseLong(codes[i]).value as int
  {
    var f := ItemFor(ContentKindOf(contentType));
    if MapAll(codes, f).Ok? {
      MapAllSucceedsAll(codes, f);
      MapAllOk(codes, f, MapAll(codes, f).value);
      forall i | 0 <= i < |codes|
        ensures ParseLong(codes[i]).Some? && MapAll(codes, f).value[i] == ParseLong(codes[i]).value as int
      {
        ItemAccepted(ContentKindOf(contentType), codes[i]);
      }
    } else if forall i | 0 <= i < |codes| :: f(codes[i]).Ok? {
      MapAllAllSucceed(codes, f);
    }
  }

  /** The exception of a failing content is that of its first failing code. */
  lemma ContentFailsAtFirstBadCode(contentType: string, codes: seq<string>, e: Exception)
    ensures ContentOf(contentType, codes) == Err(e) <==>
      exists k | 0 <= k < |codes| ::
        ItemFor(ContentKindOf(contentType))(codes[k]) == Err(e) &&
        forall i | 0 <= i < k :: ItemFor(ContentKindOf(contentType))(codes[i]).Ok?
  {
    MapAllErr(codes, ItemFor(ContentKindOf(contentType)), e);
  }

  // ---------------------------------------------------------------------------------------
  // Message id

  /** A road sign id is built exactly when its position, view angle and MUTCD code pass. */
  lemma RoadSignIdBuilt(f: In.DataFrame)
    requires f.msgId == "RoadSignID"
    ensures MessageId(f).Ok? <==>
      ValidateLong(f.longitude).Pass? && ValidateLat(f.latitude).Pass? &&
      ValidateElevation(f.elevation).Pass? && |f.viewAngle| == 16 && 0 <= f.mutcd <= 6
    ensures MessageId(f).Ok? ==>
      |f.viewAngle| == 16 &&
      MessageId(f).value == RoadSignId(Position3D(f.latitude, f.longitude, f.elevation),
        PutShort(HeadingPattern(f.viewAngle)), f.mutcd)
  {
  }

  /**
   * The checks of getMessageId, in the order they run: the id text, then for a road sign
   * the longitude, latitude, elevation, view angle and MUTCD code.
   */
  function MessageIdSteps(f: In.DataFrame): seq<Option<Exception>> {
    if f.msgId == "RoadSignID" then
      [Raised(ValidateMessageId(f.msgId)), Raised(ValidateLong(f.longitude)), Raised(ValidateLat(f.latitude)),
       Raised(ValidateElevation(f.elevation)), Raised(ValidateHeading(f.viewAngle)), Raised(ValidateMutcdCode(f.mutcd))]
    else [Raised(ValidateMessageId(f.msgId))]
  }

  /** A message id is built exactly when no check throws; otherwise it throws the first failing check's exception. */
  lemma MessageIdChecksInOrder(f: In.DataFrame)
    ensures MessageId(f).Ok? <==> forall i | 0 <= i < |MessageIdSteps(f)| :: MessageIdSteps(f)[i].None?
    ensures forall k | FirstThrownAt(MessageIdSteps(f), k) :: MessageId(f) == Err(MessageIdSteps(f)[k].value)
  {
    var steps := MessageIdSteps(f);
    forall k | FirstThrownAt(steps, k)
      ensures MessageId(f) == Err(steps[k].value)
    {
      if k > 0 {
        assert steps[0].None?;
      }
      if k > 1 {
        assert steps[1].None?;
      }
      if k > 2 {
        assert steps[2].None?;
      }
      if k > 3 {
        assert steps[3].None?;
      }
      if k > 4 {
        assert steps[4].None?;
      }
    }
    if f.msgId == "RoadSignID" {
      if forall i | 0 <= i < |steps| :: steps[i].None? {
        assert steps[1].None? && steps[2].None? && steps[3].None? && steps[4].None? && steps[5].None?;
        RoadSignIdBuilt(f);
      }
      if MessageId(f).Ok? {
        RoadSignIdBuilt(f);
      }
    } else {
      assert |steps| == 1;
      if steps[0].None? {
        assert f.msgId == "furtherInfoID";
      }
    }
  }

  /** The longitude is checked before the latitude. */
  lemma RoadSignLongitudeFirst(f: In.DataFrame)
    requires f.msgId == "RoadSignID" && ValidateLong(f.longitude).Fail?
    ensures MessageId(f) == Err(IllegalArgument("Invalid Longitude"))
  {
  }

  /** A further-info id carries two zero bytes whatever else the frame holds. */
  lemma FurtherInfoIdBuilt(f: In.DataFrame)
    requires f.msgId == "furtherInfoID"
    ensures MessageId(f) == Ok(FurtherInfoId([0, 0]))
  {
  }

  /** Any other message id text is rejected. */
  lemma OtherMessageIdRejected(f: In.DataFrame)
    requires f.msgId != "RoadSignID" && f.msgId != "furtherInfoID"
    ensures f.msgId == [] ==> MessageId(f) == Err(IllegalArgument("Invalid Empty String"))
    ensures f.msgId != [] ==> MessageId(f) == Err(IllegalArgument("Invalid messageID"))
  {
  }

  // ---------------------------------------------------------------------------------------
  // Node lists and computed lanes

  /** The tags an XY list recognises; every other tag chooses no alternative. */
  lemma DeltaXYByTag(p: In.NodeXY)
    ensures DeltaXY(p).Some? <==>
      p.delta in {"node-XY1", "node-XY2", "node-XY3", "node-XY4", "node-XY5", "node-XY6", "node-LatLon"}
    ensures DeltaXY(p).Some? && p.delta != "node-LatLon" ==> DeltaXY(p).value.x == p.x && DeltaXY(p).value.y == p.y
  {
  }

  /**
   * The tags an LL list recognises; every other tag chooses no alternative. Every alternative
   * receives the node's latitude in its longitude slot and its longitude in its latitude slot.
   */
  lemma DeltaLLByTag(p: In.NodeXY)
    ensures DeltaLL(p).Some? <==>
      p.delta in {"node-LL1", "node-LL2", "node-LL3", "node-LL4", "node-LL5", "node-LL6", "node-LatLon"}
    ensures DeltaLL(p).Some? ==> DeltaLL(p).value.lon == p.nodeLat && DeltaLL(p).value.lat == p.nodeLong
  {
  }

  /** In both lists the lat/lon alternative stores the node's latitude as longitude and its longitude as latitude. */
  lemma LatLonSlotsSwapped(p: In.NodeXY)
    requires p.delta == "node-LatLon"
    ensures DeltaXY(p) == DeltaLL(p)
    ensures DeltaXY(p).Some? && DeltaXY(p).value.NodeLatLon?
    ensures DeltaXY(p).value.lon == p.nodeLat && DeltaXY(p).value.lat == p.nodeLong
  {
  }

  /** A path description is checked only for its zoom: nothing in its nodes can make it fail. */
  lemma PathChecksOnlyZoom(r: In.Region)
    requires r.description == "path"
    ensures DescriptionOf(r).Ok? <==> ValidateZoom(r.path.scale).Pass?
    ensures DescriptionOf(r).Ok? ==>
      DescriptionOf(r).value == Path(OffsetSystem(r.path.scale, PathOffset(r.path)))
    ensures DescriptionOf(r).Err? ==> DescriptionOf(r).error == IllegalArgument("Invalid zoom")
  {
  }

  /** The offset of a path by its type and node count. */
  lemma PathOffsetByType(p: In.Path)
    ensures p.pathType == "xy" && |p.nodes| > 0 ==>
      PathOffset(p) == Some(Xy(Nodes(MapTotal(p.nodes, NodeXYOf))))
    ensures p.pathType == "xy" && |p.nodes| == 0 ==>
      PathOffset(p) == Some(Xy(Computed(ComputedLaneOf(p.computedLane))))
    ensures p.pathType == "ll" && |p.nodes| > 0 ==>
      PathOffset(p) == Some(Ll(MapTotal(p.nodes, NodeLLOf)))
    ensures PathOffset(p).None? <==>
      (p.pathType == "ll" && |p.nodes| == 0) || (p.pathType != "xy" && p.pathType != "ll")
  {
  }

  /** Each node keeps its place: node i of a list is built from input point i. */
  lemma NodeListKeepsOrder(points: seq<In.NodeXY>)
    ensures |MapTotal(points, NodeXYOf)| == |points| && |MapTotal(points, NodeLLOf)| == |points|
    ensures forall i | 0 <= i < |points| ::
      MapTotal(points, NodeXYOf)[i] == Node(DeltaXY(points[i]), AttributesOf(points[i].attributes)) &&
      MapTotal(points, NodeLLOf)[i] == Node(DeltaLL(points[i]), AttributesOf(points[i].attributes))
  {
  }

  /** An inner attribute list is present exactly when its input list is non-empty, and then holds it in order. */
  lemma AttributeListsPresentWhenNonEmpty(a: In.Attributes)
    ensures var s := AttributesOf(a);
      (s.localNode.Some? <==> |a.localNodes| > 0) &&
      (s.disabled.Some? <==> |a.disabledLists| > 0) &&
      (s.enabled.Some? <==> |a.enabledLists| > 0) &&
      (s.data.Some? <==> |a.dataLists| > 0) &&
      (s.localNode.Some? ==>
        (|s.localNode.value| == |a.localNodes| &&
         forall i | 0 <= i < |a.localNodes| :: s.localNode.value[i] == a.localNodes[i].nodeType)) &&
      (s.disabled.Some? ==>
        (|s.disabled.value| == |a.disabledLists| &&
         forall i | 0 <= i < |a.disabledLists| :: s.disabled.value[i] == a.disabledLists[i].segmentType)) &&
      (s.enabled.Some? ==>
        (|s.enabled.value| == |a.enabledLists| &&
         forall i | 0 <= i < |a.enabledLists| :: s.enabled.value[i] == a.enabledLists[i].segmentType)) &&
      (s.data.Some? ==>
        (|s.data.value| == |a.dataLists| &&
         forall i | 0 <= i < |a.dataLists| :: LaneDataKept(s.data.value[i], a.dataLists[i]))) &&
      s.dWidth == a.dWidth && s.dElevation == a.dElevation
  {
    if |a.dataLists| > 0 {
      forall i | 0 <= i < |a.dataLists|
        ensures LaneDataKept(AttributesOf(a).data.value[i], a.dataLists[i])
      {
        LaneDataOfKeeps(a.dataLists[i]);
      }
    }
  }

  /** A lane data record holds its input's angles and crown points and its speed limits in order. */
  ghost predicate LaneDataKept(d: LaneDataAttribute, source: In.DataList) {
    d.pathEndPointAngle == source.pathEndpointAngle &&
    d.laneCrownPointCenter == source.laneCrownCenter &&
    d.laneCrownPointLeft == source.laneCrownLeft &&
    d.laneCrownPointRight == source.laneCrownRight &&
    d.laneAngle == source.laneAngle &&
    |d.speedLimits| == |source.speedLimits| &&
    forall j | 0 <= j < |source.speedLimits| ::
      d.speedLimits[j] == RegulatorySpeedLimit(source.speedLimits[j].limitType, source.speedLimits[j].velocity)
  }

  /** Each lane data record keeps its input's fields, and its speed limits one by one, in order. */
  lemma LaneDataOfKeeps(d: In.DataList)
    ensures LaneDataKept(LaneDataOf(d), d)
  {
  }

  /** Both axes of a computed lane follow the large x offset; the large y offset alone selects nothing. */
  lemma ComputedLaneAxesFollowLargeX(c: In.ComputedLane)
    ensures ComputedLaneOf(c).offsetXaxis.Large? <==> c.offsetLargeX > 0
    ensures ComputedLaneOf(c).offsetYaxis.Large? <==> c.offsetLargeX > 0
    ensures c.offsetLargeX <= 0 ==> ComputedLaneOf(c).offsetYaxis == Small(c.offsetSmallY)
    ensures c.offsetLargeX > 0 ==> ComputedLaneOf(c).offsetYaxis == Large(c.offsetLargeY)
  {
  }

  // ---------------------------------------------------------------------------------------
  // Positions and circles

  /** The checks of getPosition3D, in the order they run. */
  function PositionSteps(lat: int, long: int, elevation: int): seq<Option<Exception>> {
    [Raised(ValidateLat(lat)), Raised(ValidateLong(long)), Raised(ValidateElevation(elevation))]
  }

  /** A position that throws throws its first failing coordinate's exception: latitude, longitude, then elevation. */
  lemma PositionFailsAtFirstCheck(lat: int, long: int, elevation: int)
    ensures Position(lat, long, elevation).Err? ==>
      exists k | 0 <= k < 3 :: FirstThrownAt(PositionSteps(lat, long, elevation), k)
    ensures forall k | FirstThrownAt(PositionSteps(lat, long, elevation), k) ::
      Position(lat, long, elevation) == Err(PositionSteps(lat, long, elevation)[k].value)
  {
    var steps := PositionSteps(lat, long, elevation);
    if Position(lat, long, elevation).Err? {
      var j := if steps[0].Some? then 0 else if steps[1].Some? then 1 else 2;
      FirstThrownExists(steps, j);
    }
  }

  /** The checks of buildGeoCircle and buildOldCircle, in the order they run. */
  function CircleSteps(c: In.Circle): seq<Option<Exception>> {
    [Thrown(Position(c.latitude, c.longitude, c.elevation)), Raised(ValidateRadius(c.radius)),
     Raised(ValidateUnits(c.units))]
  }

  /**
   * A circle is built exactly when its centre, radius and units pass, and then holds them;
   * otherwise it throws the first failing check's exception: centre, radius, then units.
   */
  lemma CircleBuilt(c: In.Circle)
    ensures CircleOf(c).Ok? <==>
      Position(c.latitude, c.longitude, c.elevation).Ok? &&
      ValidateRadius(c.radius).Pass? && ValidateUnits(c.units).Pass?
    ensures CircleOf(c).Ok? ==>
      CircleOf(c).value == Circle(Position3D(c.latitude, c.longitude, c.elevation), c.radius, c.units)
    ensures forall k | FirstThrownAt(CircleSteps(c), k) :: CircleOf(c) == Err(CircleSteps(c)[k].value)
  {
    var steps := CircleSteps(c);
    forall k | FirstThrownAt(steps, k)
      ensures CircleOf(c) == Err(steps[k].value)
    {
      if k > 0 {
        assert steps[0].None?;
      }
      if k > 1 {
        assert steps[1].None?;
      }
    }
  }

  // ---------------------------------------------------------------------------------------
  // Regions

  /** A built geographical path holds the region's checked fields and the description its text selects. */
  lemma RegionFields(r: In.Region)
    requires RegionOf(r).Ok?
    ensures var g := RegionOf(r).value;
      g.name == r.name && 1 <= |r.name| <= 63 &&
      g.regulatorId == r.regulatorId && FitsUnsigned(g.regulatorId, 16) &&
      g.segmentId == r.segmentId && FitsUnsigned(g.segmentId, 16) &&
      g.anchor == Position3D(r.anchorLat, r.anchorLong, r.anchorElevation) &&
      g.laneWidth == r.laneWidth && FitsUnsigned(g.laneWidth, 15) &&
      g.directionality == r.directionality && FitsUnsigned(g.directionality, 2) &&
      g.closedPath == r.closedPath &&
      |r.direction| == 16 && g.direction == PutShort(HeadingPattern(r.direction)) &&
      DescriptionOf(r) == Ok(g.description) &&
      (g.description.Path? <==> r.description == "path") &&
      (g.description.Geometry? <==> r.description == "geometry")
  {
  }

  /** The checks of one region of buildRegions, in the order they run. */
  function RegionSteps(r: In.Region): seq<Option<Exception>> {
    [Raised(ValidateGeoName(r.name)), Raised(ValidateRoadId(r.regulatorId)), Raised(ValidateRoadId(r.segmentId)),
     Thrown(Position(r.anchorLat, r.anchorLong, r.anchorElevation)), Raised(ValidateLaneWidth(r.laneWidth)),
     Raised(ValidateDirectionality(r.directionality)), Raised(ValidateHeading(r.direction)),
     Thrown(DescriptionOf(r))]
  }

  /**
   * A region is built exactly when none of its checks throws, and otherwise throws its first
   * failing check's exception: name, regulator id, segment id, anchor, lane width,
   * directionality, direction, then the description.
   */
  lemma RegionChecksInOrder(r: In.Region)
    ensures RegionOf(r).Ok? <==> forall i | 0 <= i < |RegionSteps(r)| :: RegionSteps(r)[i].None?
    ensures forall k | FirstThrownAt(RegionSteps(r), k) :: RegionOf(r) == Err(RegionSteps(r)[k].value)
  {
    var steps := RegionSteps(r);
    if RegionOf(r).Ok? {
      assert forall i | 0 <= i < |steps| :: steps[i].None?;
    }
    if forall i | 0 <= i < |steps| :: steps[i].None? {
      assert steps[0].None? && steps[1].None? && steps[2].None? && steps[3].None?;
      assert steps[4].None? && steps[5].None? && steps[6].None? && steps[7].None?;
    }
    forall k | FirstThrownAt(steps, k)
      ensures RegionOf(r) == Err(steps[k].value)
    {
      RegionFailure(r, k);
    }
  }

  lemma RegionFailure(r: In.Region, k: int)
    requires FirstThrownAt(RegionSteps(r), k)
    ensures RegionOf(r) == Err(RegionSteps(r)[k].value)
  {
    var steps := RegionSteps(r);
    if k > 0 { assert steps[0].None?; }
    if k > 1 { assert steps[1].None?; }
    if k > 2 { assert steps[2].None?; }
    if k > 3 { assert steps[3].None?; }
    if k > 4 { assert steps[4].None?; }
    if k > 5 { assert steps[5].None?; }
    if k > 6 { assert steps[6].None?; }
  }

  /** The area an old region's area text selects; anything unknown is a circle. */
  lemma AreaByText(o: In.OldRegion)
    requires AreaOf(o).Ok?
    ensures AreaOf(o).value.ShapePointSet? <==> o.area == "shapePointSet"
    ensures AreaOf(o).value.RegionPointSet? <==> o.area == "regionPointSet"
    ensures AreaOf(o).value.CircleArea? <==> o.area != "shapePointSet" && o.area != "regionPointSet"
  {
  }

  /** The checks of a geometry description, in the order they run. */
  function GeometrySteps(g: In.Geometry): seq<Option<Exception>> {
    [Raised(ValidateHeading(g.direction)), Raised(ValidateExtent(g.extent)),
     Raised(ValidateLaneWidth(g.laneWidth)), Thrown(CircleOf(g.circle))]
  }

  /**
   * A geometry description is built exactly when its direction, extent, lane width and
   * circle pass, and then holds the packed direction, the extent, the lane width and the
   * circle; otherwise it throws its first failing check's exception.
   */
  lemma GeometryDescriptionBuilt(r: In.Region)
    requires r.description == "geometry"
    ensures var g := r.geometry;
      DescriptionOf(r).Ok? <==>
        ValidateHeading(g.direction).Pass? && ValidateExtent(g.extent).Pass? &&
        ValidateLaneWidth(g.laneWidth).Pass? && CircleOf(g.circle).Ok?
    ensures var g := r.geometry;
      DescriptionOf(r).Ok? ==>
        |g.direction| == 16 &&
        DescriptionOf(r).value == Geometry(GeometricProjection(PutShort(HeadingPattern(g.direction)),
          g.extent, g.laneWidth, Circle(Position3D(g.circle.latitude, g.circle.longitude, g.circle.elevation),
            g.circle.radius, g.circle.units)))
    ensures forall k | FirstThrownAt(GeometrySteps(r.geometry), k) ::
      DescriptionOf(r) == Err(GeometrySteps(r.geometry)[k].value)
  {
    CircleBuilt(r.geometry.circle);
    var steps := GeometrySteps(r.geometry);
    forall k | FirstThrownAt(steps, k)
      ensures DescriptionOf(r) == Err(steps[k].value)
    {
      if k > 0 {
        assert steps[0].None?;
      }
      if k > 1 {
        assert steps[1].None?;
      }
      if k > 2 {
        assert steps[2].None?;
      }
    }
  }

  /** The checks of an old region's description, in the order they run. */
  function OldRegionSteps(o: In.OldRegion): seq<Option<Exception>> {
    [Raised(ValidateHeading(o.direction)), Raised(ValidateExtent(o.extent)), Thrown(AreaOf(o))]
  }

  /**
   * Any other description text gives an old region: built exactly when its direction,
   * extent and area pass, holding the packed direction, the extent and the area; otherwise
   * it throws its first failing check's exception.
   */
  lemma OldRegionDescriptionBuilt(r: In.Region)
    requires r.description != "path" && r.description != "geometry"
    ensures var o := r.oldRegion;
      DescriptionOf(r).Ok? <==>
        ValidateHeading(o.direction).Pass? && ValidateExtent(o.extent).Pass? && AreaOf(o).Ok?
    ensures var o := r.oldRegion;
      DescriptionOf(r).Ok? ==>
        |o.direction| == 16 &&
        DescriptionOf(r).value == OldRegion(ValidRegion(PutShort(HeadingPattern(o.direction)), o.extent,
          AreaOf(o).value))
    ensures forall k | FirstThrownAt(OldRegionSteps(r.oldRegion), k) ::
      DescriptionOf(r) == Err(OldRegionSteps(r.oldRegion)[k].value)
  {
    var steps := OldRegionSteps(r.oldRegion);
    forall k | FirstThrownAt(steps, k)
      ensures DescriptionOf(r) == Err(steps[k].value)
    {
      if k > 0 {
        assert steps[0].None?;
      }
      if k > 1 {
        assert steps[1].None?;
      }
    }
  }

  /** The checks of a shape point set, in the order they run. */
  function ShapePointSteps(sp: In.ShapePoint): seq<Option<Exception>> {
    [Thrown(Position(sp.latitude, sp.longitude, sp.elevation)), Raised(ValidateLaneWidth(sp.laneWidth)),
     Raised(ValidateDirectionality(sp.directionality))]
  }

  /**
   * A shape point set is built exactly when its anchor, lane width and directionality pass,
   * and holds them with its node list; otherwise it throws its first failing check's exception.
   */
  lemma ShapePointSetBuilt(o: In.OldRegion)
    requires o.area == "shapePointSet"
    ensures var sp := o.shapepoint;
      AreaOf(o).Ok? <==>
        Position(sp.latitude, sp.longitude, sp.elevation).Ok? &&
        ValidateLaneWidth(sp.laneWidth).Pass? && ValidateDirectionality(sp.directionality).Pass?
    ensures var sp := o.shapepoint;
      AreaOf(o).Ok? ==>
        AreaOf(o).value == ShapePointSet(Position3D(sp.latitude, sp.longitude, sp.elevation),
          sp.laneWidth, sp.directionality, NodeListOf(sp.nodexy, sp.computedLane))
    ensures forall k | FirstThrownAt(ShapePointSteps(o.shapepoint), k) ::
      AreaOf(o) == Err(ShapePointSteps(o.shapepoint)[k].value)
  {
    var steps := ShapePointSteps(o.shapepoint);
    forall k | FirstThrownAt(steps, k)
      ensures AreaOf(o) == Err(steps[k].value)
    {
      if k > 0 {
        assert steps[0].None?;
      }
      if k > 1 {
        assert steps[1].None?;
      }
    }
  }

  /** The checks of a region point set, in the order they run. */
  function RegionPointSteps(rp: In.RegionPoint): seq<Option<Exception>> {
    [Thrown(Position(rp.latitude, rp.longitude, rp.elevation)), Raised(ValidateZoom(rp.scale)),
     Thrown(MapAll(rp.regionList, RegionOffsetsOf))]
  }

  /**
   * A region point set is built exactly when its anchor, zoom and every offset pass, and
   * holds the anchor, the zoom and the offsets in order; otherwise it throws its first
   * failing check's exception.
   */
  lemma RegionPointSetBuilt(o: In.OldRegion)
    requires o.area == "regionPointSet"
    ensures var rp := o.regionPoint;
      AreaOf(o).Ok? <==>
        Position(rp.latitude, rp.longitude, rp.elevation).Ok? && ValidateZoom(rp.scale).Pass? &&
        forall i | 0 <= i < |rp.regionList| :: RegionOffsetsOf(rp.regionList[i]).Ok?
    ensures var rp := o.regionPoint;
      AreaOf(o).Ok? ==>
        AreaOf(o).value.RegionPointSet? &&
        AreaOf(o).value.anchor == Position3D(rp.latitude, rp.longitude, rp.elevation) &&
        AreaOf(o).value.scale == rp.scale &&
        |AreaOf(o).value.regionList| == |rp.regionList| &&
        forall i | 0 <= i < |rp.regionList| ::
          AreaOf(o).value.regionList[i] ==
            RegionOffsets(rp.regionList[i].xOffset, rp.regionList[i].yOffset, rp.regionList[i].zOffset)
    ensures forall k | FirstThrownAt(RegionPointSteps(o.regionPoint), k) ::
      AreaOf(o) == Err(RegionPointSteps(o.regionPoint)[k].value)
  {
    var rp := o.regionPoint;
    RegionOffsetsChecked(rp.regionList);
    if MapAll(rp.regionList, RegionOffsetsOf).Ok? {
      MapAllSucceedsAll(rp.regionList, RegionOffsetsOf);
    } else if forall i | 0 <= i < |rp.regionList| :: RegionOffsetsOf(rp.regionList[i]).Ok? {
      MapAllAllSucceed(rp.regionList, RegionOffsetsOf);
    }
    var steps := RegionPointSteps(rp);
    forall k | FirstThrownAt(steps, k)
      ensures AreaOf(o) == Err(steps[k].value)
    {
      if k > 0 {
        assert steps[0].None?;
      }
      if k > 1 {
        assert steps[1].None?;
      }
    }
  }

  /** Any other area text gives a circle: built exactly when the circle is, with its exception otherwise. */
  lemma CircleAreaBuilt(o: In.OldRegion)
    requires o.area != "shapePointSet" && o.area != "regionPointSet"
    ensures AreaOf(o).Ok? <==> CircleOf(o.circle).Ok?
    ensures AreaOf(o).Ok? ==>
      AreaOf(o).value == CircleArea(Circle(Position3D(o.circle.latitude, o.circle.longitude, o.circle.elevation),
        o.circle.radius, o.circle.units))
    ensures AreaOf(o).Err? ==> AreaOf(o).error == CircleOf(o.circle).error
  {
    CircleBuilt(o.circle);
  }

  /** The checks of buildRegionOffsets for one entry, in the order they run: x, y, then z. */
  function RegionOffsetSteps(l: In.RegionList): seq<Option<Exception>> {
    [Raised(ValidateX16Offset(l.xOffset)), Raised(ValidateY16Offset(l.yOffset)), Raised(ValidateZ16Offset(l.zOffset))]
  }

  /** One entry's offsets are kept exactly when no coordinate check throws; otherwise the first failing one's exception is thrown. */
  lemma RegionOffsetChecksInOrder(l: In.RegionList)
    ensures RegionOffsetsOf(l).Ok? <==>
      RegionOffsetSteps(l)[0].None? && RegionOffsetSteps(l)[1].None? && RegionOffsetSteps(l)[2].None?
    ensures RegionOffsetsOf(l).Ok? ==> RegionOffsetsOf(l).value == RegionOffsets(l.xOffset, l.yOffset, l.zOffset)
    ensures forall k | FirstThrownAt(RegionOffsetSteps(l), k) :: RegionOffsetsOf(l) == Err(RegionOffsetSteps(l)[k].value)
  {
    var steps := RegionOffsetSteps(l);
    forall k | FirstThrownAt(steps, k)
      ensures RegionOffsetsOf(l) == Err(steps[k].value)
    {
      if k > 0 {
        assert steps[0].None?;
      }
      if k > 1 {
        assert steps[1].None?;
      }
    }
  }

  /** Region offsets: accepted exactly when every coordinate is a 16-bit offset, and kept in order. */
  lemma RegionOffsetsChecked(list: seq<In.RegionList>)
    ensures MapAll(list, RegionOffsetsOf).Ok? <==>
      forall i | 0 <= i < |list| ::
        FitsSigned(list[i].xOffset, 16) && FitsSigned(list[i].yOffset, 16) && FitsSigned(list[i].zOffset, 16)
    ensures MapAll(list, RegionOffsetsOf).Ok? ==>
      var offsets := MapAll(list, RegionOffsetsOf).value;
      |offsets| == |list| &&
      forall i | 0 <= i < |list| ::
        offsets[i] == RegionOffsets(list[i].xOffset, list[i].yOffset, list[i].zOffset)
  {
    if MapAll(list, RegionOffsetsOf).Ok? {
      MapAllOk(list, RegionOffsetsOf, MapAll(list, RegionOffsetsOf).value);
    } else if forall i | 0 <= i < |list| :: RegionOffsetsOf(list[i]).Ok? {
      MapAllAllSucceed(list, RegionOffsetsOf);
    }
  }

  /** Regions: one geographical path per input region, in order; the list itself may be empty. */
  lemma RegionsInOrder(regions: seq<In.Region>)
    ensures MapAll(regions, RegionOf).Ok? <==> forall i | 0 <= i < |regions| :: RegionOf(regions[i]).Ok?
    ensures MapAll(regions, RegionOf).Ok? ==>
      |MapAll(regions, RegionOf).value| == |regions| &&
      forall i | 0 <= i < |regions| :: MapAll(regions, RegionOf).value[i] == RegionOf(regions[i]).value
    ensures MapAll([], RegionOf) == Ok([])
  {
    if MapAll(regions, RegionOf).Ok? {
      MapAllOk(regions, RegionOf, MapAll(regions, RegionOf).value);
    } else if forall i | 0 <= i < |regions| :: RegionOf(regions[i]).Ok? {
      MapAllAllSucceed(regions, RegionOf);
    }
  }

  // ---------------------------------------------------------------------------------------
  // Frames

  /** Header check first: a frame whose TIM rights index is out of range fails with that message. */
  lemma FrameHeaderCheckedFirst(f: In.DataFrame)
    requires !FitsUnsigned(f.sspTimRights, 5)
    ensures DataFrameOf(f) == Err(IllegalArgument("Invalid header sspIndex"))
  {
  }

  /** A built frame holds its input's checked header values, message id, regions and content. */
  lemma FrameFields(f: In.DataFrame)
    requires DataFrameOf(f).Ok?
    ensures var d := DataFrameOf(f).value;
      d.sspTimRights == f.sspTimRights && FitsUnsigned(d.sspTimRights, 5) &&
      d.sspLocationRights == f.sspLocationRights && FitsUnsigned(d.sspLocationRights, 5) &&
      d.sspMsgRights1 == f.sspMsgTypes && FitsUnsigned(d.sspMsgRights1, 5) &&
      d.sspMsgRights2 == f.sspMsgContent && FitsUnsigned(d.sspMsgRights2, 5) &&
      d.frameType == f.frameType && d.frameType >= 0 &&
      MessageId(f) == Ok(d.msgId) &&
      d.startYear == f.startTime.year &&
      d.startTime == StartMinute(f.startTime) && 0 <= d.startTime <= MINUTES_IN_LEAP_YEAR &&
      d.duratonTime == f.durationTime && 0 <= d.duratonTime <= 32000 &&
      d.priority == f.priority && FitsUnsigned(d.priority, 3) &&
      |d.regions| == |f.regions| &&
      (forall i | 0 <= i < |f.regions| :: RegionOf(f.regions[i]) == Ok(d.regions[i])) &&
      ContentOf(f.content, f.items) == Ok(d.content) &&
      d.content.kind == ContentKindOf(f.content) && |d.content.items| == |f.items| &&
      (forall i | 0 <= i < |f.items| ::
        ParseLong(f.items[i]).Some? && d.content.items[i] == ParseLong(f.items[i]).value as int) &&
      d.url == f.url && 1 <= |d.url| <= 15
  {
    FrameShape(f);
    RegionsInOrder(f.regions);
    ContentItemsInOrder(f.content, f.items);
  }

  /** A built frame, field by field, in terms of the values its steps build. */
  lemma FrameShape(f: In.DataFrame)
    requires DataFrameOf(f).Ok?
    ensures MessageId(f).Ok? && StartTimeOf(f.startTime).Ok? && MapAll(f.regions, RegionOf).Ok? &&
      ContentOf(f.content, f.items).Ok?
    ensures DataFrameOf(f).value == TravelerDataFrame(f.sspTimRights, f.frameType, MessageId(f).value,
      f.startTime.year, StartTimeOf(f.startTime).value, f.durationTime, f.priority,
      f.sspLocationRights, MapAll(f.regions, RegionOf).value, f.sspMsgTypes, f.sspMsgContent,
      ContentOf(f.content, f.items).value, f.url)
  {
  }

  /** The checks of one frame of buildDataFrames, in the order they run. */
  function FrameSteps(f: In.DataFrame): seq<Option<Exception>> {
    [Raised(ValidateHeaderIndex(f.sspTimRights)), Raised(ValidateInfoType(f.frameType)),
     Thrown(MessageId(f)), Thrown(StartYear(f.startTime)), Thrown(StartTimeOf(f.startTime)),
     Raised(ValidateMinutesDuration(f.durationTime)), Raised(ValidateSign(f.priority)),
     Raised(ValidateHeaderIndex(f.sspLocationRights)), Thrown(MapAll(f.regions, RegionOf)),
     Raised(ValidateHeaderIndex(f.sspMsgTypes)), Raised(ValidateHeaderIndex(f.sspMsgContent)),
     Thrown(ContentOf(f.content, f.items)), Raised(ValidateUrlShort(f.url))]
  }

  /**
   * A frame is built exactly when none of its checks throws, and otherwise throws its first
   * failing check's exception: the header, the regions, then the content and the URL.
   */
  lemma FrameChecksInOrder(f: In.DataFrame)
    ensures DataFrameOf(f).Ok? <==> forall i | 0 <= i < |FrameSteps(f)| :: FrameSteps(f)[i].None?
    ensures forall k | FirstThrownAt(FrameSteps(f), k) :: DataFrameOf(f) == Err(FrameSteps(f)[k].value)
  {
    FrameBuiltWhenNoCheckThrows(f);
    forall k | FirstThrownAt(FrameSteps(f), k)
      ensures DataFrameOf(f) == Err(FrameSteps(f)[k].value)
    {
      if k < 7 {
        FrameHeaderFailure(f, k);
      } else {
        FrameBodyFailure(f, k);
      }
    }
  }

  lemma FrameBuiltWhenNoCheckThrows(f: In.DataFrame)
    ensures DataFrameOf(f).Ok? <==> forall i | 0 <= i < |FrameSteps(f)| :: FrameSteps(f)[i].None?
  {
    var steps := FrameSteps(f);
    if DataFrameOf(f).Ok? {
      assert forall i | 0 <= i < |steps| :: steps[i].None?;
    }
    if forall i | 0 <= i < |steps| :: steps[i].None? {
      assert steps[0].None? && steps[1].None? && steps[2].None? && steps[3].None? && steps[4].None?;
      assert steps[5].None? && steps[6].None? && steps[7].None? && steps[8].None?;
      assert steps[9].None? && steps[10].None? && steps[11].None? && steps[12].None?;
    }
  }

  /** A first failure among the header checks, before the location rights. */
  lemma FrameHeaderFailure(f: In.DataFrame, k: int)
    requires FirstThrownAt(FrameSteps(f), k) && k < 7
    ensures DataFrameOf(f) == Err(FrameSteps(f)[k].value)
  {
    var steps := FrameSteps(f);
    if k > 0 { assert steps[0].None?; }
    if k > 1 { assert steps[1].None?; }
    if k > 2 { assert steps[2].None?; }
    if k > 3 { assert steps[3].None?; }
    if k > 4 { assert steps[4].None?; }
    if k > 5 { assert steps[5].None?; }
  }

  /** A first failure from the location rights on. */
  lemma FrameBodyFailure(f: In.DataFrame, k: int)
    requires FirstThrownAt(FrameSteps(f), k) && k >= 7
    ensures DataFrameOf(f) == Err(FrameSteps(f)[k].value)
  {
    var steps := FrameSteps(f);
    assert steps[0].None? && steps[1].None? && steps[2].None? && steps[3].None?;
    assert steps[4].None? && steps[5].None? && steps[6].None?;
    if k > 7 { assert steps[7].None?; }
    if k > 8 { assert steps[8].None?; }
    if k > 9 { assert steps[9].None?; }
    if k > 10 { assert steps[10].None?; }
    if k > 11 { assert steps[11].None?; }
  }

  /** The start year is never checked: any year leaves a buildable frame buildable. */
  lemma StartYearUnchecked(f: In.DataFrame, year: int)
    requires DataFrameOf(f).Ok?
    ensures DataFrameOf(f.(startTime := f.startTime.(year := year))) ==
      Ok(DataFrameOf(f).value.(startYear := year))
  {
    var g := f.(startTime := f.startTime.(year := year));
    assert StartMinute(g.startTime) == StartMinute(f.startTime);
    assert MessageId(g) == MessageId(f);
    assert StartYear(g.startTime) == Ok(year);
    FrameBuiltWhenNoCheckThrows(f);
    FrameBuiltWhenNoCheckThrows(g);
    assert FrameSteps(g) == FrameSteps(f);
    FrameShape(f);
    FrameShape(g);
  }

  /**
   * Frames: between one and eight, each built, kept in order. The count is checked before
   * any frame is built, so a wrong count throws its own exception whatever the frames hold.
   */
  lemma FramesInOrder(frames: seq<In.DataFrame>)
    ensures !(1 <= |frames| <= 8) ==> DataFramesOf(frames) == Err(IllegalArgument("Invalid number of dataFrames"))
    ensures 1 <= |frames| <= 8 ==> DataFramesOf(frames) == MapAll(frames, DataFrameOf)
    ensures DataFramesOf(frames).Ok? <==>
      1 <= |frames| <= 8 && forall i | 0 <= i < |frames| :: DataFrameOf(frames[i]).Ok?
    ensures DataFramesOf(frames).Ok? ==>
      |DataFramesOf(frames).value| == |frames| &&
      forall i | 0 <= i < |frames| :: DataFramesOf(frames).value[i] == DataFrameOf(frames[i]).value
  {
    if MapAll(frames, DataFrameOf).Ok? {
      MapAllOk(frames, DataFrameOf, MapAll(frames, DataFrameOf).value);
    } else if forall i | 0 <= i < |frames| :: DataFrameOf(frames[i]).Ok? {
      MapAllAllSucceed(frames, DataFrameOf);
    }
  }

  /** With a count in range, the frames throw the exception of their first failing frame. */
  lemma FramesFailAtFirstBadFrame(frames: seq<In.DataFrame>, e: Exception)
    requires 1 <= |frames| <= 8
    ensures DataFramesOf(frames) == Err(e) <==>
      exists k | 0 <= k < |frames| ::
        DataFrameOf(frames[k]) == Err(e) && forall i | 0 <= i < k :: DataFrameOf(frames[i]).Ok?
  {
    MapAllErr(frames, DataFrameOf, e);
  }

  // ---------------------------------------------------------------------------------------
  // The whole message

  /** A build returns normally exactly when the count, the URL and every frame pass. */
  lemma BuildSucceedsIff(input: In.TravelerInputData)
    ensures Build(input).result.Ok? <==>
      FitsUnsigned(input.msgCount, 7) && 1 <= |input.urlB| <= 45 && DataFramesOf(input.dataframes).Ok?
  {
  }

  /** A returned message is the stored one, and holds the count, the packet id, the URL and the frames. */
  lemma BuiltMessage(input: In.TravelerInputData)
    requires Build(input).result.Ok?
    ensures var m := Build(input).result.value;
      m == Build(input).stored &&
      m.msgCnt == Some(input.msgCount) && FitsUnsigned(input.msgCount, 7) &&
      m.packetId.Some? && |m.packetId.value| == 9 && m.packetId.value[0] == 0 &&
      GetLong(m.packetId.value[1..]) == input.uniqueMsgId &&
      m.urlB == Some(input.urlB) &&
      m.dataFrames.Some? && |m.dataFrames.value| == |input.dataframes| && 1 <= |input.dataframes| <= 8 &&
      DataFramesOf(input.dataframes) == Ok(m.dataFrames.value) &&
      forall i | 0 <= i < |input.dataframes| :: DataFrameOf(input.dataframes[i]) == Ok(m.dataFrames.value[i])
  {
    FramesInOrder(input.dataframes);
  }

  /**
   * After a build that throws, the stored message keeps every field set before the failing
   * check and nothing after it; the frames are never stored.
   */
  lemma StoredAfterFailure(input: In.TravelerInputData)
    requires Build(input).result.Err?
    ensures var s := Build(input).stored; var e := Build(input).result.error;
      s.dataFrames.None? &&
      (!FitsUnsigned(input.msgCount, 7) ==>
        s == EMPTY_MESSAGE && e == IllegalArgument("Invalid message count")) &&
      (FitsUnsigned(input.msgCount, 7) ==>
        s.msgCnt == Some(input.msgCount) && s.packetId == Some(PacketId(input.uniqueMsgId))) &&
      (FitsUnsigned(input.msgCount, 7) && !(1 <= |input.urlB| <= 45) ==>
        s.urlB.None? && e == ValidateUrl(input.urlB).error) &&
      (FitsUnsigned(input.msgCount, 7) && |input.urlB| == 0 ==> e == IllegalArgument("Invalid empty url")) &&
      (FitsUnsigned(input.msgCount, 7) && |input.urlB| > 45 ==> e == IllegalArgument("Invalid URL provided")) &&
      (FitsUnsigned(input.msgCount, 7) && 1 <= |input.urlB| <= 45 ==>
        s.urlB == Some(input.urlB) && DataFramesOf(input.dataframes) == Err(e))
  {
  }

  // ---------------------------------------------------------------------------------------
  // Validators

  /** A vocabulary check accepts every word and every piece of a word, down to the empty string. */
  lemma VocabularyAcceptsFragments(words: seq<string>, k: nat, a: nat, b: nat, message: string)
    requires k < |words| && a <= b <= |words[k]|
    ensures ValidateInVocabulary(words, words[k][a..b], message).Pass?
    ensures ValidateInVocabulary(words, words[k], message).Pass?
  {
    var joined := JoinWords(words);
    JoinWordsHasEachWord(words, k);
    var w := words[k];
    var i :| OccursAt(w, joined, i);
    assert joined[i..i + |w|] == w;
    forall j | 0 <= j < b - a
      ensures joined[i + a..i + b][j] == w[a..b][j]
    {
      assert joined[i..i + |w|][a + j] == joined[i + a + j];
    }
    assert joined[i + a..i + b] == w[a..b];
    assert OccursAt(w[a..b], joined, i + a);
  }

  /** The three vocabulary checks on their own word lists. */
  lemma AttributeWordsAccepted(k: nat)
    ensures k < |NODE_ATTRIBUTE_WORDS| ==> ValidateNodeAttribute(NODE_ATTRIBUTE_WORDS[k]).Pass?
    ensures k < |SEGMENT_ATTRIBUTE_WORDS| ==> ValidateSegmentAttribute(SEGMENT_ATTRIBUTE_WORDS[k]).Pass?
    ensures k < |SPEED_LIMIT_TYPE_WORDS| ==> ValidateSpeedLimitType(SPEED_LIMIT_TYPE_WORDS[k]).Pass?
    ensures ValidateNodeAttribute("").Pass? && ValidateSegmentAttribute("").Pass? && ValidateSpeedLimitType("").Pass?
  {
    if k < |NODE_ATTRIBUTE_WORDS| {
      VocabularyAcceptsFragments(NODE_ATTRIBUTE_WORDS, k, 0, 0, "Invalid NodeAttribute Enumeration");
    }
    if k < |SEGMENT_ATTRIBUTE_WORDS| {
      VocabularyAcceptsFragments(SEGMENT_ATTRIBUTE_WORDS, k, 0, 0, "Invalid SegmentAttribute Enumeration");
    }
    if k < |SPEED_LIMIT_TYPE_WORDS| {
      VocabularyAcceptsFragments(SPEED_LIMIT_TYPE_WORDS, k, 0, 0, "Invalid SpeedLimitAttribute Enumeration");
    }
    VocabularyAcceptsFragments(NODE_ATTRIBUTE_WORDS, 0, 0, 0, "Invalid NodeAttribute Enumeration");
    VocabularyAcceptsFragments(SEGMENT_ATTRIBUTE_WORDS, 0, 0, 0, "Invalid SegmentAttribute Enumeration");
    VocabularyAcceptsFragments(SPEED_LIMIT_TYPE_WORDS, 0, 0, 0, "Invalid SpeedLimitAttribute Enumeration");
  }
}
