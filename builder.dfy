/**
 * OssTravelerMessageBuilder: the builder walks the input document and assembles the message
 * tree step by step. Every list it builds is a loop, and every method is proved to compute
 * what the matching TimSpec function describes.
 */
module TravelerMessageBuilder {
  import opened Wrappers
  import opened JavaLang
  import opened ByteBuffers
  import opened TimValidators
  import opened DerivedValues
  import opened FailFast
  import In = TimInput
  import opened TimTree
  import opened TimSpec

  class OssTravelerMessageBuilder {
    /**
     * The message under construction. The Java field is static, so it is shared by all
     * builders and keeps whatever an interrupted build had stored.
     */
    var travelerInfo: Option<TravelerInformation>

    constructor()
      ensures travelerInfo == None
    {
      travelerInfo := None;
    }

    /** buildTravelerInformation: stores each field as its check passes, then returns the message. */
    method BuildTravelerInformation(input: In.TravelerInputData) returns (r: Result<TravelerInformation, Exception>)
      modifies this
      ensures travelerInfo == Some(Build(input).stored)
      ensures r == Build(input).result
    {
      travelerInfo := Some(EMPTY_MESSAGE);
      var count := ValidateMessageCount(input.msgCount);
      if count.Fail? {
        return Err(count.error);
      }
      travelerInfo := Some(travelerInfo.value.(msgCnt := Some(input.msgCount)));
      travelerInfo := Some(travelerInfo.value.(packetId := Some(PacketId(input.uniqueMsgId))));
      var url := ValidateUrl(input.urlB);
      if url.Fail? {
        return Err(url.error);
      }
      travelerInfo := Some(travelerInfo.value.(urlB := Some(input.urlB)));
      var frames := BuildDataFrames(input.dataframes);
      if frames.Err? {
        return Err(frames.error);
      }
      travelerInfo := Some(travelerInfo.value.(dataFrames := Some(frames.value)));
      return Ok(travelerInfo.value);
    }

    /** buildDataFrames: checks the frame count, then builds the frames in order. */
    method BuildDataFrames(frames: seq<In.DataFrame>) returns (r: Result<seq<TravelerDataFrame>, Exception>)
      ensures r == DataFramesOf(frames)
    {
      var count := |frames|;
      :- ValidateFrameCount(count);
      var built: seq<TravelerDataFrame> := [];
      var i := 0;
      while i < |frames|
        invariant 0 <= i <= |frames|
        invariant MapAll(frames[..i], DataFrameOf) == Ok(built)
      {
        var frame := BuildDataFrame(frames[i]);
        if frame.Err? {
          MapAllFailsAt(frames, i, DataFrameOf);
          return Err(frame.error);
        }
        MapAllExtend(frames, i, DataFrameOf, built);
        built := built + [frame.value];
        i := i + 1;
      }
      assert frames[..i] == frames;
      return Ok(built);
    }

    /** The body of buildDataFrames' loop: one frame, header first, then regions, then content. */
    method BuildDataFrame(f: In.DataFrame) returns (r: Result<TravelerDataFrame, Exception>)
      ensures r == DataFrameOf(f)
    {
      var timRights := f.sspTimRights;
      :- ValidateHeaderIndex(timRights);
      :- ValidateInfoType(f.frameType);
      var msgId :- GetMessageId(f);
      var startYear := StartYear(f.startTime).value;
      var startTime :- StartTimeOf(f.startTime);
      :- ValidateMinutesDuration(f.durationTime);
      :- ValidateSign(f.priority);
      :- ValidateHeaderIndex(f.sspLocationRights);
      var regions :- BuildRegions(f.regions);
      :- ValidateHeaderIndex(f.sspMsgTypes);
      :- ValidateHeaderIndex(f.sspMsgContent);
      var content :- BuildContent(f.content, f.items);
      :- ValidateUrlShort(f.url);
      return Ok(TravelerDataFrame(timRights, f.frameType, msgId, startYear, startTime, f.durationTime,
        f.priority, f.sspLocationRights, regions, f.sspMsgTypes, f.sspMsgContent, content, f.url));
    }

    /** buildContent: picks the alternative from the content text and fills it with the items. */
    method BuildContent(contentType: string, codes: seq<string>) returns (r: Result<Content, Exception>)
      ensures r == ContentOf(contentType, codes)
    {
      var kind := ContentKindOf(contentType);
      var items :- BuildItems(kind, codes);
      return Ok(Content(kind, items));
    }

    /**
     * buildAdvisory, buildWorkZone, buildSpeedLimit, buildExitService and buildGenericSignage:
     * one loop that checks each code and stores Long.parseLong of it.
     */
    method BuildItems(kind: ContentKind, codes: seq<string>) returns (r: Result<seq<int>, Exception>)
      ensures r == MapAll(codes, ItemFor(kind))
    {
      var items: seq<int> := [];
      var i := 0;
      while i < |codes|
        invariant 0 <= i <= |codes|
        invariant MapAll(codes[..i], ItemFor(kind)) == Ok(items)
      {
        var code := codes[i];
        var check := if kind == Advisory then ValidateItisCodes(code) else ValidateContentCodes(code);
        if check.Fail? {
          MapAllFailsAt(codes, i, ItemFor(kind));
          return Err(check.error);
        }
        var parsed := ParseLong(code);
        if parsed.None? {
          MapAllFailsAt(codes, i, ItemFor(kind));
          return Err(NumberFormat(code));
        }
        MapAllExtend(codes, i, ItemFor(kind), items);
        items := items + [parsed.value];
        i := i + 1;
      }
      assert codes[..i] == codes;
      return Ok(items);
    }

    /** getMessageId. */
    method GetMessageId(f: In.DataFrame) returns (r: Result<MsgId, Exception>)
      ensures r == MessageId(f)
    {
      var id := f.msgId;
      :- ValidateMessageId(id);
      if id == "RoadSignID" {
        :- ValidateLong(f.longitude);
        :- ValidateLat(f.latitude);
        :- ValidateElevation(f.elevation);
        var position := Position(f.latitude, f.longitude, f.elevation).value;
        :- ValidateHeading(f.viewAngle);
        var viewAngle := GetHeadingSlice(f.viewAngle);
        :- ValidateMutcdCode(f.mutcd);
        return Ok(RoadSignId(position, viewAngle.value, f.mutcd));
      }
      return Ok(FurtherInfoId([0, 0]));
    }

    /**
     * getHeadingSlice: a 16-bit accumulator that gets its low bit set for each '1' and is then
     * shifted left, over the first sixteen characters.
     */
    method GetHeadingSlice(heading: string) returns (r: Result<seq<byte>, Exception>)
      ensures r == HeadingSlice(heading)
    {
      if |heading| == 0 {
        return Ok([0, 0]);
      }
      var result := 0;
      var i := 0;
      while i < 16
        invariant 0 <= i <= 16 && i <= |heading|
        invariant result == HeadingAccumulator(heading, i)
        invariant 0 <= result < SHORT_PATTERNS
      {
        if i == |heading| {
          return Err(StringIndexOutOfBounds(i));
        }
        HeadingAccumulatorStep(heading, i);
        if heading[i] == '1' {
          result := BitOrOne(result);
        }
        result := (2 * result) % SHORT_PATTERNS;
        i := i + 1;
      }
      HeadingAccumulatorDone(heading);
      return Ok(PutShort(result));
    }

    /** buildRegions: one geographical path per input region, in order. */
    method BuildRegions(regions: seq<In.Region>) returns (r: Result<seq<GeographicalPath>, Exception>)
      ensures r == MapAll(regions, RegionOf)
    {
      var built: seq<GeographicalPath> := [];
      var i := 0;
      while i < |regions|
        invariant 0 <= i <= |regions|
        invariant MapAll(regions[..i], RegionOf) == Ok(built)
      {
        var path := BuildRegion(regions[i]);
        if path.Err? {
          MapAllFailsAt(regions, i, RegionOf);
          return Err(path.error);
        }
        MapAllExtend(regions, i, RegionOf, built);
        built := built + [path.value];
        i := i + 1;
      }
      assert regions[..i] == regions;
      return Ok(built);
    }

    /** The body of buildRegions' loop. */
    method BuildRegion(region: In.Region) returns (r: Result<GeographicalPath, Exception>)
      ensures r == RegionOf(region)
    {
      var name := region.name;
      :- ValidateGeoName(name);
      :- ValidateRoadId(region.regulatorId);
      :- ValidateRoadId(region.segmentId);
      var anchor :- Position(region.anchorLat, region.anchorLong, region.anchorElevation);
      :- ValidateLaneWidth(region.laneWidth);
      :- ValidateDirectionality(region.directionality);
      :- ValidateHeading(region.direction);
      var direction := GetHeadingSlice(region.direction);
      var description :- BuildDescription(region);
      return Ok(GeographicalPath(name, region.regulatorId, region.segmentId, anchor,
        region.laneWidth, region.directionality, region.closedPath, direction.value, description));
    }

    /** The description branch of buildRegions' loop. */
    method BuildDescription(region: In.Region) returns (r: Result<Description, Exception>)
      ensures r == DescriptionOf(region)
    {
      if region.description == "path" {
        var p := region.path;
        :- ValidateZoom(p.scale);
        var offset: Option<Offset> := None;
        if p.pathType == "xy" {
          if |p.nodes| > 0 {
            var nodes := BuildNodeXYList(p.nodes);
            offset := Some(Xy(nodes));
          } else {
            var lane := BuildComputedLane(p.computedLane);
            offset := Some(Xy(lane));
          }
        } else if p.pathType == "ll" {
          if |p.nodes| > 0 {
            var nodes := BuildNodeLLList(p.nodes);
            offset := Some(Ll(nodes));
          }
        }
        return Ok(Path(OffsetSystem(p.scale, offset)));
      } else if region.description == "geometry" {
        var g := region.geometry;
        :- ValidateHeading(g.direction);
        var direction := GetHeadingSlice(g.direction);
        :- ValidateExtent(g.extent);
        :- ValidateLaneWidth(g.laneWidth);
        var circle :- BuildCircle(g.circle);
        return Ok(Geometry(GeometricProjection(direction.value, g.extent, g.laneWidth, circle)));
      } else {
        var o := region.oldRegion;
        :- ValidateHeading(o.direction);
        var direction := GetHeadingSlice(o.direction);
        :- ValidateExtent(o.extent);
        var area: Area;
        if o.area == "shapePointSet" {
          var sp := o.shapepoint;
          var anchor :- Position(sp.latitude, sp.longitude, sp.elevation);
          :- ValidateLaneWidth(sp.laneWidth);
          :- ValidateDirectionality(sp.directionality);
          var nodeList: NodeListXY;
          if |sp.nodexy| > 0 {
            nodeList := BuildNodeXYList(sp.nodexy);
          } else {
            nodeList := BuildComputedLane(sp.computedLane);
          }
          area := ShapePointSet(anchor, sp.laneWidth, sp.directionality, nodeList);
        } else if o.area == "regionPointSet" {
          var rp := o.regionPoint;
          var anchor :- Position(rp.latitude, rp.longitude, rp.elevation);
          :- ValidateZoom(rp.scale);
          var offsets :- BuildRegionOffsets(rp.regionList);
          area := RegionPointSet(anchor, rp.scale, offsets);
        } else {
          var circle :- BuildCircle(o.circle);
          area := CircleArea(circle);
        }
        return Ok(OldRegion(ValidRegion(direction.value, o.extent, area)));
      }
    }

    /** buildRegionOffsets: each offset triple checked as three 16-bit offsets. */
    method BuildRegionOffsets(list: seq<In.RegionList>) returns (r: Result<seq<RegionOffsets>, Exception>)
      ensures r == MapAll(list, RegionOffsetsOf)
    {
      var built: seq<RegionOffsets> := [];
      var i := 0;
      while i < |list|
        invariant 0 <= i <= |list|
        invariant MapAll(list[..i], RegionOffsetsOf) == Ok(built)
      {
        var l := list[i];
        var x := ValidateX16Offset(l.xOffset);
        var y := ValidateY16Offset(l.yOffset);
        var z := ValidateZ16Offset(l.zOffset);
        if x.Fail? || y.Fail? || z.Fail? {
          MapAllFailsAt(list, i, RegionOffsetsOf);
          return Err(if x.Fail? then x.error else if y.Fail? then y.error else z.error);
        }
        MapAllExtend(list, i, RegionOffsetsOf, built);
        built := built + [RegionOffsets(l.xOffset, l.yOffset, l.zOffset)];
        i := i + 1;
      }
      assert list[..i] == list;
      return Ok(built);
    }

    /** buildGeoCircle and buildOldCircle, which differ only in where the circle is read from. */
    method BuildCircle(c: In.Circle) returns (r: Result<Circle, Exception>)
      ensures r == CircleOf(c)
    {
      var center :- Position(c.latitude, c.longitude, c.elevation);
      :- ValidateRadius(c.radius);
      :- ValidateUnits(c.units);
      return Ok(Circle(center, c.radius, c.units));
    }

    /** buildNodeXYList: one node per input point; the tags outside the XY alternatives leave the delta unset. */
    method BuildNodeXYList(points: seq<In.NodeXY>) returns (l: NodeListXY)
      ensures l == Nodes(MapTotal(points, NodeXYOf))
    {
      var nodes: seq<Node> := [];
      var i := 0;
      while i < |points|
        invariant 0 <= i <= |points|
        invariant nodes == MapTotal(points[..i], NodeXYOf)
      {
        var p := points[i];
        var delta: Option<NodeOffsetPoint> := None;
        if p.delta == "node-XY1" { delta := Some(NodeXY1(p.x, p.y)); }
        if p.delta == "node-XY2" { delta := Some(NodeXY2(p.x, p.y)); }
        if p.delta == "node-XY3" { delta := Some(NodeXY3(p.x, p.y)); }
        if p.delta == "node-XY4" { delta := Some(NodeXY4(p.x, p.y)); }
        if p.delta == "node-XY5" { delta := Some(NodeXY5(p.x, p.y)); }
        if p.delta == "node-XY6" { delta := Some(NodeXY6(p.x, p.y)); }
        if p.delta == "node-LatLon" { delta := Some(NodeLatLon(p.nodeLat, p.nodeLong)); }
        var attributes := BuildAttributes(p.attributes);
        assert points[..i + 1][..i] == points[..i];
        nodes := nodes + [Node(delta, attributes)];
        i := i + 1;
      }
      assert points[..i] == points;
      return Nodes(nodes);
    }

    /** buildNodeLLList: the same walk over the LL alternatives. */
    method BuildNodeLLList(points: seq<In.NodeXY>) returns (nodes: seq<Node>)
      ensures nodes == MapTotal(points, NodeLLOf)
    {
      nodes := [];
      var i := 0;
      while i < |points|
        invariant 0 <= i <= |points|
        invariant nodes == MapTotal(points[..i], NodeLLOf)
      {
        var p := points[i];
        var delta: Option<NodeOffsetPoint> := None;
        if p.delta == "node-LL1" { delta := Some(NodeLL1(p.nodeLat, p.nodeLong)); }
        if p.delta == "node-LL2" { delta := Some(NodeLL2(p.nodeLat, p.nodeLong)); }
        if p.delta == "node-LL3" { delta := Some(NodeLL3(p.nodeLat, p.nodeLong)); }
        if p.delta == "node-LL4" { delta := Some(NodeLL4(p.nodeLat, p.nodeLong)); }
        if p.delta == "node-LL5" { delta := Some(NodeLL5(p.nodeLat, p.nodeLong)); }
        if p.delta == "node-LL6" { delta := Some(NodeLL6(p.nodeLat, p.nodeLong)); }
        if p.delta == "node-LatLon" { delta := Some(NodeLatLon(p.nodeLat, p.nodeLong)); }
        var attributes := BuildAttributes(p.attributes);
        assert points[..i + 1][..i] == points[..i];
        nodes := nodes + [Node(delta, attributes)];
        i := i + 1;
      }
      assert points[..i] == points;
    }

    /** The attribute block of both node-list loops; each inner list is set only when non-empty. */
    method BuildAttributes(a: In.Attributes) returns (s: NodeAttributeSet)
      ensures s == AttributesOf(a)
    {
      var localNode: Option<seq<int>> := None;
      if |a.localNodes| > 0 {
        var l := BuildLocalNodeList(a.localNodes);
        localNode := Some(l);
      }
      var disabled: Option<seq<int>> := None;
      if |a.disabledLists| > 0 {
        var l := BuildSegmentList(a.disabledLists);
        disabled := Some(l);
      }
      var enabled: Option<seq<int>> := None;
      if |a.enabledLists| > 0 {
        var l := BuildSegmentList(a.enabledLists);
        enabled := Some(l);
      }
      var data: Option<seq<LaneDataAttribute>> := None;
      if |a.dataLists| > 0 {
        var l := BuildLaneDataList(a.dataLists);
        data := Some(l);
      }
      return NodeAttributeSet(localNode, disabled, enabled, data, a.dWidth, a.dElevation);
    }

    method BuildLocalNodeList(xs: seq<In.LocalNode>) returns (ys: seq<int>)
      ensures ys == MapTotal(xs, LocalNodeOf)
    {
      ys := [];
      var i := 0;
      while i < |xs|
        invariant 0 <= i <= |xs|
        invariant ys == MapTotal(xs[..i], LocalNodeOf)
      {
        assert xs[..i + 1][..i] == xs[..i];
        ys := ys + [xs[i].nodeType];
        i := i + 1;
      }
      assert xs[..i] == xs;
    }

    method BuildSegmentList(xs: seq<In.SegmentList>) returns (ys: seq<int>)
      ensures ys == MapTotal(xs, SegmentOf)
    {
      ys := [];
      var i := 0;
      while i < |xs|
        invariant 0 <= i <= |xs|
        invariant ys == MapTotal(xs[..i], SegmentOf)
      {
        assert xs[..i + 1][..i] == xs[..i];
        ys := ys + [xs[i].segmentType];
        i := i + 1;
      }
      assert xs[..i] == xs;
    }

    method BuildLaneDataList(xs: seq<In.DataList>) returns (ys: seq<LaneDataAttribute>)
      ensures ys == MapTotal(xs, LaneDataOf)
    {
      ys := [];
      var i := 0;
      while i < |xs|
        invariant 0 <= i <= |xs|
        invariant ys == MapTotal(xs[..i], LaneDataOf)
      {
        var d := xs[i];
        var speedLimits := BuildSpeedLimitList(d.speedLimits);
        assert xs[..i + 1][..i] == xs[..i];
        ys := ys + [LaneDataAttribute(d.pathEndpointAngle, d.laneCrownCenter, d.laneCrownLeft,
          d.laneCrownRight, d.laneAngle, speedLimits)];
        i := i + 1;
      }
      assert xs[..i] == xs;
    }

    method BuildSpeedLimitList(xs: seq<In.SpeedLimits>) returns (ys: seq<RegulatorySpeedLimit>)
      ensures ys == MapTotal(xs, SpeedLimitOf)
    {
      ys := [];
      var i := 0;
      while i < |xs|
        invariant 0 <= i <= |xs|
        invariant ys == MapTotal(xs[..i], SpeedLimitOf)
      {
        assert xs[..i + 1][..i] == xs[..i];
        ys := ys + [RegulatorySpeedLimit(xs[i].limitType, xs[i].velocity)];
        i := i + 1;
      }
      assert xs[..i] == xs;
    }

    /** buildComputedLane: the y axis is chosen by the large x offset, as the x axis is. */
    method BuildComputedLane(c: In.ComputedLane) returns (l: NodeListXY)
      ensures l == Computed(ComputedLaneOf(c))
    {
      var x: DrivenLineOffset;
      if c.offsetLargeX > 0 {
        x := Large(c.offsetLargeX);
      } else {
        x := Small(c.offsetSmallX);
      }
      var y: DrivenLineOffset;
      if c.offsetLargeX > 0 {
        y := Large(c.offsetLargeY);
      } else {
        y := Small(c.offsetSmallY);
      }
      return Computed(ComputedLane(c.laneId, x, y, c.angle, c.xScale, c.yScale));
    }
  }
}
