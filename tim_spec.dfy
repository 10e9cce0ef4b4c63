/**
 * What the builder produces from an input document, as functions: where each input field
 * goes in the message tree, which checks guard it and in which order, so that the first
 * failing check is the exception the build throws.
 */
module TimSpec {
  import opened Wrappers
  import opened JavaLang
  import opened ByteBuffers
  import opened TimValidators
  import opened DerivedValues
  import opened FailFast
  import In = TimInput
  import opened TimTree

  // ---------------------------------------------------------------------------------------
  // Positions

  /** getPosition3D: latitude, longitude and elevation checked in that order. */
  function Position(lat: int, long: int, elevation: int): (r: Result<Position3D, Exception>)
    ensures r.Ok? <==>
      ValidateLat(lat).Pass? && ValidateLong(long).Pass? && ValidateElevation(elevation).Pass?
    ensures r.Ok? ==> r.value == Position3D(lat, long, elevation)
  {
    var position := Position3D(lat, long, elevation);
    :- ValidateLat(lat);
    :- ValidateLong(long);
    :- ValidateElevation(elevation);
    Ok(position)
  }

  // ---------------------------------------------------------------------------------------
  // Content

  /** The content alternative named by the frame's content text; anything unknown is a generic sign. */
  function ContentKindOf(contentType: string): ContentKind {
    if contentType == "Advisory" then Advisory
    else if contentType == "Work Zone" then WorkZone
    else if contentType == "Speed Limit" then SpeedLimit
    else if contentType == "Exit Service" then ExitService
    else GenericSign
  }

  /** One advisory item: the ITIS check with room for 500 characters of text, then Long.parseLong. */
  function AdvisoryItem(code: string): Result<int, Exception> {
    var parsed := ParseLong(code);
    :- ValidateItisCodes(code);
    match parsed
    case Some(v) => Ok(v)
    case None => Err(NumberFormat(code))
  }

  /** One item of any other content kind: the same, with room for 16 characters of text. */
  function ContentItem(code: string): Result<int, Exception> {
    var parsed := ParseLong(code);
    :- ValidateContentCodes(code);
    match parsed
    case Some(v) => Ok(v)
    case None => Err(NumberFormat(code))
  }

  /** The item builder the content kind selects. */
  function ItemFor(kind: ContentKind): string -> Result<int, Exception> {
    if kind == Advisory then AdvisoryItem else ContentItem
  }

  /** buildContent: the chosen alternative holds one item per code, in order. */
  function ContentOf(contentType: string, codes: seq<string>): Result<Content, Exception> {
    var kind := ContentKindOf(contentType);
    var items :- MapAll(codes, ItemFor(kind));
    Ok(Content(kind, items))
  }

  // ---------------------------------------------------------------------------------------
  // Message id

  /**
   * getMessageId: a road sign id carries the checked position, the view angle's heading slice
   * and the MUTCD code; a further-info id carries two zero bytes.
   */
  function MessageId(f: In.DataFrame): Result<MsgId, Exception> {
    var id := f.msgId;
    :- ValidateMessageId(id);
    if id == "RoadSignID" then
      :- ValidateLong(f.longitude);
      :- ValidateLat(f.latitude);
      :- ValidateElevation(f.elevation);
      var position := Position(f.latitude, f.longitude, f.elevation).value;
      :- ValidateHeading(f.viewAngle);
      var viewAngle := HeadingSlice(f.viewAngle).value;
      :- ValidateMutcdCode(f.mutcd);
      Ok(RoadSignId(position, viewAngle, f.mutcd))
    else
      Ok(FurtherInfoId([0, 0]))
  }

  // ---------------------------------------------------------------------------------------
  // Node lists

  function LocalNodeOf(l: In.LocalNode): int {
    l.nodeType
  }

  function SegmentOf(l: In.SegmentList): int {
    l.segmentType
  }

  function SpeedLimitOf(s: In.SpeedLimits): RegulatorySpeedLimit {
    RegulatorySpeedLimit(s.limitType, s.velocity)
  }

  function LaneDataOf(d: In.DataList): LaneDataAttribute {
    LaneDataAttribute(d.pathEndpointAngle, d.laneCrownCenter, d.laneCrownLeft, d.laneCrownRight,
      d.laneAngle, MapTotal(d.speedLimits, SpeedLimitOf))
  }

  /** A list that is set only when the input has at least one entry. */
  function NonEmpty<A, B>(xs: seq<A>, f: A -> B): Option<seq<B>> {
    if |xs| > 0 then Some(MapTotal(xs, f)) else None
  }

  /** The attribute set of a node of either list: nothing in it is checked. */
  function AttributesOf(a: In.Attributes): NodeAttributeSet {
    NodeAttributeSet(
      NonEmpty(a.localNodes, LocalNodeOf),
      NonEmpty(a.disabledLists, SegmentOf),
      NonEmpty(a.enabledLists, SegmentOf),
      NonEmpty(a.dataLists, LaneDataOf),
      a.dWidth,
      a.dElevation)
  }

  /**
   * The delta of a node of an XY list, chosen by its tag; the lat/lon alternative puts the
   * node's latitude in the longitude slot and its longitude in the latitude slot.
   */
  function DeltaXY(p: In.NodeXY): Option<NodeOffsetPoint> {
    if p.delta == "node-XY1" then Some(NodeXY1(p.x, p.y))
    else if p.delta == "node-XY2" then Some(NodeXY2(p.x, p.y))
    else if p.delta == "node-XY3" then Some(NodeXY3(p.x, p.y))
    else if p.delta == "node-XY4" then Some(NodeXY4(p.x, p.y))
    else if p.delta == "node-XY5" then Some(NodeXY5(p.x, p.y))
    else if p.delta == "node-XY6" then Some(NodeXY6(p.x, p.y))
    else if p.delta == "node-LatLon" then Some(NodeLatLon(p.nodeLat, p.nodeLong))
    else None
  }

  /** The delta of a node of an LL list, chosen by its tag, with the same lat/lon slot swap. */
  function DeltaLL(p: In.NodeXY): Option<NodeOffsetPoint> {
    if p.delta == "node-LL1" then Some(NodeLL1(p.nodeLat, p.nodeLong))
    else if p.delta == "node-LL2" then Some(NodeLL2(p.nodeLat, p.nodeLong))
    else if p.delta == "node-LL3" then Some(NodeLL3(p.nodeLat, p.nodeLong))
    else if p.delta == "node-LL4" then Some(NodeLL4(p.nodeLat, p.nodeLong))
    else if p.delta == "node-LL5" then Some(NodeLL5(p.nodeLat, p.nodeLong))
    else if p.delta == "node-LL6" then Some(NodeLL6(p.nodeLat, p.nodeLong))
    else if p.delta == "node-LatLon" then Some(NodeLatLon(p.nodeLat, p.nodeLong))
    else None
  }

  function NodeXYOf(p: In.NodeXY): Node {
    Node(DeltaXY(p), AttributesOf(p.attributes))
  }

  function NodeLLOf(p: In.NodeXY): Node {
    Node(DeltaLL(p), AttributesOf(p.attributes))
  }

  /** buildComputedLane: both axes take their large offset exactly when the large x offset is positive. */
  function ComputedLaneOf(c: In.ComputedLane): ComputedLane {
    ComputedLane(
      c.laneId,
      if c.offsetLargeX > 0 then Large(c.offsetLargeX) else Small(c.offsetSmallX),
      if c.offsetLargeX > 0 then Large(c.offsetLargeY) else Small(c.offsetSmallY),
      c.angle,
      c.xScale,
      c.yScale)
  }

  /** The XY node list of a non-empty node array, the computed lane otherwise. */
  function NodeListOf(nodes: seq<In.NodeXY>, lane: In.ComputedLane): NodeListXY {
    if |nodes| > 0 then Nodes(MapTotal(nodes, NodeXYOf)) else Computed(ComputedLaneOf(lane))
  }

  // ---------------------------------------------------------------------------------------
  // Regions

  function CircleOf(c: In.Circle): Result<Circle, Exception> {
    var center :- Position(c.latitude, c.longitude, c.elevation);
    :- ValidateRadius(c.radius);
    :- ValidateUnits(c.units);
    Ok(Circle(center, c.radius, c.units))
  }

  function RegionOffsetsOf(l: In.RegionList): Result<RegionOffsets, Exception> {
    var offsets := RegionOffsets(l.xOffset, l.yOffset, l.zOffset);
    :- ValidateX16Offset(l.xOffset);
    :- ValidateY16Offset(l.yOffset);
    :- ValidateZ16Offset(l.zOffset);
    Ok(offsets)
  }

  /** The offset of a path description: an "ll" path without nodes, or an unknown type, has none. */
  function PathOffset(p: In.Path): Option<Offset> {
    if p.pathType == "xy" then Some(Xy(NodeListOf(p.nodes, p.computedLane)))
    else if p.pathType == "ll" then
      if |p.nodes| > 0 then Some(Ll(MapTotal(p.nodes, NodeLLOf))) else None
    else None
  }

  function AreaOf(o: In.OldRegion): Result<Area, Exception> {
    if o.area == "shapePointSet" then
      var sp := o.shapepoint;
      var anchor :- Position(sp.latitude, sp.longitude, sp.elevation);
      :- ValidateLaneWidth(sp.laneWidth);
      :- ValidateDirectionality(sp.directionality);
      Ok(ShapePointSet(anchor, sp.laneWidth, sp.directionality, NodeListOf(sp.nodexy, sp.computedLane)))
    else if o.area == "regionPointSet" then
      var rp := o.regionPoint;
      var anchor :- Position(rp.latitude, rp.longitude, rp.elevation);
      :- ValidateZoom(rp.scale);
      var offsets :- MapAll(rp.regionList, RegionOffsetsOf);
      Ok(RegionPointSet(anchor, rp.scale, offsets))
    else
      var circle :- CircleOf(o.circle);
      Ok(CircleArea(circle))
  }

  /** The description a region's description text selects; anything but "path" or "geometry" is an old region. */
  function DescriptionOf(r: In.Region): Result<Description, Exception> {
    if r.description == "path" then
      :- ValidateZoom(r.path.scale);
      Ok(Path(OffsetSystem(r.path.scale, PathOffset(r.path))))
    else if r.description == "geometry" then
      var g := r.geometry;
      :- ValidateHeading(g.direction);
      var direction := HeadingSlice(g.direction).value;
      :- ValidateExtent(g.extent);
      :- ValidateLaneWidth(g.laneWidth);
      var circle :- CircleOf(g.circle);
      Ok(Geometry(GeometricProjection(direction, g.extent, g.laneWidth, circle)))
    else
      var o := r.oldRegion;
      :- ValidateHeading(o.direction);
      var direction := HeadingSlice(o.direction).value;
      :- ValidateExtent(o.extent);
      var area :- AreaOf(o);
      Ok(OldRegion(ValidRegion(direction, o.extent, area)))
  }

  /** One geographical path of buildRegions. */
  function RegionOf(r: In.Region): Result<GeographicalPath, Exception> {
    var name := r.name;
    :- ValidateGeoName(name);
    :- ValidateRoadId(r.regulatorId);
    :- ValidateRoadId(r.segmentId);
    var anchor :- Position(r.anchorLat, r.anchorLong, r.anchorElevation);
    :- ValidateLaneWidth(r.laneWidth);
    :- ValidateDirectionality(r.directionality);
    :- ValidateHeading(r.direction);
    var direction := HeadingSlice(r.direction).value;
    var description :- DescriptionOf(r);
    Ok(GeographicalPath(name, r.regulatorId, r.segmentId, anchor, r.laneWidth, r.directionality,
      r.closedPath, direction, description))
  }

  // ---------------------------------------------------------------------------------------
  // Frames and the message

  /** One frame of buildDataFrames: header, regions, then content, in the order they are checked. */
  function DataFrameOf(f: In.DataFrame): Result<TravelerDataFrame, Exception> {
    var timRights := f.sspTimRights;
    :- ValidateHeaderIndex(timRights);
    :- ValidateInfoType(f.frameType);
    var msgId :- MessageId(f);
    var startYear := StartYear(f.startTime).value;
    var startTime :- StartTimeOf(f.startTime);
    :- ValidateMinutesDuration(f.durationTime);
    :- ValidateSign(f.priority);
    :- ValidateHeaderIndex(f.sspLocationRights);
    var regions :- MapAll(f.regions, RegionOf);
    :- ValidateHeaderIndex(f.sspMsgTypes);
    :- ValidateHeaderIndex(f.sspMsgContent);
    var content :- ContentOf(f.content, f.items);
    :- ValidateUrlShort(f.url);
    Ok(TravelerDataFrame(timRights, f.frameType, msgId, startYear, startTime, f.durationTime,
      f.priority, f.sspLocationRights, regions, f.sspMsgTypes, f.sspMsgContent, content, f.url))
  }

  /** buildDataFrames: between one and eight frames, each built in order. */
  function DataFramesOf(frames: seq<In.DataFrame>): Result<seq<TravelerDataFrame>, Exception> {
    var count := |frames|;
    :- ValidateFrameCount(count);
    MapAll(frames, DataFrameOf)
  }

  /**
   * What a build leaves behind: the message stored in the shared field, complete or as far
   * as it got, and what the call returns or throws.
   */
  datatype BuildOutcome = BuildOutcome(
    stored: TravelerInformation,
    result: Result<TravelerInformation, Exception>)

  const EMPTY_MESSAGE: TravelerInformation := TravelerInformation(None, None, None, None)

  /** buildTravelerInformation: each field is stored as soon as its check passes. */
  function Build(input: In.TravelerInputData): BuildOutcome {
    var empty := EMPTY_MESSAGE;
    match ValidateMessageCount(input.msgCount)
    case Fail(e) => BuildOutcome(empty, Err(e))
    case Pass =>
      var counted := empty.(msgCnt := Some(input.msgCount), packetId := Some(PacketId(input.uniqueMsgId)));
      match ValidateUrl(input.urlB)
      case Fail(e) => BuildOutcome(counted, Err(e))
      case Pass =>
        var addressed := counted.(urlB := Some(input.urlB));
        match DataFramesOf(input.dataframes)
        case Err(e) => BuildOutcome(addressed, Err(e))
        case Ok(frames) =>
          var complete := addressed.(dataFrames := Some(frames));
          BuildOutcome(complete, Ok(complete))
  }
}
