/**
 * The message tree the builder assembles (the SAE J2735 TravelerInformation message).
 * Every ASN.1 CHOICE is a datatype with one constructor per alternative; a CHOICE the
 * builder may leave unset is wrapped in an Option.
 */
module TimTree {
  import opened Wrappers
  import opened ByteBuffers

  /** The top-level message; a field is None until the builder has set it. */
  datatype TravelerInformation = TravelerInformation(
    msgCnt: Option<int>,
    packetId: Option<seq<byte>>,
    urlB: Option<string>,
    dataFrames: Option<seq<TravelerDataFrame>>)

  datatype TravelerDataFrame = TravelerDataFrame(
    sspTimRights: int,
    frameType: int,
    msgId: MsgId,
    startYear: int,
    startTime: int,
    duratonTime: int,
    priority: int,
    sspLocationRights: int,
    regions: seq<GeographicalPath>,
    sspMsgRights1: int,
    sspMsgRights2: int,
    content: Content,
    url: string)

  /** A validated latitude, longitude and elevation, before the external position packer. */
  datatype Position3D = Position3D(lat: int, long: int, elevation: int)

  datatype MsgId =
    | RoadSignId(position: Position3D, viewAngle: seq<byte>, mutcdCode: int)
    | FurtherInfoId(furtherInfo: seq<byte>)

  datatype ContentKind = Advisory | WorkZone | SpeedLimit | ExitService | GenericSign

  /** The five content alternatives share one shape: a list of ITIS item values. */
  datatype Content = Content(kind: ContentKind, items: seq<int>)

  datatype GeographicalPath = GeographicalPath(
    name: string,
    regulatorId: int,
    segmentId: int,
    anchor: Position3D,
    laneWidth: int,
    directionality: int,
    closedPath: bool,
    direction: seq<byte>,
    description: Description)

  datatype Description =
    | Path(path: OffsetSystem)
    | Geometry(geometry: GeometricProjection)
    | OldRegion(oldRegion: ValidRegion)

  datatype OffsetSystem = OffsetSystem(scale: int, offset: Option<Offset>)

  datatype Offset = Xy(xy: NodeListXY) | Ll(ll: seq<Node>)

  datatype NodeListXY = Nodes(nodes: seq<Node>) | Computed(computed: ComputedLane)

  /** A node of either list; `delta` is None when the input tag matched no alternative. */
  datatype Node = Node(delta: Option<NodeOffsetPoint>, attributes: NodeAttributeSet)

  datatype NodeOffsetPoint =
    | NodeXY1(x: int, y: int)
    | NodeXY2(x: int, y: int)
    | NodeXY3(x: int, y: int)
    | NodeXY4(x: int, y: int)
    | NodeXY5(x: int, y: int)
    | NodeXY6(x: int, y: int)
    | NodeLL1(lon: int, lat: int)
    | NodeLL2(lon: int, lat: int)
    | NodeLL3(lon: int, lat: int)
    | NodeLL4(lon: int, lat: int)
    | NodeLL5(lon: int, lat: int)
    | NodeLL6(lon: int, lat: int)
    | NodeLatLon(lon: int, lat: int)

  datatype NodeAttributeSet = NodeAttributeSet(
    localNode: Option<seq<int>>,
    disabled: Option<seq<int>>,
    enabled: Option<seq<int>>,
    data: Option<seq<LaneDataAttribute>>,
    dWidth: int,
    dElevation: int)

  datatype LaneDataAttribute = LaneDataAttribute(
    pathEndPointAngle: int,
    laneCrownPointCenter: int,
    laneCrownPointLeft: int,
    laneCrownPointRight: int,
    laneAngle: int,
    speedLimits: seq<RegulatorySpeedLimit>)

  datatype RegulatorySpeedLimit = RegulatorySpeedLimit(limitType: int, speed: int)

  datatype DrivenLineOffset = Small(small: int) | Large(large: int)

  datatype ComputedLane = ComputedLane(
    referenceLaneId: int,
    offsetXaxis: DrivenLineOffset,
    offsetYaxis: DrivenLineOffset,
    rotateXY: int,
    scaleXaxis: int,
    scaleYaxis: int)

  datatype Circle = Circle(center: Position3D, radius: int, units: int)

  datatype GeometricProjection = GeometricProjection(
    direction: seq<byte>,
    extent: int,
    laneWidth: int,
    circle: Circle)

  datatype ValidRegion = ValidRegion(direction: seq<byte>, extent: int, area: Area)

  datatype Area =
    | ShapePointSet(anchor: Position3D, laneWidth: int, directionality: int, nodeList: NodeListXY)
    | RegionPointSet(anchor: Position3D, scale: int, regionList: seq<RegionOffsets>)
    | CircleArea(circle: Circle)

  datatype RegionOffsets = RegionOffsets(xOffset: int, yOffset: int, zOffset: int)
}
