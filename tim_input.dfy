/**
 * The flat input document the builder reads (J2735TravelerInputData), restricted to
 * the fields the builder touches. Java references are taken to be non-null.
 */
module TimInput {
  import opened JavaLang

  datatype TravelerInputData = TravelerInputData(
    msgCount: int,
    uniqueMsgId: Int64,
    urlB: string,
    dataframes: seq<DataFrame>)

  /**
   * The frame's start-time text, as the date parser reads it: the calendar year, the
   * instant it denotes, and the reference instant that the text "01/01/<year> 12:00 AM"
   * parses to under the pattern "MM/dd/yyyy HH:mm a", both in milliseconds since the epoch.
   */
  datatype StartTime = StartTime(year: int, startMillis: Int64, yearStartMillis: Int64)

  datatype DataFrame = DataFrame(
    sspTimRights: int,
    frameType: int,
    msgId: string,
    latitude: int,
    longitude: int,
    elevation: int,
    viewAngle: string,
    mutcd: int,
    startTime: StartTime,
    durationTime: int,
    priority: int,
    sspLocationRights: int,
    regions: seq<Region>,
    sspMsgTypes: int,
    sspMsgContent: int,
    content: string,
    items: seq<string>,
    url: string)

  datatype Region = Region(
    name: string,
    regulatorId: int,
    segmentId: int,
    anchorLat: int,
    anchorLong: int,
    anchorElevation: int,
    laneWidth: int,
    directionality: int,
    closedPath: bool,
    direction: string,
    description: string,
    path: Path,
    geometry: Geometry,
    oldRegion: OldRegion)

  datatype Path = Path(scale: int, pathType: string, nodes: seq<NodeXY>, computedLane: ComputedLane)

  datatype ComputedLane = ComputedLane(
    laneId: int,
    offsetLargeX: int,
    offsetSmallX: int,
    offsetLargeY: int,
    offsetSmallY: int,
    angle: int,
    xScale: int,
    yScale: int)

  /** A node of either node list; the tag names the delta form. */
  datatype NodeXY = NodeXY(
    delta: string,
    x: int,
    y: int,
    nodeLat: int,
    nodeLong: int,
    attributes: Attributes)

  datatype Attributes = Attributes(
    localNodes: seq<LocalNode>,
    disabledLists: seq<SegmentList>,
    enabledLists: seq<SegmentList>,
    dataLists: seq<DataList>,
    dWidth: int,
    dElevation: int)

  datatype LocalNode = LocalNode(nodeType: int)

  datatype SegmentList = SegmentList(segmentType: int)

  datatype DataList = DataList(
    pathEndpointAngle: int,
    laneCrownCenter: int,
    laneCrownLeft: int,
    laneCrownRight: int,
    laneAngle: int,
    speedLimits: seq<SpeedLimits>)

  datatype SpeedLimits = SpeedLimits(limitType: int, velocity: int)

  datatype Circle = Circle(latitude: int, longitude: int, elevation: int, radius: int, units: int)

  datatype Geometry = Geometry(direction: string, extent: int, laneWidth: int, circle: Circle)

  datatype OldRegion = OldRegion(
    direction: string,
    extent: int,
    area: string,
    shapepoint: ShapePoint,
    regionPoint: RegionPoint,
    circle: Circle)

  datatype ShapePoint = ShapePoint(
    latitude: int,
    longitude: int,
    elevation: int,
    laneWidth: int,
    directionality: int,
    nodexy: seq<NodeXY>,
    computedLane: ComputedLane)

  datatype RegionPoint = RegionPoint(
    latitude: int,
    longitude: int,
    elevation: int,
    scale: int,
    regionList: seq<RegionList>)

  datatype RegionList = RegionList(xOffset: int, yOffset: int, zOffset: int)
}
