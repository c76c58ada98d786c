/**
 * The match postprocessor of coverage/map_matching.py: it reshapes the response of
 * the map-matching service into metadata, edge and match records, the form the
 * trace reconciler consumes. The HTTP call itself is not modelled; the request
 * payload it sends is.
 */
module MapMatching {

  /** A trajectory sample sent to the service. */
  datatype Point = Point(lat: real, lon: real)

  /** The request body: the shape to match and the two fixed service options. */
  datatype MatchRequest = MatchRequest(shape: seq<Point>, costing: string, shapeMatch: string)

  /*
   * The response objects. Each carries the fields the postprocessor reads; `extra`
   * stands for the other keys of the JSON object, which the postprocessor drops.
   */
  datatype RawAdmin = RawAdmin(
    stateCode: string, stateText: string, countryCode: string, countryText: string,
    extra: map<string, string>)

  datatype RawEndNode = RawEndNode(adminIndex: int, extra: map<string, string>)

  datatype RawEdge = RawEdge(
    wayId: int, endNode: RawEndNode, roadClass: string, length: real,
    beginHeading: int, endHeading: int, extra: map<string, string>)

  datatype RawMatchedPoint = RawMatchedPoint(
    edgeIndex: int, kind: string, distanceAlongEdge: real, lat: real, lon: real,
    extra: map<string, string>)

  datatype RawResponse = RawResponse(
    admins: seq<RawAdmin>, edges: seq<RawEdge>, matchedPoints: seq<RawMatchedPoint>,
    extra: map<string, string>)

  /** The postprocessed records. */
  datatype Admin = Admin(stateCode: string, stateText: string, countryCode: string, countryText: string)

  datatype Edge = Edge(
    wayId: int, metaIndex: int, roadClass: string, length: real,
    beginHeading: int, endHeading: int)

  /** A matched point; `edgeRatio` is the service's `distance_along_edge`. */
  datatype Match = Match(edgeIndex: int, kind: string, edgeRatio: real, lat: real, lon: real)

  datatype MatchResult = MatchResult(meta: seq<Admin>, edges: seq<Edge>, matches: seq<Match>)

  const MAX_SHAPE_POINTS := 5

  /** The payload that `match_trajectory` posts: at most the first five points. */
  function RequestFor(trajectory: seq<Point>): (r: MatchRequest)
    ensures |r.shape| == if |trajectory| < MAX_SHAPE_POINTS then |trajectory| else MAX_SHAPE_POINTS
    ensures r.shape <= trajectory
    ensures r.costing == "auto" && r.shapeMatch == "map_snap"
  {
    var n := if |trajectory| < MAX_SHAPE_POINTS then |trajectory| else MAX_SHAPE_POINTS;
    MatchRequest(trajectory[..n], "auto", "map_snap")
  }

  function AdminOf(a: RawAdmin): Admin
  {
    Admin(a.stateCode, a.stateText, a.countryCode, a.countryText)
  }

  function EdgeOf(e: RawEdge): Edge
  {
    Edge(e.wayId, e.endNode.adminIndex, e.roadClass, e.length, e.beginHeading, e.endHeading)
  }

  function MatchOf(p: RawMatchedPoint): Match
  {
    Match(p.edgeIndex, p.kind, p.distanceAlongEdge, p.lat, p.lon)
  }

  /** `extract_metadata`: the four state and country fields of every admin entry, in order. */
  function ExtractMetadata(data: seq<RawAdmin>): (r: seq<Admin>)
    ensures |r| == |data|
    ensures forall i :: 0 <= i < |data| ==>
      && r[i].stateCode == data[i].stateCode && r[i].stateText == data[i].stateText
      && r[i].countryCode == data[i].countryCode && r[i].countryText == data[i].countryText
  {
    seq(|data|, i requires 0 <= i < |data| => AdminOf(data[i]))
  }

  /** `extract_edges`: one edge per response edge, in order; the admin index moves up from `end_node`. */
  function ExtractEdges(data: seq<RawEdge>): (r: seq<Edge>)
    ensures |r| == |data|
    ensures forall i :: 0 <= i < |data| ==>
      && r[i].wayId == data[i].wayId && r[i].metaIndex == data[i].endNode.adminIndex
      && r[i].roadClass == data[i].roadClass && r[i].length == data[i].length
      && r[i].beginHeading == data[i].beginHeading && r[i].endHeading == data[i].endHeading
  {
    seq(|data|, i requires 0 <= i < |data| => EdgeOf(data[i]))
  }

  /** `extract_matches`: one match per matched point, in order, `distance_along_edge` renamed `edge_ratio`. */
  function ExtractMatches(data: seq<RawMatchedPoint>): (r: seq<Match>)
    ensures |r| == |data|
    ensures forall i :: 0 <= i < |data| ==>
      && r[i].edgeIndex == data[i].edgeIndex && r[i].edgeRatio == data[i].distanceAlongEdge
      && r[i].kind == data[i].kind && r[i].lat == data[i].lat && r[i].lon == data[i].lon
  {
    seq(|data|, i requires 0 <= i < |data| => MatchOf(data[i]))
  }

  /** `postprocess_match`: `meta` from `admins`, `edges` from `edges`, `matches` from `matched_points`. */
  function PostprocessMatch(response: RawResponse): (r: MatchResult)
    ensures r.meta == ExtractMetadata(response.admins)
    ensures r.edges == ExtractEdges(response.edges)
    ensures r.matches == ExtractMatches(response.matchedPoints)
  {
    MatchResult(
      ExtractMetadata(response.admins),
      ExtractEdges(response.edges),
      ExtractMatches(response.matchedPoints))
  }

  /**
   * Two responses that differ only in the fields the postprocessor drops give the
   * same match result.
   */
  lemma PostprocessIgnoresExtraFields(a: RawResponse, b: RawResponse)
    requires |a.admins| == |b.admins| && |a.edges| == |b.edges| && |a.matchedPoints| == |b.matchedPoints|
    requires forall i :: 0 <= i < |a.admins| ==> AdminOf(a.admins[i]) == AdminOf(b.admins[i])
    requires forall i :: 0 <= i < |a.edges| ==> EdgeOf(a.edges[i]) == EdgeOf(b.edges[i])
    requires forall i :: 0 <= i < |a.matchedPoints| ==> MatchOf(a.matchedPoints[i]) == MatchOf(b.matchedPoints[i])
    ensures PostprocessMatch(a) == PostprocessMatch(b)
  {
    assert ExtractMetadata(a.admins) == ExtractMetadata(b.admins);
    assert ExtractEdges(a.edges) == ExtractEdges(b.edges);
    assert ExtractMatches(a.matchedPoints) == ExtractMatches(b.matchedPoints);
  }
}
