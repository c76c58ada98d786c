/**
 * The SQLite variant of the motorway database script
 * (db/prepare_motorway_database_mysql.py). Its way handler inserts every
 * motorway and motorway link straight into the `ways` and `way_nodes` tables,
 * converting `maxspeed` and `lanes` with `int()` and reading tags without the
 * "none" check; its node handler is the buffered `NodeImport.NodeCache` with a
 * bound of 10000. The first, shadowed node handler of the file is never used.
 */
module MotorwayDatabaseMysql {
  import opened Wrappers
  import opened Osm
  import opened OsmTags
  import opened MotorwayDatabase
  import opened Sequences

  /** `HIGHWAY_TYPE_MAPPING`. */
  const HIGHWAY_TYPE_MAPPING: map<string, int> := map["motorway" := 1, "motorway_link" := 2]

  /** A row of the `ways` table of this script, in column order. */
  datatype RoadRow = RoadRow(
    id: int, ref: Option<string>, name: Option<string>, roadType: int,
    oneway: bool, maxspeed: Option<int>, lanes: Option<int>, tunnel: bool)

  /** A row of `way_nodes`: no position column, only the pair. */
  datatype WayNodeLink = WayNodeLink(wayId: int, nodeId: int)

  /**
   * The tuple `way` inserts. The tuple is evaluated left to right, so a
   * `maxspeed` that does not parse raises before `lanes` is read.
   */
  function RoadRowOf(parseInt: IntParser, w: OsmWay): (r: Result<RoadRow, TagError>)
    requires IsMotorway(w)
    ensures r.Err? <==>
      IntTag(w.tags, "maxspeed", false, parseInt).Err? || IntTag(w.tags, "lanes", false, parseInt).Err?
    ensures r.Err? && IntTag(w.tags, "maxspeed", false, parseInt).Err? ==>
      r.error == ValueError("maxspeed", w.tags["maxspeed"])
    ensures r.Err? && IntTag(w.tags, "maxspeed", false, parseInt).Ok? ==>
      r.error == ValueError("lanes", w.tags["lanes"])
    ensures r.Ok? ==>
      && r.value.id == w.id
      && r.value.roadType == (if w.tags["highway"] == "motorway" then 1 else 2)
      && r.value.maxspeed == IntTag(w.tags, "maxspeed", false, parseInt).value
      && r.value.lanes == IntTag(w.tags, "lanes", false, parseInt).value
      && r.value.ref == TagValue(w.tags, "ref", false) && r.value.name == TagValue(w.tags, "name", false)
      && r.value.oneway == IsOneway(w.tags) && r.value.tunnel == IsTunnel(w.tags)
  {
    match IntTag(w.tags, "maxspeed", false, parseInt)
    case Err(e) => Err(e)
    case Ok(maxspeed) =>
      match IntTag(w.tags, "lanes", false, parseInt)
      case Err(e) => Err(e)
      case Ok(lanes) =>
        Ok(RoadRow(
          w.id, TagValue(w.tags, "ref", false), TagValue(w.tags, "name", false),
          HIGHWAY_TYPE_MAPPING[w.tags["highway"]], IsOneway(w.tags), maxspeed, lanes, IsTunnel(w.tags)))
  }

  /** The `(way_id, node_id)` rows of one way, in node order. */
  function LinksOf(w: OsmWay): (r: seq<WayNodeLink>)
    ensures |r| == |w.nodes| && forall i :: 0 <= i < |r| ==> r[i] == WayNodeLink(w.id, w.nodes[i])
  {
    seq(|w.nodes|, i requires 0 <= i < |w.nodes| => WayNodeLink(w.id, w.nodes[i]))
  }

  /** What the tables hold after a stream of ways, and the exception that ended it. */
  datatype Tables = Tables(ways: seq<RoadRow>, wayNodes: seq<WayNodeLink>, nodeIds: set<int>, error: Option<TagError>)

  function InsertAll(parseInt: IntParser, stream: seq<OsmWay>): Tables
  {
    if stream == [] then Tables([], [], {}, None)
    else
      var t := InsertAll(parseInt, stream[..|stream| - 1]);
      var w := stream[|stream| - 1];
      if t.error.Some? || !IsMotorway(w) then t
      else match RoadRowOf(parseInt, w)
        case Err(e) => t.(error := Some(e))
        case Ok(row) => Tables(t.ways + [row], t.wayNodes + LinksOf(w), t.nodeIds + NodeSet(w), None)
  }

  /** The motorways of a stream, in order. */
  function Motorways(stream: seq<OsmWay>): (r: seq<OsmWay>)
    ensures forall i :: 0 <= i < |r| ==> IsMotorway(r[i])
  {
    if stream == [] then []
    else
      var init := Motorways(stream[..|stream| - 1]);
      if IsMotorway(stream[|stream| - 1]) then init + [stream[|stream| - 1]] else init
  }

  /**
   * `pos` places the ways of `r` in `stream`, in order, and covers every
   * motorway of `stream`.
   */
  ghost predicate PicksMotorways(stream: seq<OsmWay>, r: seq<OsmWay>, pos: seq<int>)
  {
    && Embeds(r, stream, pos)
    && forall k :: 0 <= k < |stream| && IsMotorway(stream[k]) ==> k in pos
  }

  /**
   * The ways kept are exactly the motorways of the stream, in stream order:
   * none is dropped and none is reordered.
   */
  lemma {:induction false} MotorwaysIsFilter(stream: seq<OsmWay>)
    ensures exists pos :: PicksMotorways(stream, Motorways(stream), pos)
  {
    if stream == [] {
      assert PicksMotorways(stream, Motorways(stream), []);
    } else {
      var init := stream[..|stream| - 1];
      MotorwaysIsFilter(init);
      var ms := Motorways(init);
      var pos :| PicksMotorways(init, ms, pos);
      var last := |stream| - 1;
      if IsMotorway(stream[last]) {
        assert Motorways(stream) == ms + [stream[last]];
        EmbedsExtend(ms, init, pos, stream, last);
        MotorwayPicksCover(stream, pos, pos + [last]);
        assert PicksMotorways(stream, ms + [stream[last]], pos + [last]);
      } else {
        assert Motorways(stream) == ms;
        EmbedsGrow(ms, init, pos, stream);
        MotorwayPicksCover(stream, pos, pos);
        assert PicksMotorways(stream, ms, pos);
      }
    }
  }

  /** The covering step of `MotorwaysIsFilter`, for one more way. */
  lemma MotorwayPicksCover(stream: seq<OsmWay>, pos: seq<int>, pos': seq<int>)
    requires stream != []
    requires forall k :: 0 <= k < |stream| - 1 && IsMotorway(stream[..|stream| - 1][k]) ==> k in pos
    requires forall k :: k in pos ==> k in pos'
    requires IsMotorway(stream[|stream| - 1]) ==> |stream| - 1 in pos'
    ensures forall k :: 0 <= k < |stream| && IsMotorway(stream[k]) ==> k in pos'
  {
    forall k | 0 <= k < |stream| && IsMotorway(stream[k])
      ensures k in pos'
    {
      if k < |stream| - 1 {
        assert stream[..|stream| - 1][k] == stream[k];
      }
    }
  }

  /**
   * Without an exception the tables hold one row per motorway of the stream, in
   * order and with its mapped road type, and the node ids of the motorways.
   */
  lemma {:induction false} InsertAllKeepsMotorways(parseInt: IntParser, stream: seq<OsmWay>)
    requires InsertAll(parseInt, stream).error.None?
    ensures var t := InsertAll(parseInt, stream);
      var ms := Motorways(stream);
      && |t.ways| == |ms|
      && (forall i :: 0 <= i < |ms| ==>
            t.ways[i].id == ms[i].id && t.ways[i].roadType == HIGHWAY_TYPE_MAPPING[ms[i].tags["highway"]])
      && t.nodeIds == CollectNodeIds(stream)
  {
    if stream != [] {
      var init := stream[..|stream| - 1];
      InsertAllKeepsMotorways(parseInt, init);
      var w := stream[|stream| - 1];
      if IsMotorway(w) {
        var ms := Motorways(init);
        assert (ms + [w])[..|ms|] == ms;
      }
    }
  }

  /** Once a way has raised, the later ways are not inserted. */
  lemma {:induction false} InsertAllErrorSticks(parseInt: IntParser, stream: seq<OsmWay>, n: nat)
    requires n <= |stream| && InsertAll(parseInt, stream[..n]).error.Some?
    ensures InsertAll(parseInt, stream) == InsertAll(parseInt, stream[..n])
    decreases |stream| - n
  {
    if n < |stream| {
      assert stream[..n + 1][..n] == stream[..n];
      InsertAllErrorSticks(parseInt, stream, n + 1);
    } else {
      assert stream[..n] == stream;
    }
  }

  /** `MotorwayWayHandler`: the two tables and the collected node ids. */
  class RoadDbWayHandler {
    const parseInt: IntParser
    var ways: seq<RoadRow>
    var wayNodes: seq<WayNodeLink>
    var nodeIds: set<int>

    constructor (parseInt: IntParser)
      ensures this.parseInt == parseInt && ways == [] && wayNodes == [] && nodeIds == {}
    {
      this.parseInt := parseInt;
      ways := [];
      wayNodes := [];
      nodeIds := {};
    }

    /**
     * `way`: a motorway's row and node rows are inserted and committed and its
     * nodes join `node_ids`; a tag that does not convert raises before anything
     * is inserted.
     */
    method Way(w: OsmWay) returns (err: Option<TagError>)
      modifies this
      ensures !IsMotorway(w) ==>
        err.None? && ways == old(ways) && wayNodes == old(wayNodes) && nodeIds == old(nodeIds)
      ensures IsMotorway(w) && RoadRowOf(parseInt, w).Err? ==>
        && err == Some(RoadRowOf(parseInt, w).error)
        && ways == old(ways) && wayNodes == old(wayNodes) && nodeIds == old(nodeIds)
      ensures IsMotorway(w) && RoadRowOf(parseInt, w).Ok? ==>
        && err.None?
        && ways == old(ways) + [RoadRowOf(parseInt, w).value]
        && wayNodes == old(wayNodes) + LinksOf(w)
        && nodeIds == old(nodeIds) + NodeSet(w)
    {
      err := None;
      if IsMotorway(w) {
        var row := RoadRowOf(parseInt, w);
        if row.Err? {
          return Some(row.error);
        }
        ways := ways + [row.value];
        wayNodes := wayNodes + LinksOf(w);
        nodeIds := nodeIds + NodeSet(w);
      }
    }

    /** `apply_file` over the ways of the extract; an exception ends the pass. */
    method ApplyFile(stream: seq<OsmWay>) returns (err: Option<TagError>)
      requires ways == [] && wayNodes == [] && nodeIds == {}
      modifies this
      ensures var t := InsertAll(parseInt, stream);
        err == t.error && ways == t.ways && wayNodes == t.wayNodes && nodeIds == t.nodeIds
    {
      err := None;
      for i := 0 to |stream|
        invariant var t := InsertAll(parseInt, stream[..i]);
          t.error.None? && err.None? && ways == t.ways && wayNodes == t.wayNodes && nodeIds == t.nodeIds
      {
        assert stream[..i + 1][..i] == stream[..i];
        err := Way(stream[i]);
        if err.Some? {
          InsertAllErrorSticks(parseInt, stream, i + 1);
          return;
        }
      }
      assert stream[..|stream|] == stream;
    }
  }
}
