/**
 * The highway handler of the MySQL import (db/import_osm_highways.py, and the
 * same class in db/mysql_import.py with a smaller cache). It receives the ways of
 * the map extract one at a time, keeps the ones whose `highway` tag is a
 * configured road type, buffers their `ways` and `way_node_ids` rows and writes
 * the buffer as one transaction whenever it holds `cacheSize` ways, and once more
 * on `finalize`.
 */
module HighwayImport {
  import opened Wrappers
  import opened Osm
  import opened OsmTags
  import opened Sequences

  /** `OsmHighwayHandler.CACHE_SIZE` of db/import_osm_highways.py. */
  const IMPORT_CACHE_SIZE: nat := 1000
  /** `OsmHighwayHandler.CACHE_SIZE` of db/mysql_import.py. */
  const MYSQL_CACHE_SIZE: nat := 100

  /** A row of the `ways` table, in column order. */
  datatype WayRow = WayRow(
    wayId: int, roadType: int, ref: Option<string>, name: Option<string>,
    lanes: Option<int>, maxspeed: Option<int>, oneway: bool, tunnel: bool)

  /** A row of the `way_node_ids` table: the `idx`-th node of a way. */
  datatype WayNodeRow = WayNodeRow(wayId: int, idx: int, nodeId: int)

  /** The contents of one cache, or of one transaction that wrote it. */
  datatype Batch = Batch(ways: seq<WayRow>, wayNodeIds: seq<WayNodeRow>)

  /** The configured road types: the `highway` tag value and the `road_type` stored for it. */
  type HighwayTypes = map<string, int>

  /** `way` acts on a way exactly when its `highway` tag is a configured type. */
  predicate Imports(highwayTypes: HighwayTypes, w: OsmWay)
  {
    "highway" in w.tags && w.tags["highway"] in highwayTypes
  }

  /**
   * The tuple `_add_way_to_cache` appends; building it fails with the ValueError
   * of `int()` when the `lanes` tag is present, not "none" and not a number.
   */
  function WayRowOf(highwayTypes: HighwayTypes, parseInt: IntParser, w: OsmWay): (r: Result<WayRow, TagError>)
    requires Imports(highwayTypes, w)
    ensures r.Err? <==> IntTag(w.tags, "lanes", true, parseInt).Err?
    ensures r.Ok? ==> r.value.wayId == w.id && r.value.roadType == highwayTypes[w.tags["highway"]]
    ensures r.Ok? ==> r.value.maxspeed == Maxspeed(w.tags, parseInt) && r.value.lanes == IntTag(w.tags, "lanes", true, parseInt).value
    ensures r.Ok? ==>
      && r.value.ref == TagValue(w.tags, "ref", true) && r.value.name == TagValue(w.tags, "name", true)
      && r.value.oneway == IsOneway(w.tags) && r.value.tunnel == IsTunnel(w.tags)
  {
    match IntTag(w.tags, "lanes", true, parseInt)
    case Err(e) => Err(e)
    case Ok(lanes) =>
      Ok(WayRow(
        w.id, highwayTypes[w.tags["highway"]],
        TagValue(w.tags, "ref", true), TagValue(w.tags, "name", true),
        lanes, Maxspeed(w.tags, parseInt), IsOneway(w.tags), IsTunnel(w.tags)))
  }

  /** The `(way_id, index, node_id)` rows of one way, numbered from 0 in node order. */
  function NodeRowsOf(w: OsmWay): (r: seq<WayNodeRow>)
    ensures |r| == |w.nodes|
    ensures forall i :: 0 <= i < |r| ==> r[i].wayId == w.id && r[i].idx == i && r[i].nodeId == w.nodes[i]
  {
    seq(|w.nodes|, i requires 0 <= i < |w.nodes| => WayNodeRow(w.id, i, w.nodes[i]))
  }

  /** The node ids of a sequence of ways, as `node_ids.update` collects them. */
  function NodeIdsOf(ws: seq<OsmWay>): set<int>
  {
    if ws == [] then {} else NodeIdsOf(ws[..|ws| - 1]) + NodeSet(ws[|ws| - 1])
  }

  lemma {:induction false} NodeIdsOfIsUnion(ws: seq<OsmWay>, n: int)
    ensures n in NodeIdsOf(ws) <==> exists i :: 0 <= i < |ws| && n in ws[i].nodes
  {
    if ws != [] {
      var init := ws[..|ws| - 1];
      NodeIdsOfIsUnion(init, n);
      if n in NodeIdsOf(ws) && n !in NodeIdsOf(init) {
        assert n in ws[|ws| - 1].nodes;
      }
      if exists i :: 0 <= i < |ws| && n in ws[i].nodes {
        var i :| 0 <= i < |ws| && n in ws[i].nodes;
        if i < |ws| - 1 {
          assert init[i] == ws[i];
        }
      }
    }
  }

  /** Everything written by a sequence of transactions, in order. */
  function WrittenWays(batches: seq<Batch>): seq<WayRow>
  {
    if batches == [] then [] else WrittenWays(batches[..|batches| - 1]) + batches[|batches| - 1].ways
  }

  function WrittenWayNodeIds(batches: seq<Batch>): seq<WayNodeRow>
  {
    if batches == [] then [] else WrittenWayNodeIds(batches[..|batches| - 1]) + batches[|batches| - 1].wayNodeIds
  }

  /** The ways of a stream that `way` acts on, in order. */
  function ImportedWays(highwayTypes: HighwayTypes, stream: seq<OsmWay>): (r: seq<OsmWay>)
    ensures |r| <= |stream|
    ensures forall i :: 0 <= i < |r| ==> Imports(highwayTypes, r[i])
  {
    if stream == [] then []
    else
      var init := ImportedWays(highwayTypes, stream[..|stream| - 1]);
      if Imports(highwayTypes, stream[|stream| - 1]) then init + [stream[|stream| - 1]] else init
  }

  /**
   * `pos` places the ways of `r` in `stream`, in order, and covers every way of
   * `stream` that `way` acts on.
   */
  ghost predicate PicksImported(highwayTypes: HighwayTypes, stream: seq<OsmWay>, r: seq<OsmWay>, pos: seq<int>)
  {
    && Embeds(r, stream, pos)
    && forall k :: 0 <= k < |stream| && Imports(highwayTypes, stream[k]) ==> k in pos
  }

  /**
   * The ways kept are exactly the ways of the stream that `way` acts on, in
   * stream order: none is dropped and none is reordered.
   */
  lemma {:induction false} ImportedWaysIsFilter(highwayTypes: HighwayTypes, stream: seq<OsmWay>)
    ensures exists pos :: PicksImported(highwayTypes, stream, ImportedWays(highwayTypes, stream), pos)
  {
    if stream == [] {
      assert PicksImported(highwayTypes, stream, ImportedWays(highwayTypes, stream), []);
    } else {
      var init := stream[..|stream| - 1];
      ImportedWaysIsFilter(highwayTypes, init);
      var ws := ImportedWays(highwayTypes, init);
      var pos :| PicksImported(highwayTypes, init, ws, pos);
      var last := |stream| - 1;
      if Imports(highwayTypes, stream[last]) {
        assert ImportedWays(highwayTypes, stream) == ws + [stream[last]];
        EmbedsExtend(ws, init, pos, stream, last);
        PicksCovers(highwayTypes, stream, pos, pos + [last]);
        assert PicksImported(highwayTypes, stream, ws + [stream[last]], pos + [last]);
      } else {
        assert ImportedWays(highwayTypes, stream) == ws;
        EmbedsGrow(ws, init, pos, stream);
        PicksCovers(highwayTypes, stream, pos, pos);
        assert PicksImported(highwayTypes, stream, ws, pos);
      }
    }
  }

  /** The covering step of `ImportedWaysIsFilter`, for one more way. */
  lemma PicksCovers(highwayTypes: HighwayTypes, stream: seq<OsmWay>, pos: seq<int>, pos': seq<int>)
    requires stream != []
    requires forall k :: 0 <= k < |stream| - 1 && Imports(highwayTypes, stream[..|stream| - 1][k]) ==> k in pos
    requires forall k :: k in pos ==> k in pos'
    requires Imports(highwayTypes, stream[|stream| - 1]) ==> |stream| - 1 in pos'
    ensures forall k :: 0 <= k < |stream| && Imports(highwayTypes, stream[k]) ==> k in pos'
  {
    forall k | 0 <= k < |stream| && Imports(highwayTypes, stream[k])
      ensures k in pos'
    {
      if k < |stream| - 1 {
        assert stream[..|stream| - 1][k] == stream[k];
      }
    }
  }

  /**
   * What the handler accepts from a stream of ways: the rows of every imported
   * way and their node ids, up to the first way whose row cannot be built; that
   * exception ends the visit.
   */
  datatype Visit = Visit(accepted: Batch, nodeIds: set<int>, error: Option<TagError>)

  function VisitWays(highwayTypes: HighwayTypes, parseInt: IntParser, stream: seq<OsmWay>): Visit
  {
    if stream == [] then Visit(Batch([], []), {}, None)
    else
      var v := VisitWays(highwayTypes, parseInt, stream[..|stream| - 1]);
      var w := stream[|stream| - 1];
      if v.error.Some? || !Imports(highwayTypes, w) then v
      else match WayRowOf(highwayTypes, parseInt, w)
        case Err(e) => v.(error := Some(e))
        case Ok(row) =>
          Visit(Batch(v.accepted.ways + [row], v.accepted.wayNodeIds + NodeRowsOf(w)),
                v.nodeIds + NodeSet(w), None)
  }

  /**
   * A visit without errors keeps one `ways` row per imported way, in stream
   * order, with that way's id and configured road type, and collects exactly the
   * node ids of the imported ways.
   */
  lemma {:induction false} VisitKeepsImportedWaysInOrder(highwayTypes: HighwayTypes, parseInt: IntParser, stream: seq<OsmWay>)
    requires VisitWays(highwayTypes, parseInt, stream).error.None?
    ensures var v := VisitWays(highwayTypes, parseInt, stream);
      var ws := ImportedWays(highwayTypes, stream);
      && |v.accepted.ways| == |ws|
      && (forall i :: 0 <= i < |ws| ==>
            v.accepted.ways[i].wayId == ws[i].id && v.accepted.ways[i].roadType == highwayTypes[ws[i].tags["highway"]])
      && v.nodeIds == NodeIdsOf(ws)
  {
    if stream != [] {
      var init := stream[..|stream| - 1];
      VisitKeepsImportedWaysInOrder(highwayTypes, parseInt, init);
      var w := stream[|stream| - 1];
      if Imports(highwayTypes, w) {
        var ws := ImportedWays(highwayTypes, init);
        assert (ws + [w])[..|ws|] == ws;
      }
    }
  }

  /**
   * The node rows of a visit are those of the imported ways, back to back; the
   * `idx` column restarts at 0 for every way.
   */
  lemma {:induction false} VisitNodeRows(highwayTypes: HighwayTypes, parseInt: IntParser, stream: seq<OsmWay>)
    requires VisitWays(highwayTypes, parseInt, stream).error.None?
    ensures VisitWays(highwayTypes, parseInt, stream).accepted.wayNodeIds == AllNodeRows(ImportedWays(highwayTypes, stream))
  {
    if stream != [] {
      var init := stream[..|stream| - 1];
      var v := VisitWays(highwayTypes, parseInt, init);
      assert v.error.None?;
      VisitNodeRows(highwayTypes, parseInt, init);
      var w := stream[|stream| - 1];
      var ws := ImportedWays(highwayTypes, init);
      if Imports(highwayTypes, w) {
        assert WayRowOf(highwayTypes, parseInt, w).Ok?;
        assert VisitWays(highwayTypes, parseInt, stream).accepted.wayNodeIds == v.accepted.wayNodeIds + NodeRowsOf(w);
        assert ImportedWays(highwayTypes, stream) == ws + [w];
        assert (ws + [w])[..|ws|] == ws;
        assert AllNodeRows(ws + [w]) == AllNodeRows(ws) + NodeRowsOf(w);
      } else {
        assert VisitWays(highwayTypes, parseInt, stream) == v;
        assert ImportedWays(highwayTypes, stream) == ws;
      }
    }
  }

  function AllNodeRows(ws: seq<OsmWay>): seq<WayNodeRow>
  {
    if ws == [] then [] else AllNodeRows(ws[..|ws| - 1]) + NodeRowsOf(ws[|ws| - 1])
  }

  /** A visit fails only on an imported way whose `lanes` tag does not parse. */
  lemma {:induction false} VisitErrorComesFromLanes(highwayTypes: HighwayTypes, parseInt: IntParser, stream: seq<OsmWay>)
    requires VisitWays(highwayTypes, parseInt, stream).error.Some?
    ensures exists i ::
      && 0 <= i < |stream| && Imports(highwayTypes, stream[i]) && "lanes" in stream[i].tags
      && VisitWays(highwayTypes, parseInt, stream).error == Some(ValueError("lanes", stream[i].tags["lanes"]))
  {
    var init := stream[..|stream| - 1];
    if VisitWays(highwayTypes, parseInt, init).error.Some? {
      VisitErrorComesFromLanes(highwayTypes, parseInt, init);
      var i :| 0 <= i < |init| && Imports(highwayTypes, init[i]) && "lanes" in init[i].tags
        && VisitWays(highwayTypes, parseInt, init).error == Some(ValueError("lanes", init[i].tags["lanes"]));
      assert stream[i] == init[i];
    } else {
      assert Imports(highwayTypes, stream[|stream| - 1]);
    }
  }

  class HighwayHandler {
    const cacheSize: nat
    const highwayTypes: HighwayTypes
    const parseInt: IntParser
    /** `node_ids`: the nodes of every way taken so far. */
    var nodeIds: set<int>
    /** `data_cache`: its `size`, `ways` and `way_node_ids` entries. */
    var size: nat
    var ways: seq<WayRow>
    var wayNodeIds: seq<WayNodeRow>
    /** The transactions `_write_cache_to_database` committed, oldest first. */
    var written: seq<Batch>
    /** Every row taken so far, in arrival order. */
    ghost var accepted: Batch

    /** The buffer accounts for every accepted row: what was written, then what is cached. */
    ghost predicate Buffered()
      reads this
    {
      && size == |ways|
      && WrittenWays(written) + ways == accepted.ways
      && WrittenWayNodeIds(written) + wayNodeIds == accepted.wayNodeIds
    }

    /** Between calls the cache also holds fewer than `cacheSize` ways. */
    ghost predicate Valid()
      reads this
    {
      Buffered() && 0 < cacheSize && size < cacheSize
    }

    constructor (cacheSize: nat, highwayTypes: HighwayTypes, parseInt: IntParser)
      requires 0 < cacheSize
      ensures Valid()
      ensures this.cacheSize == cacheSize && this.highwayTypes == highwayTypes && this.parseInt == parseInt
      ensures nodeIds == {} && ways == [] && wayNodeIds == [] && written == []
      ensures accepted == Batch([], [])
    {
      this.cacheSize := cacheSize;
      this.highwayTypes := highwayTypes;
      this.parseInt := parseInt;
      nodeIds := {};
      size := 0;
      ways := [];
      wayNodeIds := [];
      written := [];
      accepted := Batch([], []);
    }

    /** `_write_cache_to_database`: one transaction with the cached rows, then an empty cache. */
    method WriteCacheToDatabase()
      requires Buffered()
      modifies this
      ensures Buffered()
      ensures size == 0 && ways == [] && wayNodeIds == []
      ensures written == old(written) + [Batch(old(ways), old(wayNodeIds))]
      ensures nodeIds == old(nodeIds) && accepted == old(accepted)
    {
      var batch := Batch(ways, wayNodeIds);
      assert (written + [batch])[..|written|] == written;
      written := written + [batch];
      size, ways, wayNodeIds := 0, [], [];
    }

    /** `_add_way_to_cache`: appends the way's row and node rows, or raises without a change. */
    method AddWayToCache(w: OsmWay) returns (r: Result<seq<int>, TagError>)
      requires Buffered() && Imports(highwayTypes, w)
      modifies this
      ensures Buffered()
      ensures nodeIds == old(nodeIds) && written == old(written)
      ensures var row := WayRowOf(highwayTypes, parseInt, w);
        && (r.Err? <==> row.Err?)
        && (row.Err? ==>
              && r.error == row.error && size == old(size) && ways == old(ways)
              && wayNodeIds == old(wayNodeIds) && accepted == old(accepted))
        && (row.Ok? ==>
              && r.value == w.nodes && size == old(size) + 1
              && ways == old(ways) + [row.value] && wayNodeIds == old(wayNodeIds) + NodeRowsOf(w)
              && accepted == Batch(old(accepted.ways) + [row.value], old(accepted.wayNodeIds) + NodeRowsOf(w)))
    {
      var row := WayRowOf(highwayTypes, parseInt, w);
      if row.Err? {
        return Err(row.error);
      }
      var nodeRows := NodeRowsOf(w);
      assert WrittenWays(written) + (ways + [row.value]) == (WrittenWays(written) + ways) + [row.value];
      assert WrittenWayNodeIds(written) + (wayNodeIds + nodeRows) == (WrittenWayNodeIds(written) + wayNodeIds) + nodeRows;
      ways := ways + [row.value];
      wayNodeIds := wayNodeIds + nodeRows;
      size := size + 1;
      accepted := Batch(accepted.ways + [row.value], accepted.wayNodeIds + nodeRows);
      return Ok(w.nodes);
    }

    /**
     * `way`: a way of a configured type is cached and its nodes join `node_ids`;
     * a cache that reaches `cacheSize` ways is written at once. A way whose row
     * cannot be built raises and changes nothing.
     */
    method Way(w: OsmWay) returns (err: Option<TagError>)
      requires Valid()
      modifies this
      ensures Valid()
      ensures !Imports(highwayTypes, w) ==>
        && err.None?
        && nodeIds == old(nodeIds) && ways == old(ways) && wayNodeIds == old(wayNodeIds)
        && written == old(written) && accepted == old(accepted)
      ensures Imports(highwayTypes, w) && WayRowOf(highwayTypes, parseInt, w).Err? ==>
        && err == Some(WayRowOf(highwayTypes, parseInt, w).error)
        && nodeIds == old(nodeIds) && ways == old(ways) && wayNodeIds == old(wayNodeIds)
        && written == old(written) && accepted == old(accepted)
      ensures Imports(highwayTypes, w) && WayRowOf(highwayTypes, parseInt, w).Ok? ==>
        var row := WayRowOf(highwayTypes, parseInt, w).value;
        && err.None?
        && nodeIds == old(nodeIds) + NodeSet(w)
        && accepted == Batch(old(accepted.ways) + [row], old(accepted.wayNodeIds) + NodeRowsOf(w))
        && (old(size) + 1 < cacheSize ==>
              ways == old(ways) + [row] && wayNodeIds == old(wayNodeIds) + NodeRowsOf(w) && written == old(written))
        && (old(size) + 1 >= cacheSize ==>
              ways == [] && wayNodeIds == [] &&
              written == old(written) + [Batch(old(ways) + [row], old(wayNodeIds) + NodeRowsOf(w))])
    {
      err := None;
      if Imports(highwayTypes, w) {
        var r := AddWayToCache(w);
        if r.Err? {
          return Some(r.error);
        }
        nodeIds := nodeIds + NodeSet(w);
        if size >= cacheSize {
          WriteCacheToDatabase();
        }
      }
    }

    /** `finalize`: writes what is left, even an empty cache; afterwards every accepted row is written. */
    method Finalize()
      requires Valid()
      modifies this
      ensures Valid()
      ensures ways == [] && wayNodeIds == []
      ensures written == old(written) + [Batch(old(ways), old(wayNodeIds))]
      ensures WrittenWays(written) == accepted.ways && WrittenWayNodeIds(written) == accepted.wayNodeIds
      ensures nodeIds == old(nodeIds) && accepted == old(accepted)
    {
      WriteCacheToDatabase();
    }

    /**
     * `apply_file`: the reader calls `way` for every way of the extract in file
     * order; an exception in the handler ends the pass.
     */
    method ApplyFile(stream: seq<OsmWay>) returns (err: Option<TagError>)
      requires Valid()
      modifies this
      ensures Valid()
      ensures var v := VisitWays(highwayTypes, parseInt, stream);
        && err == v.error
        && accepted == Batch(old(accepted.ways) + v.accepted.ways, old(accepted.wayNodeIds) + v.accepted.wayNodeIds)
        && nodeIds == old(nodeIds) + v.nodeIds
    {
      err := None;
      ghost var startWays, startNodeRows, startIds := accepted.ways, accepted.wayNodeIds, nodeIds;
      for i := 0 to |stream|
        invariant Valid() && err.None?
        invariant VisitWays(highwayTypes, parseInt, stream[..i]).error.None?
        invariant accepted.ways == startWays + VisitWays(highwayTypes, parseInt, stream[..i]).accepted.ways
        invariant accepted.wayNodeIds == startNodeRows + VisitWays(highwayTypes, parseInt, stream[..i]).accepted.wayNodeIds
        invariant nodeIds == startIds + VisitWays(highwayTypes, parseInt, stream[..i]).nodeIds
      {
        ghost var before, beforeIds := accepted, nodeIds;
        err := Way(stream[i]);
        if err.Some? {
          VisitStep(highwayTypes, parseInt, stream, i);
          VisitErrorSticks(highwayTypes, parseInt, stream, i + 1);
          return;
        }
        AcceptStep(highwayTypes, parseInt, stream, i, Visit(Batch(startWays, startNodeRows), startIds, None),
                   before, beforeIds, accepted, nodeIds);
      }
      assert stream[..|stream|] == stream;
    }
  }

  /**
   * A handler state that extends `start` by the visit of `stream[..i]` still
   * extends it by the visit of `stream[..i + 1]` after a `way` call that raised nothing.
   */
  lemma AcceptStep(highwayTypes: HighwayTypes, parseInt: IntParser, stream: seq<OsmWay>, i: nat, start: Visit,
                   before: Batch, beforeIds: set<int>, after: Batch, afterIds: set<int>)
    requires i < |stream|
    requires var v := VisitWays(highwayTypes, parseInt, stream[..i]);
      && v.error.None?
      && before.ways == start.accepted.ways + v.accepted.ways
      && before.wayNodeIds == start.accepted.wayNodeIds + v.accepted.wayNodeIds
      && beforeIds == start.nodeIds + v.nodeIds
    requires var w := stream[i];
      && (!Imports(highwayTypes, w) ==> after == before && afterIds == beforeIds)
      && (Imports(highwayTypes, w) ==> WayRowOf(highwayTypes, parseInt, w).Ok?)
      && (Imports(highwayTypes, w) && WayRowOf(highwayTypes, parseInt, w).Ok? ==>
            && afterIds == beforeIds + NodeSet(w)
            && after == Batch(before.ways + [WayRowOf(highwayTypes, parseInt, w).value], before.wayNodeIds + NodeRowsOf(w)))
    ensures var next := VisitWays(highwayTypes, parseInt, stream[..i + 1]);
      && next.error.None?
      && after.ways == start.accepted.ways + next.accepted.ways
      && after.wayNodeIds == start.accepted.wayNodeIds + next.accepted.wayNodeIds
      && afterIds == start.nodeIds + next.nodeIds
  {
    VisitStep(highwayTypes, parseInt, stream, i);
    var v, w := VisitWays(highwayTypes, parseInt, stream[..i]), stream[i];
    if Imports(highwayTypes, w) {
      var row := WayRowOf(highwayTypes, parseInt, w).value;
      assert start.accepted.ways + (v.accepted.ways + [row]) == (start.accepted.ways + v.accepted.ways) + [row];
      assert start.accepted.wayNodeIds + (v.accepted.wayNodeIds + NodeRowsOf(w))
          == (start.accepted.wayNodeIds + v.accepted.wayNodeIds) + NodeRowsOf(w);
    }
  }

  /** One more way of the stream, visited after a visit without errors. */
  lemma VisitStep(highwayTypes: HighwayTypes, parseInt: IntParser, stream: seq<OsmWay>, i: nat)
    requires i < |stream| && VisitWays(highwayTypes, parseInt, stream[..i]).error.None?
    ensures var v, w := VisitWays(highwayTypes, parseInt, stream[..i]), stream[i];
      var next := VisitWays(highwayTypes, parseInt, stream[..i + 1]);
      && (!Imports(highwayTypes, w) ==> next == v)
      && (Imports(highwayTypes, w) && WayRowOf(highwayTypes, parseInt, w).Err? ==>
            next == v.(error := Some(WayRowOf(highwayTypes, parseInt, w).error)))
      && (Imports(highwayTypes, w) && WayRowOf(highwayTypes, parseInt, w).Ok? ==>
            next == Visit(
              Batch(v.accepted.ways + [WayRowOf(highwayTypes, parseInt, w).value], v.accepted.wayNodeIds + NodeRowsOf(w)),
              v.nodeIds + NodeSet(w), None))
  {
    assert stream[..i + 1][..i] == stream[..i];
  }

  /** Once a visit has failed, later ways are not visited. */
  lemma {:induction false} VisitErrorSticks(highwayTypes: HighwayTypes, parseInt: IntParser, stream: seq<OsmWay>, n: nat)
    requires n <= |stream| && VisitWays(highwayTypes, parseInt, stream[..n]).error.Some?
    ensures VisitWays(highwayTypes, parseInt, stream) == VisitWays(highwayTypes, parseInt, stream[..n])
    decreases |stream| - n
  {
    if n < |stream| {
      assert stream[..n + 1][..n] == stream[..n];
      VisitErrorSticks(highwayTypes, parseInt, stream, n + 1);
    } else {
      assert stream[..n] == stream;
    }
  }

  /** The handler of db/import_osm_highways.py. */
  method NewImportHandler(highwayTypes: HighwayTypes, parseInt: IntParser) returns (h: HighwayHandler)
    ensures fresh(h) && h.Valid() && h.cacheSize == IMPORT_CACHE_SIZE
    ensures h.highwayTypes == highwayTypes && h.parseInt == parseInt
    ensures h.nodeIds == {} && h.ways == [] && h.written == [] && h.accepted == Batch([], [])
  {
    h := new HighwayHandler(IMPORT_CACHE_SIZE, highwayTypes, parseInt);
  }

  /** The handler of db/mysql_import.py. */
  method NewMysqlHandler(highwayTypes: HighwayTypes, parseInt: IntParser) returns (h: HighwayHandler)
    ensures fresh(h) && h.Valid() && h.cacheSize == MYSQL_CACHE_SIZE
    ensures h.highwayTypes == highwayTypes && h.parseInt == parseInt
    ensures h.nodeIds == {} && h.ways == [] && h.written == [] && h.accepted == Batch([], [])
  {
    h := new HighwayHandler(MYSQL_CACHE_SIZE, highwayTypes, parseInt);
  }
}
