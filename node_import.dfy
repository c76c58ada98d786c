/**
 * The node handlers that buffer `(node_id, lat, lon)` rows: `OsmNodeHandler` of
 * db/import_osm_highways.py (writes once more than 1000 rows are cached and
 * always writes on `finalize`) and the effective `MotorwayNodeHandler` of
 * db/prepare_motorway_database_mysql.py (writes once more than 10000 rows are
 * cached and on `finalize` only when rows are left). Both keep only the nodes
 * whose id is in the set the way import collected.
 */
module NodeImport {
  import opened Osm

  /** `OsmNodeHandler.CACHE_SIZE`. */
  const OSM_NODE_CACHE_SIZE: nat := 1000
  /** The literal bound of the motorway node handler. */
  const MOTORWAY_NODE_CACHE_SIZE: nat := 10000

  /** A row of the `nodes` table. */
  datatype NodeRow = NodeRow(id: int, lat: real, lon: real)

  function RowOf(n: OsmNode): NodeRow
  {
    NodeRow(n.id, n.location.lat, n.location.lon)
  }

  /** The rows the handler keeps from a stream of nodes, in order. */
  function Selected(nodeIds: set<int>, stream: seq<OsmNode>): seq<NodeRow>
  {
    if stream == [] then []
    else
      var init := Selected(nodeIds, stream[..|stream| - 1]);
      var n := stream[|stream| - 1];
      if n.id in nodeIds then init + [RowOf(n)] else init
  }

  /** A row is kept exactly when some node of the stream has it and a requested id. */
  lemma {:induction false} SelectedIsFilter(nodeIds: set<int>, stream: seq<OsmNode>, row: NodeRow)
    ensures row in Selected(nodeIds, stream) <==>
      exists i :: 0 <= i < |stream| && stream[i].id in nodeIds && RowOf(stream[i]) == row
  {
    if stream != [] {
      var init := stream[..|stream| - 1];
      SelectedIsFilter(nodeIds, init, row);
      if exists i :: 0 <= i < |stream| && stream[i].id in nodeIds && RowOf(stream[i]) == row {
        var i :| 0 <= i < |stream| && stream[i].id in nodeIds && RowOf(stream[i]) == row;
        if i < |init| {
          assert init[i] == stream[i];
        }
      }
    }
  }

  /** Every row written by a sequence of `executemany` calls, in order. */
  function WrittenRows(batches: seq<seq<NodeRow>>): seq<NodeRow>
  {
    if batches == [] then [] else WrittenRows(batches[..|batches| - 1]) + batches[|batches| - 1]
  }

  class NodeCache {
    const limit: nat
    /** Whether `finalize` writes even when nothing is cached. */
    const writeEmptyOnFinalize: bool
    const nodeIds: set<int>
    var cache: seq<NodeRow>
    /** The `executemany` calls made so far, oldest first. */
    var written: seq<seq<NodeRow>>
    /** Every row taken so far, in arrival order. */
    ghost var accepted: seq<NodeRow>

    ghost predicate Valid()
      reads this
    {
      && |cache| <= limit
      && (forall i :: 0 <= i < |written| ==> |written[i]| <= limit + 1)
      && WrittenRows(written) + cache == accepted
    }

    constructor (limit: nat, writeEmptyOnFinalize: bool, nodeIds: set<int>)
      ensures Valid()
      ensures this.limit == limit && this.writeEmptyOnFinalize == writeEmptyOnFinalize && this.nodeIds == nodeIds
      ensures cache == [] && written == [] && accepted == []
    {
      this.limit := limit;
      this.writeEmptyOnFinalize := writeEmptyOnFinalize;
      this.nodeIds := nodeIds;
      cache := [];
      written := [];
      accepted := [];
    }

    /** Writes the cache in one call and empties it. */
    method Flush()
      requires |cache| <= limit + 1 && (forall i :: 0 <= i < |written| ==> |written[i]| <= limit + 1)
      requires WrittenRows(written) + cache == accepted
      modifies this
      ensures Valid() && cache == []
      ensures written == old(written) + [old(cache)] && accepted == old(accepted)
    {
      assert (written + [cache])[..|written|] == written;
      written := written + [cache];
      cache := [];
    }

    /**
     * `node`: a requested node is cached, and a cache that now holds more than
     * `limit` rows is written; other nodes are ignored.
     */
    method Node(n: OsmNode)
      requires Valid()
      modifies this
      ensures Valid()
      ensures n.id !in nodeIds ==> cache == old(cache) && written == old(written) && accepted == old(accepted)
      ensures n.id in nodeIds ==> accepted == old(accepted) + [RowOf(n)]
      ensures n.id in nodeIds && |old(cache)| + 1 > limit ==>
        cache == [] && written == old(written) + [old(cache) + [RowOf(n)]]
      ensures n.id in nodeIds && |old(cache)| + 1 <= limit ==>
        cache == old(cache) + [RowOf(n)] && written == old(written)
    {
      if n.id in nodeIds {
        assert WrittenRows(written) + (cache + [RowOf(n)]) == (WrittenRows(written) + cache) + [RowOf(n)];
        cache := cache + [RowOf(n)];
        accepted := accepted + [RowOf(n)];
        if |cache| > limit {
          Flush();
        }
      }
    }

    /** `finalize`: writes the rest; afterwards every accepted row is written, in order. */
    method Finalize()
      requires Valid()
      modifies this
      ensures Valid() && cache == [] && WrittenRows(written) == accepted
      ensures written == if old(cache) != [] || writeEmptyOnFinalize then old(written) + [old(cache)] else old(written)
      ensures accepted == old(accepted)
    {
      if cache != [] || writeEmptyOnFinalize {
        Flush();
      }
    }

    /** `apply_file`: `node` for every node of the extract, in file order. */
    method ApplyFile(stream: seq<OsmNode>)
      requires Valid()
      modifies this
      ensures Valid() && accepted == old(accepted) + Selected(nodeIds, stream)
    {
      for i := 0 to |stream|
        invariant Valid() && accepted == old(accepted) + Selected(nodeIds, stream[..i])
      {
        assert stream[..i + 1][..i] == stream[..i];
        Node(stream[i]);
      }
      assert stream[..|stream|] == stream;
    }
  }

  /** `OsmNodeHandler` of db/import_osm_highways.py. */
  method NewOsmNodeHandler(nodeIds: set<int>) returns (h: NodeCache)
    ensures fresh(h) && h.Valid() && h.limit == OSM_NODE_CACHE_SIZE && h.writeEmptyOnFinalize
    ensures h.nodeIds == nodeIds && h.cache == [] && h.written == [] && h.accepted == []
  {
    h := new NodeCache(OSM_NODE_CACHE_SIZE, true, nodeIds);
  }

  /** The second `MotorwayNodeHandler` of db/prepare_motorway_database_mysql.py. */
  method NewMotorwayNodeHandler(nodeIds: set<int>) returns (h: NodeCache)
    ensures fresh(h) && h.Valid() && h.limit == MOTORWAY_NODE_CACHE_SIZE && !h.writeEmptyOnFinalize
    ensures h.nodeIds == nodeIds && h.cache == [] && h.written == [] && h.accepted == []
  {
    h := new NodeCache(MOTORWAY_NODE_CACHE_SIZE, false, nodeIds);
  }

  /**
   * The whole node import: after visiting the extract and finalizing, the
   * handler has written exactly the requested nodes, in file order, in batches
   * of at most `limit + 1` rows.
   */
  method ImportNodes(h: NodeCache, stream: seq<OsmNode>)
    requires h.Valid() && h.written == [] && h.accepted == []
    modifies h
    ensures h.Valid() && WrittenRows(h.written) == Selected(h.nodeIds, stream)
    ensures forall i :: 0 <= i < |h.written| ==> |h.written[i]| <= h.limit + 1
  {
    h.ApplyFile(stream);
    h.Finalize();
  }
}
