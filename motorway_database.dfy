/**
 * The dictionary-based motorway database script (db/prepare_motorway_database.py,
 * and its copy database/prepare_motorway_database.py, which differs only in
 * layout). A way handler keeps the motorways and motorway links of the extract
 * in a dictionary keyed by way id and collects their node ids; a node handler
 * keeps the locations of those nodes; `compute_way_lengths` then adds segment
 * lengths and a total length to every way, in place.
 */
module MotorwayDatabase {
  import opened Wrappers
  import opened Osm
  import opened WayAggregation

  /**
   * A way's dictionary: the raw tag values (`tags.get`, no conversion), the road
   * type and the node ids; `segments` and `length` are added later.
   */
  datatype MotorwayWay = MotorwayWay(
    ref: Option<string>, name: Option<string>, highway: string,
    oneway: Option<string>, maxspeed: Option<string>, lanes: Option<string>, tunnel: Option<string>,
    nodes: seq<int>,
    segments: Option<seq<real>>, length: Option<real>)

  /** `dict.get(key)`. */
  function Get(tags: Tags, key: string): Option<string>
  {
    if key in tags then Some(tags[key]) else None
  }

  /** The handlers act on a way exactly when its `highway` tag is motorway or motorway_link. */
  predicate IsMotorway(w: OsmWay)
  {
    "highway" in w.tags && w.tags["highway"] in ["motorway", "motorway_link"]
  }

  function RecordOf(w: OsmWay): (r: MotorwayWay)
    requires IsMotorway(w)
    ensures r.highway == w.tags["highway"] && r.nodes == w.nodes && r.segments.None? && r.length.None?
    ensures r.ref == Get(w.tags, "ref") && r.name == Get(w.tags, "name") && r.oneway == Get(w.tags, "oneway")
      && r.maxspeed == Get(w.tags, "maxspeed") && r.lanes == Get(w.tags, "lanes") && r.tunnel == Get(w.tags, "tunnel")
  {
    MotorwayWay(
      Get(w.tags, "ref"), Get(w.tags, "name"), w.tags["highway"],
      Get(w.tags, "oneway"), Get(w.tags, "maxspeed"), Get(w.tags, "lanes"), Get(w.tags, "tunnel"),
      w.nodes, None, None)
  }

  /** The dictionary after a stream of ways: a later way with the same id replaces the earlier one. */
  function CollectWays(stream: seq<OsmWay>): map<int, MotorwayWay>
  {
    if stream == [] then map[]
    else
      var m := CollectWays(stream[..|stream| - 1]);
      var w := stream[|stream| - 1];
      if IsMotorway(w) then m[w.id := RecordOf(w)] else m
  }

  /** The node id set after a stream of ways. */
  function CollectNodeIds(stream: seq<OsmWay>): set<int>
  {
    if stream == [] then {}
    else
      var s := CollectNodeIds(stream[..|stream| - 1]);
      var w := stream[|stream| - 1];
      if IsMotorway(w) then s + NodeSet(w) else s
  }

  /**
   * The dictionary's key order after a stream of ways: the motorway ids in the
   * order of their first occurrence, each once.
   */
  function FirstOccurrences(stream: seq<OsmWay>): seq<int>
  {
    if stream == [] then []
    else
      var order := FirstOccurrences(stream[..|stream| - 1]);
      var w := stream[|stream| - 1];
      if IsMotorway(w) && w.id !in order then order + [w.id] else order
  }

  /** The position of the first motorway in `stream` with way id `id`, or |stream|. */
  function FirstMotorway(stream: seq<OsmWay>, id: int): (i: nat)
    ensures i <= |stream|
    ensures i < |stream| ==> IsMotorway(stream[i]) && stream[i].id == id
    ensures forall j :: 0 <= j < i ==> !(IsMotorway(stream[j]) && stream[j].id == id)
  {
    if stream == [] then 0
    else
      var k := FirstMotorway(stream[..|stream| - 1], id);
      if k < |stream| - 1 then k
      else if IsMotorway(stream[|stream| - 1]) && stream[|stream| - 1].id == id then |stream| - 1
      else |stream|
  }

  /** The key order holds exactly the ids of the motorways of the stream. */
  lemma {:induction false} FirstOccurrencesKeys(stream: seq<OsmWay>)
    ensures forall id :: id in FirstOccurrences(stream) <==> FirstMotorway(stream, id) < |stream|
  {
    if stream != [] {
      FirstOccurrencesKeys(stream[..|stream| - 1]);
    }
  }

  /** An id comes before another in the key order exactly when its first motorway comes first. */
  lemma {:induction false} FirstOccurrencesOrdered(stream: seq<OsmWay>)
    ensures forall i, j :: 0 <= i < j < |FirstOccurrences(stream)| ==>
      FirstMotorway(stream, FirstOccurrences(stream)[i]) < FirstMotorway(stream, FirstOccurrences(stream)[j])
  {
    if stream != [] {
      var init := stream[..|stream| - 1];
      FirstOccurrencesOrdered(init);
      FirstOccurrencesKeys(init);
      var order := FirstOccurrences(init);
      var out := FirstOccurrences(stream);
      var w := stream[|stream| - 1];
      forall i, j | 0 <= i < j < |out|
        ensures FirstMotorway(stream, out[i]) < FirstMotorway(stream, out[j])
      {
        assert out[i] == order[i] && order[i] in order;
        assert FirstMotorway(stream, order[i]) == FirstMotorway(init, order[i]) < |init|;
        if j < |order| {
          assert out[j] == order[j] && order[j] in order;
          assert FirstMotorway(stream, order[j]) == FirstMotorway(init, order[j]);
        } else {
          assert out == order + [w.id] && out[j] == w.id;
          assert FirstMotorway(stream, w.id) == |init|;
        }
      }
    }
  }

  /** The position of the last motorway in `stream` with way id `id`, or -1. */
  function LastMotorway(stream: seq<OsmWay>, id: int): (i: int)
    ensures -1 <= i < |stream|
    ensures i >= 0 ==> IsMotorway(stream[i]) && stream[i].id == id
    ensures forall j :: i < j < |stream| ==> !(IsMotorway(stream[j]) && stream[j].id == id)
  {
    if stream == [] then -1
    else if IsMotorway(stream[|stream| - 1]) && stream[|stream| - 1].id == id then |stream| - 1
    else LastMotorway(stream[..|stream| - 1], id)
  }

  /**
   * Last write wins: a way id is a key exactly when some motorway of the stream
   * has it, and its entry is the record of the last such way.
   */
  lemma {:induction false} CollectWaysLastWriteWins(stream: seq<OsmWay>, id: int)
    ensures id in CollectWays(stream) <==> LastMotorway(stream, id) >= 0
    ensures id in CollectWays(stream) ==> CollectWays(stream)[id] == RecordOf(stream[LastMotorway(stream, id)])
  {
    if stream != [] {
      CollectWaysLastWriteWins(stream[..|stream| - 1], id);
    }
  }

  /** The node ids are the union of the node lists of all motorways of the stream. */
  lemma {:induction false} CollectNodeIdsIsUnion(stream: seq<OsmWay>, n: int)
    ensures n in CollectNodeIds(stream) <==>
      exists i :: 0 <= i < |stream| && IsMotorway(stream[i]) && n in stream[i].nodes
  {
    if stream != [] {
      var init := stream[..|stream| - 1];
      CollectNodeIdsIsUnion(init, n);
      if exists i :: 0 <= i < |stream| && IsMotorway(stream[i]) && n in stream[i].nodes {
        var i :| 0 <= i < |stream| && IsMotorway(stream[i]) && n in stream[i].nodes;
        if i < |init| {
          assert init[i] == stream[i];
        }
      }
    }
  }

  /**
   * A Python dictionary of ways: its entries and its keys in insertion order,
   * which overwriting an existing key does not change.
   */
  class WayDict {
    var entries: map<int, MotorwayWay>
    var order: seq<int>

    ghost predicate Valid()
      reads this
    {
      && (forall i, j :: 0 <= i < j < |order| ==> order[i] != order[j])
      && (forall id :: id in entries <==> id in order)
      && (forall i :: 0 <= i < |order| ==> order[i] in entries)
    }

    constructor ()
      ensures Valid() && entries == map[] && order == []
    {
      entries := map[];
      order := [];
    }

    /** `d[id] = value`. */
    method Put(id: int, value: MotorwayWay)
      requires Valid()
      modifies this
      ensures Valid()
      ensures entries == old(entries)[id := value]
      ensures order == if id in old(entries) then old(order) else old(order) + [id]
    {
      if id !in entries {
        order := order + [id];
      }
      entries := entries[id := value];
    }

    /** Updating the value stored under a present key, in place: the order does not change. */
    method Replace(id: int, value: MotorwayWay)
      requires Valid() && id in entries
      modifies this
      ensures Valid()
      ensures entries == old(entries)[id := value] && order == old(order)
      ensures entries.Keys == old(entries.Keys)
    {
      entries := entries[id := value];
    }
  }

  /** `MotorwayWayHandler`: the way dictionary and the motorway node ids. */
  class MotorwayWayHandler {
    const motorwayWays: WayDict
    var motorwayNodeIds: set<int>

    constructor ()
      ensures fresh(motorwayWays) && motorwayWays.Valid()
      ensures motorwayWays.entries == map[] && motorwayWays.order == [] && motorwayNodeIds == {}
    {
      motorwayWays := new WayDict();
      motorwayNodeIds := {};
    }

    /** `way`: stores a motorway under its id and adds its nodes to the id set; ignores other ways. */
    method Way(w: OsmWay)
      requires motorwayWays.Valid()
      modifies this, motorwayWays
      ensures motorwayWays.Valid()
      ensures IsMotorway(w) ==>
        && motorwayWays.entries == old(motorwayWays.entries)[w.id := RecordOf(w)]
        && motorwayNodeIds == old(motorwayNodeIds) + NodeSet(w)
      ensures !IsMotorway(w) ==>
        && motorwayWays.entries == old(motorwayWays.entries)
        && motorwayNodeIds == old(motorwayNodeIds)
      ensures motorwayWays.order ==
        if IsMotorway(w) && w.id !in old(motorwayWays.entries) then old(motorwayWays.order) + [w.id]
        else old(motorwayWays.order)
    {
      if IsMotorway(w) {
        motorwayWays.Put(w.id, RecordOf(w));
        motorwayNodeIds := motorwayNodeIds + NodeSet(w);
      }
    }

    /** `apply_file` over the ways of the extract. */
    method ApplyFile(stream: seq<OsmWay>)
      requires motorwayWays.Valid() && motorwayWays.entries == map[] && motorwayWays.order == [] && motorwayNodeIds == {}
      modifies this, motorwayWays
      ensures motorwayWays.Valid()
      ensures motorwayWays.entries == CollectWays(stream) && motorwayNodeIds == CollectNodeIds(stream)
      ensures motorwayWays.order == FirstOccurrences(stream)
    {
      for i := 0 to |stream|
        invariant motorwayWays.Valid()
        invariant motorwayWays.entries == CollectWays(stream[..i]) && motorwayNodeIds == CollectNodeIds(stream[..i])
        invariant motorwayWays.order == FirstOccurrences(stream[..i])
      {
        assert stream[..i + 1][..i] == stream[..i];
        Way(stream[i]);
      }
      assert stream[..|stream|] == stream;
    }
  }

  /** `MotorwayNodeHandler`: the locations of the requested nodes. */
  class MotorwayNodeHandler {
    const nodeIds: set<int>
    var nodes: map<int, Coord>

    constructor (nodeIds: set<int>)
      ensures this.nodeIds == nodeIds && nodes == map[]
    {
      this.nodeIds := nodeIds;
      nodes := map[];
    }

    /** `node`: records the location of a requested node, replacing an earlier one. */
    method Node(n: OsmNode)
      modifies this
      ensures nodes == if n.id in nodeIds then old(nodes)[n.id := n.location] else old(nodes)
    {
      if n.id in nodeIds {
        nodes := nodes[n.id := n.location];
      }
    }

    method ApplyFile(stream: seq<OsmNode>)
      requires nodes == map[]
      modifies this
      ensures nodes == CollectNodes(nodeIds, stream)
    {
      for i := 0 to |stream|
        invariant nodes == CollectNodes(nodeIds, stream[..i])
      {
        assert stream[..i + 1][..i] == stream[..i];
        Node(stream[i]);
      }
      assert stream[..|stream|] == stream;
    }
  }

  function CollectNodes(nodeIds: set<int>, stream: seq<OsmNode>): map<int, Coord>
  {
    if stream == [] then map[]
    else
      var m := CollectNodes(nodeIds, stream[..|stream| - 1]);
      var n := stream[|stream| - 1];
      if n.id in nodeIds then m[n.id := n.location] else m
  }

  /** Only requested ids are recorded, and every requested node of the stream is. */
  lemma {:induction false} CollectNodesKeepsRequested(nodeIds: set<int>, stream: seq<OsmNode>)
    ensures forall id :: id in CollectNodes(nodeIds, stream) ==> id in nodeIds
    ensures forall i :: 0 <= i < |stream| && stream[i].id in nodeIds ==> stream[i].id in CollectNodes(nodeIds, stream)
  {
    if stream != [] {
      var init := stream[..|stream| - 1];
      CollectNodesKeepsRequested(nodeIds, init);
      forall i | 0 <= i < |stream| && stream[i].id in nodeIds
        ensures stream[i].id in CollectNodes(nodeIds, stream)
      {
        if i < |init| {
          assert init[i] == stream[i];
        }
      }
    }
  }

  // ---------------------------------------------------------------------------
  // compute_way_lengths

  /**
   * One way with its lengths added, or None when one of its nodes has no
   * location (the KeyError of `nodes[id]`).
   */
  function Measured(w: MotorwayWay, nodes: map<int, Coord>, dist: Distance): (r: Option<MotorwayWay>)
    ensures r.None? <==> exists k :: 0 <= k < |w.nodes| && w.nodes[k] !in nodes
  {
    if forall k :: 0 <= k < |w.nodes| ==> w.nodes[k] in nodes then
      var coords := seq(|w.nodes|, k requires 0 <= k < |w.nodes| => nodes[w.nodes[k]]);
      var segments := ComputeSegments(dist, coords);
      Some(w.(segments := Some(segments), length := Some(Sum(segments))))
    else None
  }

  /**
   * A measured way keeps every other field, has one segment per pair of
   * consecutive nodes, each the distance between their locations, and a length
   * that is their sum.
   */
  lemma MeasuredWay(w: MotorwayWay, nodes: map<int, Coord>, dist: Distance)
    requires Measured(w, nodes, dist).Some?
    ensures var m := Measured(w, nodes, dist).value;
      && m.segments.Some? && m.length == Some(Sum(m.segments.value))
      && |m.segments.value| == (if |w.nodes| == 0 then 0 else |w.nodes| - 1)
      && (forall k :: 0 <= k < |m.segments.value| ==>
            m.segments.value[k] == dist(nodes[w.nodes[k]], nodes[w.nodes[k + 1]]))
      && m.(segments := w.segments, length := w.length) == w
  {
  }

  /** The position in `order` of the first way that cannot be measured, or |order|. */
  function FirstUnmeasurable(order: seq<int>, entries: map<int, MotorwayWay>, nodes: map<int, Coord>, dist: Distance): (k: nat)
    requires forall i :: 0 <= i < |order| ==> order[i] in entries
    ensures k <= |order|
    ensures forall i :: 0 <= i < k ==> Measured(entries[order[i]], nodes, dist).Some?
    ensures k < |order| ==> Measured(entries[order[k]], nodes, dist).None?
  {
    if order == [] then 0
    else if Measured(entries[order[0]], nodes, dist).None? then 0
    else 1 + FirstUnmeasurable(order[1..], entries, nodes, dist)
  }

  /**
   * The dictionary `cur` while the length loop is at position `i` of `order`:
   * the ways before `i` are measured, the others are as in `entries`.
   */
  ghost predicate MeasuredUpTo(
    order: seq<int>, entries: map<int, MotorwayWay>, cur: map<int, MotorwayWay>, i: nat,
    nodes: map<int, Coord>, dist: Distance)
  {
    && i <= |order|
    && (forall j :: 0 <= j < |order| ==> order[j] in entries && order[j] in cur)
    && (forall j :: 0 <= j < i ==>
          Measured(entries[order[j]], nodes, dist).Some? && cur[order[j]] == Measured(entries[order[j]], nodes, dist).value)
    && (forall j :: i <= j < |order| ==> cur[order[j]] == entries[order[j]])
  }

  /** Measuring the way at position `i` moves the loop on by one position. */
  lemma MeasuredUpToStep(
    order: seq<int>, entries: map<int, MotorwayWay>, cur: map<int, MotorwayWay>, i: nat,
    nodes: map<int, Coord>, dist: Distance)
    requires MeasuredUpTo(order, entries, cur, i, nodes, dist) && i < |order|
    requires forall a, b :: 0 <= a < b < |order| ==> order[a] != order[b]
    requires Measured(cur[order[i]], nodes, dist).Some?
    ensures MeasuredUpTo(order, entries, cur[order[i] := Measured(cur[order[i]], nodes, dist).value], i + 1, nodes, dist)
  {
    forall j | 0 <= j < |order| && j != i
      ensures order[j] != order[i]
    {
      if j < i {
        assert order[j] != order[i];
      } else {
        assert order[i] != order[j];
      }
    }
  }

  /** A measurable way before the first unmeasurable one is not that one. */
  lemma FirstUnmeasurableLater(order: seq<int>, entries: map<int, MotorwayWay>, nodes: map<int, Coord>, dist: Distance, i: nat)
    requires forall j :: 0 <= j < |order| ==> order[j] in entries
    requires i < |order| && i <= FirstUnmeasurable(order, entries, nodes, dist)
    requires Measured(entries[order[i]], nodes, dist).Some?
    ensures i < FirstUnmeasurable(order, entries, nodes, dist)
  {
  }

  /**
   * `compute_way_lengths`: measures the ways in dictionary order, in place. An
   * unresolved node raises KeyError; the ways before it are already measured and
   * the others are untouched.
   */
  method ComputeWayLengths(ways: WayDict, nodes: map<int, Coord>, dist: Distance) returns (ok: bool)
    requires ways.Valid()
    modifies ways
    ensures ways.Valid() && ways.order == old(ways.order) && ways.entries.Keys == old(ways.entries.Keys)
    ensures var k := FirstUnmeasurable(old(ways.order), old(ways.entries), nodes, dist);
      && (ok <==> k == |ways.order|)
      && (forall i :: 0 <= i < k ==>
            ways.entries[ways.order[i]] == Measured(old(ways.entries)[ways.order[i]], nodes, dist).value)
      && (forall i :: k <= i < |ways.order| ==> ways.entries[ways.order[i]] == old(ways.entries)[ways.order[i]])
  {
    ghost var order0, entries0 := ways.order, ways.entries;
    ghost var k := FirstUnmeasurable(order0, entries0, nodes, dist);
    for i := 0 to |ways.order|
      invariant ways.Valid() && ways.order == order0 && ways.entries.Keys == entries0.Keys
      invariant i <= k
      invariant MeasuredUpTo(order0, entries0, ways.entries, i, nodes, dist)
    {
      var id := ways.order[i];
      var m := Measured(ways.entries[id], nodes, dist);
      if m.None? {
        return false;
      }
      FirstUnmeasurableLater(order0, entries0, nodes, dist, i);
      MeasuredUpToStep(order0, entries0, ways.entries, i, nodes, dist);
      ways.Replace(id, m.value);
    }
    return true;
  }
}
