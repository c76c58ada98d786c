/**
 * The aggregation stage of db/import_osm_highways.py: every way becomes its
 * segment lengths, its total length, one `way_segments` row per segment with the
 * share of the way that lies before the segment, and one zero coverage row per
 * segment. The way ids are split into one chunk per worker. The geodesic
 * distance is a parameter; lengths and ratios are exact reals.
 */
module WayAggregation {
  import opened Wrappers
  import opened Osm

  // ---------------------------------------------------------------------------
  // Stages

  /** `_get_stages_from_config`: the stages not skipped, in pipeline order. */
  function StagesFromConfig(skipImport: bool, skipAggregation: bool, skipPreparation: bool): (r: seq<string>)
    ensures ("import" in r <==> !skipImport) && ("aggregation" in r <==> !skipAggregation)
      && ("preparation" in r <==> !skipPreparation)
    ensures |r| <= 3 && forall i, j :: 0 <= i < j < |r| ==> StageRank(r[i]) < StageRank(r[j])
    ensures forall s :: s in r ==> s == "import" || s == "aggregation" || s == "preparation"
  {
    (if skipImport then [] else ["import"])
      + (if skipAggregation then [] else ["aggregation"])
      + (if skipPreparation then [] else ["preparation"])
  }

  function StageRank(stage: string): int
  {
    if stage == "import" then 0 else if stage == "aggregation" then 1 else 2
  }

  // ---------------------------------------------------------------------------
  // Chunks

  /** What `_split_into_chunks` raises: division by zero workers, or a zero range step. */
  datatype ChunkError = ZeroDivisionError | RangeStepZero

  /** `math.ceil(a / b)` on exact numbers. */
  function CeilDiv(a: nat, b: nat): (r: nat)
    requires b > 0
    ensures r * b >= a
    ensures r > 0 ==> (r - 1) * b < a
  {
    var q := (a + b - 1) / b;
    assert a + b - 1 == q * b + (a + b - 1) % b;
    q
  }

  /** The slices `data[i:i+size]` for `i` in `range(0, len(data), size)`. */
  function Slices<T>(data: seq<T>, size: nat): seq<seq<T>>
    requires size > 0
    decreases |data|
  {
    if data == [] then []
    else if |data| <= size then [data]
    else [data[..size]] + Slices(data[size..], size)
  }

  /** `_split_into_chunks(data, num_chunks)`, with the generator's slices collected. */
  function SplitIntoChunks<T>(data: seq<T>, numChunks: nat): (r: Result<seq<seq<T>>, ChunkError>)
    ensures r == Err(ZeroDivisionError) <==> numChunks == 0
    ensures r == Err(RangeStepZero) <==> numChunks > 0 && data == []
  {
    if numChunks == 0 then Err(ZeroDivisionError)
    else
      var size := CeilDiv(|data|, numChunks);
      if size == 0 then Err(RangeStepZero) else Ok(Slices(data, size))
  }

  function Concat<T>(chunks: seq<seq<T>>): seq<T>
  {
    if chunks == [] then [] else chunks[0] + Concat(chunks[1..])
  }

  lemma {:induction false} SlicesShape<T>(data: seq<T>, size: nat)
    requires size > 0
    ensures Concat(Slices(data, size)) == data
    ensures forall i :: 0 <= i < |Slices(data, size)| ==> 0 < |Slices(data, size)[i]| <= size
    decreases |data|
  {
    if |data| > size {
      var rest := Slices(data[size..], size);
      SlicesShape(data[size..], size);
      assert ([data[..size]] + rest)[1..] == rest;
      assert data[..size] + data[size..] == data;
      forall i | 0 <= i < |Slices(data, size)|
        ensures 0 < |Slices(data, size)[i]| <= size
      {
        if i > 0 {
          assert Slices(data, size)[i] == rest[i - 1];
        }
      }
    } else if data != [] {
      assert [data][1..] == [];
      assert data + [] == data;
    }
  }

  lemma {:induction false} SlicesCount<T>(data: seq<T>, size: nat, k: nat)
    requires size > 0 && k * size >= |data|
    ensures |Slices(data, size)| <= k
    decreases |data|
  {
    if |data| > size {
      assert (k - 1) * size == k * size - size;
      SlicesCount(data[size..], size, k - 1);
    }
  }

  /**
   * The chunks of a successful split concatenate back to the data in order; every
   * chunk is non-empty and holds at most `ceil(len / num_chunks)` items; there are
   * at most `num_chunks` of them.
   */
  lemma SplitIntoChunksShape<T>(data: seq<T>, numChunks: nat)
    requires SplitIntoChunks(data, numChunks).Ok?
    ensures var chunks := SplitIntoChunks(data, numChunks).value;
      && Concat(chunks) == data
      && |chunks| <= numChunks
      && forall i :: 0 <= i < |chunks| ==> 0 < |chunks[i]| <= CeilDiv(|data|, numChunks)
  {
    var size := CeilDiv(|data|, numChunks);
    SlicesShape(data, size);
    SlicesCount(data, size, numChunks);
  }

  // ---------------------------------------------------------------------------
  // Per-way computations

  /** `_compute_segments`: the distance from each node to the next. */
  function ComputeSegments(dist: Distance, nodes: seq<Coord>): (r: seq<real>)
    ensures |r| == if |nodes| == 0 then 0 else |nodes| - 1
    ensures forall i :: 0 <= i < |r| ==> r[i] == dist(nodes[i], nodes[i + 1]) && r[i] >= 0.0
  {
    if |nodes| <= 1 then []
    else seq(|nodes| - 1, i requires 0 <= i < |nodes| - 1 => dist(nodes[i], nodes[i + 1]))
  }

  datatype WayLengthRow = WayLengthRow(wayId: int, length: real)

  /** A row of `way_segments`: the segment's length and the share of the way before it. */
  datatype WaySegmentRow = WaySegmentRow(wayId: int, segmentId: int, length: real, ratio: real)

  datatype CoverageRow = CoverageRow(wayId: int, segmentId: int, coverage: int)

  /** `accumulated_length / way_length` with a way length of zero. */
  datatype AggregationError = DivisionByZero(wayId: int)

  /** `accumulated_length / way_length`. */
  function Share(before: real, total: real): real
    requires total != 0.0
  {
    before / total
  }

  /**
   * The rows `_create_way_segments` appends: segment `i` starts at the sum of the
   * lengths before it divided by the way's length. A way of zero length with at
   * least one segment divides by zero in the first iteration.
   */
  function SegmentRows(wayId: int, segments: seq<real>): (r: Result<seq<WaySegmentRow>, AggregationError>)
    ensures r.Err? <==> |segments| > 0 && Sum(segments) == 0.0
    ensures r.Err? ==> r.error == DivisionByZero(wayId)
    ensures r.Ok? ==> |r.value| == |segments|
  {
    if |segments| > 0 && Sum(segments) == 0.0 then Err(DivisionByZero(wayId))
    else Ok(seq(|segments|, i requires 0 <= i < |segments| =>
      WaySegmentRow(wayId, i, segments[i], Share(Sum(segments[..i]), Sum(segments)))))
  }

  /** Row `i` describes segment `i`: its id, its length and the share of the way before it. */
  lemma SegmentRowAt(wayId: int, segments: seq<real>, i: nat)
    requires SegmentRows(wayId, segments).Ok? && i < |segments|
    ensures SegmentRows(wayId, segments).value[i]
      == WaySegmentRow(wayId, i, segments[i], Share(Sum(segments[..i]), Sum(segments)))
  {
  }

  /** With non-negative lengths the shares before two segments are ordered like the segments. */
  lemma SharesOrdered(segments: seq<real>, i: nat, j: nat)
    requires forall k :: 0 <= k < |segments| ==> segments[k] >= 0.0
    requires i <= j < |segments| && Sum(segments) != 0.0
    ensures 0.0 <= Sum(segments[..i]) / Sum(segments) <= Sum(segments[..j]) / Sum(segments) <= 1.0
  {
    SumPrefixMonotone(segments, i, j);
    SumPrefixMonotone(segments, j, |segments|);
    assert segments[..|segments|] == segments;
    RatioMonotone(Sum(segments[..i]), Sum(segments[..j]), Sum(segments));
  }

  lemma RatioMonotone(a: real, b: real, total: real)
    requires 0.0 <= a <= b <= total && total > 0.0
    ensures 0.0 <= a / total <= b / total <= 1.0
  {
  }

  /** The rows carry the way id, the ids 0 to k-1 in order and the segment lengths. */
  lemma SegmentRowsIds(wayId: int, segments: seq<real>)
    requires SegmentRows(wayId, segments).Ok?
    ensures var rows := SegmentRows(wayId, segments).value;
      forall i :: 0 <= i < |rows| ==>
        rows[i].wayId == wayId && rows[i].segmentId == i && rows[i].length == segments[i]
  {
  }

  /**
   * The first segment starts at ratio 0, and with non-negative lengths the ratios
   * never decrease and lie within [0, 1].
   */
  lemma SegmentRatiosOrdered(wayId: int, segments: seq<real>)
    requires forall k :: 0 <= k < |segments| ==> segments[k] >= 0.0
    requires SegmentRows(wayId, segments).Ok?
    ensures var rows := SegmentRows(wayId, segments).value;
      && (|rows| > 0 ==> rows[0].ratio == 0.0)
      && (forall i, j :: 0 <= i <= j < |rows| ==> 0.0 <= rows[i].ratio <= rows[j].ratio <= 1.0)
  {
    var rows := SegmentRows(wayId, segments).value;
    if |rows| > 0 {
      SegmentRowAt(wayId, segments, 0);
      assert segments[..0] == [];
    }
    forall i, j | 0 <= i <= j < |rows|
      ensures 0.0 <= rows[i].ratio <= rows[j].ratio <= 1.0
    {
      SegmentRowAt(wayId, segments, i);
      SegmentRowAt(wayId, segments, j);
      SharesOrdered(segments, i, j);
    }
  }

  /** `_create_way_segment_coverage`: one zero coverage row per segment. */
  function CoverageRows(wayId: int, segments: seq<real>): (r: seq<CoverageRow>)
    ensures |r| == |segments|
    ensures forall i :: 0 <= i < |r| ==> r[i] == CoverageRow(wayId, i, 0)
  {
    seq(|segments|, i requires 0 <= i < |segments| => CoverageRow(wayId, i, 0))
  }

  // ---------------------------------------------------------------------------
  // A worker's pass over its chunk

  /**
   * The rows a worker has built after some ways, and the exception that ended
   * its pass, if any.
   */
  datatype Aggregated = Aggregated(
    lengths: seq<WayLengthRow>, segments: seq<WaySegmentRow>, coverage: seq<CoverageRow>,
    error: Option<AggregationError>)

  /**
   * The loop of `run` for the ways `wayIds`, whose node coordinates the query
   * returns as `wayData`: length row, then segment rows, then coverage rows per
   * way. The way length row of a way whose segment rows fail is already built.
   */
  function Aggregate(dist: Distance, wayData: int -> seq<Coord>, wayIds: seq<int>): Aggregated
  {
    if wayIds == [] then Aggregated([], [], [], None)
    else
      var a := Aggregate(dist, wayData, wayIds[..|wayIds| - 1]);
      if a.error.Some? then a
      else
        var wayId := wayIds[|wayIds| - 1];
        var segments := ComputeSegments(dist, wayData(wayId));
        var lengths := a.lengths + [WayLengthRow(wayId, Sum(segments))];
        match SegmentRows(wayId, segments)
        case Err(e) => Aggregated(lengths, a.segments, a.coverage, Some(e))
        case Ok(rows) => Aggregated(lengths, a.segments + rows, a.coverage + CoverageRows(wayId, segments), None)
  }

  /**
   * After a pass without exception there is one length row per way, and the
   * coverage rows pair one for one with the segment rows: same way, same segment
   * id, coverage 0.
   */
  lemma AggregateRowsAgree(dist: Distance, wayData: int -> seq<Coord>, wayIds: seq<int>)
    requires Aggregate(dist, wayData, wayIds).error.None?
    ensures var a := Aggregate(dist, wayData, wayIds);
      && |a.lengths| == |wayIds|
      && (forall i :: 0 <= i < |wayIds| ==> a.lengths[i].wayId == wayIds[i])
      && |a.coverage| == |a.segments|
      && forall k :: 0 <= k < |a.segments| ==>
           a.coverage[k] == CoverageRow(a.segments[k].wayId, a.segments[k].segmentId, 0)
  {
    AggregateLengthRows(dist, wayData, wayIds);
    AggregateCoverageRows(dist, wayData, wayIds);
  }

  /** After a pass without exception, length row `i` is that of way `i`. */
  lemma {:induction false} AggregateLengthRows(dist: Distance, wayData: int -> seq<Coord>, wayIds: seq<int>)
    requires Aggregate(dist, wayData, wayIds).error.None?
    ensures var a := Aggregate(dist, wayData, wayIds);
      |a.lengths| == |wayIds| && forall i :: 0 <= i < |wayIds| ==> a.lengths[i].wayId == wayIds[i]
  {
    if wayIds != [] {
      var init := wayIds[..|wayIds| - 1];
      AggregateLengthRows(dist, wayData, init);
      assert wayIds[..|wayIds| - 1 + 1] == wayIds;
      AggregateStep(dist, wayData, wayIds, |wayIds| - 1);
      var b := Aggregate(dist, wayData, wayIds);
      forall i | 0 <= i < |wayIds|
        ensures b.lengths[i].wayId == wayIds[i]
      {
        if i < |init| {
          assert init[i] == wayIds[i];
        }
      }
    }
  }

  /** After a pass without exception, coverage row `k` belongs to segment row `k`. */
  lemma {:induction false} AggregateCoverageRows(dist: Distance, wayData: int -> seq<Coord>, wayIds: seq<int>)
    requires Aggregate(dist, wayData, wayIds).error.None?
    ensures var a := Aggregate(dist, wayData, wayIds);
      && |a.coverage| == |a.segments|
      && forall k :: 0 <= k < |a.segments| ==>
           a.coverage[k] == CoverageRow(a.segments[k].wayId, a.segments[k].segmentId, 0)
  {
    if wayIds != [] {
      var init := wayIds[..|wayIds| - 1];
      AggregateCoverageRows(dist, wayData, init);
      assert wayIds[..|wayIds| - 1 + 1] == wayIds;
      AggregateStep(dist, wayData, wayIds, |wayIds| - 1);
      var a := Aggregate(dist, wayData, init);
      var wayId := wayIds[|wayIds| - 1];
      var segments := ComputeSegments(dist, wayData(wayId));
      var rows := SegmentRows(wayId, segments).value;
      SegmentRowsIds(wayId, segments);
      var b := Aggregate(dist, wayData, wayIds);
      forall k | 0 <= k < |b.segments|
        ensures b.coverage[k] == CoverageRow(b.segments[k].wayId, b.segments[k].segmentId, 0)
      {
        if k >= |a.segments| {
          assert b.segments[k] == rows[k - |a.segments|];
        }
      }
    }
  }

  lemma SegmentRatiosInUnitInterval(wayId: int, segments: seq<real>)
    requires forall k :: 0 <= k < |segments| ==> segments[k] >= 0.0
    requires SegmentRows(wayId, segments).Ok?
    ensures RatiosInUnitInterval(SegmentRows(wayId, segments).value)
  {
    var rows := SegmentRows(wayId, segments).value;
    forall m | 0 <= m < |rows|
      ensures 0.0 <= rows[m].ratio <= 1.0
    {
      SegmentRowAt(wayId, segments, m);
      SharesOrdered(segments, m, m);
    }
  }

  predicate RatiosInUnitInterval(rows: seq<WaySegmentRow>)
  {
    forall k :: 0 <= k < |rows| ==> 0.0 <= rows[k].ratio <= 1.0
  }

  lemma RatiosInUnitIntervalConcat(xs: seq<WaySegmentRow>, ys: seq<WaySegmentRow>)
    requires RatiosInUnitInterval(xs) && RatiosInUnitInterval(ys)
    ensures RatiosInUnitInterval(xs + ys)
  {
    forall k | 0 <= k < |xs + ys|
      ensures 0.0 <= (xs + ys)[k].ratio <= 1.0
    {
      if k >= |xs| {
        assert (xs + ys)[k] == ys[k - |xs|];
      }
    }
  }

  /** Every ratio a pass produces lies within [0, 1]. */
  lemma {:induction false} AggregateRatiosInUnitInterval(dist: Distance, wayData: int -> seq<Coord>, wayIds: seq<int>)
    ensures RatiosInUnitInterval(Aggregate(dist, wayData, wayIds).segments)
  {
    if wayIds != [] {
      var init := wayIds[..|wayIds| - 1];
      AggregateRatiosInUnitInterval(dist, wayData, init);
      var a := Aggregate(dist, wayData, init);
      var wayId := wayIds[|wayIds| - 1];
      var segments := ComputeSegments(dist, wayData(wayId));
      if a.error.None? && SegmentRows(wayId, segments).Ok? {
        var rows := SegmentRows(wayId, segments).value;
        SegmentRatiosInUnitInterval(wayId, segments);
        assert Aggregate(dist, wayData, wayIds).segments == a.segments + rows;
        RatiosInUnitIntervalConcat(a.segments, rows);
      } else {
        assert Aggregate(dist, wayData, wayIds).segments == a.segments;
      }
    }
  }

  /**
   * A pass fails only on a way of the chunk with at least two nodes whose
   * segments all have length zero; that way's length row is the last one built.
   */
  lemma {:induction false} AggregateFailsOnZeroLengthWay(dist: Distance, wayData: int -> seq<Coord>, wayIds: seq<int>)
    requires Aggregate(dist, wayData, wayIds).error.Some?
    ensures var a := Aggregate(dist, wayData, wayIds);
      var wayId := a.error.value.wayId;
      var segments := ComputeSegments(dist, wayData(wayId));
      && wayId in wayIds && |wayData(wayId)| >= 2
      && (forall k :: 0 <= k < |segments| ==> segments[k] == 0.0)
      && |a.lengths| > 0 && a.lengths[|a.lengths| - 1] == WayLengthRow(wayId, 0.0)
  {
    var init := wayIds[..|wayIds| - 1];
    if Aggregate(dist, wayData, init).error.Some? {
      AggregateFailsOnZeroLengthWay(dist, wayData, init);
    } else {
      var wayId := wayIds[|wayIds| - 1];
      SumZeroIffAllZero(ComputeSegments(dist, wayData(wayId)));
    }
  }

  /** A way with at least two nodes whose consecutive nodes are all at distance zero. */
  predicate ZeroLengthWay(dist: Distance, nodes: seq<Coord>)
  {
    |nodes| >= 2 && forall k :: 0 <= k < |nodes| - 1 ==> dist(nodes[k], nodes[k + 1]) == 0.0
  }

  /** The position of the first zero-length way of the chunk, or the chunk's size. */
  function FirstZeroLengthWay(dist: Distance, wayData: int -> seq<Coord>, wayIds: seq<int>): (i: nat)
    ensures i <= |wayIds|
    ensures forall j :: 0 <= j < i ==> !ZeroLengthWay(dist, wayData(wayIds[j]))
    ensures i < |wayIds| ==> ZeroLengthWay(dist, wayData(wayIds[i]))
  {
    if wayIds == [] then 0
    else
      var init := wayIds[..|wayIds| - 1];
      var i := FirstZeroLengthWay(dist, wayData, init);
      if i < |init| then i
      else if ZeroLengthWay(dist, wayData(wayIds[|init|])) then |init|
      else |wayIds|
  }

  /**
   * A pass fails exactly when the chunk holds a zero-length way, and then with the
   * ZeroDivisionError of the first such way.
   */
  lemma {:induction false} AggregateFailsAtFirstZeroLengthWay(dist: Distance, wayData: int -> seq<Coord>, wayIds: seq<int>)
    ensures var a, i := Aggregate(dist, wayData, wayIds), FirstZeroLengthWay(dist, wayData, wayIds);
      && (a.error.Some? <==> i < |wayIds|)
      && (a.error.Some? ==> a.error.value == DivisionByZero(wayIds[i]))
  {
    if wayIds != [] {
      var init := wayIds[..|wayIds| - 1];
      AggregateFailsAtFirstZeroLengthWay(dist, wayData, init);
      var a := Aggregate(dist, wayData, init);
      var wayId := wayIds[|init|];
      if a.error.None? {
        assert wayIds[..|init| + 1] == wayIds;
        AggregateStep(dist, wayData, wayIds, |init|);
        ZeroLengthWayIffSegmentRowsFail(dist, wayData(wayId), wayId);
      }
    }
  }

  /** The segment rows of a way fail exactly when the way has zero length. */
  lemma ZeroLengthWayIffSegmentRowsFail(dist: Distance, nodes: seq<Coord>, wayId: int)
    ensures SegmentRows(wayId, ComputeSegments(dist, nodes)).Err? <==> ZeroLengthWay(dist, nodes)
  {
    var segments := ComputeSegments(dist, nodes);
    SumZeroIffAllZero(segments);
    if ZeroLengthWay(dist, nodes) {
      assert forall k :: 0 <= k < |segments| ==> segments[k] == 0.0;
    }
  }

  /** A zero-length way anywhere in the chunk makes the pass fail, at it or at an earlier one. */
  lemma ZeroLengthWayFailsPass(dist: Distance, wayData: int -> seq<Coord>, wayIds: seq<int>, j: nat)
    requires j < |wayIds| && ZeroLengthWay(dist, wayData(wayIds[j]))
    ensures var a := Aggregate(dist, wayData, wayIds);
      && a.error.Some?
      && exists i :: 0 <= i <= j && a.error.value == DivisionByZero(wayIds[i]) && ZeroLengthWay(dist, wayData(wayIds[i]))
  {
    AggregateFailsAtFirstZeroLengthWay(dist, wayData, wayIds);
    var i := FirstZeroLengthWay(dist, wayData, wayIds);
    assert i <= j;
  }

  /**
   * `WayAggregationWorker`: the rows it has built for its chunk of way ids, and
   * whether `_write_segment_data` committed them.
   */
  class AggregationWorker {
    const wayIds: seq<int>
    var wayLengths: seq<WayLengthRow>
    var waySegments: seq<WaySegmentRow>
    var waySegmentCoverage: seq<CoverageRow>
    var committed: bool

    constructor (wayIds: seq<int>)
      ensures this.wayIds == wayIds
      ensures wayLengths == [] && waySegments == [] && waySegmentCoverage == [] && !committed
    {
      this.wayIds := wayIds;
      wayLengths := [];
      waySegments := [];
      waySegmentCoverage := [];
      committed := false;
    }

    /** `_create_way_lengths`. */
    method CreateWayLengths(wayId: int, segments: seq<real>)
      modifies this`wayLengths
      ensures wayLengths == old(wayLengths) + [WayLengthRow(wayId, Sum(segments))]
    {
      wayLengths := wayLengths + [WayLengthRow(wayId, Sum(segments))];
    }

    /**
     * `_create_way_segments`: the loop that carries the accumulated length. On a
     * way of zero length the first division raises before any row is appended.
     */
    method CreateWaySegments(wayId: int, segments: seq<real>) returns (err: Option<AggregationError>)
      modifies this`waySegments
      ensures var r := SegmentRows(wayId, segments);
        && (r.Ok? ==> err.None? && waySegments == old(waySegments) + r.value)
        && (r.Err? ==> err == Some(r.error) && waySegments == old(waySegments))
    {
      var wayLength := Sum(segments);
      var accumulatedLength := 0.0;
      ghost var rows: seq<WaySegmentRow> := [];
      for idx := 0 to |segments|
        invariant accumulatedLength == Sum(segments[..idx])
        invariant idx > 0 ==> wayLength != 0.0
        invariant |rows| == idx && waySegments == old(waySegments) + rows
        invariant forall i :: 0 <= i < idx ==> rows[i] == WaySegmentRow(wayId, i, segments[i], Share(Sum(segments[..i]), wayLength))
      {
        if wayLength == 0.0 {
          return Some(DivisionByZero(wayId));
        }
        var row := WaySegmentRow(wayId, idx, segments[idx], Share(accumulatedLength, wayLength));
        waySegments := waySegments + [row];
        rows := rows + [row];
        assert segments[..idx + 1][..idx] == segments[..idx];
        accumulatedLength := accumulatedLength + segments[idx];
      }
      return None;
    }

    /** `_create_way_segment_coverage`. */
    method CreateWaySegmentCoverage(wayId: int, segments: seq<real>)
      modifies this`waySegmentCoverage
      ensures waySegmentCoverage == old(waySegmentCoverage) + CoverageRows(wayId, segments)
    {
      for idx := 0 to |segments|
        invariant waySegmentCoverage == old(waySegmentCoverage) + CoverageRows(wayId, segments)[..idx]
      {
        assert CoverageRows(wayId, segments)[..idx + 1] == CoverageRows(wayId, segments)[..idx] + [CoverageRow(wayId, idx, 0)];
        waySegmentCoverage := waySegmentCoverage + [CoverageRow(wayId, idx, 0)];
      }
      assert CoverageRows(wayId, segments)[..|segments|] == CoverageRows(wayId, segments);
    }

    /**
     * `run`: every way of the chunk in order, then one commit of all rows. An
     * exception ends the thread before the commit.
     */
    method Run(dist: Distance, wayData: int -> seq<Coord>) returns (err: Option<AggregationError>)
      requires wayLengths == [] && waySegments == [] && waySegmentCoverage == [] && !committed
      modifies this
      ensures var a := Aggregate(dist, wayData, wayIds);
        && err == a.error && committed == a.error.None?
        && wayLengths == a.lengths && waySegments == a.segments && waySegmentCoverage == a.coverage
    {
      for i := 0 to |wayIds|
        invariant Aggregate(dist, wayData, wayIds[..i]).error.None? && !committed
        invariant wayLengths == Aggregate(dist, wayData, wayIds[..i]).lengths
        invariant waySegments == Aggregate(dist, wayData, wayIds[..i]).segments
        invariant waySegmentCoverage == Aggregate(dist, wayData, wayIds[..i]).coverage
      {
        AggregateStep(dist, wayData, wayIds, i);
        var wayId := wayIds[i];
        var segments := ComputeSegments(dist, wayData(wayId));
        CreateWayLengths(wayId, segments);
        err := CreateWaySegments(wayId, segments);
        if err.Some? {
          AggregateErrorSticks(dist, wayData, wayIds, i + 1);
          return;
        }
        CreateWaySegmentCoverage(wayId, segments);
      }
      assert wayIds[..|wayIds|] == wayIds;
      err := None;
      committed := true;
    }
  }

  /** One more way of the chunk, after a pass without exception. */
  lemma AggregateStep(dist: Distance, wayData: int -> seq<Coord>, wayIds: seq<int>, i: nat)
    requires i < |wayIds| && Aggregate(dist, wayData, wayIds[..i]).error.None?
    ensures var a, wayId := Aggregate(dist, wayData, wayIds[..i]), wayIds[i];
      var segments := ComputeSegments(dist, wayData(wayId));
      var b := Aggregate(dist, wayData, wayIds[..i + 1]);
      && b.lengths == a.lengths + [WayLengthRow(wayId, Sum(segments))]
      && (SegmentRows(wayId, segments).Err? ==>
            b.segments == a.segments && b.coverage == a.coverage && b.error == Some(SegmentRows(wayId, segments).error))
      && (SegmentRows(wayId, segments).Ok? ==>
            && b.segments == a.segments + SegmentRows(wayId, segments).value
            && b.coverage == a.coverage + CoverageRows(wayId, segments)
            && b.error.None?)
  {
    assert wayIds[..i + 1][..i] == wayIds[..i];
  }

  /** Once a pass has failed, the later ways of the chunk are not visited. */
  lemma {:induction false} AggregateErrorSticks(dist: Distance, wayData: int -> seq<Coord>, wayIds: seq<int>, n: nat)
    requires n <= |wayIds| && Aggregate(dist, wayData, wayIds[..n]).error.Some?
    ensures Aggregate(dist, wayData, wayIds) == Aggregate(dist, wayData, wayIds[..n])
    decreases |wayIds| - n
  {
    if n < |wayIds| {
      assert wayIds[..n + 1][..n] == wayIds[..n];
      AggregateErrorSticks(dist, wayData, wayIds, n + 1);
    } else {
      assert wayIds[..n] == wayIds;
    }
  }
}
