/**
 * The trace reconciler of coverage/way_segments.py. It turns a postprocessed
 * map-matching result and the per-way index of segment start ratios into runs of
 * (way, segment) pairs with the gaps between consecutive observations filled in.
 *
 * The functions state what the reconciler computes; the methods follow the
 * source's loops and are proved to compute exactly that.
 */
module WaySegments {
  import opened Wrappers
  import opened MapMatching
  import opened Sequences

  type WayId = int

  /** A (way_id, segment_id) pair of the coverage trace. */
  datatype Pair = Pair(way: WayId, segment: int)

  /** The index of segment start ratios, per way, ordered by segment id. */
  type SegmentIndex = map<WayId, seq<real>>

  /**
   * The exceptions the reconciler can raise. `StepLimit` is not one of them: it is
   * what the model reports when a gap-filling walk has not reached its target after
   * the given number of steps, where the source would go on looping.
   */
  datatype Error = KeyError | IndexError | StepLimit

  // ---------------------------------------------------------------------------
  // Ordering validation

  /** The lexicographic order on (edge_index, edge_ratio). */
  predicate KeyLess(a: Match, b: Match)
  {
    a.edgeIndex < b.edgeIndex || (a.edgeIndex == b.edgeIndex && a.edgeRatio < b.edgeRatio)
  }

  /** `_is_valid_match_result`: every consecutive pair of matches strictly increases. */
  predicate IsValidMatchResult(matches: seq<Match>)
  {
    forall i :: 0 <= i < |matches| - 1 ==> KeyLess(matches[i], matches[i + 1])
  }

  lemma {:induction false} ValidChain(matches: seq<Match>, i: nat, j: nat)
    requires IsValidMatchResult(matches)
    requires i < j < |matches|
    ensures KeyLess(matches[i], matches[j])
  {
    if i + 1 < j {
      ValidChain(matches, i, j - 1);
    }
  }

  /**
   * The consecutive check is the same as asking every earlier match to be strictly
   * below every later one: a tie or an inversion anywhere makes the result invalid.
   */
  lemma ValidIffStrictlyIncreasing(matches: seq<Match>)
    ensures IsValidMatchResult(matches) <==>
      forall i, j :: 0 <= i < j < |matches| ==> KeyLess(matches[i], matches[j])
  {
    if IsValidMatchResult(matches) {
      forall i, j | 0 <= i < j < |matches| ensures KeyLess(matches[i], matches[j]) {
        ValidChain(matches, i, j);
      }
    }
  }

  /** The postprocessed matches are valid exactly when the service's points are ordered. */
  lemma ValidityOfPostprocessedMatches(points: seq<RawMatchedPoint>)
    ensures IsValidMatchResult(ExtractMatches(points)) <==>
      forall i :: 0 <= i < |points| - 1 ==>
        || points[i].edgeIndex < points[i + 1].edgeIndex
        || (points[i].edgeIndex == points[i + 1].edgeIndex
            && points[i].distanceAlongEdge < points[i + 1].distanceAlongEdge)
  {
  }

  // ---------------------------------------------------------------------------
  // Segment lookup

  /**
   * `_get_segment_id_by_ratio`: the index of the first start ratio strictly above
   * `edgeRatio`, minus one, or the last index when there is none.
   */
  function SegmentIdByRatio(edgeRatio: real, ratios: seq<real>): (r: int)
    ensures -1 <= r < |ratios|
    ensures forall j :: 0 <= j <= r ==> ratios[j] <= edgeRatio
    ensures r + 1 < |ratios| ==> edgeRatio < ratios[r + 1]
  {
    ScanFrom(edgeRatio, ratios, 0)
  }

  function ScanFrom(edgeRatio: real, ratios: seq<real>, idx: nat): (r: int)
    requires idx <= |ratios|
    requires forall j :: 0 <= j < idx ==> ratios[j] <= edgeRatio
    ensures idx - 1 <= r < |ratios|
    ensures forall j :: 0 <= j <= r ==> ratios[j] <= edgeRatio
    ensures r + 1 < |ratios| ==> edgeRatio < ratios[r + 1]
    decreases |ratios| - idx
  {
    if idx == |ratios| then idx - 1
    else if ratios[idx] > edgeRatio then idx - 1
    else ScanFrom(edgeRatio, ratios, idx + 1)
  }

  /** The loop of `_get_segment_id_by_ratio`, returning from inside the scan. */
  method GetSegmentIdByRatio(edgeRatio: real, ratios: seq<real>) returns (r: int)
    ensures r == SegmentIdByRatio(edgeRatio, ratios)
  {
    for idx := 0 to |ratios|
      invariant forall j :: 0 <= j < idx ==> ratios[j] <= edgeRatio
      invariant ScanFrom(edgeRatio, ratios, idx) == SegmentIdByRatio(edgeRatio, ratios)
    {
      if ratios[idx] > edgeRatio {
        return idx - 1;
      }
    }
    return |ratios| - 1;
  }

  ghost predicate Sorted(ratios: seq<real>)
  {
    forall i, j :: 0 <= i <= j < |ratios| ==> ratios[i] <= ratios[j]
  }

  /**
   * On sorted start ratios the lookup is the right-open interval search: segment r
   * owns [ratios[r], ratios[r + 1]), and it is the only segment that does.
   */
  lemma SegmentIdIsInterval(edgeRatio: real, ratios: seq<real>, k: int)
    requires Sorted(ratios) && |ratios| > 0 && ratios[0] <= edgeRatio
    ensures var r := SegmentIdByRatio(edgeRatio, ratios);
      && 0 <= r && ratios[r] <= edgeRatio
      && (r + 1 < |ratios| ==> edgeRatio < ratios[r + 1])
    ensures 0 <= k < |ratios| && ratios[k] <= edgeRatio && (k + 1 < |ratios| ==> edgeRatio < ratios[k + 1])
      ==> k == SegmentIdByRatio(edgeRatio, ratios)
  {
  }

  /** A ratio equal to a segment's start belongs to that segment, the higher of the two it bounds. */
  lemma BoundaryBelongsToStartingSegment(ratios: seq<real>, k: nat)
    requires k < |ratios|
    requires forall i, j :: 0 <= i < j < |ratios| ==> ratios[i] < ratios[j]
    ensures SegmentIdByRatio(ratios[k], ratios) == k
  {
    var r := SegmentIdByRatio(ratios[k], ratios);
    assert 0 <= r ==> ratios[r] <= ratios[k];
    assert r + 1 < |ratios| ==> ratios[k] < ratios[r + 1];
  }

  // ---------------------------------------------------------------------------
  // Next way in the route

  /** The position of the first edge on `way`, or |edges| if there is none. */
  function FirstEdgeIndex(way: WayId, edges: seq<Edge>): (i: nat)
    ensures i <= |edges|
    ensures forall j :: 0 <= j < i ==> edges[j].wayId != way
    ensures i < |edges| ==> edges[i].wayId == way
  {
    if edges == [] then 0
    else if edges[0].wayId == way then 0
    else 1 + FirstEdgeIndex(way, edges[1..])
  }

  /** What `_get_next_way` does: no edge on the way, the way's first edge is the last edge, or the next way. */
  datatype NextWayResult = NoEdge | PastLastEdge | NextWay(way: WayId)

  function NextWayOf(way: WayId, edges: seq<Edge>): (r: NextWayResult)
    ensures r.NoEdge? <==> forall j :: 0 <= j < |edges| ==> edges[j].wayId != way
    ensures r.PastLastEdge? <==>
      |edges| > 0 && edges[|edges| - 1].wayId == way &&
      forall j :: 0 <= j < |edges| - 1 ==> edges[j].wayId != way
    ensures r.NextWay? ==>
      var i := FirstEdgeIndex(way, edges); i < |edges| - 1 && edges[i].wayId == way && r.way == edges[i + 1].wayId
  {
    var i := FirstEdgeIndex(way, edges);
    if i == |edges| then NoEdge
    else if i + 1 == |edges| then PastLastEdge
    else NextWay(edges[i + 1].wayId)
  }

  /** The loop of `_get_next_way`: the way of the edge right after the first edge on `way`. */
  method GetNextWay(way: WayId, edges: seq<Edge>) returns (r: NextWayResult)
    ensures r == NextWayOf(way, edges)
  {
    for i := 0 to |edges|
      invariant forall j :: 0 <= j < i ==> edges[j].wayId != way
    {
      if edges[i].wayId == way {
        if i + 1 == |edges| {
          return PastLastEdge;
        }
        return NextWay(edges[i + 1].wayId);
      }
    }
    return NoEdge;
  }

  // ---------------------------------------------------------------------------
  // Gap filling

  /**
   * One synthetic step of the walk: the next segment of the same way, or segment 0
   * of the next way in the route once the way's last segment is passed.
   */
  function Advance(edges: seq<Edge>, index: SegmentIndex, p: Pair): Result<Pair, Error>
  {
    if p.way !in index then Err(KeyError)
    else if p.segment + 1 > |index[p.way]| - 1 then
      match NextWayOf(p.way, edges)
      case NextWay(w) => Ok(Pair(w, 0))
      case NoEdge => Err(KeyError)
      case PastLastEdge => Err(IndexError)
    else Ok(Pair(p.way, p.segment + 1))
  }

  /** Prepends `path` to a successful walk and passes errors through. */
  function Prefixed(path: seq<Pair>, r: Result<seq<Pair>, Error>): Result<seq<Pair>, Error>
  {
    match r
    case Ok(rest) => Ok(path + rest)
    case Err(e) => Err(e)
  }

  lemma PrefixedNothing(r: Result<seq<Pair>, Error>)
    ensures Prefixed([], r) == r
  {
    if r.Ok? {
      assert [] + r.value == r.value;
    }
  }

  lemma PrefixedTwice(path: seq<Pair>, more: seq<Pair>, r: Result<seq<Pair>, Error>)
    ensures Prefixed(path, Prefixed(more, r)) == Prefixed(path + more, r)
  {
    if r.Ok? {
      assert path + (more + r.value) == (path + more) + r.value;
    }
  }

  /**
   * The pairs the inner while-loop appends between the observed pairs `from` and
   * `to`, with at most `fuel` steps.
   */
  function Walk(edges: seq<Edge>, index: SegmentIndex, from: Pair, to: Pair, fuel: nat): Result<seq<Pair>, Error>
    decreases fuel
  {
    if from == to then Ok([])
    else if fuel == 0 then Err(StepLimit)
    else match Advance(edges, index, from)
      case Err(e) => Err(e)
      case Ok(next) => Prefixed([next], Walk(edges, index, next, to, fuel - 1))
  }

  /** A walk appends nothing exactly when its ends are equal, and otherwise ends at its target. */
  lemma {:induction false} WalkEndsAtTarget(edges: seq<Edge>, index: SegmentIndex, from: Pair, to: Pair, fuel: nat)
    requires Walk(edges, index, from, to, fuel).Ok?
    ensures var path := Walk(edges, index, from, to, fuel).value;
      && (path == [] <==> from == to)
      && (path != [] ==> path[|path| - 1] == to)
    decreases fuel
  {
    if from != to {
      var next := Advance(edges, index, from).value;
      WalkEndsAtTarget(edges, index, next, to, fuel - 1);
    }
  }

  /** Every pair of a walk is one synthetic step after the pair before it. */
  lemma {:induction false} WalkIsChain(edges: seq<Edge>, index: SegmentIndex, from: Pair, to: Pair, fuel: nat)
    requires Walk(edges, index, from, to, fuel).Ok?
    ensures var path := Walk(edges, index, from, to, fuel).value;
      && (path != [] ==> Advance(edges, index, from) == Ok(path[0]))
      && forall i :: 0 <= i < |path| - 1 ==> Advance(edges, index, path[i]) == Ok(path[i + 1])
    decreases fuel
  {
    if from != to {
      var next := Advance(edges, index, from).value;
      WalkIsChain(edges, index, next, to, fuel - 1);
      var rest := Walk(edges, index, next, to, fuel - 1).value;
      var path := [next] + rest;
      forall i | 0 <= i < |path| - 1 ensures Advance(edges, index, path[i]) == Ok(path[i + 1]) {
        if i > 0 {
          assert path[i] == rest[i - 1] && path[i + 1] == rest[i];
        }
      }
    }
  }

  /** A walk that reaches its target with some step budget reaches it the same way with any larger one. */
  lemma {:induction false} WalkFuelMonotone(edges: seq<Edge>, index: SegmentIndex, from: Pair, to: Pair, fuel: nat, more: nat)
    requires Walk(edges, index, from, to, fuel).Ok?
    requires fuel <= more
    ensures Walk(edges, index, from, to, more) == Walk(edges, index, from, to, fuel)
    decreases fuel
  {
    if from != to {
      var next := Advance(edges, index, from).value;
      WalkFuelMonotone(edges, index, next, to, fuel - 1, more - 1);
    }
  }

  /**
   * A walk never emits a segment past the end of its way: each pair it emits is
   * either the first segment of the next way or a segment the index lists.
   */
  lemma {:induction false} WalkStaysWithinWays(edges: seq<Edge>, index: SegmentIndex, from: Pair, to: Pair, fuel: nat)
    requires Walk(edges, index, from, to, fuel).Ok?
    requires from.segment >= -1
    ensures var path := Walk(edges, index, from, to, fuel).value;
      forall q :: q in path ==> q.segment == 0 || (q.way in index && 0 < q.segment < |index[q.way]|)
    decreases fuel
  {
    if from != to {
      var next := Advance(edges, index, from).value;
      WalkStaysWithinWays(edges, index, next, to, fuel - 1);
    }
  }

  /**
   * A route that comes back to a way it left: ways 1, 2, 1, 3, each with a single
   * segment. The next-way lookup always uses the first edge of a way, so from way 1
   * it goes to way 2 and from way 2 back to way 1; way 3 is never reached.
   */
  function LoopingRoute(): seq<Edge>
  {
    [Edge(1, 0, "", 1.0, 0, 0), Edge(2, 0, "", 1.0, 0, 0), Edge(1, 0, "", 1.0, 0, 0), Edge(3, 0, "", 1.0, 0, 0)]
  }

  function OneSegmentEach(): SegmentIndex
  {
    map[1 := [0.0], 2 := [0.0], 3 := [0.0]]
  }

  /**
   * On that route a walk from way 1 or way 2 towards way 3 gives up with every step
   * bound: the unbounded loop of the reconciler never ends on this input.
   */
  lemma {:induction false} WalkOnLoopingRouteNeverArrives(from: Pair, fuel: nat)
    requires from == Pair(1, 0) || from == Pair(2, 0)
    ensures Walk(LoopingRoute(), OneSegmentEach(), from, Pair(3, 0), fuel) == Err(StepLimit)
    decreases fuel
  {
    if fuel > 0 {
      var edges := LoopingRoute();
      var next := if from.way == 1 then Pair(2, 0) else Pair(1, 0);
      assert FirstEdgeIndex(2, edges[1..]) == 0;
      assert FirstEdgeIndex(from.way, edges) == from.way - 1;
      assert Advance(edges, OneSegmentEach(), from) == Ok(next);
      WalkOnLoopingRouteNeverArrives(next, fuel - 1);
    }
  }

  /** Keeps the first of every group of adjacent equal pairs. */
  function Dedup(run: seq<Pair>): (r: seq<Pair>)
  {
    if |run| <= 1 then run
    else if run[|run| - 1] == run[|run| - 2] then Dedup(run[..|run| - 1])
    else Dedup(run[..|run| - 1]) + [run[|run| - 1]]
  }

  /**
   * The completed run that `_fill_in_missing_segments` builds for one run: the
   * first pair as it is, then every walk between consecutive observed pairs.
   */
  function FillRun(edges: seq<Edge>, index: SegmentIndex, run: seq<Pair>, fuel: nat): Result<seq<Pair>, Error>
  {
    if |run| == 0 then Ok([])
    else if |run| == 1 then Ok([run[0]])
    else match FillRun(edges, index, run[..|run| - 1], fuel)
      case Err(e) => Err(e)
      case Ok(done) => Prefixed(done, Walk(edges, index, run[|run| - 2], run[|run| - 1], fuel))
  }

  /** `_fill_in_missing_segments`: every run completed, in order; the first exception aborts. */
  function FillAll(edges: seq<Edge>, index: SegmentIndex, runs: seq<seq<Pair>>, fuel: nat): Result<seq<seq<Pair>>, Error>
  {
    if runs == [] then Ok([])
    else match FillAll(edges, index, runs[..|runs| - 1], fuel)
      case Err(e) => Err(e)
      case Ok(done) =>
        match FillRun(edges, index, runs[|runs| - 1], fuel)
        case Err(e) => Err(e)
        case Ok(completed) => Ok(done + [completed])
  }

  lemma {:induction false} FillRunErrPropagates(edges: seq<Edge>, index: SegmentIndex, run: seq<Pair>, n: nat, fuel: nat)
    requires n <= |run|
    requires FillRun(edges, index, run[..n], fuel).Err?
    ensures FillRun(edges, index, run, fuel) == FillRun(edges, index, run[..n], fuel)
    decreases |run| - n
  {
    if n < |run| {
      assert run[..n + 1][..n] == run[..n];
      FillRunErrPropagates(edges, index, run, n + 1, fuel);
    } else {
      assert run[..n] == run;
    }
  }

  lemma {:induction false} FillAllErrPropagates(edges: seq<Edge>, index: SegmentIndex, runs: seq<seq<Pair>>, n: nat, fuel: nat)
    requires n <= |runs|
    requires FillAll(edges, index, runs[..n], fuel).Err?
    ensures FillAll(edges, index, runs, fuel) == FillAll(edges, index, runs[..n], fuel)
    decreases |runs| - n
  {
    if n < |runs| {
      assert runs[..n + 1][..n] == runs[..n];
      FillAllErrPropagates(edges, index, runs, n + 1, fuel);
    } else {
      assert runs[..n] == runs;
    }
  }

  /**
   * A completed run starts with the run's first pair unchanged, ends with its last
   * pair, and is gap-free: every pair is one synthetic step after the one before.
   */
  lemma {:induction false} FillRunIsGapFree(edges: seq<Edge>, index: SegmentIndex, run: seq<Pair>, fuel: nat)
    requires FillRun(edges, index, run, fuel).Ok?
    ensures var out := FillRun(edges, index, run, fuel).value;
      && |out| >= |Dedup(run)|
      && (|run| > 0 ==> |out| > 0 && out[0] == run[0] && out[|out| - 1] == run[|run| - 1])
      && (forall i :: 0 <= i < |out| - 1 ==> Advance(edges, index, out[i]) == Ok(out[i + 1]))
      && exists pos :: Embeds(Dedup(run), out, pos)
    decreases |run|
  {
    if |run| == 1 {
      assert Embeds(Dedup(run), FillRun(edges, index, run, fuel).value, [0]);
    } else if |run| == 0 {
      assert Embeds(Dedup(run), FillRun(edges, index, run, fuel).value, []);
    } else {
      var init := run[..|run| - 1];
      FillRunIsGapFree(edges, index, init, fuel);
      var done := FillRun(edges, index, init, fuel).value;
      var from, to := run[|run| - 2], run[|run| - 1];
      assert init[|init| - 1] == from;
      WalkEndsAtTarget(edges, index, from, to, fuel);
      WalkIsChain(edges, index, from, to, fuel);
      var path := Walk(edges, index, from, to, fuel).value;
      var out := done + path;
      forall i | 0 <= i < |out| - 1 ensures Advance(edges, index, out[i]) == Ok(out[i + 1]) {
        if i < |done| - 1 {
        } else if i == |done| - 1 {
          assert out[i] == from && out[i + 1] == path[0];
        } else {
          assert out[i] == path[i - |done|] && out[i + 1] == path[i - |done| + 1];
        }
      }
      var pos :| Embeds(Dedup(init), done, pos);
      assert out[..|done|] == done;
      if from == to {
        assert Dedup(run) == Dedup(init);
        EmbedsGrow(Dedup(init), done, pos, out);
      } else {
        assert Dedup(run) == Dedup(init) + [to];
        assert out[|out| - 1] == to;
        EmbedsExtend(Dedup(init), done, pos, out, |out| - 1);
      }
    }
  }

  /**
   * An already contiguous run, where each pair equals the one before or is one
   * synthetic step after it, gets no synthetic insertions: adjacent duplicates
   * collapse and everything else is returned as it is.
   */
  lemma {:induction false} FillContiguousRun(edges: seq<Edge>, index: SegmentIndex, run: seq<Pair>, fuel: nat)
    requires fuel >= 1
    requires forall i :: 0 <= i < |run| - 1 ==>
      run[i] == run[i + 1] || Advance(edges, index, run[i]) == Ok(run[i + 1])
    ensures FillRun(edges, index, run, fuel) == Ok(Dedup(run))
    decreases |run|
  {
    if |run| > 1 {
      var init := run[..|run| - 1];
      FillContiguousRun(edges, index, init, fuel);
      var from, to := run[|run| - 2], run[|run| - 1];
      assert run[..|run| - 1][|run| - 2] == from;
      if from != to {
        assert Advance(edges, index, from) == Ok(to);
        assert Walk(edges, index, to, to, fuel - 1) == Ok([]);
        assert [to] + [] == [to];
        assert Walk(edges, index, from, to, fuel) == Ok([to]);
        assert Dedup(run) == Dedup(init) + [to];
      } else {
        assert Walk(edges, index, from, to, fuel) == Ok([]);
        assert Dedup(run) == Dedup(init);
        assert Dedup(init) + [] == Dedup(init);
      }
    } else if |run| == 1 {
      assert run == [run[0]];
    }
  }

  /** Without adjacent duplicates, an already contiguous run is returned unchanged. */
  lemma {:induction false} DedupKeepsDistinctNeighbours(run: seq<Pair>)
    requires forall i :: 0 <= i < |run| - 1 ==> run[i] != run[i + 1]
    ensures Dedup(run) == run
    decreases |run|
  {
    if |run| > 1 {
      DedupKeepsDistinctNeighbours(run[..|run| - 1]);
    }
  }

  /** One completed run per input run, each the completion of that run. */
  lemma {:induction false} FillAllPerRun(edges: seq<Edge>, index: SegmentIndex, runs: seq<seq<Pair>>, fuel: nat)
    ensures FillAll(edges, index, runs, fuel).Ok? <==>
      forall k :: 0 <= k < |runs| ==> FillRun(edges, index, runs[k], fuel).Ok?
    ensures FillAll(edges, index, runs, fuel).Ok? ==>
      var outs := FillAll(edges, index, runs, fuel).value;
      |outs| == |runs| && forall k :: 0 <= k < |runs| ==> FillRun(edges, index, runs[k], fuel) == Ok(outs[k])
    decreases |runs|
  {
    if runs != [] {
      var init := runs[..|runs| - 1];
      FillAllPerRun(edges, index, init, fuel);
      assert forall k :: 0 <= k < |init| ==> init[k] == runs[k];
    }
  }

  // ---------------------------------------------------------------------------
  // Run splitting

  /** The loop state of `_get_travelled_way_segments`: the closed runs and the open one. */
  datatype SplitState = SplitState(closed: seq<seq<Pair>>, current: seq<Pair>)

  /** One match: a resolved pair extends the open run; an untracked way closes it. */
  function SplitStep(s: SplitState, x: Option<Pair>): SplitState
  {
    match x
    case Some(p) => SplitState(s.closed, s.current + [p])
    case None => if s.current != [] then SplitState(s.closed + [s.current], []) else s
  }

  function SplitAfter(xs: seq<Option<Pair>>): SplitState
  {
    if xs == [] then SplitState([], []) else SplitStep(SplitAfter(xs[..|xs| - 1]), xs[|xs| - 1])
  }

  function Close(s: SplitState): seq<seq<Pair>>
  {
    if s.current != [] then s.closed + [s.current] else s.closed
  }

  /** The runs before gap filling, for the resolved matches (None: way not in the index). */
  function SplitRuns(xs: seq<Option<Pair>>): seq<seq<Pair>>
  {
    Close(SplitAfter(xs))
  }

  function Flatten(runs: seq<seq<Pair>>): seq<Pair>
  {
    if runs == [] then [] else Flatten(runs[..|runs| - 1]) + runs[|runs| - 1]
  }

  /** The resolved pairs, in order, with the untracked matches dropped. */
  function Somes(xs: seq<Option<Pair>>): seq<Pair>
  {
    if xs == [] then []
    else Somes(xs[..|xs| - 1]) + (match xs[|xs| - 1] case Some(p) => [p] case None => [])
  }

  lemma FlattenAppend(a: seq<seq<Pair>>, b: seq<seq<Pair>>)
    ensures Flatten(a + b) == Flatten(a) + Flatten(b)
    decreases |b|
  {
    if b != [] {
      FlattenAppend(a, b[..|b| - 1]);
      assert (a + b)[..|a + b| - 1] == a + b[..|b| - 1];
    } else {
      assert a + b == a;
    }
  }

  lemma {:induction false} SplitAfterInvariant(xs: seq<Option<Pair>>)
    ensures forall r :: r in SplitAfter(xs).closed ==> r != []
    ensures Flatten(SplitAfter(xs).closed) + SplitAfter(xs).current == Somes(xs)
    decreases |xs|
  {
    if xs != [] {
      var s := SplitAfter(xs[..|xs| - 1]);
      SplitAfterInvariant(xs[..|xs| - 1]);
      if xs[|xs| - 1].None? && s.current != [] {
        FlattenAppend(s.closed, [s.current]);
        assert Flatten([s.current]) == Flatten([]) + [s.current][0];
      }
    }
  }

  /** Runs are non-empty and concatenate back to the resolved pairs, in order, without deduplication. */
  lemma SplitRunsFlatten(xs: seq<Option<Pair>>)
    ensures forall r :: r in SplitRuns(xs) ==> r != []
    ensures Flatten(SplitRuns(xs)) == Somes(xs)
  {
    var s := SplitAfter(xs);
    SplitAfterInvariant(xs);
    if s.current != [] {
      FlattenAppend(s.closed, [s.current]);
      assert Flatten([s.current]) == Flatten([]) + [s.current][0];
    }
  }

  lemma {:induction false} SplitAfterGap(xs: seq<Option<Pair>>, ys: seq<Option<Pair>>)
    ensures SplitAfter(xs + [None] + ys) ==
      SplitState(SplitRuns(xs) + SplitAfter(ys).closed, SplitAfter(ys).current)
    decreases |ys|
  {
    if ys == [] {
      assert xs + [None] + ys == xs + [None];
      assert (xs + [None])[..|xs|] == xs;
    } else {
      var zs := xs + [None] + ys;
      assert zs[..|zs| - 1] == xs + [None] + ys[..|ys| - 1];
      SplitAfterGap(xs, ys[..|ys| - 1]);
    }
  }

  /** A match on an untracked way closes the run: the runs on either side of it are separate. */
  lemma SplitRunsAtGap(xs: seq<Option<Pair>>, ys: seq<Option<Pair>>)
    ensures SplitRuns(xs + [None] + ys) == SplitRuns(xs) + SplitRuns(ys)
  {
    SplitAfterGap(xs, ys);
  }

  lemma {:induction false} SplitAfterNoGap(xs: seq<Option<Pair>>)
    requires forall i :: 0 <= i < |xs| ==> xs[i].Some?
    ensures SplitAfter(xs) == SplitState([], Somes(xs))
    decreases |xs|
  {
    if xs != [] {
      SplitAfterNoGap(xs[..|xs| - 1]);
    }
  }

  /** Without untracked ways all resolved pairs form a single run. */
  lemma SplitRunsNoGap(xs: seq<Option<Pair>>)
    requires xs != []
    requires forall i :: 0 <= i < |xs| ==> xs[i].Some?
    ensures SplitRuns(xs) == [Somes(xs)]
  {
    SplitAfterNoGap(xs);
    SplitAfterInvariant(xs);
    assert Somes(xs) != [] by {
      assert Somes(xs) == Somes(xs[..|xs| - 1]) + [xs[|xs| - 1].value];
    }
  }

  // ---------------------------------------------------------------------------
  // Resolving matches and the whole reconciliation

  /** Python list indexing: negative positions count from the end. */
  function EdgeAt(edges: seq<Edge>, i: int): (r: Option<Edge>)
    ensures r.Some? <==> -|edges| <= i < |edges|
  {
    if 0 <= i < |edges| then Some(edges[i])
    else if -|edges| <= i < 0 then Some(edges[|edges| + i])
    else None
  }

  /** The pair of one match, None when its way is not in the index; a bad edge index raises. */
  function Resolve(edges: seq<Edge>, index: SegmentIndex, m: Match): Result<Option<Pair>, Error>
  {
    match EdgeAt(edges, m.edgeIndex)
    case None => Err(IndexError)
    case Some(e) =>
      if e.wayId in index then Ok(Some(Pair(e.wayId, SegmentIdByRatio(m.edgeRatio, index[e.wayId]))))
      else Ok(None)
  }

  function ResolveAll(edges: seq<Edge>, index: SegmentIndex, matches: seq<Match>): Result<seq<Option<Pair>>, Error>
  {
    if matches == [] then Ok([])
    else match ResolveAll(edges, index, matches[..|matches| - 1])
      case Err(e) => Err(e)
      case Ok(xs) =>
        match Resolve(edges, index, matches[|matches| - 1])
        case Err(e) => Err(e)
        case Ok(x) => Ok(xs + [x])
  }

  lemma {:induction false} ResolveAllErrPropagates(edges: seq<Edge>, index: SegmentIndex, matches: seq<Match>, n: nat)
    requires n <= |matches|
    requires ResolveAll(edges, index, matches[..n]).Err?
    ensures ResolveAll(edges, index, matches) == ResolveAll(edges, index, matches[..n])
    decreases |matches| - n
  {
    if n < |matches| {
      assert matches[..n + 1][..n] == matches[..n];
      ResolveAllErrPropagates(edges, index, matches, n + 1);
    } else {
      assert matches[..n] == matches;
    }
  }

  /** `_get_travelled_way_segments`: resolve, split at untracked ways, fill the gaps. */
  function TravelledWaySegments(edges: seq<Edge>, index: SegmentIndex, matches: seq<Match>, fuel: nat): Result<seq<seq<Pair>>, Error>
  {
    match ResolveAll(edges, index, matches)
    case Err(e) => Err(e)
    case Ok(xs) => FillAll(edges, index, SplitRuns(xs), fuel)
  }

  /** The outcome of `map_match_result_to_osm_way_segments`. */
  datatype Outcome = InvalidMatchResult | Failed(error: Error) | Travelled(runs: seq<seq<Pair>>)

  /** One more match, resolved after matches that all resolved. */
  lemma ResolveStep(edges: seq<Edge>, index: SegmentIndex, matches: seq<Match>, i: nat)
    requires i < |matches| && ResolveAll(edges, index, matches[..i]).Ok?
    ensures var xs := ResolveAll(edges, index, matches[..i]).value;
      ResolveAll(edges, index, matches[..i + 1]) ==
        match Resolve(edges, index, matches[i])
        case Err(e) => Err(e)
        case Ok(x) => Ok(xs + [x])
  {
    assert matches[..i + 1][..i] == matches[..i];
  }

  /** Splitting one more resolved match is one more step of the split. */
  lemma SplitAfterAppend(xs: seq<Option<Pair>>, x: Option<Pair>)
    ensures SplitAfter(xs + [x]) == SplitStep(SplitAfter(xs), x)
  {
    assert (xs + [x])[..|xs|] == xs;
  }

  // ---------------------------------------------------------------------------
  // The source's loops

  /** The loop of `_get_travelled_way_segments` that builds the runs, then the fill. */
  method GetTravelledWaySegments(edges: seq<Edge>, index: SegmentIndex, matches: seq<Match>, fuel: nat)
    returns (r: Result<seq<seq<Pair>>, Error>)
    ensures r == TravelledWaySegments(edges, index, matches, fuel)
  {
    var travelled: seq<seq<Pair>> := [];
    var newTrace: seq<Pair> := [];
    ghost var xs: seq<Option<Pair>> := [];
    for i := 0 to |matches|
      invariant ResolveAll(edges, index, matches[..i]) == Ok(xs)
      invariant SplitAfter(xs) == SplitState(travelled, newTrace)
    {
      var m := matches[i];
      ResolveStep(edges, index, matches, i);
      var edge: Edge;
      if 0 <= m.edgeIndex < |edges| {
        edge := edges[m.edgeIndex];
      } else if -|edges| <= m.edgeIndex < 0 {
        edge := edges[|edges| + m.edgeIndex];
      } else {
        ResolveAllErrPropagates(edges, index, matches, i + 1);
        return Err(IndexError);
      }
      var wayId := edge.wayId;
      if wayId in index {
        var segmentId := GetSegmentIdByRatio(m.edgeRatio, index[wayId]);
        SplitAfterAppend(xs, Some(Pair(wayId, segmentId)));
        newTrace := newTrace + [Pair(wayId, segmentId)];
        xs := xs + [Some(Pair(wayId, segmentId))];
      } else {
        SplitAfterAppend(xs, None);
        if newTrace != [] {
          travelled := travelled + [newTrace];
          newTrace := [];
        }
        xs := xs + [None];
      }
    }
    if newTrace != [] {
      travelled := travelled + [newTrace];
    }
    assert matches[..|matches|] == matches;
    r := FillInMissingSegments(travelled, edges, index, fuel);
  }

  /**
   * The `while` loop of `_fill_in_missing_segments`: steps from `cur` towards
   * `segment` and collects every pair it passes, giving up after `fuel` steps.
   */
  method WalkBetween(edges: seq<Edge>, index: SegmentIndex, cur: Pair, segment: Pair, fuel: nat)
    returns (r: Result<seq<Pair>, Error>)
    ensures r == Walk(edges, index, cur, segment, fuel)
  {
    var iter := cur;
    var path: seq<Pair> := [];
    var steps: nat := 0;
    PrefixedNothing(Walk(edges, index, cur, segment, fuel));
    while iter != segment
      invariant steps <= fuel
      invariant Walk(edges, index, cur, segment, fuel) == Prefixed(path, Walk(edges, index, iter, segment, fuel - steps))
      decreases fuel - steps
    {
      if steps == fuel {
        return Err(StepLimit);
      }
      var next: Pair;
      if iter.way !in index {
        return Err(KeyError);
      }
      if iter.segment + 1 > |index[iter.way]| - 1 {
        var nextWay := GetNextWay(iter.way, edges);
        match nextWay {
          case NextWay(w) =>
            next := Pair(w, 0);
          case NoEdge =>
            return Err(KeyError);
          case PastLastEdge =>
            return Err(IndexError);
        }
      } else {
        next := Pair(iter.way, iter.segment + 1);
      }
      assert Advance(edges, index, iter) == Ok(next);
      PrefixedTwice(path, [next], Walk(edges, index, next, segment, fuel - steps - 1));
      path := path + [next];
      iter := next;
      steps := steps + 1;
    }
    assert path + [] == path;
    return Ok(path);
  }

  /** The loops of `_fill_in_missing_segments`; each walk gives up after `fuel` steps. */
  method FillInMissingSegments(runs: seq<seq<Pair>>, edges: seq<Edge>, index: SegmentIndex, fuel: nat)
    returns (r: Result<seq<seq<Pair>>, Error>)
    ensures r == FillAll(edges, index, runs, fuel)
  {
    var completedAll: seq<seq<Pair>> := [];
    for k := 0 to |runs|
      invariant FillAll(edges, index, runs[..k], fuel) == Ok(completedAll)
    {
      var run := runs[k];
      assert runs[..k + 1][..k] == runs[..k];
      var completed: seq<Pair> := [];
      for n := 0 to |run|
        invariant FillRun(edges, index, run[..n], fuel) == Ok(completed)
      {
        var segment := run[n];
        assert run[..n + 1][..n] == run[..n];
        if n == 0 {
          assert run[..n + 1] == [segment] && completed == [];
          assert FillRun(edges, index, [segment], fuel) == Ok([segment]);
          completed := completed + [segment];
          assert completed == [segment];
        } else {
          var cur := run[n - 1];
          var path := WalkBetween(edges, index, cur, segment, fuel);
          assert run[..n + 1][n - 1] == cur && run[..n + 1][n] == segment;
          assert FillRun(edges, index, run[..n + 1], fuel) == Prefixed(completed, path);
          if path.Err? {
            FillRunErrPropagates(edges, index, run, n + 1, fuel);
            assert FillAll(edges, index, runs[..k + 1], fuel).Err?;
            FillAllErrPropagates(edges, index, runs, k + 1, fuel);
            return Err(path.error);
          }
          completed := completed + path.value;
        }
      }
      assert run[..|run|] == run;
      completedAll := completedAll + [completed];
    }
    assert runs[..|runs|] == runs;
    return Ok(completedAll);
  }

  /**
   * `map_match_result_to_osm_way_segments`: an invalid match result is only
   * reported; no segment lookup or reconciliation happens for it.
   */
  method MapMatchResultToOsmWaySegments(matchResult: MatchResult, index: SegmentIndex, fuel: nat)
    returns (o: Outcome)
    ensures o.InvalidMatchResult? <==> !IsValidMatchResult(matchResult.matches)
    ensures IsValidMatchResult(matchResult.matches) ==>
      var r := TravelledWaySegments(matchResult.edges, index, matchResult.matches, fuel);
      o == if r.Ok? then Travelled(r.value) else Failed(r.error)
  {
    if IsValidMatchResult(matchResult.matches) {
      var r := GetTravelledWaySegments(matchResult.edges, index, matchResult.matches, fuel);
      match r {
        case Ok(runs) => o := Travelled(runs);
        case Err(e) => o := Failed(e);
      }
    } else {
      o := InvalidMatchResult;
    }
  }
}
