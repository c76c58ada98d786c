# road_coverage, modelled in Dafny

road_coverage measures how much of a road network, taken from OpenStreetMap,
a set of driven trajectories covers. It has two halves, and this project models
the logic of both.

- **Building the road database.** Osmium handlers visit an OSM extract. They keep
  the ways whose `highway` tag is configured (or, in the motorway scripts, only
  `motorway` and `motorway_link`), along with the nodes those ways use. Rows are
  buffered in bounded caches and written in batches. An aggregation worker then
  splits every way into segments between consecutive nodes. It records each
  segment's length and the ratio of the way's length at which it starts, plus one
  zero coverage counter per segment. Way ids are split into chunks, one chunk per
  worker.
- **Reconciling a trace.** A map-matching service's response is reshaped into
  `meta`, `edges` and `matches` records. The reconciler checks that the matches
  are strictly ordered along the route. It maps each match to a (way, segment)
  pair by its ratio along the edge, and cuts the result into runs at ways the
  segment index does not know. It then fills the gap between consecutive
  observations by stepping segment by segment, moving to the next way of the
  route when a way is exhausted.

The modules follow the source files:

| module | source |
|---|---|
| `Wrappers` | `Option` and `Result`, which stand for the exceptions the source raises |
| `Sequences` | subsequences, stated by the positions of their elements |
| `Osm` | OSM ways and nodes as the handlers see them; the geodesic distance as a parameter; `sum` |
| `OsmTags` | `get_tag` (both variants), `get_maxspeed`, `is_oneway`, `is_tunnel` |
| `SqlStatements` | table layouts and the parameterised INSERT statement |
| `HighwayImport` | `OsmHighwayHandler` of db/import_osm_highways.py (cache of 1000) and of db/mysql_import.py (cache of 100) |
| `NodeImport` | `OsmNodeHandler` and the effective `MotorwayNodeHandler` of db/prepare_motorway_database_mysql.py |
| `WayAggregation` | stages, `_split_into_chunks` and `WayAggregationWorker` |
| `MotorwayDatabase` | the dictionary-based scripts db/prepare_motorway_database.py and database/prepare_motorway_database.py |
| `MotorwayDatabaseMysql` | the SQLite way handler and `HIGHWAY_TYPE_MAPPING` of db/prepare_motorway_database_mysql.py |
| `MapMatching` | the request payload and the postprocessing of coverage/map_matching.py |
| `WaySegments` | the reconciler of coverage/way_segments.py |

Operations that loop or change state are methods and classes. Each method is
proved equal to a specification function, and the properties are proved as
lemmas about those functions. Where the source builds a value by a
comprehension, the model is a function.

Some behaviours of the code are easy to misread; the model keeps them as written:

- Two identical consecutive observations in a run collapse into one pair, because
  the filling loop for them never runs.
- A ratio equal to a segment's start ratio belongs to that segment, the higher of
  the two it borders, because the scan looks for the first ratio strictly greater.
- A way of zero total length with at least one segment raises ZeroDivisionError.
  That ends the whole worker's loop, so none of the chunk's rows are committed.
- Nodes without a location drop out of the aggregation's join without an error.
- When the next way is missing, `_get_next_way` returns None. The walk then fails
  with a KeyError on its next step.

## Model

| member | source | states |
|---|---|---|
| `WaySegments.ValidIffStrictlyIncreasing` | coverage/way_segments.py:25-30 | the neighbour check accepts a match list exactly when every earlier match is lexicographically below every later one in (edge_index, edge_ratio); ties and inversions are rejected, and lists of 0 or 1 matches are accepted |
| `WaySegments.ValidChain` | coverage/way_segments.py:25-30 | a valid match list is strictly increasing between any two positions, not only neighbours |
| `WaySegments.ValidityOfPostprocessedMatches` | coverage/way_segments.py:26-29 | on the service's matched points, validity means each point has a larger edge index than the one before, or the same index and a larger `distance_along_edge` |
| `WaySegments.SegmentIdByRatio` | coverage/way_segments.py:68-72 | the segment id lies in [-1, len-1]; every start ratio up to it is at most the edge ratio, and the next one, if any, is strictly greater |
| `WaySegments.GetSegmentIdByRatio` | coverage/way_segments.py:68-72 | the early-return scan computes exactly that segment id |
| `WaySegments.SegmentIdIsInterval` | coverage/way_segments.py:68-72 | for sorted ratios starting at or below the edge ratio, the id is the unique k with ratios[k] <= edge ratio < ratios[k+1] (right-open interval) |
| `WaySegments.BoundaryBelongsToStartingSegment` | coverage/way_segments.py:70-71 | with strictly increasing ratios, a ratio equal to segment k's start maps to k |
| `WaySegments.FirstEdgeIndex` | coverage/way_segments.py:98-99 | the position of the first edge with the way, or the edge count; no earlier edge has the way |
| `WaySegments.NextWayOf` | coverage/way_segments.py:97-101 | None exactly when no edge has the way; IndexError exactly when the way's first edge is the last edge; otherwise the way of the edge right after the FIRST edge with the way |
| `WaySegments.GetNextWay` | coverage/way_segments.py:97-101 | the loop computes exactly that result |
| `WaySegments.WalkEndsAtTarget` | coverage/way_segments.py:84-91 | a finished walk appends nothing exactly when the two observations are equal, and otherwise its last pair is the target |
| `WaySegments.WalkIsChain` | coverage/way_segments.py:86-91 | each appended pair is one step from the pair before it: the next segment, or segment 0 of the next way once the way's last segment is passed |
| `WaySegments.WalkStaysWithinWays` | coverage/way_segments.py:86-90 | every synthetic pair is segment 0 of some way or an existing segment of an indexed way |
| `WaySegments.WalkFuelMonotone` | coverage/way_segments.py:85 | a walk that finishes within a step bound gives the same pairs under any larger bound, so the bound only cuts off walks that do not finish |
| `WaySegments.WalkOnLoopingRouteNeverArrives` | coverage/way_segments.py:85-100 | on a route that revisits a way (ways 1, 2, 1, 3), a walk from way 1 or 2 to way 3 never arrives, for any step bound, because the next way is always taken after the first visit |
| `WaySegments.FillRunIsGapFree` | coverage/way_segments.py:77-93 | a filled run starts with the run's first pair, ends with its last, and each pair is one step from the previous; the run without adjacent duplicates is a subsequence of it, so every observed pair appears, in order |
| `WaySegments.FillContiguousRun` | coverage/way_segments.py:80-92 | a run whose neighbours are already one step apart or equal comes back unchanged, except that adjacent duplicates collapse |
| `WaySegments.DedupKeepsDistinctNeighbours` | coverage/way_segments.py:84-85 | a run without adjacent duplicates loses nothing to the collapse |
| `WaySegments.FillAllPerRun` | coverage/way_segments.py:75-94 | filling succeeds exactly when every run fills, and then yields one output run per input run, each the fill of its input |
| `WaySegments.FillRunErrPropagates` | coverage/way_segments.py:80-92 | once a walk in a run fails, the run's fill fails with the same exception |
| `WaySegments.FillAllErrPropagates` | coverage/way_segments.py:77-93 | once a run fails, the whole fill fails with the same exception |
| `WaySegments.SplitRunsFlatten` | coverage/way_segments.py:48-63 | every run is non-empty, and the runs concatenated are the pairs of the indexed matches in order, without deduplication |
| `WaySegments.SplitRunsAtGap` | coverage/way_segments.py:58-61 | a match on a way outside the index closes the run: the runs around it are the runs of each side |
| `WaySegments.SplitRunsNoGap` | coverage/way_segments.py:52-57 | when every match's way is indexed, the result is a single run of all their pairs |
| `WaySegments.EdgeAt` | coverage/way_segments.py:53 | Python list indexing: an edge exists exactly for positions in [-len, len) |
| `WaySegments.ResolveAllErrPropagates` | coverage/way_segments.py:52-57 | once a match's edge index is out of range, the whole resolution fails with IndexError |
| `WaySegments.GetTravelledWaySegments` | coverage/way_segments.py:48-65 | the loop over the matches produces exactly the resolved, split and filled runs |
| `WaySegments.WalkBetween` | coverage/way_segments.py:84-91 | the inner loop yields exactly the walk from the previous pair to the next observed one, or its exception |
| `WaySegments.FillInMissingSegments` | coverage/way_segments.py:75-94 | the nested loops produce exactly the per-run fill, or its first exception |
| `WaySegments.MapMatchResultToOsmWaySegments` | coverage/way_segments.py:14-22 | an invalid match result is reported and nothing else happens; for a valid one the outcome holds the runs the function prints (it returns None), or the exception |
| `MapMatching.RequestFor` | coverage/map_matching.py:15-19 | the shape is the first min(5, n) trajectory points, a prefix of the trajectory; costing is "auto" and shape_match is "map_snap" |
| `MapMatching.ExtractMetadata` | coverage/map_matching.py:34-40 | one record per admin entry, in order, with exactly the four state and country fields copied |
| `MapMatching.ExtractEdges` | coverage/map_matching.py:43-51 | one record per edge, in order; way_id and the other fields are copied and meta_index is end_node.admin_index |
| `MapMatching.ExtractMatches` | coverage/map_matching.py:54-61 | one record per matched point, in order; distance_along_edge becomes edge_ratio, and the other fields are copied |
| `MapMatching.PostprocessMatch` | coverage/map_matching.py:26-31 | meta, edges and matches are built from admins, edges and matched_points respectively |
| `MapMatching.PostprocessIgnoresExtraFields` | coverage/map_matching.py:26-61 | two responses that agree on the copied fields postprocess to the same result |
| `Osm.SumPrefixMonotone` | db/import_osm_highways.py:333-338 | with non-negative lengths, the accumulated length is non-negative and grows along the way |
| `Osm.SumZeroIffAllZero` | db/import_osm_highways.py:332 | a way's total of non-negative segment lengths is zero exactly when every segment is |
| `OsmTags.TagValue` | db/mysql_import.py:174-175 | get_tag returns the default exactly when the key is missing or, in the variant with the check, its value is "none"; otherwise the tag's value |
| `OsmTags.IntTag` | db/import_osm_highways.py:165-167 | the int variant raises ValueError exactly when a value is present and does not parse; it is None exactly when get_tag returns the default |
| `OsmTags.Maxspeed` | db/mysql_import.py:178-182 | get_maxspeed is the parsed maxspeed, or None when the key is missing or the value does not parse |
| `OsmTags.FlagIsYesValue` | db/mysql_import.py:185-190 | is_oneway and is_tunnel hold exactly when the tag is present and equal to "yes" |
| `OsmTags.TagVariantsDifferOnlyOnNone` | db/prepare_motorway_database_mysql.py:129-130 | the get_tag without the "none" check differs from the one with it exactly on the value "none" |
| `OsmTags.MaxspeedAgreesWithIntTag` | db/import_osm_highways.py:169-174 | get_maxspeed swallows exactly the ValueError that get_tag(..., int) on maxspeed raises |
| `SqlStatements.PlaceholdersMatchColumns` | db/mysql_import.py:156-171 | the INSERT built for a table has exactly one %s placeholder per configured column |
| `SqlStatements.ConfiguredInsertsMatchColumns` | db/table_config.py:2-22 | the statements `_write_data_to_database` builds for the import-stage tables `ways` and `way_node_ids` have 8 and 3 placeholders, their column counts |
| `SqlStatements.AggregationInsertsMatchColumns` | db/table_config.py:30-53 | the statements built for the aggregation-stage tables `way_lengths`, `way_segments` and `way_segment_coverage` have 2, 4 and 3 placeholders, their column counts |
| `SqlStatements.NodesInsertTakesTriples` | db/import_osm_highways.py:214-223 | the hand-written `nodes` statement has 3 placeholders, one more than the table's 2 columns, matching the cached (id, lat, lon) triples |
| `SqlStatements.PercentsOfJoin` | db/import_osm_highways.py:235-239 | joining with a separator that has no % adds no placeholder |
| `HighwayImport.WayRowOf` | db/import_osm_highways.py:131-143 | the way row raises exactly when lanes does not parse; it has the way id, the configured road type, get_maxspeed, the parsed lanes, ref and name through get_tag with the "none" check, and is_oneway and is_tunnel |
| `HighwayImport.NodeRowsOf` | db/import_osm_highways.py:144-146 | one (way_id, index, node_id) row per node, with indices 0..n-1 |
| `HighwayImport.NodeIdsOfIsUnion` | db/import_osm_highways.py:122 | the collected node ids are the union of the node lists of the accepted ways |
| `HighwayImport.ImportedWays` | db/import_osm_highways.py:118-120 | only ways whose highway tag is a configured type are taken |
| `HighwayImport.ImportedWaysIsFilter` | db/import_osm_highways.py:118-120 | the ways taken are a subsequence of the stream that contains every way with a configured highway type: none dropped, none reordered |
| `HighwayImport.VisitKeepsImportedWaysInOrder` | db/import_osm_highways.py:118-125 | without an exception, the accepted rows are one per configured way, in order, with its road type, and the node ids are their union |
| `HighwayImport.VisitNodeRows` | db/import_osm_highways.py:144-146 | without an exception, the accepted node rows are those of the configured ways, in order |
| `HighwayImport.VisitErrorComesFromLanes` | db/import_osm_highways.py:139 | the only exception of the pass is the ValueError of an unparsable lanes value on a configured way |
| `HighwayImport.VisitErrorSticks` | db/import_osm_highways.py:118-125 | after the exception, no later way changes anything |
| `HighwayImport.HighwayHandler.constructor` | db/import_osm_highways.py:104-116 | an empty cache, no node ids and nothing written |
| `HighwayImport.HighwayHandler.WriteCacheToDatabase` | db/import_osm_highways.py:150-157 | the cache is written as one batch of ways and node rows and is then empty |
| `HighwayImport.HighwayHandler.AddWayToCache` | db/import_osm_highways.py:131-148 | appends exactly one way row and its node rows and raises size by one, or raises before changing anything |
| `HighwayImport.HighwayHandler.Way` | db/import_osm_highways.py:118-125 | ignores other ways; a configured way is accepted, its nodes join the id set, and the cache is written once size reaches the bound, so size stays below it |
| `HighwayImport.HighwayHandler.Finalize` | db/import_osm_highways.py:127-128 | always writes the cache, even when empty; afterwards the written batches are every accepted row, in order |
| `HighwayImport.HighwayHandler.ApplyFile` | db/import_osm_highways.py:92-97 | visiting the extract accepts exactly the rows and node ids of the pass, or stops at its exception |
| `HighwayImport.NewImportHandler` | db/import_osm_highways.py:101-102 | the import handler writes every 1000 ways |
| `HighwayImport.NewMysqlHandler` | db/mysql_import.py:100-127 | the MySQL handler writes every 100 ways and otherwise behaves the same |
| `NodeImport.SelectedIsFilter` | db/import_osm_highways.py:204-206 | a node row is kept exactly when a node of the extract has it and a requested id |
| `NodeImport.NodeCache.constructor` | db/import_osm_highways.py:195-202 | an empty cache and nothing written |
| `NodeImport.NodeCache.Flush` | db/import_osm_highways.py:219-225 | the cache is written as one batch and emptied |
| `NodeImport.NodeCache.Node` | db/import_osm_highways.py:204-208 | only requested nodes are cached; a cache that exceeds the bound is written, so at most `bound` rows stay cached and no batch exceeds bound + 1 |
| `NodeImport.NodeCache.Finalize` | db/import_osm_highways.py:210-211 | writes the rest (always, or only when rows are left); afterwards the written batches are every accepted row, in order |
| `NodeImport.NodeCache.ApplyFile` | db/import_osm_highways.py:185-188 | accepts exactly the requested nodes of the extract, in order |
| `NodeImport.NewOsmNodeHandler` | db/import_osm_highways.py:192-212 | bound 1000, and finalize writes even an empty cache |
| `NodeImport.NewMotorwayNodeHandler` | db/prepare_motorway_database_mysql.py:149-168 | bound 10000, and finalize writes only a non-empty cache |
| `NodeImport.ImportNodes` | db/import_osm_highways.py:185-189 | the whole node import writes exactly the requested nodes in file order, in batches of at most bound + 1 rows |
| `WayAggregation.StagesFromConfig` | db/import_osm_highways.py:62-70 | a stage is present exactly when not skipped, in the order import, aggregation, preparation, and no other stage name appears |
| `WayAggregation.CeilDiv` | db/import_osm_highways.py:261 | the chunk size is the least r with r * n >= len |
| `WayAggregation.SplitIntoChunks` | db/import_osm_highways.py:260-263 | zero chunks raise ZeroDivisionError; empty data raises because the range step is 0 |
| `WayAggregation.SlicesShape` | db/import_osm_highways.py:262-263 | the slices concatenate back to the data, and each is non-empty and no longer than the size |
| `WayAggregation.SlicesCount` | db/import_osm_highways.py:262-263 | there are at most k slices when k slices of the size cover the data |
| `WayAggregation.SplitIntoChunksShape` | db/import_osm_highways.py:260-263 | the chunks concatenate back to the data in order, there are at most n, and each is non-empty and at most ceil(len/n) long |
| `WayAggregation.ComputeSegments` | db/import_osm_highways.py:318-324 | len - 1 non-negative distances between consecutive nodes, and none for 0 or 1 nodes |
| `WayAggregation.SegmentRows` | db/import_osm_highways.py:331-338 | raises division by zero exactly when there is a segment and the total is zero; otherwise one row per segment |
| `WayAggregation.SegmentRowAt` | db/import_osm_highways.py:334-338 | row i is (way, i, length i, length before i / total length) |
| `WayAggregation.SegmentRowsIds` | db/import_osm_highways.py:334-337 | the rows carry the way id, ids 0..k-1 and the segment lengths |
| `WayAggregation.SegmentRatiosOrdered` | db/import_osm_highways.py:333-338 | the first start ratio is 0, and the ratios are non-decreasing and within [0, 1] |
| `WayAggregation.SharesOrdered` | db/import_osm_highways.py:336 | the share of the length before a segment grows along the way and stays within [0, 1] |
| `WayAggregation.SegmentRatiosInUnitInterval` | db/import_osm_highways.py:336 | every start ratio of a way lies in [0, 1] |
| `WayAggregation.CoverageRows` | db/import_osm_highways.py:340-344 | one (way, idx, 0) row per segment |
| `WayAggregation.AggregateRowsAgree` | db/import_osm_highways.py:300-307 | without an exception, one length row per way in order, and one zero coverage row for each segment row, with the same ids |
| `WayAggregation.AggregateLengthRows` | db/import_osm_highways.py:326-329 | without an exception, length row i belongs to way i of the chunk |
| `WayAggregation.AggregateCoverageRows` | db/import_osm_highways.py:331-344 | without an exception, coverage row k has the way and segment id of segment row k and coverage 0 |
| `WayAggregation.AggregateRatiosInUnitInterval` | db/import_osm_highways.py:300-307 | every start ratio the worker produces lies in [0, 1] |
| `WayAggregation.AggregateFailsOnZeroLengthWay` | db/import_osm_highways.py:332-336 | the worker fails only on a way of the chunk with at least two nodes and only zero-length segments, after recording its length 0 |
| `WayAggregation.FirstZeroLengthWay` | db/import_osm_highways.py:300-305 | the position of the first way of the chunk with at least two nodes and only zero distances between them, or the chunk size: no earlier way has zero length |
| `WayAggregation.AggregateFailsAtFirstZeroLengthWay` | db/import_osm_highways.py:300-305 | the pass fails exactly when the chunk holds a zero-length way, and then with the ZeroDivisionError of the first one |
| `WayAggregation.ZeroLengthWayFailsPass` | db/import_osm_highways.py:332-336 | a zero-length way anywhere in the chunk makes the pass fail, at that way or at an earlier zero-length one |
| `WayAggregation.AggregateErrorSticks` | db/import_osm_highways.py:302-307 | once a way fails, the later ways of the chunk are not processed |
| `WayAggregation.AggregationWorker.constructor` | db/import_osm_highways.py:292-298 | empty row lists for the given way ids |
| `WayAggregation.AggregationWorker.CreateWayLengths` | db/import_osm_highways.py:326-329 | appends (way, sum of the segments) |
| `WayAggregation.AggregationWorker.CreateWaySegments` | db/import_osm_highways.py:331-338 | the accumulating loop appends exactly the way's segment rows, or raises division by zero and appends nothing |
| `WayAggregation.AggregationWorker.CreateWaySegmentCoverage` | db/import_osm_highways.py:340-344 | appends the way's coverage rows |
| `WayAggregation.AggregationWorker.Run` | db/import_osm_highways.py:300-308 | the rows are those of the aggregation of the chunk, and they are committed exactly when no way fails |
| `MotorwayDatabase.RecordOf` | db/prepare_motorway_database.py:24-33 | the stored record keeps the raw `tags.get` values of ref, name, oneway, maxspeed, lanes and tunnel, the highway type and the node ids, with no lengths yet |
| `MotorwayDatabase.LastMotorway` | db/prepare_motorway_database.py:20-24 | the position of the last motorway of the extract with a given id |
| `MotorwayDatabase.CollectWaysLastWriteWins` | database/prepare_motorway_database.py:20-34 | a way id is stored exactly when some motorway or motorway_link has it, and its record is that of the last such way |
| `MotorwayDatabase.CollectNodeIdsIsUnion` | db/prepare_motorway_database.py:34 | the motorway node ids are the union of the node lists of all motorways of the extract |
| `MotorwayDatabase.WayDict.Put` | db/prepare_motorway_database.py:24 | dictionary assignment: a new key is appended to the insertion order, an existing one keeps its place |
| `MotorwayDatabase.MotorwayWayHandler.Way` | db/prepare_motorway_database.py:20-34 | only motorways and motorway links are stored, keyed by way id, and their nodes join the id set; a new id goes to the end of the dictionary's order, an existing one keeps its place |
| `MotorwayDatabase.MotorwayWayHandler.ApplyFile` | db/prepare_motorway_database.py:37-42 | visiting the extract builds exactly the last-write-wins dictionary, ordered by first occurrence, and the union of node ids |
| `MotorwayDatabase.FirstMotorway` | db/prepare_motorway_database.py:20-24 | the position of the first motorway of the extract with a given id, or the extract's length |
| `MotorwayDatabase.FirstOccurrencesKeys` | db/prepare_motorway_database.py:20-24 | an id is in the dictionary's order exactly when some motorway of the extract has it |
| `MotorwayDatabase.FirstOccurrencesOrdered` | db/prepare_motorway_database.py:24 | the dictionary's order is that of each id's first motorway in the extract, which the length loop at line 71 follows |
| `MotorwayDatabase.MotorwayNodeHandler.Node` | db/prepare_motorway_database.py:51-56 | records a location only for a requested id |
| `MotorwayDatabase.MotorwayNodeHandler.ApplyFile` | db/prepare_motorway_database.py:59-64 | visiting the extract records exactly the requested nodes |
| `MotorwayDatabase.CollectNodesKeepsRequested` | database/prepare_motorway_database.py:50-55 | only requested ids are recorded, and every requested node of the extract is |
| `MotorwayDatabase.Measured` | db/prepare_motorway_database_mysql.py:42-50 | a way cannot be measured (KeyError) exactly when one of its node ids has no location |
| `MotorwayDatabase.MeasuredWay` | database/prepare_motorway_database.py:65-71 | a measured way has len - 1 segments, each the distance between consecutive nodes, a length equal to their sum, and all other fields unchanged |
| `MotorwayDatabase.FirstUnmeasurable` | db/prepare_motorway_database.py:71-72 | the first way in dictionary order with an unresolved node, or the way count |
| `MotorwayDatabase.WayDict.Replace` | db/prepare_motorway_database.py:73-75 | updating a stored way in place keeps the keys and their order |
| `MotorwayDatabase.ComputeWayLengths` | db/prepare_motorway_database.py:67-75 | measures the ways in place in dictionary order; on an unresolved node it raises, with the earlier ways measured and the rest untouched |
| `MotorwayDatabaseMysql.RoadRowOf` | db/prepare_motorway_database_mysql.py:111-122 | the row raises exactly when maxspeed or lanes is present and does not parse (maxspeed first); the error is maxspeed's ValueError when maxspeed fails, else lanes'; road type is 1 for motorway and 2 for motorway_link; ref and name come from get_tag without the "none" check, oneway and tunnel from is_oneway and is_tunnel |
| `MotorwayDatabaseMysql.LinksOf` | db/prepare_motorway_database_mysql.py:123-124 | one (way_id, node_id) row per node, in order |
| `MotorwayDatabaseMysql.Motorways` | db/prepare_motorway_database_mysql.py:109-110 | only motorways and motorway links are taken |
| `MotorwayDatabaseMysql.MotorwaysIsFilter` | db/prepare_motorway_database_mysql.py:109-110 | the ways taken are a subsequence of the stream that contains every motorway and motorway link: none dropped, none reordered |
| `MotorwayDatabaseMysql.InsertAllKeepsMotorways` | db/prepare_motorway_database_mysql.py:107-126 | without an exception, one row per motorway in order with its mapped road type, and the node ids are the union over the motorways |
| `MotorwayDatabaseMysql.InsertAllErrorSticks` | db/prepare_motorway_database_mysql.py:107-126 | after the exception, no later way is inserted |
| `MotorwayDatabaseMysql.RoadDbWayHandler.constructor` | db/prepare_motorway_database_mysql.py:102-105 | empty tables and no node ids |
| `MotorwayDatabaseMysql.RoadDbWayHandler.Way` | db/prepare_motorway_database_mysql.py:107-126 | ignores other ways; a motorway's row and node rows are inserted and its nodes join the set, or nothing changes when a tag does not convert |
| `MotorwayDatabaseMysql.RoadDbWayHandler.ApplyFile` | db/prepare_motorway_database_mysql.py:93-98 | visiting the extract inserts exactly the rows of the pass, up to its exception |

## Left out

- Database access is not modelled: connections, cursors, SQL execution, transactions, table creation, indices, and the queries behind `_get_way_ids`, `_get_way_data` and `_get_osm_way_segments`. Written batches are recorded as values. The segment index is a given map from way id to start ratios. A way's node locations come from a given function of the way id (`wayData`). That function stands for whatever the query returns, labels included. The nodes are stored as `POINT(lat, lon)` (db/import_osm_highways.py:215-222), but the query reads `ST_X` back as `lon` and `ST_Y` as `lat` (db/import_osm_highways.py:284). The distance therefore receives each coordinate pair swapped (db/import_osm_highways.py:313-321). The model neither corrects nor reproduces this, so the proved properties of lengths and ratios say nothing about whether the real lengths are correct.
- Threading is left out (`_launch_aggregation_worker`, `_wait_for_workers`, the thread around `run`). Only one worker's pass is modelled.
- The geodesic distance of geopy is a parameter, a non-negative function of two coordinates. Lengths and ratios are exact reals, with no floating-point rounding.
- Osmium's `apply_file` is modelled as a sequence of ways or nodes handed to the handler one at a time.
- Python's `int()` on strings is a parameter: a partial parse from string to integer.
- The HTTP call, the status check and the environment variable of `match_trajectory` are network and process I/O.
- Records are typed, so the KeyErrors of a service response with missing fields are not modelled.
- XML, YAML and pickle loading, command-line parsing, `print` and `logging` are not modelled. The same goes for `store_database_to_disk` and the reporting scripts.
- The commented-out code at the end of db/mysql_import.py and the shadowed first `MotorwayNodeHandler` in db/prepare_motorway_database_mysql.py are dead code.
- `WaySegments.Walk`: the filling loop can go on forever, for example on a route that revisits a way. The model bounds it with a step count and reports `StepLimit` when the count runs out; `WaySegments.WalkFuelMonotone` shows the bound never changes a walk that finishes.
- `WaySegments.NextWayOf`: when no edge has the way, the source appends (None, 0) and fails with KeyError on the next step. The model fails at once. No result is returned either way.
- `WayAggregation.SplitIntoChunks`: a negative chunk count is outside the model (counts are natural numbers). `math.ceil` is exact here.
- `WayAggregation.SegmentRatiosOrdered` assumes non-negative segment lengths, which the distance guarantees.
- `MotorwayDatabase.ComputeWayLengths`: the `ways.items()` and `ways.values()` loops of the three copies are one method over the dictionary's insertion order.
