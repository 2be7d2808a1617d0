# Slick-to-vessel attribution of the AISO object, in Dafny

This project models the core of `AISO` in `ceruleanserver/ais.py`. That
object attributes each sub-polygon of an oil slick, detected in a satellite
radar scene, to the vessel most likely to have caused it. Its ingredients
are the AIS position reports recorded around the time of the scene, and a
confidence score for each attribution.

For each sub-polygon (`poly_id` in `0..n-1`) the rule in `find_coincidents`:

1. takes every report's distance to the polygon. The geometry is an input
   here: a distance function `dist(report, polygon)`.
2. finds the direct hits, the reports at distance 0.
3. chooses the candidate vessels. With no hit, every vessel present is a
   candidate. Otherwise the candidates are the vessels with the largest number
   of hits.
4. rates every vessel by its *proximity*, the mean of `1/dist` over its
   non-hit reports. A vessel with no non-hit report has no proximity.
5. takes the candidate of highest proximity (`idxmax`). On a tie it takes
   the smallest MMSI, because pandas' group index is sorted and `idxmax`
   returns the first maximum. If no candidate has a proximity, `idxmax` of
   an empty series raises, and the loop stops at that polygon.
6. scores the winner by the mean of `1/dist` over *all* its reports. This
   is infinite as soon as one report is a direct hit.
7. appends `(poly_id, score)` under the winner's MMSI in the `coincidents`
   dictionary.

Afterwards `record_coincidents` builds, for each vessel, the multi-polygon
of its sub-polygons and the line through its reports in timestamp order.
`LineString` needs at least two points, so a recorded vessel with a single
report in the table makes the whole call raise (`SingleReportWinner` shows
such a table).
Building the query's scope is also modelled: the time window
`acq_time ± hours` and the bounding box of the image's ground-control
points, widened by a buffer and memoised.

Module layout:
- `Attribution` (attribution.dfy) is the per-polygon rule, as functions over
  the `(mmsi, dist)` rows.
- `Coincidence` (coincidence.dfy) is the loop over polygons, as a fold into
  the dictionary. It holds the lemmas about the resulting assignment.
- `Tracks` (tracks.dfy) is the timestamp sort and the per-vessel track.
- `Scene` (scene.dfy) is the time window and the bounding box.
- `Ais` (aiso.dfy) holds the `Aiso` class, with the object's fields and
  methods, and the loop `AttributeAll`.
- `Wrappers` (wrappers.dfy) holds `Option` and `Result`.

Where the code and its design intent differ, the model follows the code:
- Lines 38-39 reset `ts_max` and `ts_min` to `None` after lines 26-27
  computed them. The constructor does the same. `get_big_query_str` then
  fails in its f-string (lines 82-83) after it has set the box fields.
  `GetBigQueryStr` returns `MissingTimeWindow` in that case, and
  `QueryAfterInit` shows that every freshly built object reaches it.
- A candidate whose reports are all direct hits has no proximity, so it can
  never win. Even when it has strictly the most hits, the step fails
  (`DirectHitDominance`). This is at odds with the comment at line 123,
  which calls the vessels that hit most the most likely ones.
- A polygon that cannot be attributed raises, which ends the whole loop.
  The model stops at the first such polygon, keeping what was recorded
  before it. It does not skip that polygon and go on. An empty report table
  fails at the first polygon the same way.
- Line 130 appends to an undefined name `coincidents`. The model appends to
  the field `self.coincidents`, which line 114 resets and line 133 reads.
  The duplicate notebook cell (lines 323-339) uses a local `coincidents`
  that is defined, and it has the same loop.

## Model

| member | source | states |
|---|---|---|
| Attribution.Vessels | ceruleanserver/ais.py:120 | the vessel of every report is among the vessels present |
| Attribution.VesselsPresent | ceruleanserver/ais.py:120 | a vessel is listed by `unique()` iff it has at least one report |
| Attribution.HitCount | ceruleanserver/ais.py:122 | a vessel has at most one hit per row of the table |
| Attribution.HitCountIsSize | ceruleanserver/ais.py:122 | a vessel's hit count is the number of its rows at distance 0 |
| Attribution.NonHitCount | ceruleanserver/ais.py:125 | a vessel has at most one non-hit report per row of the table |
| Attribution.NonHitCountIsSize | ceruleanserver/ais.py:125 | a vessel's non-hit count is the number of its rows at a positive distance, the size of its group in `ais_df[~direct_hits]` |
| Attribution.HitCountPositive | ceruleanserver/ais.py:118 | a vessel has a direct hit iff one of its reports is at distance 0 |
| Attribution.MaxHitsOver | ceruleanserver/ais.py:122-123 | the maximal hit count bounds every vessel's count and is attained by a vessel present |
| Attribution.MaxHits | ceruleanserver/ais.py:123 | the maximum bounds the hit count of the vessel of every report, and is 0 on an empty table |
| Attribution.HitsBounded | ceruleanserver/ais.py:123 | no vessel has more hits than the maximum |
| Attribution.MaxHitsPositive | ceruleanserver/ais.py:119-123 | with a direct hit the maximal hit count is at least 1 |
| Attribution.CandidateHasMostHits | ceruleanserver/ais.py:121-123 | with hits, every candidate has at least one hit and no vessel has more |
| Attribution.MostHitsIsCandidate | ceruleanserver/ais.py:121-123 | with hits, a vessel with at least one hit and no fewer than any other is a candidate |
| Attribution.Candidates | ceruleanserver/ais.py:119-123 | every candidate is a vessel present in the table |
| Attribution.CandidateSelection | ceruleanserver/ais.py:118-123 | no hit: the candidates are all vessels present; hits: candidate iff maximal and positive hit count; candidates are non-empty for a non-empty table |
| Attribution.ReportCount | ceruleanserver/ais.py:128 | a vessel's reports are its hits plus its non-hit reports |
| Attribution.InvSum | ceruleanserver/ais.py:117-125 | the sum of inverse distances over non-hit reports is non-negative, and positive when there is one |
| Attribution.NonHitCountPositive | ceruleanserver/ais.py:125 | a vessel has a proximity value iff it has a report that is not a direct hit |
| Attribution.Proximity | ceruleanserver/ais.py:125 | a proximity value is positive for non-negative distances |
| Attribution.Scan | ceruleanserver/ais.py:126 | the scan returns an eligible vessel ranked at least as high as the start and every eligible vessel it passes |
| Attribution.Winner | ceruleanserver/ais.py:126 | the winner is an eligible candidate ranked at least as high as every eligible one; none iff no candidate has a proximity |
| Attribution.AttributePolygon | ceruleanserver/ais.py:118-128 | a polygon only ever goes to a candidate vessel with a proximity value |
| Attribution.AttributionWinner | ceruleanserver/ais.py:118-130 | the step succeeds iff some candidate has a proximity value (never on an empty table); the winner outranks every eligible candidate |
| Attribution.SumInverse | ceruleanserver/ais.py:117 | a finite sum of the `inv` column is non-negative for non-negative distances |
| Attribution.SumInverseCases | ceruleanserver/ais.py:117 | the sum of the `inv` column is infinite iff the vessel has a hit, else the finite sum over non-hits |
| Attribution.MeanInverse | ceruleanserver/ais.py:128 | a finite mean of the `inv` column is non-negative for non-negative distances |
| Attribution.MeanInverseCases | ceruleanserver/ais.py:128 | the mean over all of a vessel's reports is infinite iff it has a hit, else equals its proximity |
| Attribution.AttributionScore | ceruleanserver/ais.py:119-128 | the score is infinite exactly when the polygon has a hit (the winner then has most hits), else the winner's proximity, which is positive |
| Attribution.DirectHitDominance | ceruleanserver/ais.py:118-128 | a vessel with strictly most hits wins with an infinite score if it has a non-hit report, and the step fails otherwise |
| Attribution.NoHitFallback | ceruleanserver/ais.py:119-128 | with no hit and some report, the winner is the vessel of highest proximity among all present, scored by that proximity |
| Attribution.ProximityMonotone | ceruleanserver/ais.py:117-125 | moving a non-hit report closer keeps every hit count and other vessels' proximities and never lowers its vessel's proximity |
| Attribution.MaxHitsOverSame | ceruleanserver/ais.py:122-123 | tables with the same vessels and hit counts have the same maximal hit count |
| Attribution.SameHitsSameCandidates | ceruleanserver/ais.py:118-123 | tables with the same vessels, direct hits and hit counts have the same candidates |
| Attribution.CloserWinnerStays | ceruleanserver/ais.py:117-128 | if the polygon went to the vessel whose non-hit report moves closer, it still goes to it, with the same infinite score when the polygon has a hit and a score no lower otherwise |
| Coincidence.Collect | ceruleanserver/ais.py:114-130 | a stop is always at a polygon of the run whose step failed |
| Coincidence.Record | ceruleanserver/ais.py:130 | one entry is appended under the winner's key; no other key changes |
| Coincidence.CollectNext | ceruleanserver/ais.py:115-130 | one more pass of the loop appends the polygon's entry or records its failure |
| Coincidence.CollectFailure | ceruleanserver/ais.py:114-130 | the loop completes iff every polygon is attributed; otherwise it stops at the first failing polygon, keeping the entries of the polygons before it |
| Coincidence.CollectOne | ceruleanserver/ais.py:114-130 | a loop over one successful polygon records exactly its entry under its winner |
| Coincidence.CollectStops | ceruleanserver/ais.py:126 | after a failure later polygons change nothing |
| Coincidence.CollectStep | ceruleanserver/ais.py:130 | a successful pass extends the dictionary by exactly its entry |
| Coincidence.CollectSound | ceruleanserver/ais.py:130 | every recorded entry is a polygon of the run, under its winner, with its score |
| Coincidence.CollectInRange | ceruleanserver/ais.py:115-130 | every recorded polygon id is a polygon of the run, also after a stop |
| Coincidence.CollectComplete | ceruleanserver/ais.py:115 | every attributed polygon is recorded under its winner |
| Coincidence.CollectIncreasing | ceruleanserver/ais.py:115 | each list holds its polygon ids in increasing order, and no list is empty |
| Coincidence.CollectAssignment | ceruleanserver/ais.py:323-339 | after a complete loop the assignment of polygons to vessels is total, disjoint, sound and in id order |
| Coincidence.AssignedOnce | ceruleanserver/ais.py:114-130 | every polygon id occurs exactly once across all lists |
| Coincidence.PolyIds | ceruleanserver/ais.py:136 | the ids of a vessel's list, position by position |
| Coincidence.SlickOf | ceruleanserver/ais.py:136 | one sub-polygon per listed entry |
| Coincidence.SlickOfWinner | ceruleanserver/ais.py:136 | a vessel's aggregate slick is exactly the sub-polygons attributed to it, each once, in id order |
| Tracks.Insert | ceruleanserver/ais.py:107 | inserting into a sorted table keeps it sorted and adds exactly one report |
| Tracks.SortByTimestamp | ceruleanserver/ais.py:107 | the sorted table is ordered by timestamp and is a permutation of the rows |
| Tracks.Track | ceruleanserver/ais.py:137 | every report of a vessel's track belongs to that vessel |
| Tracks.TrackMembers | ceruleanserver/ais.py:137 | every report of a track is a report of the table |
| Tracks.TrackSorted | ceruleanserver/ais.py:107-137 | the track of the timestamp-sorted table is sorted by timestamp |
| Tracks.TrackExact | ceruleanserver/ais.py:137 | the track holds each of the vessel's reports exactly as often as the table does, and nothing else |
| Scene.TimeWindow | ceruleanserver/ais.py:26-27 | `ts_min` lies the hours before below `acq_time` and the window spans the hours before plus after, so `ts_max` lies the hours after above it; for non-negative hours `ts_min <= acq_time <= ts_max` |
| Scene.MaxOf | ceruleanserver/ais.py:51-53 | `max` bounds every value and is one of them |
| Scene.MinOf | ceruleanserver/ais.py:52-54 | `min` is below every value and is one of them |
| Scene.Xs | ceruleanserver/ais.py:47 | one longitude per ground-control point |
| Scene.Ys | ceruleanserver/ais.py:48 | one latitude per ground-control point |
| Scene.BoundingBox | ceruleanserver/ais.py:51-54 | with a non-negative buffer every ground-control point lies in the box, and each edge is an extreme coordinate shifted by the buffer |
| Ais.DistColumn | ceruleanserver/ais.py:116 | the `dist` column has one value per report |
| Ais.Sightings | ceruleanserver/ais.py:116-117 | one row per report; non-negative when the distance function is |
| Ais.PolygonOutcomes | ceruleanserver/ais.py:115 | one outcome per sub-polygon |
| Ais.Aggregates | ceruleanserver/ais.py:135-137 | one aggregate per recorded vessel, holding its list and one sub-polygon per entry |
| Ais.AggregatesAfterRun | ceruleanserver/ais.py:135-137 | after a complete loop a vessel's aggregate holds exactly the sub-polygons it won, in id order, and exactly its reports, sorted by timestamp |
| Ais.RecordedScores | ceruleanserver/ais.py:126-130 | every recorded entry's vessel was eligible for its polygon; its score is infinite iff the polygon had a hit, else the vessel's positive proximity |
| Ais.AttributeAll | ceruleanserver/ais.py:114-130 | the loop's dictionary and failure are the fold of the per-polygon outcomes; ids are in range; the `dist` column is the last polygon processed |
| Ais.Aiso.constructor | ceruleanserver/ais.py:18-39 | fields are set; the computed window is reset to `None`; every placeholder is empty |
| Ais.Aiso.GetBigQueryStr | ceruleanserver/ais.py:44-100 | a memoised query is returned unchanged; otherwise the box fields are set from the ground-control points, and the query is built only if the window is present |
| Ais.Aiso.LoadReports | ceruleanserver/ais.py:107-108 | the table becomes the rows sorted by timestamp |
| Ais.Aiso.FindCoincidents | ceruleanserver/ais.py:110-130 | the table is loaded if absent; `coincidents`, the failure and the `dist` column are those of the loop over the object's polygons |
| Ais.Aiso.RecordCoincidents | ceruleanserver/ais.py:132-142 | runs `find_coincidents` only when nothing is recorded, leaving its table, dictionary and `dist` column, and raises its failure; otherwise the state is unchanged; without such a failure the result is the aggregate loop over the recorded vessels |
| Ais.BuildAggregates | ceruleanserver/ais.py:135-137 | succeeds with the per-vessel aggregates, none with a one-point track, or fails only when some recorded vessel has exactly one report |
| Ais.SingleSighting | ceruleanserver/ais.py:119-128 | a lone report at distance 1 wins its polygon with score 1 |
| Ais.SingleReportWinner | ceruleanserver/ais.py:115-137 | a table of one report at distance 1 from the only polygon: the loop records that vessel with score 1, and building its line fails |
| Ais.QueryAfterInit | ceruleanserver/ais.py:25-39 | a freshly constructed object fails to build its query: no ground-control points, or else a missing time window |
| Ais.QueryTwice | ceruleanserver/ais.py:45-100 | once a query is built, asking again returns the same query |

## Left out

- Geometric distance (`GeoSeries.distance`, lines 116 and 325) is a call
  into Shapely. It is taken as a distance function on (report, polygon).
- `MultiPolygon` and `LineString` (lines 136-137) are modelled only as the
  selected sub-polygons and the selected reports, in order. The one
  geometric check kept is that `LineString` refuses a single point
  (`BuildAggregates` fails with `SingleReportTrack`). Other Shapely
  validity checks are not modelled.
- Reading the ground-control points with GDAL (lines 46-49) is I/O. The
  points are a parameter.
- The BigQuery call and the CSV and GeoJSON reads (lines 28, 102-108,
  316-321) are I/O. The fetched rows are a parameter, and only the sort at
  line 107 is modelled.
- Lines 111-112: `find_coincidents` loads the table lazily, through
  `run_big_query`, when `ais_df` is unset. The model loads the given rows
  instead, without building the query. The truth test `not self.ais_df` of
  a loaded DataFrame raises in pandas; that is not modelled.
- The SQL text (lines 56-99) is a fixed template. `Query` keeps only the
  values it embeds.
- Parsing the acquisition time from `grd_id[17:32]` (line 25) is left out.
  The acquisition time is an input in integer seconds and the hours are
  integers, so fractional hours of `timedelta` are not modelled. The paths
  and `grd_id` are not modelled, and neither is `__repr__`.
- The table's `inv` column (lines 117 and 326) is not stored. The model
  computes it from `dist` where it is read.
- The `mode` summary of `speed`, `receiver_type`, `receiver` and `status`
  (line 138) relies on unvalidated pandas columns. Only mmsi, timestamp,
  lon and lat are kept per report.
- `display` (lines 139-142, 345-348) is UI output. `coincident_db_row`
  (lines 146-160) refers to undefined names and is persistence formatting.
- The notebook cell's outer loop over scene files (lines 308-349) is left
  out. Its inner loop (lines 323-339) is the same rule as `find_coincidents`.
  The commented-out exploration block (lines 165-299), the EEZ cell
  (lines 354-383) and the commented-out cell (lines 387-418) are left out
  too.
- Floating point is not modelled. Distances and scores are exact reals, and
  `1/0` is the explicit `Infinite` case.
- Tracks.SortByTimestamp: pandas' default sort is not stable. The model
  keeps equal timestamps in input order, which is one of the orders pandas
  may produce. The track lemmas hold for any timestamp-sorted table.
