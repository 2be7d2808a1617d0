/** The AISO object: one satellite scene, its slick multi-polygon and the AIS
    reports around it, correlated by `find_coincidents`. */
module Ais {
  import opened Wrappers
  import opened Attribution
  import opened Coincidence
  import opened Tracks
  import opened Scene

  /** The values the BigQuery text embeds (the SQL around them is a fixed
      template): the buffered box and the time window. */
  datatype Query = Query(box: Box, tsMin: int, tsMax: int)

  /** `max([])` raises for an image without ground-control points; the
      template calls `strftime` on a window that is `None`. */
  datatype QueryError = NoGroundControlPoints | MissingTimeWindow

  /** What `record_coincidents` assembles for one vessel: its sub-polygons
      (the MultiPolygon), its track (the LineString's points) and its list. */
  datatype Aggregate<P> = Aggregate(slick: seq<P>, track: seq<AisReport>, entries: seq<Entry>)

  /** The `dist` column for polygon `poly`. */
  function DistColumn<P>(reports: seq<AisReport>, poly: P, dist: (AisReport, P) -> real): (r: seq<real>)
    ensures |r| == |reports|
  {
    seq(|reports|, i requires 0 <= i < |reports| => dist(reports[i], poly))
  }

  /** The columns the attribution rule reads for polygon `poly`. */
  function Sightings<P>(reports: seq<AisReport>, poly: P, dist: (AisReport, P) -> real): (r: seq<Sighting>)
    ensures |r| == |reports|
    ensures (forall x :: dist(x, poly) >= 0.0) ==> Distances(r)
  {
    seq(|reports|, i requires 0 <= i < |reports| => Sighting(reports[i].mmsi, dist(reports[i], poly)))
  }

  /** The outcome of the loop body for each sub-polygon, in order. */
  function PolygonOutcomes<P>(reports: seq<AisReport>, parts: seq<P>, dist: (AisReport, P) -> real): (r: seq<Outcome>)
    ensures |r| == |parts|
  {
    seq(|parts|, p requires 0 <= p < |parts| => AttributePolygon(Sightings(reports, parts[p], dist)))
  }

  /** The per-vessel aggregates for a dictionary of coincidents. */
  function Aggregates<P>(parts: seq<P>, reports: seq<AisReport>, m: Coincidents): (r: map<Mmsi, Aggregate<P>>)
    requires forall v, j :: v in m && 0 <= j < |m[v]| ==> m[v][j].0 < |parts|
    ensures r.Keys == m.Keys
    ensures forall v :: v in r ==> r[v].entries == m[v] && |r[v].slick| == |m[v]|
  {
    map v | v in m :: Aggregate(SlickOf(parts, m[v]), Track(reports, v), m[v])
  }

  /** Why `record_coincidents` raises: a polygon that `find_coincidents`
      cannot attribute, or a vessel whose track is a single report, which
      `LineString` refuses (it needs at least two points). */
  datatype RecordError = Unattributed(poly: nat, error: AttributionError) | SingleReportTrack

  /** The loop of `record_coincidents` over the recorded vessels: it raises
      if any of them has exactly one report, whichever vessel comes first. */
  function BuildAggregates<P>(parts: seq<P>, reports: seq<AisReport>, m: Coincidents)
    : (r: Result<map<Mmsi, Aggregate<P>>, RecordError>)
    requires forall v, j :: v in m && 0 <= j < |m[v]| ==> m[v][j].0 < |parts|
    ensures r.Success? ==> r.value == Aggregates(parts, reports, m)
    ensures r.Success? ==> forall v :: v in r.value ==> |r.value[v].track| != 1
    ensures r.Failure? ==> r.error == SingleReportTrack && exists v :: v in m && |Track(reports, v)| == 1
  {
    if exists v :: v in m && |Track(reports, v)| == 1 then Failure(SingleReportTrack)
    else Success(Aggregates(parts, reports, m))
  }

  /** The rule on a single report at distance 1: its vessel wins with
      score 1. */
  lemma SingleSighting(s: seq<Sighting>)
    requires s == [Sighting(7, 1.0)]
    ensures AttributePolygon(s) == Success((7, Finite(1.0)))
  {
    assert !AnyHit(s);
    NoHitFallback(s);
    assert Vessels(s) == {7};
    assert s[..0] == [];
    assert NonHitCount(s, 7) == 1 && InvSum(s, 7) == 1.0;
  }

  /** A table of a single report at distance 1 from the only sub-polygon:
      the polygon goes to that vessel with score 1, and assembling its
      aggregate fails, because its track has one point. */
  lemma SingleReportWinner<P>(poly: P, dist: (AisReport, P) -> real)
    requires dist(AisReport(7, 0, 0.0, 0.0), poly) == 1.0
    ensures var reports := [AisReport(7, 0, 0.0, 0.0)];
      var run := Collect(PolygonOutcomes(reports, [poly], dist));
      && run == Run(map[7 := [(0, Finite(1.0))]], None)
      && BuildAggregates([poly], reports, run.coincidents) == Failure(SingleReportTrack)
  {
    var reports := [AisReport(7, 0, 0.0, 0.0)];
    var s := Sightings(reports, poly, dist);
    assert s == [Sighting(7, 1.0)];
    SingleSighting(s);
    var outs := PolygonOutcomes(reports, [poly], dist);
    assert outs == [Success((7, Finite(1.0)))];
    CollectOne(outs);
    assert reports[1..] == [];
    assert Track(reports, 7) == reports;
  }

  /** The `dist` column after the loop over `parts`: that of the failing
      polygon, else that of the last polygon, else the column before it. */
  function ColumnAfter<P>(reports: seq<AisReport>, parts: seq<P>, dist: (AisReport, P) -> real,
                          failure: Option<(nat, AttributionError)>, before: Option<seq<real>>): Option<seq<real>>
    requires failure.Some? ==> failure.value.0 < |parts|
  {
    if failure.Some? then Some(DistColumn(reports, parts[failure.value.0], dist))
    else if |parts| > 0 then Some(DistColumn(reports, parts[|parts| - 1], dist))
    else before
  }

  /** After a complete loop over a timestamp-sorted table, the aggregate of
      each vessel holds exactly the sub-polygons attributed to it, in
      increasing id order, and its track is exactly its reports, sorted. */
  lemma AggregatesAfterRun<P>(parts: seq<P>, reports: seq<AisReport>, dist: (AisReport, P) -> real, v: Mmsi)
    requires SortedByTime(reports)
    requires AllSucceed(PolygonOutcomes(reports, parts, dist))
    requires v in Collect(PolygonOutcomes(reports, parts, dist)).coincidents
    ensures var outs := PolygonOutcomes(reports, parts, dist);
      var m := Collect(outs).coincidents;
      && (forall u, j :: u in m && 0 <= j < |m[u]| ==> m[u][j].0 < |parts|)
      && var a := Aggregates(parts, reports, m)[v];
      && (forall p :: p in PolyIds(a.entries) <==> 0 <= p < |parts| && outs[p].value.0 == v)
      && (forall j :: 0 <= j < |a.slick| ==> a.slick[j] == parts[PolyIds(a.entries)[j]])
      && SortedByTime(a.track)
      && (forall y :: multiset(a.track)[y] == if y.mmsi == v then multiset(reports)[y] else 0)
  {
    var outs := PolygonOutcomes(reports, parts, dist);
    CollectSound(outs);
    SlickOfWinner(parts, outs, v);
    TrackSorted(reports, v);
    TrackExact(reports, v);
  }

  /** Every score the loop records is infinite exactly when its polygon has
      a direct hit, and is otherwise the winner's proximity, positive for a
      non-negative distance. */
  lemma RecordedScores<P>(reports: seq<AisReport>, parts: seq<P>, dist: (AisReport, P) -> real,
                          v: Mmsi, j: nat)
    requires var m := Collect(PolygonOutcomes(reports, parts, dist)).coincidents;
      v in m && j < |m[v]|
    ensures var (p, score) := Collect(PolygonOutcomes(reports, parts, dist)).coincidents[v][j];
      && p < |parts|
      && var s := Sightings(reports, parts[p], dist);
      && Eligible(s, v)
      && (score == Infinite <==> AnyHit(s))
      && (!AnyHit(s) ==> score == Finite(Proximity(s, v).value))
      && (!AnyHit(s) && (forall x :: dist(x, parts[p]) >= 0.0) ==> score.value > 0.0)
  {
    var outs := PolygonOutcomes(reports, parts, dist);
    var run := Collect(outs);
    if run.failure.None? {
      CollectFailure(outs);
      CollectSound(outs);
    } else {
      CollectFailure(outs);
      var k := run.failure.value.0;
      CollectSound(outs[..k]);
      assert forall q :: 0 <= q < k ==> outs[..k][q] == outs[q];
    }
    var (p, score) := run.coincidents[v][j];
    var s := Sightings(reports, parts[p], dist);
    assert AttributePolygon(s) == Success((v, score));
    AttributionWinner(s);
    AttributionScore(s);
  }

  /** The loop of `find_coincidents` over the sub-polygons `parts`: for each
      in order, overwrite the `dist` column, attribute the polygon and append
      `(poly_id, score)` under the winner, stopping at the first failing
      polygon. `column` is the `dist` column before the loop. */
  method AttributeAll<P>(reports: seq<AisReport>, parts: seq<P>, dist: (AisReport, P) -> real,
                         column: Option<seq<real>>)
    returns (recorded: Coincidents, failure: Option<(nat, AttributionError)>, lastColumn: Option<seq<real>>)
    ensures Collect(PolygonOutcomes(reports, parts, dist)) == Run(recorded, failure)
    ensures failure.Some? ==> failure.value.0 < |parts|
    ensures forall v, j :: v in recorded && 0 <= j < |recorded[v]| ==> recorded[v][j].0 < |parts|
    ensures lastColumn == ColumnAfter(reports, parts, dist, failure, column)
  {
    ghost var outs := PolygonOutcomes(reports, parts, dist);
    recorded := map[];
    failure := None;
    lastColumn := column;
    var i := 0;
    while i < |parts| && failure.None?
      invariant 0 <= i <= |parts|
      invariant Collect(outs[..i]) == Run(recorded, failure)
      invariant failure.Some? ==> 0 < i && failure.value.0 == i - 1
      invariant i == 0 ==> lastColumn == column
      invariant i > 0 ==> lastColumn == Some(DistColumn(reports, parts[i - 1], dist))
      decreases |parts| - i
    {
      var poly := parts[i];
      lastColumn := Some(DistColumn(reports, poly, dist));
      var outcome := AttributePolygon(Sightings(reports, poly, dist));
      CollectNext(outs, i);
      if outcome.Failure? {
        failure := Some((i, outcome.error));
      } else {
        recorded := Record(recorded, outcome.value.0, (i, outcome.value.1));
      }
      assert Collect(outs[..i + 1]) == Run(recorded, failure);
      i := i + 1;
    }
    assert Collect(outs) == Run(recorded, failure) by {
      if failure.Some? {
        CollectStops(outs, i);
      } else {
        assert outs[..i] == outs;
      }
    }
    CollectInRange(outs);
  }

  class Aiso<P> {
    var acqTime: int
    var tsMax: Option<int>
    var tsMin: Option<int>
    var infMultipolygon: seq<P>
    var coincidents: Coincidents
    var bigQuery: Option<Query>
    /** The report table, sorted by timestamp once loaded. */
    var aisDf: Option<seq<AisReport>>
    /** The table's `dist` column, overwritten for every polygon. */
    var distColumn: Option<seq<real>>
    var latMax: Option<real>
    var latMin: Option<real>
    var lonMax: Option<real>
    var lonMin: Option<real>

    ghost predicate Valid()
      reads this
    {
      && (forall v, j :: v in coincidents && 0 <= j < |coincidents[v]| ==>
            coincidents[v][j].0 < |infMultipolygon|)
      && (coincidents != map[] ==> aisDf.Some?)
      && (aisDf.Some? ==> SortedByTime(aisDf.value))
      && (bigQuery.Some? ==>
            var b := bigQuery.value.box;
            latMin == Some(b.latMin) && latMax == Some(b.latMax) &&
            lonMin == Some(b.lonMin) && lonMax == Some(b.lonMax))
    }

    /** `__init__`, with the acquisition time already parsed from the scene
        id: the window is computed and then reset to `None` with the other
        placeholders. */
    constructor (acqTime: int, hoursBefore: int, hoursAfter: int, infMultipolygon: seq<P>)
      ensures Valid()
      ensures this.acqTime == acqTime && this.infMultipolygon == infMultipolygon
      ensures tsMax == None && tsMin == None
      ensures coincidents == map[] && bigQuery == None && aisDf == None && distColumn == None
      ensures latMax == None && latMin == None && lonMax == None && lonMin == None
    {
      this.acqTime := acqTime;
      var window := TimeWindow(acqTime, hoursBefore, hoursAfter);
      tsMax := Some(window.1);
      tsMin := Some(window.0);
      this.infMultipolygon := infMultipolygon;
      coincidents := map[];
      bigQuery := None;
      aisDf := None;
      distColumn := None;
      latMax := None;
      latMin := None;
      lonMax := None;
      lonMin := None;
      tsMax := None;
      tsMin := None;
    }

    /** `get_big_query_str`, the image's ground-control points given: the box
        and the query are computed only while no query is memoised. */
    method GetBigQueryStr(gcps: seq<Gcp>, buffer: real) returns (r: Result<Query, QueryError>)
      requires Valid()
      modifies this`latMax, this`latMin, this`lonMax, this`lonMin, this`bigQuery
      ensures Valid()
      ensures old(bigQuery).Some? ==> r == Success(old(bigQuery).value) && unchanged(this)
      ensures old(bigQuery).None? && |gcps| == 0 ==> r == Failure(NoGroundControlPoints) && unchanged(this)
      ensures old(bigQuery).None? && |gcps| > 0 ==>
        var b := BoundingBox(gcps, buffer);
        && latMin == Some(b.latMin) && latMax == Some(b.latMax)
        && lonMin == Some(b.lonMin) && lonMax == Some(b.lonMax)
        && if tsMin.Some? && tsMax.Some?
           then r == Success(Query(b, tsMin.value, tsMax.value)) && bigQuery == Some(r.value)
           else r == Failure(MissingTimeWindow) && bigQuery == None
    {
      if bigQuery.None? {
        if |gcps| == 0 {
          return Failure(NoGroundControlPoints);
        }
        var b := BoundingBox(gcps, buffer);
        latMax := Some(b.latMax);
        latMin := Some(b.latMin);
        lonMax := Some(b.lonMax);
        lonMin := Some(b.lonMin);
        if tsMin.None? || tsMax.None? {
          return Failure(MissingTimeWindow);
        }
        bigQuery := Some(Query(b, tsMin.value, tsMax.value));
      }
      r := Success(bigQuery.value);
    }

    /** `pd.read_csv(...).sort_values('timestamp')`, the fetched rows given. */
    method LoadReports(rows: seq<AisReport>)
      requires Valid()
      modifies this`aisDf
      ensures Valid()
      ensures aisDf == Some(SortByTimestamp(rows))
    {
      aisDf := Some(SortByTimestamp(rows));
    }

    /** `find_coincidents`: for every sub-polygon in order, overwrite the
        `dist` column, attribute the polygon and append `(poly_id, score)`
        under the winner. A failing step stops the loop, returning the
        failing polygon. The table is loaded from `fetched` if absent. */
    method FindCoincidents(fetched: seq<AisReport>, dist: (AisReport, P) -> real)
      returns (failure: Option<(nat, AttributionError)>)
      requires Valid()
      modifies this`aisDf, this`coincidents, this`distColumn
      ensures Valid()
      ensures aisDf == if old(aisDf).Some? then old(aisDf) else Some(SortByTimestamp(fetched))
      ensures var run := Collect(PolygonOutcomes(aisDf.value, infMultipolygon, dist));
        coincidents == run.coincidents && failure == run.failure
      ensures failure.Some? ==> failure.value.0 < |infMultipolygon|
      ensures distColumn == ColumnAfter(aisDf.value, infMultipolygon, dist, failure, old(distColumn))
    {
      if aisDf.None? {
        LoadReports(fetched);
      }
      var table := aisDf.value;
      assert SortedByTime(table);
      var recorded, column;
      recorded, failure, column := AttributeAll(table, infMultipolygon, dist, distColumn);
      coincidents := recorded;
      distColumn := column;
    }

    /** `record_coincidents`: run `find_coincidents` first if nothing is
        recorded, then assemble each vessel's aggregate. */
    method RecordCoincidents(fetched: seq<AisReport>, dist: (AisReport, P) -> real)
      returns (r: Result<map<Mmsi, Aggregate<P>>, RecordError>)
      requires Valid()
      modifies this`aisDf, this`coincidents, this`distColumn
      ensures Valid()
      ensures old(coincidents) != map[] ==> unchanged(this)
      ensures old(coincidents) == map[] ==>
        && aisDf == (if old(aisDf).Some? then old(aisDf) else Some(SortByTimestamp(fetched)))
        && var run := Collect(PolygonOutcomes(aisDf.value, infMultipolygon, dist));
        && coincidents == run.coincidents
        && (run.failure.Some? ==> run.failure.value.0 < |infMultipolygon|)
        && distColumn == ColumnAfter(aisDf.value, infMultipolygon, dist, run.failure, old(distColumn))
        && (run.failure.Some? ==> r == Failure(Unattributed(run.failure.value.0, run.failure.value.1)))
        && (run.failure.None? ==> !(r.Failure? && r.error.Unattributed?))
      ensures r.Failure? && r.error.Unattributed? ==> old(coincidents) == map[]
      ensures !(r.Failure? && r.error.Unattributed?) ==>
        aisDf.Some? && r == BuildAggregates(infMultipolygon, aisDf.value, coincidents)
    {
      if coincidents == map[] {
        var failure := FindCoincidents(fetched, dist);
        if failure.Some? {
          return Failure(Unattributed(failure.value.0, failure.value.1));
        }
      }
      r := BuildAggregates(infMultipolygon, aisDf.value, coincidents);
    }
  }

  /** A freshly constructed object cannot produce its query: the window
      `__init__` computes is reset to `None` before any query is built. */
  method QueryAfterInit<P>(acqTime: int, hoursBefore: int, hoursAfter: int, parts: seq<P>,
                           gcps: seq<Gcp>, buffer: real)
    returns (r: Result<Query, QueryError>)
    ensures r == Failure(if |gcps| == 0 then NoGroundControlPoints else MissingTimeWindow)
  {
    var scene := new Aiso(acqTime, hoursBefore, hoursAfter, parts);
    r := scene.GetBigQueryStr(gcps, buffer);
  }

  /** Asking twice gives the same query once one was built. */
  method QueryTwice<P>(scene: Aiso<P>, gcps: seq<Gcp>, buffer: real)
    returns (first: Result<Query, QueryError>, second: Result<Query, QueryError>)
    requires scene.Valid()
    modifies scene
    ensures first.Success? ==> second == first
  {
    first := scene.GetBigQueryStr(gcps, buffer);
    second := scene.GetBigQueryStr(gcps, buffer);
  }
}
