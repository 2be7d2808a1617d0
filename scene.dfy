/** The time window around the image acquisition and the bounding box of the
    image's ground-control points, which scope the AIS query. */
module Scene {

  /** A ground-control point: `GCPX` is the longitude, `GCPY` the latitude. */
  datatype Gcp = Gcp(x: real, y: real)

  datatype Box = Box(latMin: real, latMax: real, lonMin: real, lonMax: real)

  predicate Inside(b: Box, g: Gcp)
  {
    b.lonMin <= g.x <= b.lonMax && b.latMin <= g.y <= b.latMax
  }

  const SECONDS_PER_HOUR := 3600

  /** `(ts_min, ts_max)` = `acq_time - hours_before`, `acq_time + hours_after`,
      in seconds. */
  function TimeWindow(acqTime: int, hoursBefore: int, hoursAfter: int): (w: (int, int))
    ensures hoursBefore >= 0 && hoursAfter >= 0 ==> w.0 <= acqTime <= w.1
    ensures w.1 - w.0 == SECONDS_PER_HOUR * (hoursBefore + hoursAfter)
    ensures acqTime - w.0 == SECONDS_PER_HOUR * hoursBefore
  {
    (acqTime - SECONDS_PER_HOUR * hoursBefore, acqTime + SECONDS_PER_HOUR * hoursAfter)
  }

  /** Python's `max` of a non-empty list. */
  function MaxOf(xs: seq<real>): (r: real)
    requires |xs| > 0
    ensures forall i :: 0 <= i < |xs| ==> xs[i] <= r
    ensures exists i :: 0 <= i < |xs| && xs[i] == r
  {
    if |xs| == 1 then xs[0]
    else
      var rest := MaxOf(xs[1..]);
      assert forall i :: 1 <= i < |xs| ==> xs[i] == xs[1..][i - 1];
      if xs[0] >= rest then xs[0] else rest
  }

  /** Python's `min` of a non-empty list. */
  function MinOf(xs: seq<real>): (r: real)
    requires |xs| > 0
    ensures forall i :: 0 <= i < |xs| ==> r <= xs[i]
    ensures exists i :: 0 <= i < |xs| && xs[i] == r
  {
    if |xs| == 1 then xs[0]
    else
      var rest := MinOf(xs[1..]);
      assert forall i :: 1 <= i < |xs| ==> xs[i] == xs[1..][i - 1];
      if xs[0] <= rest then xs[0] else rest
  }

  function Xs(gcps: seq<Gcp>): (r: seq<real>)
    ensures |r| == |gcps|
  {
    seq(|gcps|, i requires 0 <= i < |gcps| => gcps[i].x)
  }

  function Ys(gcps: seq<Gcp>): (r: seq<real>)
    ensures |r| == |gcps|
  {
    seq(|gcps|, i requires 0 <= i < |gcps| => gcps[i].y)
  }

  /** The extremes of the ground-control points widened by `buffer` degrees:
      every edge lies `buffer` beyond every point, and beyond the extreme
      point by exactly `buffer`. */
  function BoundingBox(gcps: seq<Gcp>, buffer: real): (b: Box)
    requires |gcps| > 0
    ensures buffer >= 0.0 ==> forall i :: 0 <= i < |gcps| ==> Inside(b, gcps[i])
    ensures forall i :: 0 <= i < |gcps| ==>
      && gcps[i].y + buffer <= b.latMax && b.latMin <= gcps[i].y - buffer
      && gcps[i].x + buffer <= b.lonMax && b.lonMin <= gcps[i].x - buffer
    ensures exists i :: 0 <= i < |gcps| && gcps[i].y + buffer == b.latMax
    ensures exists i :: 0 <= i < |gcps| && gcps[i].y - buffer == b.latMin
    ensures exists i :: 0 <= i < |gcps| && gcps[i].x + buffer == b.lonMax
    ensures exists i :: 0 <= i < |gcps| && gcps[i].x - buffer == b.lonMin
  {
    var xs, ys := Xs(gcps), Ys(gcps);
    assert forall i :: 0 <= i < |gcps| ==> xs[i] == gcps[i].x && ys[i] == gcps[i].y;
    Box(MinOf(ys) - buffer, MaxOf(ys) + buffer, MinOf(xs) - buffer, MaxOf(xs) + buffer)
  }
}
