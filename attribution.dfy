/** The per-polygon attribution rule of AISO.find_coincidents: given, for one
    sub-polygon of the slick, every AIS report's vessel and its distance to
    that polygon, pick the vessel the polygon is attributed to and its score. */
module Attribution {
  import opened Wrappers

  /** Maritime Mobile Service Identity of a vessel. */
  type Mmsi = int

  /** The value of a mean of inverse distances; `1 / 0` is infinite in pandas. */
  datatype Score = Finite(value: real) | Infinite

  /** One row of the report table together with its `dist` column for the
      polygon currently examined. */
  datatype Sighting = Sighting(mmsi: Mmsi, dist: real)

  /** `idxmax` of an empty series: no candidate vessel has a proximity value. */
  datatype AttributionError = NoProximity

  /** Distances as a geometric distance function yields them. */
  predicate Distances(s: seq<Sighting>)
  {
    forall i :: 0 <= i < |s| ==> s[i].dist >= 0.0
  }

  /** A direct hit: the report lies in or on the polygon. */
  predicate IsHit(x: Sighting)
  {
    x.dist == 0.0
  }

  predicate AnyHit(s: seq<Sighting>)
  {
    exists i :: 0 <= i < |s| && IsHit(s[i])
  }

  /** The distinct vessels present (`ais_df['mmsi'].unique()`). */
  function Vessels(s: seq<Sighting>): (r: set<Mmsi>)
    ensures forall i :: 0 <= i < |s| ==> s[i].mmsi in r
  {
    set i | 0 <= i < |s| :: s[i].mmsi
  }

  /** Number of direct hits of vessel `m`. */
  function HitCount(s: seq<Sighting>, m: Mmsi): (c: nat)
    ensures c <= |s|
  {
    if s == [] then 0
    else
      var last := s[|s| - 1];
      HitCount(s[..|s| - 1], m) + (if last.mmsi == m && IsHit(last) then 1 else 0)
  }

  /** Number of reports of vessel `m` that are not direct hits. */
  function NonHitCount(s: seq<Sighting>, m: Mmsi): (c: nat)
    ensures c <= |s|
  {
    if s == [] then 0
    else
      var last := s[|s| - 1];
      NonHitCount(s[..|s| - 1], m) + (if last.mmsi == m && !IsHit(last) then 1 else 0)
  }

  /** The rows of the direct hits of vessel `m` (`ais_df[direct_hits]`
      restricted to `m`). */
  function HitRows(s: seq<Sighting>, m: Mmsi): set<nat>
  {
    set i: nat | i < |s| && s[i].mmsi == m && IsHit(s[i])
  }

  /** The rows of vessel `m` that are not direct hits. */
  function NonHitRows(s: seq<Sighting>, m: Mmsi): set<nat>
  {
    set i: nat | i < |s| && s[i].mmsi == m && !IsHit(s[i])
  }

  /** `groupby(['mmsi']).count()` over the direct hits: the hit count of `m`
      is the number of its rows at distance 0. */
  lemma {:induction false} HitCountIsSize(s: seq<Sighting>, m: Mmsi)
    ensures HitCount(s, m) == |HitRows(s, m)|
  {
    if s != [] {
      var n := |s| - 1;
      var init := s[..n];
      HitCountIsSize(init, m);
      if s[n].mmsi == m && IsHit(s[n]) {
        assert HitRows(s, m) == HitRows(init, m) + {n};
      } else {
        assert HitRows(s, m) == HitRows(init, m);
      }
    }
  }

  /** The size of the group of `m` in `ais_df[~direct_hits]`. */
  lemma {:induction false} NonHitCountIsSize(s: seq<Sighting>, m: Mmsi)
    ensures NonHitCount(s, m) == |NonHitRows(s, m)|
  {
    if s != [] {
      var n := |s| - 1;
      var init := s[..n];
      NonHitCountIsSize(init, m);
      if s[n].mmsi == m && !IsHit(s[n]) {
        assert NonHitRows(s, m) == NonHitRows(init, m) + {n};
      } else {
        assert NonHitRows(s, m) == NonHitRows(init, m);
      }
    }
  }

  /** Number of reports of vessel `m`. */
  function ReportCount(s: seq<Sighting>, m: Mmsi): (c: nat)
    ensures c == HitCount(s, m) + NonHitCount(s, m)
  {
    if s == [] then 0
    else
      var last := s[|s| - 1];
      ReportCount(s[..|s| - 1], m) + (if last.mmsi == m then 1 else 0)
  }

  /** The largest hit count among the vessels of the first `k` reports. */
  function MaxHitsOver(s: seq<Sighting>, k: nat): (r: nat)
    requires k <= |s|
    ensures forall i :: 0 <= i < k ==> HitCount(s, s[i].mmsi) <= r
    ensures k == 0 ==> r == 0
    ensures k > 0 ==> exists i :: 0 <= i < k && HitCount(s, s[i].mmsi) == r
  {
    if k == 0 then 0
    else
      var prev := MaxHitsOver(s, k - 1);
      var c := HitCount(s, s[k - 1].mmsi);
      if c > prev then c else prev
  }

  /** `hit_counts['dist'].max()` when there are hits (0 otherwise). */
  function MaxHits(s: seq<Sighting>): (r: nat)
    ensures forall i :: 0 <= i < |s| ==> HitCount(s, s[i].mmsi) <= r
    ensures s == [] ==> r == 0
  {
    MaxHitsOver(s, |s|)
  }

  /** `most_likely_mmsis`: every vessel when nothing hits the polygon,
      otherwise the vessels with the largest number of direct hits. */
  function Candidates(s: seq<Sighting>): (r: set<Mmsi>)
    ensures r <= Vessels(s)
  {
    if !AnyHit(s) then Vessels(s)
    else set m | m in Vessels(s) && HitCount(s, m) == MaxHits(s)
  }

  /** Sum of `1 / dist` over the non-hit reports of vessel `m`. */
  function InvSum(s: seq<Sighting>, m: Mmsi): (r: real)
    ensures Distances(s) ==> r >= 0.0
    ensures Distances(s) && NonHitCount(s, m) > 0 ==> r > 0.0
  {
    if s == [] then 0.0
    else
      var last := s[|s| - 1];
      assert Distances(s) ==> Distances(s[..|s| - 1]);
      InvSum(s[..|s| - 1], m) + (if last.mmsi == m && !IsHit(last) then 1.0 / last.dist else 0.0)
  }

  /** `proximity[m]`: the mean of `1 / dist` over the non-hit reports of `m`;
      absent when `m` has no such report. */
  function Proximity(s: seq<Sighting>, m: Mmsi): (p: Option<real>)
    ensures p.Some? && Distances(s) ==> p.value > 0.0
  {
    var n := NonHitCount(s, m);
    if n == 0 then None else Some(InvSum(s, m) / n as real)
  }

  /** A vessel `idxmax` may return: a candidate with a proximity value. */
  predicate Eligible(s: seq<Sighting>, m: Mmsi)
  {
    m in Candidates(s) && Proximity(s, m).Some?
  }

  /** `a` ranks at least as high as `b` for `idxmax` over the mmsi-sorted
      proximity series: higher proximity, and on a tie the smaller mmsi,
      which is the first occurrence. */
  predicate AtLeast(s: seq<Sighting>, a: Mmsi, b: Mmsi)
    requires Proximity(s, a).Some? && Proximity(s, b).Some?
  {
    var pa, pb := Proximity(s, a).value, Proximity(s, b).value;
    pa > pb || (pa == pb && a <= b)
  }

  /** Scans the vessels of reports `k..` keeping the best eligible one. */
  function Scan(s: seq<Sighting>, k: nat, best: Option<Mmsi>): (r: Option<Mmsi>)
    requires k <= |s|
    requires best.Some? ==> Eligible(s, best.value)
    ensures r.Some? ==> Eligible(s, r.value)
    ensures best.Some? ==> r.Some? && AtLeast(s, r.value, best.value)
    ensures forall i :: k <= i < |s| && Eligible(s, s[i].mmsi) ==> r.Some? && AtLeast(s, r.value, s[i].mmsi)
    decreases |s| - k
  {
    if k == |s| then best
    else
      var m := s[k].mmsi;
      var next := if Eligible(s, m) && (best.None? || !AtLeast(s, best.value, m)) then Some(m) else best;
      Scan(s, k + 1, next)
  }

  /** `closest_mmsi`: the eligible vessel of highest rank, if any. */
  function Winner(s: seq<Sighting>): (r: Option<Mmsi>)
    ensures r.Some? ==> Eligible(s, r.value)
    ensures r.Some? ==> forall m :: Eligible(s, m) ==> AtLeast(s, r.value, m)
    ensures r.None? <==> forall m :: !Eligible(s, m)
  {
    var r := Scan(s, 0, None);
    assert forall m :: Eligible(s, m) ==> exists i :: 0 <= i < |s| && s[i].mmsi == m;
    r
  }

  /** `inv = 1 / dist`, infinite for a direct hit. */
  function Inverse(d: real): Score
  {
    if d == 0.0 then Infinite else Finite(1.0 / d)
  }

  function Plus(a: Score, b: Score): Score
  {
    match (a, b)
    case (Finite(x), Finite(y)) => Finite(x + y)
    case _ => Infinite
  }

  /** Sum of the `inv` column over every report of vessel `m`. */
  function SumInverse(s: seq<Sighting>, m: Mmsi): (r: Score)
    ensures Distances(s) && r.Finite? ==> r.value >= 0.0
  {
    if s == [] then Finite(0.0)
    else
      var last := s[|s| - 1];
      assert Distances(s) ==> Distances(s[..|s| - 1]);
      if last.mmsi == m then Plus(SumInverse(s[..|s| - 1], m), Inverse(last.dist))
      else SumInverse(s[..|s| - 1], m)
  }

  /** `groupby('mmsi')['inv'].mean()[m]`: the mean over every report of `m`,
      direct hits included. */
  function MeanInverse(s: seq<Sighting>, m: Mmsi): (r: Score)
    requires ReportCount(s, m) > 0
    ensures Distances(s) && r.Finite? ==> r.value >= 0.0
  {
    match SumInverse(s, m)
    case Infinite => Infinite
    case Finite(x) => Finite(x / ReportCount(s, m) as real)
  }

  /** One pass of the loop body: the vessel the polygon goes to and its score. */
  function AttributePolygon(s: seq<Sighting>): (r: Result<(Mmsi, Score), AttributionError>)
    ensures r.Success? ==> Eligible(s, r.value.0)
  {
    match Winner(s)
    case None => Failure(NoProximity)
    case Some(w) => Success((w, MeanInverse(s, w)))
  }

  /** The step succeeds iff some candidate has a proximity value (so never
      on an empty table); the polygon then goes to the eligible vessel of
      highest rank. */
  lemma AttributionWinner(s: seq<Sighting>)
    ensures AttributePolygon(s).Success? <==> exists m :: Eligible(s, m)
    ensures AttributePolygon(s).Success? ==>
      var w := AttributePolygon(s).value.0;
      Eligible(s, w) && forall m :: Eligible(s, m) ==> AtLeast(s, w, m)
    ensures s == [] ==> AttributePolygon(s) == Failure(NoProximity)
  {
    if s == [] {
      assert Candidates(s) == {};
    }
  }

  // ---------------------------------------------------------------------
  // Candidate selection

  /** Direct hits are exactly the reports at distance 0: a vessel has a
      positive hit count iff one of its reports is a direct hit. */
  lemma {:induction false} HitCountPositive(s: seq<Sighting>, m: Mmsi)
    ensures HitCount(s, m) > 0 <==> exists i :: 0 <= i < |s| && s[i].mmsi == m && IsHit(s[i])
  {
    if s != [] {
      var init := s[..|s| - 1];
      HitCountPositive(init, m);
      if HitCount(init, m) > 0 {
        var i :| 0 <= i < |init| && init[i].mmsi == m && IsHit(init[i]);
        assert s[i] == init[i];
      }
      if exists i :: 0 <= i < |s| && s[i].mmsi == m && IsHit(s[i]) {
        var i :| 0 <= i < |s| && s[i].mmsi == m && IsHit(s[i]);
        if i < |init| { assert init[i] == s[i]; }
      }
    }
  }

  /** A vessel has a non-hit report iff its non-hit count is positive, that
      is iff it has a proximity value. */
  lemma {:induction false} NonHitCountPositive(s: seq<Sighting>, m: Mmsi)
    ensures NonHitCount(s, m) > 0 <==> exists i :: 0 <= i < |s| && s[i].mmsi == m && !IsHit(s[i])
    ensures Proximity(s, m).Some? <==> exists i :: 0 <= i < |s| && s[i].mmsi == m && !IsHit(s[i])
  {
    if s != [] {
      var init := s[..|s| - 1];
      NonHitCountPositive(init, m);
      if NonHitCount(init, m) > 0 {
        var i :| 0 <= i < |init| && init[i].mmsi == m && !IsHit(init[i]);
        assert s[i] == init[i];
      }
      if exists i :: 0 <= i < |s| && s[i].mmsi == m && !IsHit(s[i]) {
        var i :| 0 <= i < |s| && s[i].mmsi == m && !IsHit(s[i]);
        if i < |init| { assert init[i] == s[i]; }
      }
    }
  }

  /** `unique()` lists exactly the vessels with at least one report. */
  lemma VesselsPresent(s: seq<Sighting>, m: Mmsi)
    ensures m in Vessels(s) <==> ReportCount(s, m) > 0
  {
    HitCountPositive(s, m);
    NonHitCountPositive(s, m);
    if m in Vessels(s) {
      var i :| 0 <= i < |s| && s[i].mmsi == m;
      assert IsHit(s[i]) || !IsHit(s[i]);
    }
  }

  lemma HitsBounded(s: seq<Sighting>, v: Mmsi)
    ensures HitCount(s, v) <= MaxHits(s)
  {
    HitCountPositive(s, v);
    if HitCount(s, v) > 0 {
      var i :| 0 <= i < |s| && s[i].mmsi == v && IsHit(s[i]);
      assert HitCount(s, s[i].mmsi) <= MaxHitsOver(s, |s|);
    }
  }

  lemma MaxHitsPositive(s: seq<Sighting>)
    requires AnyHit(s)
    ensures MaxHits(s) >= 1
  {
    var h :| 0 <= h < |s| && IsHit(s[h]);
    HitCountPositive(s, s[h].mmsi);
    HitsBounded(s, s[h].mmsi);
  }

  /** Vessel `m` hits the polygon and no vessel hits it more often. */
  ghost predicate MostHits(s: seq<Sighting>, m: Mmsi)
  {
    HitCount(s, m) >= 1 && forall v :: HitCount(s, v) <= HitCount(s, m)
  }

  lemma CandidateHasMostHits(s: seq<Sighting>, m: Mmsi)
    requires AnyHit(s) && m in Candidates(s)
    ensures MostHits(s, m)
  {
    MaxHitsPositive(s);
    assert HitCount(s, m) == MaxHits(s);
    forall v ensures HitCount(s, v) <= HitCount(s, m) {
      HitsBounded(s, v);
    }
  }

  lemma MostHitsIsCandidate(s: seq<Sighting>, m: Mmsi)
    requires AnyHit(s) && MostHits(s, m)
    ensures m in Candidates(s)
  {
    HitsBounded(s, m);
    var i :| 0 <= i < |s| && HitCount(s, s[i].mmsi) == MaxHits(s);
    assert HitCount(s, s[i].mmsi) <= HitCount(s, m);
    HitCountPositive(s, m);
    var j :| 0 <= j < |s| && s[j].mmsi == m && IsHit(s[j]);
    assert m in Vessels(s);
  }

  /** With no direct hit every vessel present is a candidate; otherwise the
      candidates are exactly the vessels with at least one hit and no fewer
      hits than any other vessel. */
  lemma CandidateSelection(s: seq<Sighting>)
    ensures !AnyHit(s) ==> Candidates(s) == Vessels(s)
    ensures AnyHit(s) ==> forall m :: m in Candidates(s) <==> MostHits(s, m)
    ensures s != [] ==> Candidates(s) != {}
  {
    if s != [] {
      var i :| 0 <= i < |s| && HitCount(s, s[i].mmsi) == MaxHits(s);
      assert s[i].mmsi in Vessels(s);
      assert s[i].mmsi in Candidates(s);
    }
    if AnyHit(s) {
      forall m ensures m in Candidates(s) <==> MostHits(s, m) {
        if m in Candidates(s) {
          CandidateHasMostHits(s, m);
        }
        if MostHits(s, m) {
          MostHitsIsCandidate(s, m);
        }
      }
    }
  }

  // ---------------------------------------------------------------------
  // Score

  lemma {:induction false} SumInverseCases(s: seq<Sighting>, m: Mmsi)
    ensures SumInverse(s, m) == Infinite <==> HitCount(s, m) > 0
    ensures HitCount(s, m) == 0 ==> SumInverse(s, m) == Finite(InvSum(s, m))
  {
    if s != [] {
      SumInverseCases(s[..|s| - 1], m);
    }
  }

  /** The mean over all of a vessel's reports is infinite exactly when one of
      them is a direct hit; otherwise it is the vessel's proximity. */
  lemma MeanInverseCases(s: seq<Sighting>, m: Mmsi)
    requires ReportCount(s, m) > 0
    ensures MeanInverse(s, m) == Infinite <==> HitCount(s, m) > 0
    ensures HitCount(s, m) == 0 ==>
      Proximity(s, m).Some? && MeanInverse(s, m) == Finite(Proximity(s, m).value)
  {
    SumInverseCases(s, m);
    if HitCount(s, m) == 0 {
      var n := NonHitCount(s, m);
      assert ReportCount(s, m) == n;
      assert Proximity(s, m) == Some(InvSum(s, m) / n as real);
    }
  }

  /** The score recorded for a polygon: infinite exactly when the polygon has
      a direct hit (the winner is then among the vessels with most hits),
      and otherwise the winner's proximity, which is positive. */
  lemma AttributionScore(s: seq<Sighting>)
    requires AttributePolygon(s).Success?
    ensures var (w, score) := AttributePolygon(s).value;
      && score == MeanInverse(s, w)
      && (AnyHit(s) ==> score == Infinite && MostHits(s, w))
      && (!AnyHit(s) ==> score == Finite(Proximity(s, w).value))
      && (!AnyHit(s) && Distances(s) ==> score.value > 0.0)
  {
    AttributionWinner(s);
    var w := AttributePolygon(s).value.0;
    assert Proximity(s, w).Some?;
    MeanInverseCases(s, w);
    if AnyHit(s) {
      CandidateHasMostHits(s, w);
    } else {
      HitCountPositive(s, w);
    }
  }

  // ---------------------------------------------------------------------
  // Consequences of the rule

  /** A vessel with strictly more direct hits than every other vessel wins
      with an infinite score, provided it also has a report outside the
      polygon; if all its reports are direct hits it has no proximity value
      and the step fails. */
  lemma DirectHitDominance(s: seq<Sighting>, a: Mmsi)
    requires forall v :: v != a ==> HitCount(s, v) < HitCount(s, a)
    ensures Proximity(s, a).Some? ==> AttributePolygon(s) == Success((a, Infinite))
    ensures Proximity(s, a).None? ==> AttributePolygon(s) == Failure(NoProximity)
  {
    assert HitCount(s, a + 1) < HitCount(s, a);
    HitCountPositive(s, a);
    assert AnyHit(s);
    MostHitsIsCandidate(s, a);
    forall m | m in Candidates(s) ensures m == a {
      CandidateHasMostHits(s, m);
    }
    if Proximity(s, a).Some? {
      assert Eligible(s, a);
      AttributionScore(s);
    }
  }

  /** With no direct hit and at least one report, the polygon goes to the
      vessel of highest proximity among all vessels present, and its score is
      that proximity. */
  lemma NoHitFallback(s: seq<Sighting>)
    requires !AnyHit(s) && s != []
    ensures AttributePolygon(s).Success?
    ensures var (w, score) := AttributePolygon(s).value;
      && w in Vessels(s)
      && (forall m :: m in Vessels(s) ==> Proximity(s, m).Some? && AtLeast(s, w, m))
      && score == Finite(Proximity(s, w).value)
  {
    CandidateSelection(s);
    forall m | m in Vessels(s) ensures Proximity(s, m).Some? {
      var i :| 0 <= i < |s| && s[i].mmsi == m;
      NonHitCountPositive(s, m);
    }
    assert Eligible(s, s[0].mmsi);
    AttributionScore(s);
  }

  // ---------------------------------------------------------------------
  // Moving a report closer

  lemma InverseAntitone(d: real, e: real)
    requires 0.0 < d <= e
    ensures 1.0 / d >= 1.0 / e
  {
    assert 1.0 / d - 1.0 / e == (e - d) / (d * e);
  }

  lemma DivMonotone(a: real, b: real, n: real)
    requires a <= b && n > 0.0
    ensures a / n <= b / n
  {
    assert b / n - a / n == (b - a) / n;
  }

  lemma {:induction false} CloserUpdate(s: seq<Sighting>, i: nat, d: real, m: Mmsi)
    requires i < |s| && !IsHit(s[i]) && d != 0.0
    ensures var t := s[i := Sighting(s[i].mmsi, d)];
      && HitCount(t, m) == HitCount(s, m)
      && NonHitCount(t, m) == NonHitCount(s, m)
      && InvSum(t, m) == InvSum(s, m) + (if s[i].mmsi == m then 1.0 / d - 1.0 / s[i].dist else 0.0)
  {
    var t := s[i := Sighting(s[i].mmsi, d)];
    var init := s[..|s| - 1];
    if i == |s| - 1 {
      assert t[..|t| - 1] == init;
    } else {
      assert t[..|t| - 1] == init[i := Sighting(s[i].mmsi, d)];
      CloserUpdate(init, i, d, m);
    }
  }

  /** Moving a non-hit report of a vessel closer to the polygon, without
      reaching it, leaves every hit count and every other vessel's proximity
      as they were and never lowers that vessel's proximity. */
  lemma ProximityMonotone(s: seq<Sighting>, i: nat, d: real)
    requires Distances(s) && i < |s| && !IsHit(s[i]) && 0.0 < d <= s[i].dist
    ensures var t := s[i := Sighting(s[i].mmsi, d)];
      && (forall m :: HitCount(t, m) == HitCount(s, m))
      && Proximity(t, s[i].mmsi).Some? && Proximity(s, s[i].mmsi).Some?
      && Proximity(t, s[i].mmsi).value >= Proximity(s, s[i].mmsi).value
      && (forall m :: m != s[i].mmsi ==> Proximity(t, m) == Proximity(s, m))
  {
    var t := s[i := Sighting(s[i].mmsi, d)];
    var a := s[i].mmsi;
    forall m ensures HitCount(t, m) == HitCount(s, m) && NonHitCount(t, m) == NonHitCount(s, m)
      && InvSum(t, m) == InvSum(s, m) + (if a == m then 1.0 / d - 1.0 / s[i].dist else 0.0)
    {
      CloserUpdate(s, i, d, m);
    }
    NonHitCountPositive(s, a);
    InverseAntitone(d, s[i].dist);
    DivMonotone(InvSum(s, a), InvSum(t, a), NonHitCount(s, a) as real);
  }

  lemma {:induction false} MaxHitsOverSame(s: seq<Sighting>, t: seq<Sighting>, k: nat)
    requires k <= |s| == |t|
    requires forall j :: 0 <= j < |s| ==> t[j].mmsi == s[j].mmsi
    requires forall m :: HitCount(t, m) == HitCount(s, m)
    ensures MaxHitsOver(t, k) == MaxHitsOver(s, k)
  {
    if k > 0 {
      MaxHitsOverSame(s, t, k - 1);
      assert HitCount(t, t[k - 1].mmsi) == HitCount(s, s[k - 1].mmsi);
    }
  }

  /** Two tables with the same vessels row by row, the same direct hits
      and the same hit counts have the same candidates. */
  lemma SameHitsSameCandidates(s: seq<Sighting>, t: seq<Sighting>)
    requires |t| == |s|
    requires forall j :: 0 <= j < |s| ==> t[j].mmsi == s[j].mmsi && (IsHit(t[j]) <==> IsHit(s[j]))
    requires forall m :: HitCount(t, m) == HitCount(s, m)
    ensures AnyHit(t) == AnyHit(s)
    ensures Candidates(t) == Candidates(s)
  {
    assert AnyHit(t) <==> AnyHit(s) by {
      if AnyHit(s) {
        var j :| 0 <= j < |s| && IsHit(s[j]);
        assert IsHit(t[j]);
      }
      if AnyHit(t) {
        var j :| 0 <= j < |t| && IsHit(t[j]);
        assert IsHit(s[j]);
      }
    }
    assert Vessels(t) == Vessels(s);
    MaxHitsOverSame(s, t, |s|);
  }

  /** The consequence for the attribution: if the polygon went to the
      vessel whose report is moved closer, it still goes to that vessel, with
      the same infinite score when the polygon has a hit and a score no lower
      otherwise. */
  lemma CloserWinnerStays(s: seq<Sighting>, i: nat, d: real)
    requires Distances(s) && i < |s| && !IsHit(s[i]) && 0.0 < d <= s[i].dist
    requires AttributePolygon(s).Success? && AttributePolygon(s).value.0 == s[i].mmsi
    ensures var t := s[i := Sighting(s[i].mmsi, d)];
      && AttributePolygon(t).Success? && AttributePolygon(t).value.0 == s[i].mmsi
      && (AnyHit(s) ==> AttributePolygon(t).value.1 == AttributePolygon(s).value.1 == Infinite)
      && (!AnyHit(s) ==>
            AttributePolygon(t).value.1.Finite? && AttributePolygon(s).value.1.Finite? &&
            AttributePolygon(t).value.1.value >= AttributePolygon(s).value.1.value)
  {
    var t := s[i := Sighting(s[i].mmsi, d)];
    var a := s[i].mmsi;
    ProximityMonotone(s, i, d);
    SameHitsSameCandidates(s, t);
    assert Distances(t);
    assert Eligible(t, a);
    AttributionWinner(s);
    AttributionWinner(t);
    var w := AttributePolygon(t).value.0;
    if w != a {
      assert Proximity(t, w) == Proximity(s, w);
      assert Eligible(s, w);
      assert false;
    }
    AttributionScore(s);
    AttributionScore(t);
  }
}
