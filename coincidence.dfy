/** The loop of `find_coincidents` over the sub-polygons of the slick, seen
    as a fold of the per-polygon outcomes into the `coincidents` dictionary,
    and the per-vessel slick that `record_coincidents` assembles from it. */
module Coincidence {
  import opened Wrappers
  import opened Attribution

  /** `(poly_id, score)` as appended at line 130. */
  type Entry = (nat, Score)

  type Coincidents = map<Mmsi, seq<Entry>>

  /** What one pass of the loop body yields for one polygon. */
  type Outcome = Result<(Mmsi, Score), AttributionError>

  /** The dictionary after the loop, and the polygon whose step raised, if any. */
  datatype Run = Run(coincidents: Coincidents, failure: Option<(nat, AttributionError)>)

  /** `coincidents.setdefault(key, []).append(e)`: one more entry under `key`,
      every other key untouched. */
  function Record(m: Coincidents, key: Mmsi, e: Entry): (r: Coincidents)
    ensures key in r && r[key] == (if key in m then m[key] else []) + [e]
    ensures forall v :: v != key ==> (v in r <==> v in m)
    ensures forall v :: v != key && v in m ==> r[v] == m[v]
  {
    m[key := (if key in m then m[key] else []) + [e]]
  }

  /** The loop over `outs`, polygon `p` having outcome `outs[p]`; the first
      failing polygon stops it, leaving what was recorded before. */
  function Collect(outs: seq<Outcome>): (r: Run)
    ensures r.failure.Some? ==> r.failure.value.0 < |outs| && outs[r.failure.value.0].Failure?
  {
    if outs == [] then Run(map[], None)
    else
      var p := |outs| - 1;
      var prev := Collect(outs[..p]);
      if prev.failure.Some? then prev
      else
        match outs[p]
        case Success((w, score)) => Run(Record(prev.coincidents, w, (p, score)), None)
        case Failure(e) => Run(prev.coincidents, Some((p, e)))
  }

  predicate AllSucceed(outs: seq<Outcome>)
  {
    forall p :: 0 <= p < |outs| ==> outs[p].Success?
  }

  /** The loop completes iff every polygon is attributed; otherwise it stops
      at the first polygon whose step fails, with the dictionary built from
      the polygons before it. */
  lemma {:induction false} CollectFailure(outs: seq<Outcome>)
    ensures Collect(outs).failure.None? <==> AllSucceed(outs)
    ensures Collect(outs).failure.Some? ==>
      var (p, e) := Collect(outs).failure.value;
      && p < |outs| && outs[p] == Failure(e)
      && AllSucceed(outs[..p])
      && Collect(outs[..p]) == Run(Collect(outs).coincidents, None)
  {
    if outs != [] {
      var p := |outs| - 1;
      CollectFailure(outs[..p]);
      var prev := Collect(outs[..p]);
      if prev.failure.Some? {
        var q := prev.failure.value.0;
        assert outs[..p][..q] == outs[..q];
      } else {
        assert outs[..p] == outs[..|outs| - 1];
      }
    }
  }

  /** The loop after `k` successful polygons takes one more step. */
  lemma CollectNext(outs: seq<Outcome>, k: nat)
    requires k < |outs| && Collect(outs[..k]).failure.None?
    ensures AllSucceed(outs[..k]) && outs[k].Success? ==> AllSucceed(outs[..k + 1])
    ensures Collect(outs[..k + 1]) ==
      match outs[k]
      case Success((w, score)) => Run(Record(Collect(outs[..k]).coincidents, w, (k, score)), None)
      case Failure(e) => Run(Collect(outs[..k]).coincidents, Some((k, e)))
  {
    assert outs[..k + 1][..k] == outs[..k];
  }

  /** A loop over a single successful polygon records just its entry. */
  lemma CollectOne(outs: seq<Outcome>)
    requires |outs| == 1 && outs[0].Success?
    ensures Collect(outs) == Run(map[outs[0].value.0 := [(0, outs[0].value.1)]], None)
  {
    assert outs[..0] == [];
    var empty: Coincidents := map[];
    var e: Entry := (0, outs[0].value.1);
    assert Collect(outs[..0]) == Run(empty, None);
    assert [] + [e] == [e];
    assert Record(empty, outs[0].value.0, e) == map[outs[0].value.0 := [e]];
  }

  /** Once the loop has stopped, later polygons change nothing. */
  lemma {:induction false} CollectStops(outs: seq<Outcome>, k: nat)
    requires k <= |outs| && Collect(outs[..k]).failure.Some?
    ensures Collect(outs) == Collect(outs[..k])
  {
    if k < |outs| {
      var p := |outs| - 1;
      assert outs[..p][..k] == outs[..k];
      CollectStops(outs[..p], k);
    } else {
      assert outs[..k] == outs;
    }
  }

  /** Every recorded entry is a polygon of the run, filed under the vessel the
      polygon was attributed to, with its score. */
  ghost predicate Sound(outs: seq<Outcome>, m: Coincidents)
  {
    forall v, j :: v in m && 0 <= j < |m[v]| ==>
      m[v][j].0 < |outs| && outs[m[v][j].0] == Success((v, m[v][j].1))
  }

  /** Every attributed polygon is recorded under its vessel. */
  ghost predicate Complete(outs: seq<Outcome>, m: Coincidents)
    requires AllSucceed(outs)
  {
    forall p :: 0 <= p < |outs| ==> outs[p].value.0 in m && (p, outs[p].value.1) in m[outs[p].value.0]
  }

  /** Each vessel's list holds its polygon ids in increasing order. */
  ghost predicate Increasing(m: Coincidents)
  {
    forall v, i, j :: v in m && 0 <= i < j < |m[v]| ==> m[v][i].0 < m[v][j].0
  }

  /** One more successful polygon: the new dictionary is the old one with
      the entry appended under its vessel. */
  lemma CollectStep(outs: seq<Outcome>)
    requires outs != [] && AllSucceed(outs)
    ensures AllSucceed(outs[..|outs| - 1])
    ensures Collect(outs[..|outs| - 1]).failure.None?
    ensures Collect(outs) == Run(Record(Collect(outs[..|outs| - 1]).coincidents,
      outs[|outs| - 1].value.0, (|outs| - 1, outs[|outs| - 1].value.1)), None)
  {
    assert AllSucceed(outs[..|outs| - 1]);
    CollectFailure(outs[..|outs| - 1]);
  }

  lemma {:induction false} CollectSound(outs: seq<Outcome>)
    requires AllSucceed(outs)
    ensures Sound(outs, Collect(outs).coincidents)
  {
    if outs != [] {
      var p := |outs| - 1;
      var init := outs[..p];
      CollectStep(outs);
      CollectSound(init);
      var prev: Coincidents := Collect(init).coincidents;
      var w := outs[p].value.0;
      var m: Coincidents := Collect(outs).coincidents;
      forall v: Mmsi, j: int | v in m && 0 <= j < |m[v]|
        ensures m[v][j].0 < |outs| && outs[m[v][j].0] == Success((v, m[v][j].1))
      {
        if v != w || j < |m[v]| - 1 {
          assert m[v][j] == prev[v][j];
          assert outs[m[v][j].0] == init[m[v][j].0];
        }
      }
    }
  }

  /** Every recorded polygon id is a polygon of the run, whether the loop
      completed or stopped at a failure. */
  lemma CollectInRange(outs: seq<Outcome>)
    ensures var m := Collect(outs).coincidents;
      forall v, j :: v in m && 0 <= j < |m[v]| ==> m[v][j].0 < |outs|
  {
    var run := Collect(outs);
    CollectFailure(outs);
    if run.failure.None? {
      CollectSound(outs);
    } else {
      CollectSound(outs[..run.failure.value.0]);
    }
  }

  lemma {:induction false} CollectComplete(outs: seq<Outcome>)
    requires AllSucceed(outs)
    ensures Complete(outs, Collect(outs).coincidents)
  {
    if outs != [] {
      var p := |outs| - 1;
      var init := outs[..p];
      CollectStep(outs);
      CollectComplete(init);
      var prev: Coincidents := Collect(init).coincidents;
      var w := outs[p].value.0;
      var m: Coincidents := Collect(outs).coincidents;
      forall q | 0 <= q < |outs|
        ensures outs[q].value.0 in m && (q, outs[q].value.1) in m[outs[q].value.0]
      {
        if q < p {
          assert outs[q] == init[q];
          var u := outs[q].value.0;
          var j :| 0 <= j < |prev[u]| && prev[u][j] == (q, outs[q].value.1);
          assert m[u][j] == prev[u][j];
        } else {
          assert m[w][|m[w]| - 1] == (p, outs[p].value.1);
        }
      }
    }
  }

  lemma {:induction false} CollectIncreasing(outs: seq<Outcome>)
    requires AllSucceed(outs)
    ensures Increasing(Collect(outs).coincidents)
    ensures forall v :: v in Collect(outs).coincidents ==> |Collect(outs).coincidents[v]| > 0
  {
    if outs != [] {
      var p := |outs| - 1;
      var init := outs[..p];
      CollectStep(outs);
      CollectIncreasing(init);
      CollectSound(init);
      var prev: Coincidents := Collect(init).coincidents;
      assert forall v, j :: v in prev && 0 <= j < |prev[v]| ==> prev[v][j].0 < p;
    }
  }

  /** After a complete loop the dictionary assigns the polygons `0..n-1`
      totally and disjointly: each is recorded under the vessel it was
      attributed to, with its score; nothing else is recorded; the ids of a
      list increase; and only vessels that won a polygon are keys. */
  lemma CollectAssignment(outs: seq<Outcome>)
    requires AllSucceed(outs)
    ensures var m := Collect(outs).coincidents;
      && Collect(outs).failure.None?
      && Sound(outs, m) && Complete(outs, m) && Increasing(m)
      && (forall v :: v in m ==> |m[v]| > 0)
  {
    CollectFailure(outs);
    CollectSound(outs);
    CollectComplete(outs);
    CollectIncreasing(outs);
  }

  /** Every polygon id occurs exactly once in the whole dictionary: two
      occurrences of the same id are the same position of the same list. */
  lemma AssignedOnce(outs: seq<Outcome>, v: Mmsi, i: nat, u: Mmsi, j: nat)
    requires AllSucceed(outs)
    requires var m: Coincidents := Collect(outs).coincidents;
      v in m && u in m && i < |m[v]| && j < |m[u]| && m[v][i].0 == m[u][j].0
    ensures v == u && i == j
  {
    CollectAssignment(outs);
    var m: Coincidents := Collect(outs).coincidents;
    assert outs[m[v][i].0] == Success((v, m[v][i].1));
    assert outs[m[u][j].0] == Success((u, m[u][j].1));
  }

  /** The polygon ids of a vessel's list. */
  function PolyIds(entries: seq<Entry>): (r: seq<nat>)
    ensures |r| == |entries|
    ensures forall j :: 0 <= j < |r| ==> r[j] == entries[j].0
  {
    seq(|entries|, j requires 0 <= j < |entries| => entries[j].0)
  }

  /** `MultiPolygon([parts[poly_id[0]] for poly_id in entries])`: the
      sub-polygons whose ids are listed, in the order listed. */
  function SlickOf<P>(parts: seq<P>, entries: seq<Entry>): (r: seq<P>)
    requires forall j :: 0 <= j < |entries| ==> entries[j].0 < |parts|
    ensures |r| == |entries|
  {
    seq(|entries|, j requires 0 <= j < |entries| => parts[entries[j].0])
  }

  /** After a complete loop over the parts of a slick, a vessel's aggregate
      slick is made of exactly the sub-polygons attributed to it, each once,
      in increasing id order. */
  lemma SlickOfWinner<P>(parts: seq<P>, outs: seq<Outcome>, v: Mmsi)
    requires |outs| == |parts| && AllSucceed(outs)
    requires v in Collect(outs).coincidents
    ensures var entries := Collect(outs).coincidents[v];
      && (forall j :: 0 <= j < |entries| ==> entries[j].0 < |parts|)
      && (forall p :: p in PolyIds(entries) <==> 0 <= p < |outs| && outs[p].value.0 == v)
      && (forall j :: 0 <= j < |entries| ==> SlickOf(parts, entries)[j] == parts[PolyIds(entries)[j]])
      && (forall i, j :: 0 <= i < j < |entries| ==> PolyIds(entries)[i] < PolyIds(entries)[j])
  {
    CollectAssignment(outs);
    var entries := Collect(outs).coincidents[v];
    forall p ensures p in PolyIds(entries) <==> 0 <= p < |outs| && outs[p].value.0 == v {
      if 0 <= p < |outs| && outs[p].value.0 == v {
        var j :| 0 <= j < |entries| && entries[j] == (p, outs[p].value.1);
        assert PolyIds(entries)[j] == p;
      }
    }
  }
}
