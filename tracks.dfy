/** The report table after `sort_values('timestamp')`, and the per-vessel
    track that `record_coincidents` turns into a line. */
module Tracks {
  import opened Attribution

  /** One AIS position report; `timestamp` is in integer seconds. */
  datatype AisReport = AisReport(mmsi: Mmsi, timestamp: int, lon: real, lat: real)

  predicate SortedByTime(s: seq<AisReport>)
  {
    forall i, j :: 0 <= i < j < |s| ==> s[i].timestamp <= s[j].timestamp
  }

  /** Inserts `x` before the first report that is not earlier than it. */
  function Insert(x: AisReport, s: seq<AisReport>): (r: seq<AisReport>)
    requires SortedByTime(s)
    ensures SortedByTime(r)
    ensures multiset(r) == multiset(s) + multiset{x}
    ensures forall y :: y in r ==> y == x || y in s
  {
    if s == [] then [x]
    else if x.timestamp <= s[0].timestamp then [x] + s
    else
      var rest := Insert(x, s[1..]);
      assert s == [s[0]] + s[1..];
      assert forall y :: y in rest ==> y.timestamp >= s[0].timestamp;
      SortedCons(s[0], rest);
      [s[0]] + rest
  }

  lemma SortedCons(a: AisReport, t: seq<AisReport>)
    requires SortedByTime(t)
    requires forall y :: y in t ==> a.timestamp <= y.timestamp
    ensures SortedByTime([a] + t)
  {
    forall i, j | 0 <= i < j < |[a] + t|
      ensures ([a] + t)[i].timestamp <= ([a] + t)[j].timestamp
    {
      if i > 0 {
        assert ([a] + t)[i] == t[i - 1];
      }
      assert ([a] + t)[j] == t[j - 1];
      assert t[j - 1] in t;
    }
  }

  /** `sort_values('timestamp')`: the reports reordered by timestamp. */
  function SortByTimestamp(s: seq<AisReport>): (r: seq<AisReport>)
    ensures SortedByTime(r)
    ensures multiset(r) == multiset(s)
  {
    if s == [] then []
    else
      assert s == [s[0]] + s[1..];
      Insert(s[0], SortByTimestamp(s[1..]))
  }

  /** `ais_df[ais_df['mmsi'] == m]`: the reports of vessel `m`, in table order. */
  function Track(s: seq<AisReport>, m: Mmsi): (r: seq<AisReport>)
    ensures forall i :: 0 <= i < |r| ==> r[i].mmsi == m
  {
    if s == [] then []
    else
      var rest := Track(s[1..], m);
      if s[0].mmsi == m then [s[0]] + rest else rest
  }

  /** A track is a subsequence: each of its reports is a report of the table. */
  lemma {:induction false} TrackMembers(s: seq<AisReport>, m: Mmsi)
    ensures forall y :: y in Track(s, m) ==> y in s
  {
    if s != [] {
      TrackMembers(s[1..], m);
    }
  }

  /** The track of a timestamp-sorted table is sorted by timestamp. */
  lemma {:induction false} TrackSorted(s: seq<AisReport>, m: Mmsi)
    requires SortedByTime(s)
    ensures SortedByTime(Track(s, m))
  {
    if s != [] {
      TrackSorted(s[1..], m);
      TrackMembers(s[1..], m);
      assert forall y :: y in s[1..] ==> s[0].timestamp <= y.timestamp;
    }
  }

  /** The track holds every report of vessel `m` as often as the table does,
      and nothing else. */
  lemma {:induction false} TrackExact(s: seq<AisReport>, m: Mmsi)
    ensures forall y :: multiset(Track(s, m))[y] == if y.mmsi == m then multiset(s)[y] else 0
  {
    if s != [] {
      TrackExact(s[1..], m);
      assert s == [s[0]] + s[1..];
    }
  }
}
