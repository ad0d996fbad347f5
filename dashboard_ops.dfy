/** The Python post-processing of `DashboardOpsService`: it shapes the rows the queue-item
    queries return into the snapshot, the created/completed trend and the status
    distribution. The rows are inputs; the SQL that produces them is not part of the model. */
module DashboardOps {
  import opened Wrappers
  import opened Percent

  // ---- The date range ----------------------------------------------------------------------

  /** `_get_date_range`: a missing or empty start becomes the fixed epoch of the dashboard, a
      missing or empty end becomes `now`, the wall clock formatted by the caller. */
  function DateRange(start: Option<string>, end: Option<string>, now: string): (r: (string, string))
    ensures start.Some? && start.value != "" ==> r.0 == start.value
    ensures !(start.Some? && start.value != "") ==> r.0 == "2000-01-01 00:00:00"
    ensures end.Some? && end.value != "" ==> r.1 == end.value
    ensures !(end.Some? && end.value != "") ==> r.1 == now
  {
    (if start.Some? && start.value != "" then start.value else "2000-01-01 00:00:00",
     if end.Some? && end.value != "" then end.value else now)
  }

  /** A range that has been filled in is kept as it is, whatever the clock says. */
  lemma DateRangeIdempotent(start: Option<string>, end: Option<string>, now: string, later: string)
    requires now != ""
    ensures var r := DateRange(start, end, now);
            DateRange(Some(r.0), Some(r.1), later) == r
  {
  }

  // ---- The volume snapshot -----------------------------------------------------------------

  /** One row of `SELECT status, COUNT(*)`. */
  datatype StatusCount = StatusCount(status: string, count: nat)

  const TotalKey: string := "Total Queue Items"

  /** The keys the snapshot starts with, all at 0. */
  const SnapshotKeys: set<string> :=
    {"Total Queue Items", "New", "In Progress", "Successful", "Failed", "Abandoned", "Retried", "Deleted"}

  /** The one status the snapshot renames. */
  function Normalised(status: string): string {
    if status == "InProgress" then "In Progress" else status
  }

  /** The sum of the row counts. */
  function Total(rows: seq<StatusCount>): nat {
    if rows == [] then 0 else Total(rows[..|rows| - 1]) + rows[|rows| - 1].count
  }

  /** The count of the last row whose normalised status is `key`, or 0 when there is none. */
  function LastCount(rows: seq<StatusCount>, key: string): nat {
    if rows == [] then 0
    else if Normalised(rows[|rows| - 1].status) == key then rows[|rows| - 1].count
    else LastCount(rows[..|rows| - 1], key)
  }

  /** The normalised statuses of the rows. */
  function Statuses(rows: seq<StatusCount>): set<string> {
    if rows == [] then {} else Statuses(rows[..|rows| - 1]) + {Normalised(rows[|rows| - 1].status)}
  }

  lemma {:induction false} StatusesOfRows(rows: seq<StatusCount>, k: string)
    ensures k in Statuses(rows) <==> exists i | 0 <= i < |rows| :: Normalised(rows[i].status) == k
  {
    if rows != [] {
      var init := rows[..|rows| - 1];
      StatusesOfRows(init, k);
      if k in Statuses(init) {
        var i :| 0 <= i < |init| && Normalised(init[i].status) == k;
        assert rows[i] == init[i];
      }
      if i :| 0 <= i < |rows| - 1 && Normalised(rows[i].status) == k {
        assert init[i] == rows[i];
      }
    }
  }

  /** The last row of a status decides its count: any later row of another status leaves
      it alone. */
  lemma {:induction false} LastCountIsLast(rows: seq<StatusCount>, i: nat)
    requires i < |rows|
    requires forall j | i < j < |rows| :: Normalised(rows[j].status) != Normalised(rows[i].status)
    ensures LastCount(rows, Normalised(rows[i].status)) == rows[i].count
    decreases |rows|
  {
    if i < |rows| - 1 {
      LastCountIsLast(rows[..|rows| - 1], i);
    }
  }

  /** The counts of distinct statuses never add up to more than the total. */
  lemma {:induction false} LastCountsBounded(rows: seq<StatusCount>, a: string, b: string)
    requires a != b
    ensures LastCount(rows, a) + LastCount(rows, b) <= Total(rows)
    decreases |rows|
  {
    if rows != [] {
      LastCountsBounded(rows[..|rows| - 1], a, b);
    }
  }

  /** `get_queue_volume_snapshot`'s loop: every status seen gets a key (InProgress under
      "In Progress"), assigned the count of its last row, so a repeated status keeps only
      one count; the total is the sum of all counts, whatever their status. */
  method VolumeSnapshot(rows: seq<StatusCount>) returns (stats: map<string, nat>)
    ensures stats.Keys == SnapshotKeys + Statuses(rows)
    ensures stats[TotalKey] == Total(rows)
    ensures forall k | k in stats && k != TotalKey :: stats[k] == LastCount(rows, k)
  {
    stats := map k | k in SnapshotKeys :: 0;
    var total := 0;
    var i := 0;
    while i < |rows|
      invariant 0 <= i <= |rows|
      invariant stats.Keys == SnapshotKeys + Statuses(rows[..i])
      invariant total == Total(rows[..i])
      invariant forall k | k in stats && k != TotalKey :: stats[k] == LastCount(rows[..i], k)
    {
      assert rows[..i + 1][..i] == rows[..i];
      var status := rows[i].status;
      if status == "InProgress" {
        status := "In Progress";
      }
      assert status == Normalised(rows[i].status);
      stats := stats[status := rows[i].count];
      total := total + rows[i].count;
      i := i + 1;
    }
    assert rows[..i] == rows;
    stats := stats[TotalKey := total];
  }

  // ---- The trend ---------------------------------------------------------------------------

  /** One row of `SELECT DATE_FORMAT(...) as time_bucket, COUNT(*)`. */
  datatype BucketCount = BucketCount(bucket: string, count: int)

  /** One `{"time_bucket": ..., "count": ...}` entry of the trend lists. */
  datatype Point = Point(timeBucket: string, count: int)

  datatype Trend = Trend(created: seq<Point>, completed: seq<Point>, backlog: seq<Point>)

  /** Python's `<` on strings: code point by code point, a proper prefix first. */
  predicate Less(a: string, b: string) {
    if a == [] then b != []
    else if b == [] then false
    else a[0] < b[0] || (a[0] == b[0] && Less(a[1..], b[1..]))
  }

  lemma {:induction false} LessIrreflexive(a: string)
    ensures !Less(a, a)
  {
    if a != [] {
      LessIrreflexive(a[1..]);
    }
  }

  lemma {:induction false} LessTransitive(a: string, b: string, c: string)
    requires Less(a, b) && Less(b, c)
    ensures Less(a, c)
  {
    if a != [] && a[0] == b[0] && b[0] == c[0] {
      LessTransitive(a[1..], b[1..], c[1..]);
    }
  }

  lemma {:induction false} LessTotal(a: string, b: string)
    requires a != b
    ensures Less(a, b) || Less(b, a)
  {
    if a != [] && b != [] && a[0] == b[0] {
      assert a == [a[0]] + a[1..] && b == [b[0]] + b[1..];
      LessTotal(a[1..], b[1..]);
    }
  }

  predicate StrictlySorted(s: seq<string>) {
    forall i, j | 0 <= i < j < |s| :: Less(s[i], s[j])
  }

  function Elements(s: seq<string>): set<string> {
    set x | x in s
  }

  /** Insert `x` into a strictly sorted list unless it is already there. */
  function Insert(x: string, s: seq<string>): (r: seq<string>)
    requires StrictlySorted(s)
    ensures StrictlySorted(r)
    ensures Elements(r) == Elements(s) + {x}
  {
    if s == [] then [x]
    else if x == s[0] then s
    else if Less(x, s[0]) then
      assert forall j | 0 < j < |s| :: Less(x, s[j]) by {
        forall j | 0 < j < |s| ensures Less(x, s[j]) {
          LessTransitive(x, s[0], s[j]);
        }
      }
      assert Elements([x] + s) == Elements(s) + {x} by {
        assert forall y | y in [x] + s :: y == x || y in s;
      }
      [x] + s
    else
      LessTotal(x, s[0]);
      var rest := Insert(x, s[1..]);
      forall y | y in rest
        ensures Less(s[0], y)
      {
        assert y in Elements(rest);
        if y != x {
          var j :| 0 <= j < |s[1..]| && s[1..][j] == y;
          assert s[j + 1] == y;
        }
      }
      assert Elements(s) == {s[0]} + Elements(s[1..]) by {
        assert forall y | y in s :: y == s[0] || y in s[1..];
      }
      assert Elements([s[0]] + rest) == {s[0]} + Elements(rest) by {
        assert forall y | y in [s[0]] + rest :: y == s[0] || y in rest;
      }
      [s[0]] + rest
  }

  /** `sorted(set(xs))`: the distinct values of `xs` in ascending order. */
  function SortedSet(xs: seq<string>): (r: seq<string>)
    ensures StrictlySorted(r)
    ensures Elements(r) == Elements(xs)
  {
    if xs == [] then []
    else
      var r := Insert(xs[|xs| - 1], SortedSet(xs[..|xs| - 1]));
      assert Elements(xs) == Elements(xs[..|xs| - 1]) + {xs[|xs| - 1]} by {
        assert xs == xs[..|xs| - 1] + [xs[|xs| - 1]];
        assert forall y | y in xs :: y in xs[..|xs| - 1] || y == xs[|xs| - 1];
      }
      r
  }

  /** A strictly sorted list holds each value once. */
  lemma NoDuplicates(s: seq<string>)
    requires StrictlySorted(s)
    ensures forall i, j | 0 <= i < j < |s| :: s[i] != s[j]
  {
    forall i, j | 0 <= i < j < |s| ensures s[i] != s[j] {
      LessIrreflexive(s[i]);
    }
  }

  /** `{row['time_bucket']: row['count'] for row in rows}`: a later row of the same bucket
      overwrites an earlier one. */
  function CountMap(rows: seq<BucketCount>): (m: map<string, int>)
    ensures m.Keys == set r | r in rows :: r.bucket
  {
    if rows == [] then map[]
    else
      var m := CountMap(rows[..|rows| - 1])[rows[|rows| - 1].bucket := rows[|rows| - 1].count];
      assert (set r | r in rows :: r.bucket)
             == (set r | r in rows[..|rows| - 1] :: r.bucket) + {rows[|rows| - 1].bucket} by {
        assert forall r | r in rows :: r in rows[..|rows| - 1] || r == rows[|rows| - 1];
      }
      m
  }

  /** A bucket's last row decides its count. */
  lemma {:induction false} CountMapLast(rows: seq<BucketCount>, i: nat)
    requires i < |rows|
    requires forall j | i < j < |rows| :: rows[j].bucket != rows[i].bucket
    ensures CountMap(rows)[rows[i].bucket] == rows[i].count
    decreases |rows|
  {
    if i < |rows| - 1 {
      CountMapLast(rows[..|rows| - 1], i);
    }
  }

  function Buckets(rows: seq<BucketCount>): (bs: seq<string>)
    ensures |bs| == |rows| && forall i | 0 <= i < |rows| :: bs[i] == rows[i].bucket
  {
    seq(|rows|, i requires 0 <= i < |rows| => rows[i].bucket)
  }

  /** `created_map.get(bucket, 0)`. */
  function CountIn(m: map<string, int>, bucket: string): int {
    if bucket in m then m[bucket] else 0
  }

  /** `sorted(list(set(created_map.keys()) | set(completed_map.keys())))`. */
  function TrendBuckets(created: seq<BucketCount>, completed: seq<BucketCount>): (bs: seq<string>)
    ensures StrictlySorted(bs)
    ensures Elements(bs) == CountMap(created).Keys + CountMap(completed).Keys
  {
    var bs := SortedSet(Buckets(created) + Buckets(completed));
    assert Elements(Buckets(created) + Buckets(completed))
           == CountMap(created).Keys + CountMap(completed).Keys by {
      forall y | y in Buckets(created) + Buckets(completed)
        ensures y in CountMap(created).Keys + CountMap(completed).Keys
      {
        var i :| 0 <= i < |Buckets(created) + Buckets(completed)| && (Buckets(created) + Buckets(completed))[i] == y;
        if i < |created| {
          assert created[i] in created;
        } else {
          assert completed[i - |created|] in completed;
        }
      }
      forall y | y in CountMap(created).Keys + CountMap(completed).Keys
        ensures y in Buckets(created) + Buckets(completed)
      {
        if y in CountMap(created).Keys {
          var r :| r in created && r.bucket == y;
          var i :| 0 <= i < |created| && created[i] == r;
          assert (Buckets(created) + Buckets(completed))[i] == y;
        } else {
          var r :| r in completed && r.bucket == y;
          var i :| 0 <= i < |completed| && completed[i] == r;
          assert (Buckets(created) + Buckets(completed))[|created| + i] == y;
        }
      }
    }
    bs
  }

  /** The loop of `get_trend_analysis`: one entry per bucket in each list, aligned bucket by
      bucket, a bucket missing from one query counted as 0, and the backlog the created
      count minus the completed count (possibly negative). */
  method AlignBuckets(buckets: seq<string>, createdMap: map<string, int>, completedMap: map<string, int>)
    returns (t: Trend)
    ensures |t.created| == |buckets| && |t.completed| == |buckets| && |t.backlog| == |buckets|
    ensures forall i | 0 <= i < |buckets| :: t.created[i] == Point(buckets[i], CountIn(createdMap, buckets[i]))
    ensures forall i | 0 <= i < |buckets| :: t.completed[i] == Point(buckets[i], CountIn(completedMap, buckets[i]))
    ensures forall i | 0 <= i < |buckets| ::
              t.backlog[i] == Point(buckets[i], t.created[i].count - t.completed[i].count)
  {
    var createdList: seq<Point> := [];
    var completedList: seq<Point> := [];
    var backlogList: seq<Point> := [];
    for i := 0 to |buckets|
      invariant |createdList| == i && |completedList| == i && |backlogList| == i
      invariant forall j | 0 <= j < i :: createdList[j] == Point(buckets[j], CountIn(createdMap, buckets[j]))
      invariant forall j | 0 <= j < i :: completedList[j] == Point(buckets[j], CountIn(completedMap, buckets[j]))
      invariant forall j | 0 <= j < i ::
                  backlogList[j] == Point(buckets[j], CountIn(createdMap, buckets[j]) - CountIn(completedMap, buckets[j]))
    {
      var bucket := buckets[i];
      var cVal := if bucket in createdMap then createdMap[bucket] else 0;
      var compVal := if bucket in completedMap then completedMap[bucket] else 0;
      createdList := createdList + [Point(bucket, cVal)];
      completedList := completedList + [Point(bucket, compVal)];
      backlogList := backlogList + [Point(bucket, cVal - compVal)];
    }
    t := Trend(createdList, completedList, backlogList);
  }

  /** `get_trend_analysis`: the entries follow the sorted union of the buckets of both
      queries, each count read from its query's last row for the bucket. */
  method TrendAnalysis(created: seq<BucketCount>, completed: seq<BucketCount>) returns (t: Trend)
    ensures var bs := TrendBuckets(created, completed);
            && |t.created| == |bs| && |t.completed| == |bs| && |t.backlog| == |bs|
            && (forall i | 0 <= i < |bs| :: t.created[i] == Point(bs[i], CountIn(CountMap(created), bs[i])))
            && (forall i | 0 <= i < |bs| :: t.completed[i] == Point(bs[i], CountIn(CountMap(completed), bs[i])))
            && (forall i | 0 <= i < |bs| :: t.backlog[i] == Point(bs[i], t.created[i].count - t.completed[i].count))
  {
    var createdMap := CountMap(created);
    var completedMap := CountMap(completed);
    var buckets := TrendBuckets(created, completed);
    t := AlignBuckets(buckets, createdMap, completedMap);
  }

  /** Every bucket of either query appears exactly once in the trend, and a bucket that
      only one query returned reads 0 in the other list. */
  lemma TrendCoversBuckets(created: seq<BucketCount>, completed: seq<BucketCount>, b: string)
    requires b in CountMap(created) || b in CountMap(completed)
    ensures var bs := TrendBuckets(created, completed);
            && (exists i | 0 <= i < |bs| :: bs[i] == b)
            && forall i, j | 0 <= i < j < |bs| :: bs[i] != bs[j]
    ensures b !in CountMap(created) ==> CountIn(CountMap(created), b) == 0
    ensures b !in CountMap(completed) ==> CountIn(CountMap(completed), b) == 0
  {
    var bs := TrendBuckets(created, completed);
    assert b in Elements(bs);
    NoDuplicates(bs);
  }

  // ---- The status distribution -------------------------------------------------------------

  const TargetStatuses: seq<string> := ["New", "In Progress", "Success", "Failed", "Abandoned"]

  /** `data.get(key, 0)`. */
  function Get0(data: map<string, nat>, key: string): nat {
    if key in data then data[key] else 0
  }

  /** The renaming `get_status_distribution` applies to the snapshot: "InProgress" is folded
      into "In Progress" and "Successful" moves to "Success". */
  function Renamed(data: map<string, nat>): (d: map<string, nat>)
    ensures Get0(d, "In Progress") == Get0(data, "In Progress") + Get0(data, "InProgress")
    ensures Get0(d, "Success") == if "Successful" in data then data["Successful"] else Get0(data, "Success")
    ensures "InProgress" !in d && "Successful" !in d
    ensures forall k | k !in {"InProgress", "In Progress", "Successful", "Success"} :: Get0(d, k) == Get0(data, k)
  {
    var d := if "InProgress" in data
             then (data - {"InProgress"})["In Progress" := Get0(data, "In Progress") + data["InProgress"]]
             else data;
    if "Successful" in d then (d - {"Successful"})["Success" := d["Successful"]] else d
  }

  /** `get_status_distribution`: nothing for a missing or empty snapshot; otherwise exactly
      the five target statuses of the renamed snapshot, each the percentage of "Total Queue
      Items", and all 0 when that total is 0. */
  method StatusDistribution(data: Option<map<string, nat>>) returns (dist: Option<map<string, real>>)
    ensures dist.None? <==> data.None? || data.value == map[]
    ensures dist.Some? ==>
              && dist.value.Keys == Elements(TargetStatuses)
              && forall k | k in dist.value ::
                   dist.value[k] == Rate(Get0(Renamed(data.value), k), Get0(data.value, TotalKey))
    ensures dist.Some? && Get0(data.value, TotalKey) == 0 ==> forall k | k in dist.value :: dist.value[k] == 0.0
  {
    if data.None? || data.value == map[] {
      return None;
    }
    var d := Renamed(data.value);
    var total := Get0(d, TotalKey);
    assert total == Get0(data.value, TotalKey);
    var out: map<string, real> := map[];
    for i := 0 to |TargetStatuses|
      invariant out.Keys == Elements(TargetStatuses[..i])
      invariant forall k | k in out :: out[k] == Rate(Get0(d, k), total)
    {
      assert Elements(TargetStatuses[..i + 1]) == Elements(TargetStatuses[..i]) + {TargetStatuses[i]} by {
        assert TargetStatuses[..i + 1] == TargetStatuses[..i] + [TargetStatuses[i]];
      }
      var status := TargetStatuses[i];
      var count := Get0(d, status);
      var percentage := 0.0;
      if total > 0 {
        percentage := Rate(count, total);
      }
      out := out[status := percentage];
    }
    assert TargetStatuses[..5] == TargetStatuses;
    return Some(out);
  }
}
