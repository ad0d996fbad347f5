/** The Python post-processing of `DashboardJobsService`: it shapes the rows the jobs-table
    queries return. The rows are inputs; the SQL that produces them is not part of the
    model. */
module DashboardJobs {
  import opened Wrappers
  import opened Json
  import opened Timestamps
  import opened Percent

  /** `_get_date_range` of the jobs and SLA dashboards: a missing or empty start becomes
      `dayAgo`, the wall clock less 24 hours, and a missing or empty end becomes `now`; both
      are formatted by the caller. */
  function DateRange(start: Option<string>, end: Option<string>, now: string, dayAgo: string)
    : (r: (string, string))
    ensures start.Some? && start.value != "" ==> r.0 == start.value
    ensures !(start.Some? && start.value != "") ==> r.0 == dayAgo
    ensures end.Some? && end.value != "" ==> r.1 == end.value
    ensures !(end.Some? && end.value != "") ==> r.1 == now
  {
    (if start.Some? && start.value != "" then start.value else dayAgo,
     if end.Some? && end.value != "" then end.value else now)
  }

  // ---- The snapshot ------------------------------------------------------------------------

  /** One row of `SELECT state, COUNT(*)`. */
  datatype StateCount = StateCount(state: string, count: nat)

  /** The `stats` dictionary of `get_jobs_snapshot`. */
  datatype JobsSnapshot = JobsSnapshot(totalJobs: nat, pending: nat, running: nat, successful: nat,
                                       failed: nat, stopped: nat)

  /** The sum of the row counts. */
  function Total(rows: seq<StateCount>): nat {
    if rows == [] then 0 else Total(rows[..|rows| - 1]) + rows[|rows| - 1].count
  }

  /** The sum of the counts of the rows in `state`. */
  function CountOf(rows: seq<StateCount>, state: string): nat {
    if rows == [] then 0
    else CountOf(rows[..|rows| - 1], state) + (if rows[|rows| - 1].state == state then rows[|rows| - 1].count else 0)
  }

  /** The five states the snapshot lists. */
  predicate Listed(state: string) {
    state in {"Pending", "Running", "Successful", "Faulted", "Stopped"}
  }

  /** `get_jobs_snapshot`'s loop: the total is every row's count, and each listed state adds
      to its own bucket only, Faulted to `failed`. */
  method Snapshot(rows: seq<StateCount>) returns (stats: JobsSnapshot)
    ensures stats.totalJobs == Total(rows)
    ensures stats.pending == CountOf(rows, "Pending")
    ensures stats.running == CountOf(rows, "Running")
    ensures stats.successful == CountOf(rows, "Successful")
    ensures stats.failed == CountOf(rows, "Faulted")
    ensures stats.stopped == CountOf(rows, "Stopped")
  {
    stats := JobsSnapshot(0, 0, 0, 0, 0, 0);
    var total := 0;
    for i := 0 to |rows|
      invariant total == Total(rows[..i])
      invariant stats.pending == CountOf(rows[..i], "Pending")
      invariant stats.running == CountOf(rows[..i], "Running")
      invariant stats.successful == CountOf(rows[..i], "Successful")
      invariant stats.failed == CountOf(rows[..i], "Faulted")
      invariant stats.stopped == CountOf(rows[..i], "Stopped")
    {
      assert rows[..i + 1][..i] == rows[..i];
      var state := rows[i].state;
      var count := rows[i].count;
      total := total + count;
      if state == "Pending" {
        stats := stats.(pending := stats.pending + count);
      } else if state == "Running" {
        stats := stats.(running := stats.running + count);
      } else if state == "Successful" {
        stats := stats.(successful := stats.successful + count);
      } else if state == "Faulted" {
        stats := stats.(failed := stats.failed + count);
      } else if state == "Stopped" {
        stats := stats.(stopped := stats.stopped + count);
      }
    }
    assert rows[..|rows|] == rows;
    stats := stats.(totalJobs := total);
  }

  /** The named buckets never exceed the total, and they make it up exactly when every row
      is in a listed state. */
  lemma {:induction false} BucketsWithinTotal(rows: seq<StateCount>)
    ensures var named := CountOf(rows, "Pending") + CountOf(rows, "Running") + CountOf(rows, "Successful")
                         + CountOf(rows, "Faulted") + CountOf(rows, "Stopped");
            && named <= Total(rows)
            && ((forall i | 0 <= i < |rows| :: Listed(rows[i].state)) ==> named == Total(rows))
  {
    if rows != [] {
      var init := rows[..|rows| - 1];
      BucketsWithinTotal(init);
      if forall i | 0 <= i < |rows| :: Listed(rows[i].state) {
        assert forall i | 0 <= i < |init| :: init[i] == rows[i];
        assert Listed(rows[|rows| - 1].state);
      }
    }
  }

  // ---- The distribution --------------------------------------------------------------------

  const BucketNames: seq<string> := ["pending", "running", "successful", "failed", "stopped"]

  /** `snapshot.get(key, 0)`: every name of `BucketNames` is a key of the snapshot. */
  function Bucket(s: JobsSnapshot, key: string): nat {
    match key
    case "pending" => s.pending
    case "running" => s.running
    case "successful" => s.successful
    case "failed" => s.failed
    case "stopped" => s.stopped
    case _ => 0
  }

  /** `f"{key}_percent"`. */
  function PercentKey(key: string): string {
    key + "_percent"
  }

  lemma PercentKeyInjective(a: string, b: string)
    requires PercentKey(a) == PercentKey(b)
    ensures a == b
  {
    assert a == PercentKey(a)[..|a|];
    assert b == PercentKey(b)[..|b|];
  }

  /** `get_jobs_distribution`: nothing without a snapshot; otherwise exactly the five
      `<state>_percent` keys, each the share of `total_jobs`, and all 0 when the total is
      0. */
  method Distribution(snapshot: Option<JobsSnapshot>) returns (dist: Option<map<string, real>>)
    ensures dist.None? <==> snapshot.None?
    ensures dist.Some? ==>
              && dist.value.Keys == (set k | k in BucketNames :: PercentKey(k))
              && forall k | k in BucketNames ::
                   dist.value[PercentKey(k)] == Rate(Bucket(snapshot.value, k), snapshot.value.totalJobs)
    ensures dist.Some? && snapshot.value.totalJobs == 0 ==> forall k | k in dist.value :: dist.value[k] == 0.0
  {
    if snapshot.None? {
      return None;
    }
    var s := snapshot.value;
    var total := s.totalJobs;
    var out: map<string, real> := map[];
    for i := 0 to |BucketNames|
      invariant out.Keys == (set k | k in BucketNames[..i] :: PercentKey(k))
      invariant forall k | k in BucketNames[..i] :: out[PercentKey(k)] == Rate(Bucket(s, k), total)
      invariant total == 0 ==> forall k | k in out :: out[k] == 0.0
    {
      var key := BucketNames[i];
      assert BucketNames[..i + 1] == BucketNames[..i] + [key];
      forall k | k in BucketNames[..i]
        ensures PercentKey(k) != PercentKey(key)
      {
        if PercentKey(k) == PercentKey(key) {
          PercentKeyInjective(k, key);
          assert false;
        }
      }
      var count := Bucket(s, key);
      var pct := 0.0;
      if total > 0 {
        pct := Rate(count, total);
      }
      out := out[PercentKey(key) := pct];
    }
    assert BucketNames[..|BucketNames|] == BucketNames;
    return Some(out);
  }

  /** The shares of a snapshot the loop produced add up to at most 100 percent. */
  lemma DistributionWithinWhole(rows: seq<StateCount>, s: JobsSnapshot)
    requires s.totalJobs == Total(rows)
    requires s.pending == CountOf(rows, "Pending") && s.running == CountOf(rows, "Running")
    requires s.successful == CountOf(rows, "Successful") && s.failed == CountOf(rows, "Faulted")
    requires s.stopped == CountOf(rows, "Stopped")
    ensures Rate(s.pending, s.totalJobs) + Rate(s.running, s.totalJobs) + Rate(s.successful, s.totalJobs)
            + Rate(s.failed, s.totalJobs) + Rate(s.stopped, s.totalJobs) <= 100.0
  {
    BucketsWithinTotal(rows);
    var t := s.totalJobs;
    RateAdditive(s.pending, s.running, t);
    RateAdditive(s.pending + s.running, s.successful, t);
    RateAdditive(s.pending + s.running + s.successful, s.failed, t);
    RateAdditive(s.pending + s.running + s.successful + s.failed, s.stopped, t);
    RateBounds(s.pending + s.running + s.successful + s.failed + s.stopped, t);
  }

  // ---- Reliability -------------------------------------------------------------------------

  /** The row of `SELECT COUNT(*), SUM(CASE ... THEN 1 ELSE 0 END)`: the sum is NULL exactly
      when no row matched, and never exceeds the count. */
  datatype Tally = Tally(total: nat, sum: Option<nat>)

  type AggregateTally = t: Tally | (t.sum.None? <==> t.total == 0) && (t.sum.Some? ==> t.sum.value <= t.total)
    witness Tally(0, None)

  /** The exception the Python code raises outside its `mysql.connector.Error` handler. */
  datatype TypeError = TypeError

  datatype Reliability = Reliability(failureRatePercent: real, failureCount: nat)

  /** `get_jobs_reliability` as written: with no job in the range the rate is 0.0, but
      `int(failed)` is `int(None)`, which raises. */
  function ReliabilityAsWritten(res: Option<AggregateTally>): (r: Result<Reliability, TypeError>)
    ensures r.Failure? <==> res.Some? && res.value.total == 0
  {
    var total := if res.Some? then res.value.total else 0;
    var failed := if res.Some? then res.value.sum else Some(0);
    var rate := if total > 0 then Rate(failed.GetOr(0), total) else 0.0;
    if failed.None? then Failure(TypeError) else Success(Reliability(rate, failed.value))
  }

  /** The empty range, which the aggregate query answers with `(0, NULL)`, raises. */
  lemma ReliabilityRaisesOnEmptyRange()
    ensures ReliabilityAsWritten(Some(Tally(0, None))) == Failure(TypeError)
  {
  }

  /** `get_jobs_reliability` with the NULL sum read as 0: the rate is the failed share of
      the jobs, 0.0 when there are none, and the count an integer. */
  function JobsReliability(res: Option<AggregateTally>): (r: Reliability)
    ensures res.None? || res.value.total == 0 ==> r == Reliability(0.0, 0)
    ensures res.Some? && res.value.total > 0 ==>
              r.failureCount == res.value.sum.value
              && r.failureRatePercent == Rate(res.value.sum.value, res.value.total)
    ensures 0.0 <= r.failureRatePercent <= 100.0
  {
    var total := if res.Some? then res.value.total else 0;
    var failed := if res.Some? then res.value.sum.GetOr(0) else 0;
    RateBounds(failed, total);
    Reliability(if total > 0 then Rate(failed, total) else 0.0, failed)
  }

  /** Wherever the code as written returns, the corrected version returns the same. */
  lemma ReliabilityAgrees(res: Option<AggregateTally>)
    requires ReliabilityAsWritten(res).Success?
    ensures ReliabilityAsWritten(res).value == JobsReliability(res)
  {
  }

  // ---- Failure reasons ---------------------------------------------------------------------

  /** One row of `SELECT info, error_code, COUNT(*)`. */
  datatype ReasonRow = ReasonRow(info: Json, errorCode: Json, count: nat)

  datatype FailureReason = FailureReason(failureReason: string, count: nat)

  /** The reason of one row: the error code when it is set, otherwise the first 50
      characters of the info text when it is set, otherwise "Unknown". */
  function ReasonOf(row: ReasonRow, codec: Codec): (reason: string)
    ensures Truthy(row.errorCode) ==> reason == PyStr(row.errorCode, codec)
    ensures !Truthy(row.errorCode) && Truthy(row.info) ==>
              reason <= PyStr(row.info, codec)
              && |reason| == if |PyStr(row.info, codec)| < 50 then |PyStr(row.info, codec)| else 50
    ensures !Truthy(row.errorCode) && !Truthy(row.info) ==> reason == "Unknown"
  {
    if Truthy(row.errorCode) then PyStr(row.errorCode, codec)
    else if Truthy(row.info) then
      var text := PyStr(row.info, codec);
      if |text| < 50 then text else text[..50]
    else "Unknown"
  }

  /** `get_jobs_failure_reasons`' loop: one entry per row, in order, with the row's count. */
  method FailureReasons(rows: seq<ReasonRow>, codec: Codec) returns (cleaned: seq<FailureReason>)
    ensures |cleaned| == |rows|
    ensures forall i | 0 <= i < |rows| ::
              cleaned[i].count == rows[i].count && cleaned[i].failureReason == ReasonOf(rows[i], codec)
  {
    cleaned := [];
    for i := 0 to |rows|
      invariant |cleaned| == i
      invariant forall j | 0 <= j < i ::
                  cleaned[j].count == rows[j].count && cleaned[j].failureReason == ReasonOf(rows[j], codec)
    {
      var row := rows[i];
      var reason := "Unknown";
      if Truthy(row.errorCode) {
        reason := PyStr(row.errorCode, codec);
      } else if Truthy(row.info) {
        var text := PyStr(row.info, codec);
        reason := if |text| < 50 then text else text[..50];
      }
      cleaned := cleaned + [FailureReason(reason, row.count)];
    }
  }

  // ---- Risk flags --------------------------------------------------------------------------

  datatype RiskFlags = RiskFlags(runningBeyondThreshold: nat, pendingBeyondThreshold: nat, zombieJobs: nat)

  /** `get_jobs_risk_flags`: the two count queries take the threshold in seconds, `hours *
      3600`; each is the answer to its query (0 when the query returned no row), and the
      zombie count repeats the running count. */
  function JobsRiskFlags(thresholdHours: int, runningBeyond: int -> Option<nat>,
                         pendingBeyond: int -> Option<nat>): (r: RiskFlags)
    ensures r.zombieJobs == r.runningBeyondThreshold
    ensures runningBeyond(thresholdHours * 3600).Some? ==>
              r.runningBeyondThreshold == runningBeyond(thresholdHours * 3600).value
    ensures runningBeyond(thresholdHours * 3600).None? ==> r.runningBeyondThreshold == 0
    ensures pendingBeyond(thresholdHours * 3600).Some? ==>
              r.pendingBeyondThreshold == pendingBeyond(thresholdHours * 3600).value
    ensures pendingBeyond(thresholdHours * 3600).None? ==> r.pendingBeyondThreshold == 0
  {
    var thresholdSec := thresholdHours * 3600;
    var longRes := runningBeyond(thresholdSec);
    var pendingRes := pendingBeyond(thresholdSec);
    RiskFlags(longRes.GetOr(0), pendingRes.GetOr(0), longRes.GetOr(0))
  }

  // ---- Recent failed jobs ------------------------------------------------------------------

  /** `str(timedelta(seconds=d)) if d else None` for the `duration_sec` of a row. */
  function FormattedDuration(d: Json): (v: Json)
    requires d.JNull? || d.JInt?
    ensures !Truthy(d) ==> v == JNull
    ensures Truthy(d) ==> v.JStr? && v.s == DurationText(d.i) && '.' !in v.s
  {
    if !Truthy(d) then JNull
    else
      NoDotInDuration(d.i);
      JStr(DurationText(d.i))
  }

  /** Every row of the query keeps its fields and gains `formatted_duration`. */
  predicate Annotates(row: Record, out: Record)
    requires Get(row, "duration_sec").JNull? || Get(row, "duration_sec").JInt?
  {
    && out.Keys == row.Keys + {"formatted_duration"}
    && out["formatted_duration"] == FormattedDuration(Get(row, "duration_sec"))
    && forall k | k in row && k != "formatted_duration" :: out[k] == row[k]
  }

  /** `get_recent_failed_jobs`' loop, on rows whose `duration_sec` is what `TIMESTAMPDIFF`
      yields, an integer or NULL. */
  method RecentFailedJobs(rows: seq<Record>) returns (cleaned: seq<Record>)
    requires forall i | 0 <= i < |rows| :: Get(rows[i], "duration_sec").JNull? || Get(rows[i], "duration_sec").JInt?
    ensures |cleaned| == |rows|
    ensures forall i | 0 <= i < |rows| :: Annotates(rows[i], cleaned[i])
  {
    cleaned := [];
    for i := 0 to |rows|
      invariant |cleaned| == i
      invariant forall j | 0 <= j < i :: Annotates(rows[j], cleaned[j])
    {
      var row := rows[i];
      var d := Get(row, "duration_sec");
      row := row["formatted_duration" := if Truthy(d) then JStr(DurationText(d.i)) else JNull];
      cleaned := cleaned + [row];
    }
  }
}
