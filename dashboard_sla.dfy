/** The Python post-processing of `DashboardSlaService`: it shapes the aggregates and rows
    the queue-item queries return. The rows are inputs; the SQL that produces them, and the
    SLA thresholds it compares against, are not part of the model. The date range is the
    one of the jobs dashboard, `DashboardJobs.DateRange`. */
module DashboardSla {
  import opened Wrappers
  import opened Json
  import opened Percent
  import opened DashboardJobs
  import DashboardOps

  // ---- Compliance --------------------------------------------------------------------------

  /** The row of `SELECT COUNT(*), SUM(...) as breach_count, AVG(...) as
      avg_breach_amount_sec`; the two aggregates are NULL when no row matched. */
  datatype ComplianceRow = ComplianceRow(totalCompleted: nat, breachCount: Option<nat>,
                                         avgBreachAmount: Option<real>)

  datatype Compliance = Compliance(compliancePercent: real, breachCount: nat,
                                   avgBreachSeconds: real, breachTrend: seq<Record>)

  /** A count read with `x if summary and x else 0`. */
  function CountOr0(v: Option<nat>): nat {
    if v.Some? then v.value else 0
  }

  /** `get_sla_compliance`: the NULL aggregates read as 0; the compliance is 100 with no
      completed item, and otherwise the share of completed items within the SLA, so also 100
      when nothing breached. The trend rows are passed through. */
  function SlaCompliance(summary: Option<ComplianceRow>, trendRows: seq<Record>): (r: Compliance)
    ensures summary.None? ==> r.breachCount == 0 && r.avgBreachSeconds == 0.0
    ensures summary.Some? ==> r.breachCount == CountOr0(summary.value.breachCount)
    ensures summary.Some? && summary.value.avgBreachAmount.Some? ==>
              r.avgBreachSeconds == summary.value.avgBreachAmount.value
    ensures summary.Some? && summary.value.avgBreachAmount.None? ==> r.avgBreachSeconds == 0.0
    ensures summary.None? || summary.value.totalCompleted == 0 ==> r.compliancePercent == 100.0
    ensures r.breachCount == 0 ==> r.compliancePercent == 100.0
    ensures summary.Some? && summary.value.totalCompleted > 0 ==>
              r.compliancePercent == Rate(summary.value.totalCompleted - r.breachCount, summary.value.totalCompleted)
    ensures r.breachTrend == trendRows
  {
    var total := if summary.Some? then summary.value.totalCompleted else 0;
    var breaches := if summary.Some? then CountOr0(summary.value.breachCount) else 0;
    var avg := if summary.Some? && summary.value.avgBreachAmount.Some? then summary.value.avgBreachAmount.value else 0.0;
    var pct := if total > 0 then Rate(total - breaches, total) else 100.0;
    assert breaches == 0 ==> pct == 100.0 by {
      if total > 0 { RateOfWhole(total); }
    }
    Compliance(pct, breaches, avg, trendRows)
  }

  /** With no more breaches than completed items, compliance is a percentage. */
  lemma ComplianceBounds(summary: ComplianceRow, trendRows: seq<Record>)
    requires CountOr0(summary.breachCount) <= summary.totalCompleted
    ensures 0.0 <= SlaCompliance(Some(summary), trendRows).compliancePercent <= 100.0
  {
    var total := summary.totalCompleted;
    RateBounds(total - CountOr0(summary.breachCount), total);
  }

  // ---- Exception analysis ------------------------------------------------------------------

  datatype ExceptionRates = ExceptionRates(failureRatePercent: real, businessExceptionRatePercent: real,
                                           systemExceptionRatePercent: real, note: string)

  const ExceptionNote: string := "Complete exception analysis requires data not currently in database."

  /** `get_exception_analysis`: the failed share of the items ended in the range; the
      business and system exception rates are always 0.0, with a note saying why. */
  function ExceptionAnalysis(res: Option<AggregateTally>): (r: ExceptionRates)
    ensures r.businessExceptionRatePercent == 0.0 && r.systemExceptionRatePercent == 0.0
    ensures r.note == ExceptionNote
    ensures res.None? || res.value.total == 0 ==> r.failureRatePercent == 0.0
    ensures res.Some? && res.value.total > 0 ==>
              r.failureRatePercent == Rate(res.value.sum.value, res.value.total)
    ensures 0.0 <= r.failureRatePercent <= 100.0
  {
    var total := if res.Some? then res.value.total else 0;
    var failed := if res.Some? then res.value.sum.GetOr(0) else 0;
    RateBounds(failed, total);
    ExceptionRates(if total > 0 then Rate(failed, total) else 0.0, 0.0, 0.0, ExceptionNote)
  }

  // ---- Retry metrics -----------------------------------------------------------------------

  /** The row of `SELECT COUNT(*), SUM(retried), AVG(retry_number), SUM(successful
      retries)`: the sums are NULL exactly when no row matched, a successful retry is a
      retry, and a retry is an item. */
  datatype RetryRow = RetryRow(total: nat, retriedItems: Option<nat>, avgRetries: Option<real>,
                               successfulRetries: Option<nat>)

  type RetryAggregate = r: RetryRow |
    && (r.retriedItems.None? <==> r.total == 0)
    && (r.successfulRetries.None? <==> r.total == 0)
    && (r.total == 0 ==> r.avgRetries.None?)
    && (r.retriedItems.Some? ==> r.successfulRetries.value <= r.retriedItems.value <= r.total)
    witness RetryRow(0, None, None, None)

  datatype RetryMetrics = RetryMetrics(retryRatePercent: real, avgRetryCount: real,
                                       retrySuccessRatePercent: real)

  /** `get_retry_metrics` as written: the retry rate is guarded by `total > 0`, but the
      success rate compares `retried > 0`, which raises when the sum is NULL, that is when
      no item ended in the range. */
  function RetryMetricsAsWritten(res: Option<RetryAggregate>): (r: Result<RetryMetrics, TypeError>)
    ensures r.Failure? <==> res.Some? && res.value.total == 0
  {
    var total := if res.Some? then res.value.total else 0;
    var retried := if res.Some? then res.value.retriedItems else Some(0);
    var avg := if res.Some? && res.value.avgRetries.Some? then res.value.avgRetries.value else 0.0;
    var success := if res.Some? then res.value.successfulRetries else Some(0);
    if total > 0 && retried.None? then Failure(TypeError)
    else
      var retryRate := if total > 0 then Rate(retried.value, total) else 0.0;
      if retried.None? then Failure(TypeError)
      else if retried.value > 0 && success.None? then Failure(TypeError)
      else
        var successRate := if retried.value > 0 then Rate(success.value, retried.value) else 0.0;
        Success(RetryMetrics(retryRate, avg, successRate))
  }

  /** The empty range, which the aggregate query answers with `(0, NULL, NULL, NULL)`,
      raises. */
  lemma RetryRaisesOnEmptyRange()
    ensures RetryMetricsAsWritten(Some(RetryRow(0, None, None, None))) == Failure(TypeError)
  {
  }

  /** `get_retry_metrics` with the NULL sums read as 0: the retry rate is 0 with no item,
      the success rate is 0 with no retry, and both are percentages. */
  function RetryMetricsOf(res: Option<RetryAggregate>): (r: RetryMetrics)
    ensures res.None? || res.value.total == 0 ==> r.retryRatePercent == 0.0 && r.retrySuccessRatePercent == 0.0
    ensures res.Some? && res.value.total > 0 ==>
              r.retryRatePercent == Rate(res.value.retriedItems.value, res.value.total)
              && r.retrySuccessRatePercent == Rate(res.value.successfulRetries.value, res.value.retriedItems.value)
    ensures res.Some? && res.value.avgRetries.Some? ==> r.avgRetryCount == res.value.avgRetries.value
    ensures res.None? || res.value.avgRetries.None? ==> r.avgRetryCount == 0.0
    ensures 0.0 <= r.retryRatePercent <= 100.0 && 0.0 <= r.retrySuccessRatePercent <= 100.0
  {
    var total := if res.Some? then res.value.total else 0;
    var retried := if res.Some? then CountOr0(res.value.retriedItems) else 0;
    var avg := if res.Some? && res.value.avgRetries.Some? then res.value.avgRetries.value else 0.0;
    var success := if res.Some? then CountOr0(res.value.successfulRetries) else 0;
    RateBounds(retried, total);
    RateBounds(success, retried);
    RetryMetrics(if total > 0 then Rate(retried, total) else 0.0, avg,
                 if retried > 0 then Rate(success, retried) else 0.0)
  }

  /** Wherever the code as written returns, the corrected version returns the same. */
  lemma RetryMetricsAgree(res: Option<RetryAggregate>)
    requires RetryMetricsAsWritten(res).Success?
    ensures RetryMetricsAsWritten(res).value == RetryMetricsOf(res)
  {
  }

  // ---- Failures by queue -------------------------------------------------------------------

  /** One row of `SELECT queue_definition_id, COUNT(*), SUM(...) as failure_count`. */
  datatype QueueFailureRow = QueueFailureRow(queueDefinitionId: Json, totalProcessed: nat,
                                             failureCount: Option<nat>)

  datatype QueueFailures = QueueFailures(queueDefinitionId: Json, failureCount: nat, failureRatePercent: real)

  /** `get_failures_by_queue`'s loop: one entry per row, in order, the queue id kept, a NULL
      failure count read as 0, and the rate 0 when the queue processed nothing. */
  method FailuresByQueue(rows: seq<QueueFailureRow>) returns (cleaned: seq<QueueFailures>)
    ensures |cleaned| == |rows|
    ensures forall i | 0 <= i < |rows| ::
              && cleaned[i].queueDefinitionId == rows[i].queueDefinitionId
              && cleaned[i].failureCount == CountOr0(rows[i].failureCount)
              && cleaned[i].failureRatePercent == Rate(CountOr0(rows[i].failureCount), rows[i].totalProcessed)
  {
    cleaned := [];
    for i := 0 to |rows|
      invariant |cleaned| == i
      invariant forall j | 0 <= j < i ::
                  && cleaned[j].queueDefinitionId == rows[j].queueDefinitionId
                  && cleaned[j].failureCount == CountOr0(rows[j].failureCount)
                  && cleaned[j].failureRatePercent == Rate(CountOr0(rows[j].failureCount), rows[j].totalProcessed)
    {
      var row := rows[i];
      var total := row.totalProcessed;
      var failVal := if row.failureCount.Some? && row.failureCount.value != 0 then row.failureCount.value else 0;
      var rate := 0.0;
      if total > 0 {
        rate := Rate(failVal, total);
      }
      cleaned := cleaned + [QueueFailures(row.queueDefinitionId, failVal, rate)];
    }
  }

  // ---- Recent failures ---------------------------------------------------------------------

  /** A row of the recent-failures query with its two placeholder fields. */
  predicate Placeholders(row: Record, out: Record) {
    && out.Keys == row.Keys + {"exception_type", "failure_reason"}
    && out["exception_type"] == JStr("Unknown")
    && out["failure_reason"] == JStr("See raw output")
    && forall k | k in row && k != "exception_type" && k != "failure_reason" :: out[k] == row[k]
  }

  /** `get_recent_failures`' loop: the rows, in order, each with the two placeholder fields
      and nothing else changed. */
  method RecentFailures(rows: seq<Record>) returns (results: seq<Record>)
    ensures |results| == |rows|
    ensures forall i | 0 <= i < |rows| :: Placeholders(rows[i], results[i])
  {
    results := [];
    for i := 0 to |rows|
      invariant |results| == i
      invariant forall j | 0 <= j < i :: Placeholders(rows[j], results[j])
    {
      var row := rows[i];
      row := row["exception_type" := JStr("Unknown")];
      row := row["failure_reason" := JStr("See raw output")];
      results := results + [row];
    }
  }

  /** Adding the placeholders to a row that already has them changes nothing. */
  lemma PlaceholdersIdempotent(row: Record, out: Record, again: Record)
    requires Placeholders(row, out) && Placeholders(out, again)
    ensures again == out
  {
  }

  // ---- Top failure reasons -----------------------------------------------------------------

  datatype TopReason = TopReason(failureReason: string, failureCount: nat, failurePercent: real)

  const GenericReason: string := "Generic Failure (Reason Not Logged)"

  /** `get_top_failure_reasons`: no entry without failures; otherwise a single generic
      reason holding all of them. */
  function TopFailureReasons(res: Option<nat>): (r: seq<TopReason>)
    ensures r == [] <==> res.None? || res.value == 0
    ensures r != [] ==> |r| == 1 && r[0].failureReason == GenericReason && r[0].failureCount == res.value
    ensures r != [] ==> r[0].failurePercent == 100.0
    ensures r != [] ==> r[0].failurePercent == Rate(r[0].failureCount, res.value)
  {
    var count := if res.Some? then res.value else 0;
    if count > 0 then
      RateOfWhole(count);
      [TopReason(GenericReason, count, 100.0)]
    else []
  }

  // ---- Failure trend -----------------------------------------------------------------------

  datatype FailurePoint = FailurePoint(timeBucket: string, failureCount: int)

  /** `get_failure_trend`'s loop: one entry per row, in order, `count` renamed
      `failure_count`. */
  method FailureTrend(rows: seq<DashboardOps.BucketCount>) returns (trend: seq<FailurePoint>)
    ensures |trend| == |rows|
    ensures forall i | 0 <= i < |rows| ::
              trend[i].timeBucket == rows[i].bucket && trend[i].failureCount == rows[i].count
  {
    trend := [];
    for i := 0 to |rows|
      invariant |trend| == i
      invariant forall j | 0 <= j < i :: trend[j].timeBucket == rows[j].bucket && trend[j].failureCount == rows[j].count
    {
      trend := trend + [FailurePoint(rows[i].bucket, rows[i].count)];
    }
  }
}
