/** `transform_data` and `transform_jobs`: upstream records to database rows. */
module Transform {
  import opened Wrappers
  import opened Json
  import opened Timestamps

  /** A value that makes `parse_dt`/`clean_date` raise: truthy, but not a string. */
  predicate Faulty(v: Json) {
    Truthy(v) && !v.JStr?
  }

  // ---- Queue items ---------------------------------------------------------------------

  /** One `queue_items` row as `transform_data` builds it, in the column order of the INSERT. */
  datatype QueueRow = QueueRow(
    id: Json,
    queueDefinitionId: Json,
    folderId: Json,
    key: Json,
    status: Json,
    reference: Json,
    priority: Json,
    deferDate: Option<string>,
    startProcessing: Option<string>,
    endProcessing: Option<string>,
    secondsPrevAttempts: Json,
    retryNumber: Json,
    creationTime: Option<string>,
    orgUnitId: Json,
    runDuration: Option<string>,
    waitingDuration: Option<string>)

  /** A derived duration column agrees with the two stored timestamp columns it spans: it is
      present exactly when both are, and then it is the elapsed time between them. */
  predicate DurationAgrees(d: Option<string>, from: Option<string>, to: Option<string>) {
    && (d.Some? <==> from.Some? && to.Some?)
    && (d.Some? ==>
          var a := ParseIso(from.value);
          var b := ParseIso(to.value);
          a.Some? && b.Some? && d.value == Elapsed(a.value, b.value))
  }

  /** Both derived durations of a row agree with its stored timestamps. */
  predicate Consistent(row: QueueRow) {
    && DurationAgrees(row.runDuration, row.startProcessing, row.endProcessing)
    && DurationAgrees(row.waitingDuration, row.creationTime, row.startProcessing)
  }

  /** `str(to - from).split('.')[0]` when both instants parsed, else None. */
  function Duration(from: Option<DateTime>, to: Option<DateTime>): (d: Option<string>)
    requires from.Some? ==> Valid(from.value)
    requires to.Some? ==> Valid(to.value)
    ensures d.Some? <==> from.Some? && to.Some?
    ensures d.Some? ==> d.value == Elapsed(from.value, to.value)
  {
    if from.Some? && to.Some? then Some(Elapsed(from.value, to.value)) else None
  }

  /** The duration of two parsed instants agrees with their cleaned texts, since each text
      parses back to its instant. */
  lemma DurationOfCleaned(from: Option<DateTime>, to: Option<DateTime>,
                          fromText: Option<string>, toText: Option<string>)
    requires from.Some? ==> Valid(from.value)
    requires to.Some? ==> Valid(to.value)
    requires fromText.Some? <==> from.Some?
    requires toText.Some? <==> to.Some?
    requires fromText.Some? ==> ParseIso(fromText.value) == from
    requires toText.Some? ==> ParseIso(toText.value) == to
    ensures DurationAgrees(Duration(from, to), fromText, toText)
  {
  }

  /** The dictionary `transform_data` writes for one item, once its timestamps are parsed
      (`s`, `e`, `c`) and cleaned (`start`, `end`, `creation`, `defer`). */
  function MakeRow(item: Record, folderId: Json, s: Option<DateTime>, e: Option<DateTime>,
                   c: Option<DateTime>, defer: Option<string>, start: Option<string>,
                   end: Option<string>, creation: Option<string>): (row: QueueRow)
    requires s.Some? ==> Valid(s.value)
    requires e.Some? ==> Valid(e.value)
    requires c.Some? ==> Valid(c.value)
    ensures row.id == Get(item, "Id") && row.folderId == folderId
    ensures row.startProcessing == start && row.endProcessing == end && row.creationTime == creation
    ensures row.runDuration == Duration(s, e) && row.waitingDuration == Duration(c, s)
  {
    QueueRow(
      Get(item, "Id"), Get(item, "QueueDefinitionId"), folderId, Get(item, "Key"),
      Get(item, "Status"), Get(item, "Reference"), Get(item, "Priority"), defer, start, end,
      Get(item, "SecondsInPreviousAttempts"), Get(item, "RetryNumber"), creation,
      Get(item, "OrganizationUnitId"), Duration(s, e), Duration(c, s))
  }

  /** A queue item whose timestamp fields make `transform_data` raise: a truthy value that is
      not a string. */
  predicate ItemFaulty(item: Record) {
    Faulty(Get(item, "StartProcessing")) || Faulty(Get(item, "EndProcessing"))
    || Faulty(Get(item, "CreationTime")) || Faulty(Get(item, "DeferDate"))
  }

  /** The loop body of `transform_data` for one item. The three timestamps are parsed first
      (start, end, creation), then the four timestamp columns are cleaned in dictionary order;
      a truthy non-string in any of them raises. */
  function TransformItem(item: Record, folderId: Json): (r: Result<QueueRow, AttributeError>)
    ensures r.Failure? <==> ItemFaulty(item)
    ensures r.Success? ==> r.value.id == Get(item, "Id") && r.value.folderId == folderId
    ensures r.Success? ==> Consistent(r.value)
    ensures r.Success? ==>
              r.value.runDuration
                == Duration(ParseDt(Get(item, "StartProcessing")).value,
                            ParseDt(Get(item, "EndProcessing")).value)
    ensures r.Success? ==>
              r.value.waitingDuration
                == Duration(ParseDt(Get(item, "CreationTime")).value,
                            ParseDt(Get(item, "StartProcessing")).value)
  {
    var startV := Get(item, "StartProcessing");
    var endV := Get(item, "EndProcessing");
    var creationV := Get(item, "CreationTime");
    var deferV := Get(item, "DeferDate");
    var s :- ParseDt(startV);
    var e :- ParseDt(endV);
    var c :- ParseDt(creationV);
    var defer :- CleanDate(deferV);
    // these three parsed above, so cleaning them again cannot raise
    var start := CleanDate(startV).value;
    var end := CleanDate(endV).value;
    var creation := CleanDate(creationV).value;
    DurationOfCleaned(s, e, start, end);
    DurationOfCleaned(c, s, creation, start);
    Success(MakeRow(item, folderId, s, e, c, defer, start, end, creation))
  }

  /** The other columns of a transformed item: eight are the item's own fields, and the four
      timestamp columns hold what `clean_date` makes of the item's fields. */
  lemma TransformItemColumns(item: Record, folderId: Json)
    requires TransformItem(item, folderId).Success?
    ensures var row := TransformItem(item, folderId).value;
            && row.queueDefinitionId == Get(item, "QueueDefinitionId")
            && row.key == Get(item, "Key") && row.status == Get(item, "Status")
            && row.reference == Get(item, "Reference") && row.priority == Get(item, "Priority")
            && row.secondsPrevAttempts == Get(item, "SecondsInPreviousAttempts")
            && row.retryNumber == Get(item, "RetryNumber")
            && row.orgUnitId == Get(item, "OrganizationUnitId")
    ensures var row := TransformItem(item, folderId).value;
            && CleanDate(Get(item, "DeferDate")) == Success(row.deferDate)
            && CleanDate(Get(item, "StartProcessing")) == Success(row.startProcessing)
            && CleanDate(Get(item, "EndProcessing")) == Success(row.endProcessing)
            && CleanDate(Get(item, "CreationTime")) == Success(row.creationTime)
  {
    var startV, endV := Get(item, "StartProcessing"), Get(item, "EndProcessing");
    var creationV, deferV := Get(item, "CreationTime"), Get(item, "DeferDate");
    var s, e, c := ParseDt(startV).value, ParseDt(endV).value, ParseDt(creationV).value;
    var defer, start := CleanDate(deferV).value, CleanDate(startV).value;
    var end, creation := CleanDate(endV).value, CleanDate(creationV).value;
    assert TransformItem(item, folderId)
           == Success(MakeRow(item, folderId, s, e, c, defer, start, end, creation));
  }

  // ---- The append loops ----------------------------------------------------------------

  /** The shape of both transform loops: `f` is applied to each record in order, together with
      its position offset by `first`, and the first record that raises aborts the loop. */
  function Batch<T>(f: (Record, nat) -> Result<T, AttributeError>, xs: seq<Record>, first: nat)
    : (r: Result<seq<T>, AttributeError>)
    ensures r.Success? ==> |r.value| == |xs|
  {
    if xs == [] then Success([])
    else
      var init :- Batch(f, xs[..|xs| - 1], first);
      var last :- f(xs[|xs| - 1], first + |xs| - 1);
      Success(init + [last])
  }

  /** The loop raises exactly when some record raises, and then with the error of the first
      record that does; otherwise value i is what `f` gives record i. */
  lemma {:induction false} BatchSpec<T>(f: (Record, nat) -> Result<T, AttributeError>, xs: seq<Record>, first: nat)
    ensures Batch(f, xs, first).Failure? <==> exists i | 0 <= i < |xs| :: f(xs[i], first + i).Failure?
    ensures Batch(f, xs, first).Success? ==>
              forall i | 0 <= i < |xs| :: f(xs[i], first + i) == Success(Batch(f, xs, first).value[i])
    ensures Batch(f, xs, first).Failure? ==>
              exists i | 0 <= i < |xs| ::
                f(xs[i], first + i) == Failure(Batch(f, xs, first).error)
                && forall j | 0 <= j < i :: f(xs[j], first + j).Success?
  {
    if xs != [] {
      var init := xs[..|xs| - 1];
      BatchSpec(f, init, first);
      assert forall i | 0 <= i < |init| :: init[i] == xs[i];
    }
  }

  /** Once a prefix raises, the whole loop raises with the same error. */
  lemma {:induction false} BatchFailureSticks<T>(f: (Record, nat) -> Result<T, AttributeError>,
                                                 xs: seq<Record>, first: nat, k: nat)
    requires k <= |xs| && Batch(f, xs[..k], first).Failure?
    ensures Batch(f, xs, first) == Batch(f, xs[..k], first)
    decreases |xs|
  {
    if k < |xs| {
      var init := xs[..|xs| - 1];
      assert init[..k] == xs[..k];
      BatchFailureSticks(f, init, first, k);
    } else {
      assert xs[..k] == xs;
    }
  }

  /** One more record extends the result by its value, or ends the loop with its error. */
  lemma BatchStep<T>(f: (Record, nat) -> Result<T, AttributeError>, xs: seq<Record>, first: nat, i: nat)
    requires i < |xs|
    requires Batch(f, xs[..i], first).Success?
    ensures Batch(f, xs[..i + 1], first)
              == match f(xs[i], first + i)
                 case Failure(err) => Failure(err)
                 case Success(v) => Success(Batch(f, xs[..i], first).value + [v])
  {
    assert xs[..i + 1][..i] == xs[..i];
  }

  // ---- transform_data ------------------------------------------------------------------

  /** `transform_data(items, folder_id)`: one row per item, in order; the first item that
      raises aborts the whole call. */
  function TransformAll(items: seq<Record>, folderId: Json): (r: Result<seq<QueueRow>, AttributeError>)
    ensures r.Failure? <==> exists i | 0 <= i < |items| :: ItemFaulty(items[i])
    ensures r.Success? ==> |r.value| == |items|
    ensures r.Success? ==>
              forall i | 0 <= i < |items| ::
                r.value[i].id == Get(items[i], "Id") && r.value[i].folderId == folderId
                && Consistent(r.value[i])
                && TransformItem(items[i], folderId) == Success(r.value[i])
  {
    var f := (item: Record, k: nat) => TransformItem(item, folderId);
    BatchSpec(f, items, 0);
    Batch(f, items, 0)
  }

  /** `transform_data`: the append loop. */
  method TransformData(items: seq<Record>, folderId: Json) returns (r: Result<seq<QueueRow>, AttributeError>)
    ensures r == TransformAll(items, folderId)
  {
    ghost var f := (item: Record, k: nat) => TransformItem(item, folderId);
    var transformed: seq<QueueRow> := [];
    var i := 0;
    while i < |items|
      invariant 0 <= i <= |items|
      invariant Batch(f, items[..i], 0) == Success(transformed)
    {
      var row := TransformItem(items[i], folderId);
      BatchStep(f, items, 0, i);
      if row.Failure? {
        BatchFailureSticks(f, items, 0, i + 1);
        return Failure(row.error);
      }
      transformed := transformed + [row.value];
      i := i + 1;
    }
    assert items[..i] == items;
    return Success(transformed);
  }

  // ---- Jobs ----------------------------------------------------------------------------

  /** How one job column is computed from the upstream job. */
  datatype Rule =
    | NewId            // str(uuid.uuid4())
    | Copy(key: string)     // job.get(key)
    | Date(key: string)     // clean_date(job.get(key))
    | Encoded(key: string)  // to_json(job.get(key))
    | Flag(key: string)     // to_int_bool(job.get(key))

  datatype Column = Column(name: string, rule: Rule)

  const JobColumnCount: nat := 63

  /** A job row: one value per entry of the job dictionary. */
  type JobRow = r: seq<Json> | |r| == JobColumnCount witness seq(63, _ => JNull)

  /** The dictionary `transform_jobs` builds, entry by entry, in its written order. */
  function JobColumn(i: nat): Column
    requires i < JobColumnCount
  {
    match i
    case 0 => Column("id", NewId)
    case 1 => Column("folder_id", Copy("OrganizationUnitId"))
    case 2 => Column("key_uuid", Copy("Key"))
    case 3 => Column("folder_key", Copy("FolderKey"))
    case 4 => Column("start_time", Date("StartTime"))
    case 5 => Column("end_time", Date("EndTime"))
    case 6 => Column("state", Copy("State"))
    case 7 => Column("sub_state", Copy("SubState"))
    case 8 => Column("job_priority", Copy("JobPriority"))
    case 9 => Column("specific_priority_value", Copy("SpecificPriorityValue"))
    case 10 => Column("resource_overwrites", Encoded("ResourceOverwrites"))
    case 11 => Column("source", Copy("Source"))
    case 12 => Column("source_type", Copy("SourceType"))
    case 13 => Column("batch_execution_key", Copy("BatchExecutionKey"))
    case 14 => Column("info", Copy("Info"))
    case 15 => Column("creation_time", Date("CreationTime"))
    case 16 => Column("starting_schedule_id", Copy("StartingScheduleId"))
    case 17 => Column("release_name", Copy("ReleaseName"))
    case 18 => Column("type", Copy("Type"))
    case 19 => Column("input_arguments", Encoded("InputArguments"))
    case 20 => Column("input_file", Copy("InputFile"))
    case 21 => Column("environment_variables", Copy("EnvironmentVariables"))
    case 22 => Column("output_arguments", Encoded("OutputArguments"))
    case 23 => Column("output_file", Copy("OutputFile"))
    case 24 => Column("host_machine_name", Copy("HostMachineName"))
    case 25 => Column("has_media_recorded", Flag("HasMediaRecorded"))
    case 26 => Column("has_video_recorded", Flag("HasVideoRecorded"))
    case 27 => Column("persistence_id", Copy("PersistenceId"))
    case 28 => Column("resume_version", Copy("ResumeVersion"))
    case 29 => Column("stop_strategy", Copy("StopStrategy"))
    case 30 => Column("runtime_type", Copy("RuntimeType"))
    case 31 => Column("requires_user_interaction", Flag("RequiresUserInteraction"))
    case 32 => Column("release_version_id", Copy("ReleaseVersionId"))
    case 33 => Column("entry_point_path", Copy("EntryPointPath"))
    case 34 => Column("organization_unit_id", Copy("OrganizationUnitId"))
    case 35 => Column("organization_unit_fqn", Copy("OrganizationUnitFullyQualifiedName"))
    case 36 => Column("reference", Copy("Reference"))
    case 37 => Column("process_type", Copy("ProcessType"))
    case 38 => Column("target_runtime", Copy("TargetRuntime"))
    case 39 => Column("profiling_options", Encoded("ProfilingOptions"))
    case 40 => Column("resume_on_same_context", Flag("ResumeOnSameContext"))
    case 41 => Column("local_system_account", Copy("LocalSystemAccount"))
    case 42 => Column("orchestrator_user_identity", Copy("OrchestratorUserIdentity"))
    case 43 => Column("remote_control_access", Copy("RemoteControlAccess"))
    case 44 => Column("starting_trigger_id", Copy("StartingTriggerId"))
    case 45 => Column("max_expected_running_time_seconds", Copy("MaxExpectedRunningTimeSeconds"))
    case 46 => Column("serverless_job_type", Copy("ServerlessJobType"))
    case 47 => Column("parent_job_key", Copy("ParentJobKey"))
    case 48 => Column("resume_time", Date("ResumeTime"))
    case 49 => Column("last_modification_time", Date("LastModificationTime"))
    case 50 => Column("error_code", Copy("ErrorCode"))
    case 51 => Column("fps_properties", Encoded("FpsProperties"))
    case 52 => Column("trace_id", Copy("TraceId"))
    case 53 => Column("parent_span_id", Copy("ParentSpanId"))
    case 54 => Column("root_span_id", Copy("RootSpanId"))
    case 55 => Column("parent_context", Encoded("ParentContext"))
    case 56 => Column("project_key", Copy("ProjectKey"))
    case 57 => Column("creator_user_key", Copy("CreatorUserKey"))
    case 58 => Column("parent_operation_id", Copy("ParentOperationId"))
    case 59 => Column("enable_autopilot_healing", Flag("EnableAutopilotHealing"))
    case 60 => Column("fps_context", Encoded("FpsContext"))
    case 61 => Column("auto_heal_status", Copy("AutoHealStatus"))
    case 62 => Column("autopilot_for_robots", Copy("AutopilotForRobots"))
  }

  /** `to_int_bool`: None and falsy values give 0, truthy values 1. */
  function ToIntBool(v: Json): (b: int)
    ensures b == 0 || b == 1
    ensures b == 1 <==> Truthy(v)
  {
    if v.JNull? then 0 else if Truthy(v) then 1 else 0
  }

  /** `to_json`: None stays None, anything else is encoded. */
  function ToJson(v: Json, codec: Codec): (r: Json)
    ensures r.JNull? <==> v.JNull?
    ensures !v.JNull? ==> r == JStr(codec.dumps(v))
  {
    if v.JNull? then JNull else JStr(codec.dumps(v))
  }

  /** When the entry with this rule can be evaluated without raising: only `clean_date`
      raises, on a faulty field. */
  predicate CellDefined(rule: Rule, job: Record) {
    rule.Date? ==> !Faulty(Get(job, rule.key))
  }

  /** The value one dictionary entry of `transform_jobs` evaluates to. */
  function Cell(rule: Rule, job: Record, id: string, codec: Codec): (v: Json)
    requires CellDefined(rule, job)
    ensures rule.NewId? ==> v == JStr(id)
    ensures rule.Copy? ==> v == Get(job, rule.key)
    ensures rule.Flag? ==> (v == JInt(0) || v == JInt(1)) && (v == JInt(1) <==> Truthy(Get(job, rule.key)))
    ensures rule.Encoded? ==> (v.JNull? <==> Get(job, rule.key).JNull?)
    ensures rule.Date? ==>
              var parsed := ParseDt(Get(job, rule.key)).value;
              && (v.JNull? <==> parsed.None?)
              && (!v.JNull? ==> v.JStr? && IsStoredLayout(v.s) && ParseIso(v.s) == parsed)
  {
    match rule
    case NewId => JStr(id)
    case Copy(k) => Get(job, k)
    case Date(k) =>
      var d := CleanDate(Get(job, k)).value;
      if d.Some? then JStr(d.value) else JNull
    case Encoded(k) => ToJson(Get(job, k), codec)
    case Flag(k) => JInt(ToIntBool(Get(job, k)))
  }

  /** The five entries that go through `clean_date`. */
  lemma DateColumns()
    ensures forall i | 0 <= i < JobColumnCount ::
              JobColumn(i).rule.Date? <==> i == 4 || i == 5 || i == 15 || i == 48 || i == 49
    ensures JobColumn(4).rule == Date("StartTime") && JobColumn(5).rule == Date("EndTime")
    ensures JobColumn(15).rule == Date("CreationTime") && JobColumn(48).rule == Date("ResumeTime")
    ensures JobColumn(49).rule == Date("LastModificationTime")
  {
  }

  /** A job whose date fields make `transform_jobs` raise. */
  predicate JobFaulty(job: Record) {
    Faulty(Get(job, "StartTime")) || Faulty(Get(job, "EndTime"))
    || Faulty(Get(job, "CreationTime")) || Faulty(Get(job, "ResumeTime"))
    || Faulty(Get(job, "LastModificationTime"))
  }

  /** Every entry of a job that is not faulty can be evaluated. */
  lemma CellsDefined(job: Record)
    requires !JobFaulty(job)
    ensures forall i | 0 <= i < JobColumnCount :: CellDefined(JobColumn(i).rule, job)
  {
    DateColumns();
  }

  /** The dictionary of a job that is not faulty, entry by entry. */
  function JobCells(job: Record, id: string, codec: Codec): (row: JobRow)
    requires !JobFaulty(job)
  {
    CellsDefined(job);
    seq(JobColumnCount, i requires 0 <= i < JobColumnCount => Cell(JobColumn(i).rule, job, id, codec))
  }

  /** One job row: the values of the 63 dictionary entries, by position. Python evaluates the
      entries in order, and the first `clean_date` that raises aborts the row with the
      AttributeError of its field; `JobFirstFault` shows the order below is that one. */
  function TransformJob(job: Record, id: string, codec: Codec): (r: Result<JobRow, AttributeError>)
    ensures r.Failure? <==> JobFaulty(job)
    ensures r.Success? ==> r.value[0] == JStr(id)
  {
    var start := Get(job, "StartTime");
    var end := Get(job, "EndTime");
    var creation := Get(job, "CreationTime");
    var resume := Get(job, "ResumeTime");
    var modified := Get(job, "LastModificationTime");
    if Faulty(start) then Failure(NoReplace(start))
    else if Faulty(end) then Failure(NoReplace(end))
    else if Faulty(creation) then Failure(NoReplace(creation))
    else if Faulty(resume) then Failure(NoReplace(resume))
    else if Faulty(modified) then Failure(NoReplace(modified))
    else Success(JobCells(job, id, codec))
  }

  /** A row that raises does so with the error `clean_date` raises on the first date entry,
      in dictionary order, whose field is faulty; every entry before it evaluates. */
  lemma JobFirstFault(job: Record, id: string, codec: Codec)
    requires TransformJob(job, id, codec).Failure?
    ensures exists i | 0 <= i < JobColumnCount ::
              && JobColumn(i).rule.Date?
              && CleanDate(Get(job, JobColumn(i).rule.key)) == Failure(TransformJob(job, id, codec).error)
              && forall j | 0 <= j < i :: CellDefined(JobColumn(j).rule, job)
  {
    DateColumns();
    var i: nat :=
      if Faulty(Get(job, "StartTime")) then 4
      else if Faulty(Get(job, "EndTime")) then 5
      else if Faulty(Get(job, "CreationTime")) then 15
      else if Faulty(Get(job, "ResumeTime")) then 48
      else 49;
    assert CleanDate(Get(job, JobColumn(i).rule.key)) == Failure(TransformJob(job, id, codec).error);
    assert forall j | 0 <= j < i :: CellDefined(JobColumn(j).rule, job);
  }

  /** Column i of a successful job row is the cell its rule computes from the job. */
  lemma JobRowCells(job: Record, id: string, codec: Codec)
    requires TransformJob(job, id, codec).Success?
    ensures forall i | 0 <= i < JobColumnCount ::
              CellDefined(JobColumn(i).rule, job)
              && TransformJob(job, id, codec).value[i] == Cell(JobColumn(i).rule, job, id, codec)
  {
    CellsDefined(job);
    assert TransformJob(job, id, codec).value == JobCells(job, id, codec);
  }

  /** A date column of a successful job row is null exactly when the field parses to None,
      and otherwise holds the stored layout of the parsed instant, which parses back to it. */
  lemma JobRowDates(job: Record, id: string, codec: Codec)
    requires TransformJob(job, id, codec).Success?
    ensures var row := TransformJob(job, id, codec).value;
            forall i | 0 <= i < JobColumnCount && JobColumn(i).rule.Date? ::
              && CellDefined(JobColumn(i).rule, job)
              && var parsed := ParseDt(Get(job, JobColumn(i).rule.key)).value;
              && (row[i].JNull? <==> parsed.None?)
              && (!row[i].JNull? ==> row[i].JStr? && IsStoredLayout(row[i].s) && ParseIso(row[i].s) == parsed)
  {
    JobRowCells(job, id, codec);
  }

  /** What a successful job row holds: `folder_id` and `organization_unit_id` both copy
      OrganizationUnitId, the boolean columns are 0 or 1, and a JSON column is null exactly
      when the field is absent or null. */
  lemma JobRowColumns(job: Record, id: string, codec: Codec)
    requires TransformJob(job, id, codec).Success?
    ensures var row := TransformJob(job, id, codec).value;
            && JobColumn(1).name == "folder_id" && JobColumn(34).name == "organization_unit_id"
            && row[1] == row[34] == Get(job, "OrganizationUnitId")
            && (forall i | 0 <= i < JobColumnCount && JobColumn(i).rule.Flag? ::
                  row[i] == JInt(0) || row[i] == JInt(1))
            && (forall i | 0 <= i < JobColumnCount && JobColumn(i).rule.Encoded? ::
                  (row[i].JNull? <==> Get(job, JobColumn(i).rule.key).JNull?))
  {
    var row := TransformJob(job, id, codec).value;
    JobRowCells(job, id, codec);
    assert row[1] == Cell(JobColumn(1).rule, job, id, codec);
    assert row[34] == Cell(JobColumn(34).rule, job, id, codec);
  }

  /** `transform_jobs(jobs)` when the k-th call of `uuid4` returns `uuid(k)` and `first` calls
      were made before: job i gets `uuid(first + i)`; the first job that raises aborts. */
  function TransformJobsAll(jobs: seq<Record>, uuid: nat -> string, first: nat, codec: Codec)
    : (r: Result<seq<JobRow>, AttributeError>)
    ensures r.Success? ==> |r.value| == |jobs|
  {
    Batch((job: Record, k: nat) => TransformJob(job, uuid(k), codec), jobs, first)
  }

  /** Row i of a successful batch is job i transformed with the id of draw `first + i`. */
  lemma JobBatchRows(jobs: seq<Record>, uuid: nat -> string, first: nat, codec: Codec)
    requires TransformJobsAll(jobs, uuid, first, codec).Success?
    ensures forall i | 0 <= i < |jobs| ::
              TransformJob(jobs[i], uuid(first + i), codec) == Success(TransformJobsAll(jobs, uuid, first, codec).value[i])
  {
    var f := (job: Record, k: nat) => TransformJob(job, uuid(k), codec);
    assert TransformJobsAll(jobs, uuid, first, codec) == Batch(f, jobs, first);
    BatchSpec(f, jobs, first);
    forall i | 0 <= i < |jobs|
      ensures TransformJob(jobs[i], uuid(first + i), codec) == Success(TransformJobsAll(jobs, uuid, first, codec).value[i])
    {
      assert f(jobs[i], first + i) == TransformJob(jobs[i], uuid(first + i), codec);
    }
  }

  /** Job i of a batch carries id `uuid(first + i)`, so when `uuid4` never repeats the jobs of
      one batch get pairwise different ids. */
  lemma FreshJobIds(jobs: seq<Record>, uuid: nat -> string, first: nat, codec: Codec)
    requires TransformJobsAll(jobs, uuid, first, codec).Success?
    ensures var rows := TransformJobsAll(jobs, uuid, first, codec).value;
            forall i | 0 <= i < |jobs| :: rows[i][0] == JStr(uuid(first + i))
    ensures (forall a: nat, b: nat :: uuid(a) == uuid(b) ==> a == b) ==>
              var rows := TransformJobsAll(jobs, uuid, first, codec).value;
              forall i, j | 0 <= i < j < |jobs| :: rows[i][0] != rows[j][0]
  {
    JobBatchRows(jobs, uuid, first, codec);
  }

  /** An empty batch transforms to no rows. */
  lemma EmptyBatches(folderId: Json, uuid: nat -> string, first: nat, codec: Codec)
    ensures TransformAll([], folderId) == Success([])
    ensures TransformJobsAll([], uuid, first, codec) == Success([])
  {
  }

  /** A job batch raises exactly when one of its jobs has a faulty date field. */
  lemma JobBatchFails(jobs: seq<Record>, uuid: nat -> string, first: nat, codec: Codec)
    ensures TransformJobsAll(jobs, uuid, first, codec).Failure? <==> exists i | 0 <= i < |jobs| :: JobFaulty(jobs[i])
  {
    var f := (job: Record, k: nat) => TransformJob(job, uuid(k), codec);
    assert TransformJobsAll(jobs, uuid, first, codec) == Batch(f, jobs, first);
    BatchSpec(f, jobs, first);
    if TransformJobsAll(jobs, uuid, first, codec).Failure? {
      var i :| 0 <= i < |jobs| && f(jobs[i], first + i).Failure?;
      assert TransformJob(jobs[i], uuid(first + i), codec).Failure?;
    } else {
      forall i | 0 <= i < |jobs| ensures !JobFaulty(jobs[i]) {
        assert f(jobs[i], first + i).Success?;
        assert TransformJob(jobs[i], uuid(first + i), codec).Success?;
      }
    }
  }

  /** The number of `uuid4` calls `transform_jobs(jobs)` makes: `"id"` is the first entry of
      each job's dictionary, so every job up to and including the first faulty one draws. */
  function Draws(jobs: seq<Record>): (n: nat)
    ensures n <= |jobs|
  {
    if jobs == [] then 0
    else if JobFaulty(jobs[0]) then 1
    else 1 + Draws(jobs[1..])
  }

  /** A batch with no faulty job draws once per job; one that raises at job k has drawn
      k + 1 times. */
  lemma {:induction false} DrawsFirstFault(jobs: seq<Record>, k: nat)
    ensures (forall i | 0 <= i < |jobs| :: !JobFaulty(jobs[i])) ==> Draws(jobs) == |jobs|
    ensures k < |jobs| && JobFaulty(jobs[k]) && (forall j | 0 <= j < k :: !JobFaulty(jobs[j])) ==>
              Draws(jobs) == k + 1
  {
    if jobs != [] && !JobFaulty(jobs[0]) {
      assert forall i | 0 <= i < |jobs[1..]| :: jobs[1..][i] == jobs[i + 1];
      DrawsFirstFault(jobs[1..], if k == 0 then 0 else k - 1);
    }
  }

  /** A batch that transforms without raising has drawn one id per row. */
  lemma DrawsOfSuccess(jobs: seq<Record>, uuid: nat -> string, first: nat, codec: Codec)
    requires TransformJobsAll(jobs, uuid, first, codec).Success?
    ensures Draws(jobs) == |TransformJobsAll(jobs, uuid, first, codec).value|
  {
    JobBatchFails(jobs, uuid, first, codec);
    DrawsFirstFault(jobs, 0);
  }

  /** The draws of a batch are those of the jobs before position i, none of them faulty,
      followed by those of the rest. */
  lemma DrawsSplit(jobs: seq<Record>, i: nat)
    requires i < |jobs| && !JobFaulty(jobs[i])
    ensures Draws(jobs[i..]) == 1 + Draws(jobs[i + 1..])
  {
    assert jobs[i..][1..] == jobs[i + 1..];
  }

  /** `transform_jobs`: the append loop; `used` is the number of `uuid4` calls it made. */
  method TransformJobs(jobs: seq<Record>, uuid: nat -> string, first: nat, codec: Codec)
    returns (r: Result<seq<JobRow>, AttributeError>, used: nat)
    ensures r == TransformJobsAll(jobs, uuid, first, codec)
    ensures used == Draws(jobs)
  {
    ghost var f := (job: Record, k: nat) => TransformJob(job, uuid(k), codec);
    var transformed: seq<JobRow> := [];
    var i := 0;
    while i < |jobs|
      invariant 0 <= i <= |jobs|
      invariant Batch(f, jobs[..i], first) == Success(transformed)
      invariant Draws(jobs) == i + Draws(jobs[i..])
    {
      var row := TransformJob(jobs[i], uuid(first + i), codec);
      BatchStep(f, jobs, first, i);
      if row.Failure? {
        BatchFailureSticks(f, jobs, first, i + 1);
        return Failure(row.error), i + 1;
      }
      DrawsSplit(jobs, i);
      transformed := transformed + [row.value];
      i := i + 1;
    }
    assert jobs[..i] == jobs;
    return Success(transformed), i;
  }
}
