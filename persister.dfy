/** `insert_data` and `insert_jobs` as upserts on a table that maps a primary key to a row.
    A batch is applied row by row, in order, the way MySQL applies the rows of one
    `INSERT ... ON DUPLICATE KEY UPDATE`. */
module Persister {
  import opened Wrappers
  import opened Json
  import opened Transform

  // ---- queue_items ---------------------------------------------------------------------

  /** The `queue_items` table, keyed by the upstream item id. */
  type QueueTable = map<Json, QueueRow>

  /** The ON DUPLICATE KEY UPDATE clause of `insert_data`: status, start_processing,
      end_processing, run_duration and waiting_duration come from the new row, every other
      column keeps the stored value. */
  function Merge(stored: QueueRow, incoming: QueueRow): (m: QueueRow)
    ensures m.status == incoming.status
    ensures m.startProcessing == incoming.startProcessing && m.endProcessing == incoming.endProcessing
    ensures m.runDuration == incoming.runDuration && m.waitingDuration == incoming.waitingDuration
    ensures m.(status := stored.status, startProcessing := stored.startProcessing,
               endProcessing := stored.endProcessing, runDuration := stored.runDuration,
               waitingDuration := stored.waitingDuration) == stored
  {
    stored.(status := incoming.status, startProcessing := incoming.startProcessing,
            endProcessing := incoming.endProcessing, runDuration := incoming.runDuration,
            waitingDuration := incoming.waitingDuration)
  }

  /** Merging twice is merging with the later row; merging a row with itself changes nothing. */
  lemma MergeAbsorbs(stored: QueueRow, a: QueueRow, b: QueueRow)
    ensures Merge(Merge(stored, a), b) == Merge(stored, b)
    ensures Merge(a, a) == a
  {
  }

  /** The update keeps the run duration in step with the stored start and end, because all
      three are overwritten together. The waiting duration is kept in step only when the
      incoming row carries the stored creation time, since creation_time is not updated. */
  lemma MergeConsistent(stored: QueueRow, incoming: QueueRow)
    requires Consistent(incoming)
    ensures DurationAgrees(Merge(stored, incoming).runDuration, Merge(stored, incoming).startProcessing,
                           Merge(stored, incoming).endProcessing)
    ensures incoming.creationTime == stored.creationTime ==> Consistent(Merge(stored, incoming))
  {
  }

  /** One row of the batch: a new id is inserted, a known id is merged. */
  function UpsertRow(t: QueueTable, row: QueueRow): (r: QueueTable)
    ensures r.Keys == t.Keys + {row.id}
    ensures row.id !in t ==> r[row.id] == row && |r| == |t| + 1
    ensures row.id in t ==> r[row.id] == Merge(t[row.id], row) && |r| == |t|
    ensures forall k | k in t && k != row.id :: r[k] == t[k]
  {
    if row.id in t then t[row.id := Merge(t[row.id], row)] else t[row.id := row]
  }

  /** The ids a batch mentions. */
  function Ids(rows: seq<QueueRow>): set<Json> {
    set i | 0 <= i < |rows| :: rows[i].id
  }

  lemma IdsSnoc(rows: seq<QueueRow>)
    requires rows != []
    ensures Ids(rows) == Ids(rows[..|rows| - 1]) + {rows[|rows| - 1].id}
  {
    var init := rows[..|rows| - 1];
    forall k | k in Ids(rows) ensures k in Ids(init) + {rows[|rows| - 1].id} {
      var i :| 0 <= i < |rows| && rows[i].id == k;
      if i < |rows| - 1 {
        assert init[i].id == k;
      }
    }
    forall k | k in Ids(init) ensures k in Ids(rows) {
      var i :| 0 <= i < |init| && init[i].id == k;
      assert rows[i].id == k;
    }
  }

  /** The table after the whole batch, applied in order. */
  function Upsert(t: QueueTable, rows: seq<QueueRow>): QueueTable {
    if rows == [] then t else UpsertRow(Upsert(t, rows[..|rows| - 1]), rows[|rows| - 1])
  }

  /** The first and the last row of the batch that carry id `k`. */
  function FirstWith(rows: seq<QueueRow>, k: Json): (r: QueueRow)
    requires k in Ids(rows)
    ensures r.id == k
  {
    IdsSnoc(rows);
    if k in Ids(rows[..|rows| - 1]) then FirstWith(rows[..|rows| - 1], k) else rows[|rows| - 1]
  }

  function LastWith(rows: seq<QueueRow>, k: Json): (r: QueueRow)
    requires k in Ids(rows)
    ensures r.id == k
  {
    IdsSnoc(rows);
    if rows[|rows| - 1].id == k then rows[|rows| - 1] else LastWith(rows[..|rows| - 1], k)
  }

  /** What the batch leaves under each key: ids the batch does not mention keep their row;
      a mentioned id holds its base row (the stored one, or the first row of the batch with
      that id) with the allow-list columns of the last row of the batch with that id. */
  lemma {:induction false} UpsertAt(t: QueueTable, rows: seq<QueueRow>, k: Json)
    ensures k in Upsert(t, rows) <==> k in t || k in Ids(rows)
    ensures k !in Ids(rows) && k in t ==> Upsert(t, rows)[k] == t[k]
    ensures k in Ids(rows) ==>
              Upsert(t, rows)[k] == Merge(if k in t then t[k] else FirstWith(rows, k), LastWith(rows, k))
  {
    if rows != [] {
      var init := rows[..|rows| - 1];
      var last := rows[|rows| - 1];
      IdsSnoc(rows);
      UpsertAt(t, init, k);
      if k == last.id && k in Ids(init) {
        var base := if k in t then t[k] else FirstWith(init, k);
        MergeAbsorbs(base, LastWith(init, k), last);
      } else if k == last.id {
        MergeAbsorbs(last, last, last);
      }
    }
  }

  /** The key set after a batch: the stored ids plus the batch's ids. */
  lemma UpsertKeys(t: QueueTable, rows: seq<QueueRow>)
    ensures Upsert(t, rows).Keys == t.Keys + Ids(rows)
  {
    forall k ensures k in Upsert(t, rows) <==> k in t || k in Ids(rows) {
      UpsertAt(t, rows, k);
    }
  }

  /** Re-upserting the same batch leaves the table unchanged. */
  lemma UpsertIdempotent(t: QueueTable, rows: seq<QueueRow>)
    ensures Upsert(Upsert(t, rows), rows) == Upsert(t, rows)
  {
    var once := Upsert(t, rows);
    var twice := Upsert(once, rows);
    forall k | k in twice ensures k in once && twice[k] == once[k] {
      UpsertAt(once, rows, k);
      UpsertAt(t, rows, k);
      if k in Ids(rows) {
        MergeAbsorbs(if k in t then t[k] else FirstWith(rows, k), LastWith(rows, k), LastWith(rows, k));
      }
    }
    forall k | k in once ensures k in twice {
      UpsertAt(once, rows, k);
    }
  }

  /** Upserting two batches one after the other is upserting their concatenation, so the
      per-folder writes of a run add up to one write of everything the run returns. */
  lemma {:induction false} UpsertAppend(t: QueueTable, a: seq<QueueRow>, b: seq<QueueRow>)
    ensures Upsert(t, a + b) == Upsert(Upsert(t, a), b)
    decreases |b|
  {
    if b == [] {
      assert a + b == a;
    } else {
      var b' := b[..|b| - 1];
      assert (a + b)[..|a + b| - 1] == a + b';
      UpsertAppend(t, a, b');
    }
  }

  /** The upsert touches only the allow-list columns of rows already stored: an update cannot
      rewrite an id, a queue, a folder, a key, a reference, a priority, a defer date, an attempt
      count or a creation time that was stored before. */
  lemma UpsertKeepsFirstWritten(t: QueueTable, rows: seq<QueueRow>, k: Json)
    requires k in t
    ensures k in Upsert(t, rows)
    ensures var u := Upsert(t, rows)[k];
            && u.id == t[k].id && u.queueDefinitionId == t[k].queueDefinitionId
            && u.folderId == t[k].folderId && u.key == t[k].key && u.reference == t[k].reference
            && u.priority == t[k].priority && u.deferDate == t[k].deferDate
            && u.secondsPrevAttempts == t[k].secondsPrevAttempts
            && u.retryNumber == t[k].retryNumber && u.creationTime == t[k].creationTime
            && u.orgUnitId == t[k].orgUnitId
  {
    UpsertAt(t, rows, k);
  }

  // ---- jobs ----------------------------------------------------------------------------

  /** The `jobs` table, keyed by the generated id in column 0. */
  type JobTable = map<Json, JobRow>

  /** The column list `insert_jobs` names, in its written order. */
  function InsertColumn(i: nat): string
    requires i < JobColumnCount
  {
    match i
    case 0 => "id"
    case 1 => "folder_id"
    case 2 => "key_uuid"
    case 3 => "folder_key"
    case 4 => "start_time"
    case 5 => "end_time"
    case 6 => "state"
    case 7 => "sub_state"
    case 8 => "job_priority"
    case 9 => "specific_priority_value"
    case 10 => "resource_overwrites"
    case 11 => "source"
    case 12 => "source_type"
    case 13 => "batch_execution_key"
    case 14 => "info"
    case 15 => "creation_time"
    case 16 => "starting_schedule_id"
    case 17 => "release_name"
    case 18 => "type"
    case 19 => "input_arguments"
    case 20 => "input_file"
    case 21 => "environment_variables"
    case 22 => "output_arguments"
    case 23 => "output_file"
    case 24 => "host_machine_name"
    case 25 => "has_media_recorded"
    case 26 => "has_video_recorded"
    case 27 => "persistence_id"
    case 28 => "resume_version"
    case 29 => "stop_strategy"
    case 30 => "runtime_type"
    case 31 => "requires_user_interaction"
    case 32 => "release_version_id"
    case 33 => "entry_point_path"
    case 34 => "organization_unit_id"
    case 35 => "organization_unit_fqn"
    case 36 => "reference"
    case 37 => "process_type"
    case 38 => "target_runtime"
    case 39 => "profiling_options"
    case 40 => "resume_on_same_context"
    case 41 => "local_system_account"
    case 42 => "orchestrator_user_identity"
    case 43 => "remote_control_access"
    case 44 => "starting_trigger_id"
    case 45 => "max_expected_running_time_seconds"
    case 46 => "serverless_job_type"
    case 47 => "parent_job_key"
    case 48 => "resume_time"
    case 49 => "last_modification_time"
    case 50 => "error_code"
    case 51 => "fps_properties"
    case 52 => "trace_id"
    case 53 => "parent_span_id"
    case 54 => "root_span_id"
    case 55 => "parent_context"
    case 56 => "project_key"
    case 57 => "creator_user_key"
    case 58 => "parent_operation_id"
    case 59 => "enable_autopilot_healing"
    case 60 => "fps_context"
    case 61 => "auto_heal_status"
    case 62 => "autopilot_for_robots"
  }

  /** The placeholders of the INSERT name the dictionary keys of `transform_jobs` position
      by position, so a job row's i-th value lands in the i-th listed column. */
  lemma ColumnsAligned()
    ensures forall i | 0 <= i < JobColumnCount :: JobColumn(i).name == InsertColumn(i)
  {
  }

  /** The ON DUPLICATE KEY UPDATE clause of `insert_jobs`: every column but `id` comes from
      the new row. */
  function JobMerge(stored: JobRow, incoming: JobRow): JobRow
  {
    [stored[0]] + incoming[1..]
  }

  /** The merged row keeps the stored id and takes every other column from the new row, so
      merging a row into one with the same id gives the new row. */
  lemma JobMergeColumns(stored: JobRow, incoming: JobRow)
    ensures JobMerge(stored, incoming)[0] == stored[0]
    ensures forall i | 1 <= i < JobColumnCount :: JobMerge(stored, incoming)[i] == incoming[i]
    ensures stored[0] == incoming[0] ==> JobMerge(stored, incoming) == incoming
  {
    if stored[0] == incoming[0] {
      assert JobMerge(stored, incoming) == incoming by {
        assert forall i | 0 <= i < JobColumnCount :: JobMerge(stored, incoming)[i] == incoming[i];
      }
    }
  }

  /** Every stored job row is filed under its own id. */
  predicate WellFormedJobs(t: JobTable) {
    forall k | k in t :: t[k][0] == k
  }

  /** One job row: inserted under its id, or merged into the stored row with that id; on a
      well-formed table the stored row ends up equal to the new one. */
  function UpsertJob(t: JobTable, row: JobRow): (r: JobTable)
    ensures r.Keys == t.Keys + {row[0]}
    ensures row[0] !in t ==> r[row[0]] == row && |r| == |t| + 1
    ensures row[0] in t ==> |r| == |t|
  {
    if row[0] in t then t[row[0] := JobMerge(t[row[0]], row)] else t[row[0] := row]
  }

  /** Rows under other ids are left alone. */
  lemma UpsertJobOthers(t: JobTable, row: JobRow)
    ensures forall k | k in t && k != row[0] :: UpsertJob(t, row)[k] == t[k]
  {
  }

  /** A row filed under its own id replaces the stored row with that id entirely. */
  lemma UpsertJobReplaces(t: JobTable, row: JobRow)
    requires WellFormedJobs(t)
    ensures WellFormedJobs(UpsertJob(t, row)) && UpsertJob(t, row)[row[0]] == row
  {
    if row[0] in t {
      JobMergeColumns(t[row[0]], row);
    }
  }

  /** A job batch, applied row by row in order. */
  function UpsertJobs(t: JobTable, rows: seq<JobRow>): JobTable {
    UpsertFirstJobs(t, rows, |rows|)
  }

  /** The first `n` rows of the batch, applied in order. */
  function UpsertFirstJobs(t: JobTable, rows: seq<JobRow>, n: nat): JobTable
    requires n <= |rows|
  {
    if n == 0 then t else UpsertJob(UpsertFirstJobs(t, rows, n - 1), rows[n - 1])
  }

  lemma {:induction false} UpsertFirstJobsPrefix(t: JobTable, rows: seq<JobRow>, m: nat, n: nat)
    requires n <= m <= |rows|
    ensures UpsertFirstJobs(t, rows[..m], n) == UpsertFirstJobs(t, rows, n)
    decreases n
  {
    if n > 0 {
      UpsertFirstJobsPrefix(t, rows, m, n - 1);
      assert rows[..m][n - 1] == rows[n - 1];
    }
  }

  /** A non-empty batch is its prefix followed by its last row. */
  lemma UpsertJobsLast(t: JobTable, rows: seq<JobRow>)
    requires rows != []
    ensures UpsertJobs(t, rows) == UpsertJob(UpsertJobs(t, rows[..|rows| - 1]), rows[|rows| - 1])
  {
    var n := |rows| - 1;
    UpsertFirstJobsPrefix(t, rows, n, n);
    assert |rows[..n]| == n;
    assert UpsertJobs(t, rows[..n]) == UpsertFirstJobs(t, rows, n);
  }

  lemma {:induction false} UpsertJobsWellFormed(t: JobTable, rows: seq<JobRow>)
    requires WellFormedJobs(t)
    ensures WellFormedJobs(UpsertJobs(t, rows))
  {
    if rows != [] {
      UpsertJobsLast(t, rows);
      UpsertJobsWellFormed(t, rows[..|rows| - 1]);
      UpsertJobReplaces(UpsertJobs(t, rows[..|rows| - 1]), rows[|rows| - 1]);
    }
  }

  lemma UpsertJobsAppendLast(t: JobTable, a: seq<JobRow>, b: seq<JobRow>)
    requires b != []
    ensures UpsertJobs(t, a + b) == UpsertJob(UpsertJobs(t, a + b[..|b| - 1]), b[|b| - 1])
  {
    UpsertJobsLast(t, a + b);
    assert (a + b)[..|a + b| - 1] == a + b[..|b| - 1];
  }

  /** Upserting two job batches one after the other is upserting their concatenation. */
  lemma {:induction false} UpsertJobsAppend(t: JobTable, a: seq<JobRow>, b: seq<JobRow>)
    ensures UpsertJobs(t, a + b) == UpsertJobs(UpsertJobs(t, a), b)
    decreases |b|
  {
    if b == [] {
      assert a + b == a;
    } else {
      var b' := b[..|b| - 1];
      var last := b[|b| - 1];
      calc {
        UpsertJobs(t, a + b);
      == { UpsertJobsAppendLast(t, a, b); }
        UpsertJob(UpsertJobs(t, a + b'), last);
      == { UpsertJobsAppend(t, a, b'); }
        UpsertJob(UpsertJobs(UpsertJobs(t, a), b'), last);
      == { UpsertJobsLast(UpsertJobs(t, a), b); }
        UpsertJobs(UpsertJobs(t, a), b);
      }
    }
  }

  /** Rows whose ids are new and pairwise different each add a row: re-running the job
      synchronisation with fresh ids grows the table by the batch size every time. */
  lemma {:induction false} JobsGrow(t: JobTable, rows: seq<JobRow>)
    requires forall i | 0 <= i < |rows| :: rows[i][0] !in t
    requires forall i, j | 0 <= i < j < |rows| :: rows[i][0] != rows[j][0]
    ensures |UpsertJobs(t, rows)| == |t| + |rows|
    ensures forall k | k in t :: k in UpsertJobs(t, rows) && UpsertJobs(t, rows)[k] == t[k]
    ensures forall i | 0 <= i < |rows| :: rows[i][0] in UpsertJobs(t, rows)
  {
    if rows != [] {
      var init := rows[..|rows| - 1];
      var last := rows[|rows| - 1];
      forall i | 0 <= i < |init| ensures init[i][0] !in t {
        assert init[i] == rows[i];
      }
      forall i, j | 0 <= i < j < |init| ensures init[i][0] != init[j][0] {
        assert init[i] == rows[i] && init[j] == rows[j];
      }
      JobsGrow(t, init);
      var before := UpsertJobs(t, init);
      assert last[0] !in before by {
        JobKeys(t, init);
        assert last[0] !in JobIds(init) by {
          forall i | 0 <= i < |init| ensures init[i][0] != last[0] {
            assert rows[i][0] != rows[|rows| - 1][0];
          }
        }
      }
      UpsertJobsLast(t, rows);
      UpsertJobOthers(before, last);
    }
    JobKeys(t, rows);
  }

  /** The ids a job batch carries. */
  function JobIds(rows: seq<JobRow>): (ids: set<Json>)
    ensures forall i | 0 <= i < |rows| :: rows[i][0] in ids
    ensures forall k | k in ids :: exists i | 0 <= i < |rows| :: rows[i][0] == k
  {
    if rows == [] then {}
    else
      var init := rows[..|rows| - 1];
      assert forall i | 0 <= i < |init| :: init[i] == rows[i];
      JobIds(init) + {rows[|rows| - 1][0]}
  }

  lemma {:induction false} JobKeys(t: JobTable, rows: seq<JobRow>)
    ensures UpsertJobs(t, rows).Keys == t.Keys + JobIds(rows)
  {
    if rows != [] {
      var init := rows[..|rows| - 1];
      var last := rows[|rows| - 1];
      calc {
        UpsertJobs(t, rows).Keys;
      == { UpsertJobsLast(t, rows); }
        UpsertJob(UpsertJobs(t, init), last).Keys;
      ==
        UpsertJobs(t, init).Keys + {last[0]};
      == { JobKeys(t, init); }
        t.Keys + JobIds(init) + {last[0]};
      ==
        t.Keys + JobIds(rows);
      }
    }
  }
}
