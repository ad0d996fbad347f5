/** `UiPathClient`: the configuration it loads, the upstream calls it makes, the database
    writes it issues, and the three run modes that tie them together.

    The network and the database are oracles. `Upstream` answers each HTTP call (None when
    the `requests` call raised), and `Database` holds the two tables the client writes, the
    configuration history it reads, and fault oracles that say what a failed statement left
    behind. */
module Client {
  import opened Wrappers
  import opened Json
  import opened Timestamps
  import opened Transform
  import opened Persister

  /** One row of `uipath_configuration`, and the six client fields it fills. */
  datatype Settings = Settings(baseUrl: Json, clientId: Json, clientSecret: Json, org: Json,
                               tenant: Json, scope: Json)

  /** `all([client_id, client_secret, org, tenant])`. */
  predicate Complete(s: Settings) {
    Truthy(s.clientId) && Truthy(s.clientSecret) && Truthy(s.org) && Truthy(s.tenant)
  }

  /** The headers `_get_headers` builds. */
  datatype Headers = Headers(authorization: string, contentType: string, organizationUnit: Option<string>)

  /** `_get_headers(org_unit_id)`: the bearer token always, the folder header only for a
      truthy folder id, written with `str`. */
  function MakeHeaders(token: Json, orgUnit: Json, codec: Codec): (h: Headers)
    ensures h.authorization == "Bearer " + PyStr(token, codec)
    ensures h.contentType == "application/json"
    ensures h.organizationUnit.Some? <==> Truthy(orgUnit)
    ensures h.organizationUnit.Some? ==> h.organizationUnit.value == PyStr(orgUnit, codec)
  {
    Headers("Bearer " + PyStr(token, codec), "application/json",
            if Truthy(orgUnit) then Some(PyStr(orgUnit, codec)) else None)
  }

  /** The upstream API. Each call sees the settings it is built from and the headers it
      sends; None means the call raised a `RequestException`. */
  datatype Upstream = Upstream(
    token: Settings -> Option<Json>,                      // the `access_token` of the reply
    folders: (Settings, Headers) -> Option<seq<Record>>,   // the `value` list of Folders
    queueItems: (Settings, Headers) -> Option<seq<Record>>,
    jobs: (Settings, Headers) -> Option<seq<Record>>)

  /** Why a run raised. */
  datatype Fault =
    | AuthenticationFailed
    | FolderListingFailed
    | BadTimestamp(error: AttributeError)

  /** What a run returns: None at the gate, an exception, or `{"value": rows}`. */
  datatype Outcome<T> = NotConfigured | Raised(fault: Fault) | Finished(value: seq<T>)

  // ---- The per-folder loop, on values --------------------------------------------------

  /** The rows a folder loop has written so far, and the error that stopped it, if any. */
  datatype Sync<T> = Sync(written: seq<T>, error: Option<AttributeError>)

  /** The loop of a run over `folders`: `step(folder, n)` transforms the folder's records,
      `n` being the number of rows produced before it; the rows of each folder are appended in
      folder order, and a folder that raises ends the loop with the rows written so far. */
  function FolderLoop<T>(step: (Record, nat) -> Result<seq<T>, AttributeError>, folders: seq<Record>)
    : (r: Sync<T>)
  {
    if folders == [] then Sync([], None)
    else
      var prev := FolderLoop(step, folders[..|folders| - 1]);
      if prev.error.Some? then prev
      else match step(folders[|folders| - 1], |prev.written|)
        case Failure(e) => Sync(prev.written, Some(e))
        case Success(rows) => Sync(prev.written + rows, None)
  }

  /** The rows of earlier folders come first: a loop over a prefix of the folders writes a
      prefix of the rows, and once a prefix raises, the whole loop ends the same way. */
  lemma {:induction false} FolderLoopPrefix<T>(step: (Record, nat) -> Result<seq<T>, AttributeError>,
                                               folders: seq<Record>, k: nat)
    requires k <= |folders|
    ensures FolderLoop(step, folders[..k]).written <= FolderLoop(step, folders).written
    ensures FolderLoop(step, folders[..k]).error.Some? ==>
              FolderLoop(step, folders) == FolderLoop(step, folders[..k])
    decreases |folders|
  {
    if k < |folders| {
      var init := folders[..|folders| - 1];
      assert init[..k] == folders[..k];
      FolderLoopPrefix(step, init, k);
    } else {
      assert folders[..k] == folders;
    }
  }

  /** One more folder: the loop over `folders[..i + 1]` continues the loop over
      `folders[..i]` with the step of folder `i`. */
  lemma FolderLoopStep<T>(step: (Record, nat) -> Result<seq<T>, AttributeError>,
                          folders: seq<Record>, i: nat, written: seq<T>)
    requires i < |folders|
    requires FolderLoop(step, folders[..i]) == Sync(written, None)
    ensures step(folders[i], |written|).Failure? ==>
              FolderLoop(step, folders[..i + 1]) == Sync(written, Some(step(folders[i], |written|).error))
    ensures step(folders[i], |written|).Success? ==>
              FolderLoop(step, folders[..i + 1]) == Sync(written + step(folders[i], |written|).value, None)
  {
    assert folders[..i + 1][..i] == folders[..i];
  }

  /** A loop that finishes has finished the loop over all but its last folder, and appended
      the last folder's rows to what that wrote. */
  lemma FolderLoopLast<T>(step: (Record, nat) -> Result<seq<T>, AttributeError>, folders: seq<Record>)
    requires folders != [] && FolderLoop(step, folders).error.None?
    ensures var prev := FolderLoop(step, folders[..|folders| - 1]);
            && prev.error.None?
            && step(folders[|folders| - 1], |prev.written|).Success?
            && FolderLoop(step, folders).written == prev.written + step(folders[|folders| - 1], |prev.written|).value
  {
  }

  /** A folder that yields no rows, whatever came before it, can be dropped from the loop
      without changing anything: a folder whose fetch failed is isolated. */
  lemma {:induction false} FolderLoopSkips<T>(step: (Record, nat) -> Result<seq<T>, AttributeError>,
                                              a: seq<Record>, f: Record, b: seq<Record>)
    requires forall n: nat :: step(f, n) == Success([])
    ensures FolderLoop(step, a + [f] + b) == FolderLoop(step, a + b)
    decreases |b|
  {
    if b == [] {
      assert a + [f] + b == a + [f];
      assert (a + [f])[..|a + [f]| - 1] == a;
      assert a + b == a;
      var prev := FolderLoop(step, a);
      if prev.error.None? {
        assert step(f, |prev.written|) == Success([]);
        assert prev.written + [] == prev.written;
      }
    } else {
      var b' := b[..|b| - 1];
      assert (a + [f] + b)[..|a + [f] + b| - 1] == a + [f] + b';
      assert (a + b)[..|a + b| - 1] == a + b';
      assert (a + [f] + b)[|a + [f] + b| - 1] == (a + b)[|a + b| - 1];
      FolderLoopSkips(step, a, f, b');
    }
  }

  /** The records the client fetches for one folder: the reply's list, or [] when the call
      raised. */
  function FolderItems(up: Upstream, s: Settings, token: Json, codec: Codec, folder: Record)
    : (items: seq<Record>)
    ensures up.queueItems(s, MakeHeaders(token, Get(folder, "Id"), codec)).None? ==> items == []
  {
    up.queueItems(s, MakeHeaders(token, Get(folder, "Id"), codec)).GetOr([])
  }

  function FolderJobs(up: Upstream, s: Settings, token: Json, codec: Codec, folder: Record)
    : (jobs: seq<Record>)
    ensures up.jobs(s, MakeHeaders(token, Get(folder, "Id"), codec)).None? ==> jobs == []
  {
    up.jobs(s, MakeHeaders(token, Get(folder, "Id"), codec)).GetOr([])
  }

  /** The queue-item step: fetch the folder, then `transform_data(items, folder.get('Id'))`. */
  function QueueStep(up: Upstream, s: Settings, token: Json, codec: Codec)
    : (Record, nat) -> Result<seq<QueueRow>, AttributeError>
  {
    (folder: Record, n: nat) => TransformAll(FolderItems(up, s, token, codec, folder), Get(folder, "Id"))
  }

  /** The job step: fetch the folder's jobs and transform them, drawing ids after the
      `first + n` drawn before. */
  function JobStep(up: Upstream, s: Settings, token: Json, codec: Codec, uuid: nat -> string, first: nat)
    : (Record, nat) -> Result<seq<JobRow>, AttributeError>
  {
    (folder: Record, n: nat) =>
      TransformJobsAll(FolderJobs(up, s, token, codec, folder), uuid, first + n, codec)
  }

  lemma JobStepApplied(up: Upstream, s: Settings, token: Json, codec: Codec, uuid: nat -> string,
                        first: nat, folder: Record, n: nat)
    ensures JobStep(up, s, token, codec, uuid, first)(folder, n)
            == TransformJobsAll(FolderJobs(up, s, token, codec, folder), uuid, first + n, codec)
  {
  }

  function QueueSync(up: Upstream, s: Settings, token: Json, codec: Codec, folders: seq<Record>)
    : Sync<QueueRow>
  {
    FolderLoop(QueueStep(up, s, token, codec), folders)
  }

  function JobSync(up: Upstream, s: Settings, token: Json, codec: Codec, uuid: nat -> string,
                   first: nat, folders: seq<Record>): Sync<JobRow>
  {
    FolderLoop(JobStep(up, s, token, codec, uuid, first), folders)
  }

  /** The number of `uuid4` calls the jobs loop makes: one per job of every folder it
      finishes, and the `Draws` of the folder that raises. */
  function JobDraws(up: Upstream, s: Settings, token: Json, codec: Codec, uuid: nat -> string,
                    first: nat, folders: seq<Record>): nat
  {
    if folders == [] then 0
    else
      var init := folders[..|folders| - 1];
      var prev := JobSync(up, s, token, codec, uuid, first, init);
      if prev.error.Some? then JobDraws(up, s, token, codec, uuid, first, init)
      else |prev.written| + Draws(FolderJobs(up, s, token, codec, folders[|folders| - 1]))
  }

  /** A jobs loop that finishes has drawn exactly one id per row it wrote. */
  lemma {:induction false} JobDrawsFinished(up: Upstream, s: Settings, token: Json, codec: Codec,
                                            uuid: nat -> string, first: nat, folders: seq<Record>)
    requires JobSync(up, s, token, codec, uuid, first, folders).error.None?
    ensures JobDraws(up, s, token, codec, uuid, first, folders)
            == |JobSync(up, s, token, codec, uuid, first, folders).written|
  {
    if folders != [] {
      var step := JobStep(up, s, token, codec, uuid, first);
      var init, last := folders[..|folders| - 1], folders[|folders| - 1];
      var prev := FolderLoop(step, init);
      FolderLoopLast(step, folders);
      assert prev == JobSync(up, s, token, codec, uuid, first, init);
      var jobs := FolderJobs(up, s, token, codec, last);
      assert JobDraws(up, s, token, codec, uuid, first, folders) == |prev.written| + Draws(jobs);
      JobStepApplied(up, s, token, codec, uuid, first, last, |prev.written|);
      assert TransformJobsAll(jobs, uuid, first + |prev.written|, codec) == step(last, |prev.written|);
      DrawsOfSuccess(jobs, uuid, first + |prev.written|, codec);
    }
  }

  /** Once a prefix of the folders raises, the loop draws no more ids. */
  lemma {:induction false} JobDrawsPrefix(up: Upstream, s: Settings, token: Json, codec: Codec,
                                          uuid: nat -> string, first: nat, folders: seq<Record>, k: nat)
    requires k <= |folders|
    requires JobSync(up, s, token, codec, uuid, first, folders[..k]).error.Some?
    ensures JobDraws(up, s, token, codec, uuid, first, folders)
            == JobDraws(up, s, token, codec, uuid, first, folders[..k])
    decreases |folders|
  {
    if k < |folders| {
      var init := folders[..|folders| - 1];
      assert init[..k] == folders[..k];
      FolderLoopPrefix(JobStep(up, s, token, codec, uuid, first), init, k);
      JobDrawsPrefix(up, s, token, codec, uuid, first, init, k);
    } else {
      assert folders[..k] == folders;
    }
  }

  /** A jobs loop that raises in folder i, after writing `written` for the folders before it,
      ends with those rows and folder i's error, having drawn those rows' ids and the `Draws`
      of folder i. */
  lemma JobLoopStops(up: Upstream, s: Settings, token: Json, codec: Codec, uuid: nat -> string,
                     first: nat, folders: seq<Record>, i: nat, written: seq<JobRow>)
    requires i < |folders|
    requires JobSync(up, s, token, codec, uuid, first, folders[..i]) == Sync(written, None)
    requires JobStep(up, s, token, codec, uuid, first)(folders[i], |written|).Failure?
    ensures JobSync(up, s, token, codec, uuid, first, folders)
            == Sync(written, Some(JobStep(up, s, token, codec, uuid, first)(folders[i], |written|).error))
    ensures JobDraws(up, s, token, codec, uuid, first, folders)
            == |written| + Draws(FolderJobs(up, s, token, codec, folders[i]))
  {
    var step := JobStep(up, s, token, codec, uuid, first);
    FolderLoopStep(step, folders, i, written);
    FolderLoopPrefix(step, folders, i + 1);
    assert folders[..i + 1][..i] == folders[..i];
    JobDrawsPrefix(up, s, token, codec, uuid, first, folders, i + 1);
  }

  /** Every queue row a run writes keeps its durations in step with its timestamps, and a run
      that finishes writes one row per fetched item. */
  lemma {:induction false} QueueSyncRows(up: Upstream, s: Settings, token: Json, codec: Codec,
                                         folders: seq<Record>)
    ensures forall i | 0 <= i < |QueueSync(up, s, token, codec, folders).written| ::
              Consistent(QueueSync(up, s, token, codec, folders).written[i])
    ensures QueueSync(up, s, token, codec, folders).error.None? ==>
              |QueueSync(up, s, token, codec, folders).written| == ItemCount(up, s, token, codec, folders)
  {
    if folders != [] {
      QueueSyncRows(up, s, token, codec, folders[..|folders| - 1]);
    }
  }

  /** The number of records the folder fetches return. */
  function ItemCount(up: Upstream, s: Settings, token: Json, codec: Codec, folders: seq<Record>): nat {
    if folders == [] then 0
    else ItemCount(up, s, token, codec, folders[..|folders| - 1])
         + |FolderItems(up, s, token, codec, folders[|folders| - 1])|
  }

  function SyncOutcome<T>(s: Sync<T>): (r: Outcome<T>)
    ensures r.Finished? <==> s.error.None?
    ensures r.Finished? ==> r.value == s.written
  {
    if s.error.Some? then Raised(BadTimestamp(s.error.value)) else Finished(s.written)
  }

  // ---- The database ----------------------------------------------------------------------

  class Database {
    /** Whether `mysql.connector.connect` succeeds. */
    const reachable: bool
    /** The rows of `uipath_configuration`, in id order. */
    const configuration: seq<Settings>
    /** Whether `SELECT COUNT(*)` raises. */
    const countFails: bool
    /** None when the statement succeeds; otherwise the table the failed statement left. */
    const queueFault: (QueueTable, seq<QueueRow>) -> Option<QueueTable>
    const jobFault: (JobTable, seq<JobRow>) -> Option<JobTable>

    var queueItems: QueueTable
    var jobs: JobTable

    constructor(reachable: bool, configuration: seq<Settings>, countFails: bool,
                queueFault: (QueueTable, seq<QueueRow>) -> Option<QueueTable>,
                jobFault: (JobTable, seq<JobRow>) -> Option<JobTable>,
                queueItems: QueueTable, jobs: JobTable)
      ensures this.reachable == reachable && this.configuration == configuration
      ensures this.countFails == countFails
      ensures this.queueFault == queueFault && this.jobFault == jobFault
      ensures this.queueItems == queueItems && this.jobs == jobs
    {
      this.reachable := reachable;
      this.configuration := configuration;
      this.countFails := countFails;
      this.queueFault := queueFault;
      this.jobFault := jobFault;
      this.queueItems := queueItems;
      this.jobs := jobs;
    }

    /** Every write statement succeeds. */
    ghost predicate WritesSucceed() {
      && (forall t, rows :: queueFault(t, rows).None?)
      && (forall t, rows :: jobFault(t, rows).None?)
    }
  }

  /** `uuid.uuid4()`: the k-th call returns `uuid(k)`; `drawn` counts the calls made so far. */
  class IdSource {
    const uuid: nat -> string
    var drawn: nat

    constructor(uuid: nat -> string)
      ensures this.uuid == uuid && drawn == 0
    {
      this.uuid := uuid;
      drawn := 0;
    }
  }

  // ---- The client ------------------------------------------------------------------------

  class UiPathClient {
    var baseUrl: Json
    var clientId: Json
    var clientSecret: Json
    var org: Json
    var tenant: Json
    var scope: Json
    var accessToken: Json
    /** Whether `db_conn` holds an open connection. */
    var connected: bool

    const db: Database
    const upstream: Upstream
    /** The source of `uuid4` values. */
    const ids: IdSource
    const codec: Codec

    /** `UiPathClient()`: every setting, the token and the connection start as None. */
    constructor(db: Database, upstream: Upstream, ids: IdSource, codec: Codec)
      ensures this.db == db && this.upstream == upstream && this.ids == ids && this.codec == codec
      ensures Current() == Settings(JNull, JNull, JNull, JNull, JNull, JNull)
      ensures accessToken == JNull && !connected
      ensures !Configured()
    {
      this.db := db;
      this.upstream := upstream;
      this.ids := ids;
      this.codec := codec;
      baseUrl := JNull;
      clientId := JNull;
      clientSecret := JNull;
      org := JNull;
      tenant := JNull;
      scope := JNull;
      accessToken := JNull;
      connected := false;
    }

    function Current(): Settings
      reads this
    {
      Settings(baseUrl, clientId, clientSecret, org, tenant, scope)
    }

    /** The run gate. */
    predicate Configured()
      reads this
    {
      Complete(Current())
    }

    /** The settings a run works with once `connect_db` has run: the newest configuration row
        when the database answers and has one, otherwise whatever the client already held. */
    function SettingsAfterConnect(): Settings
      reads this
    {
      if db.reachable && db.configuration != [] then db.configuration[|db.configuration| - 1]
      else Current()
    }

    /** `load_config`: copy the newest configuration row into the client; no connection or
        no row leaves the settings as they were. */
    method LoadConfig()
      modifies this
      ensures connected && db.configuration != [] ==>
                Current() == db.configuration[|db.configuration| - 1]
      ensures !(connected && db.configuration != []) ==> Current() == old(Current())
      ensures accessToken == old(accessToken) && connected == old(connected)
    {
      if !connected {
        return;
      }
      if db.configuration != [] {
        var row := db.configuration[|db.configuration| - 1];
        baseUrl := row.baseUrl;
        clientId := row.clientId;
        clientSecret := row.clientSecret;
        org := row.org;
        tenant := row.tenant;
        scope := row.scope;
      }
    }

    /** `connect_db`: open the connection and load the configuration; an unreachable server
        changes nothing. */
    method ConnectDb()
      modifies this
      ensures connected == (old(connected) || db.reachable)
      ensures Current() == old(SettingsAfterConnect())
      ensures accessToken == old(accessToken)
    {
      if !db.reachable {
        return;
      }
      connected := true;
      LoadConfig();
    }

    /** `authenticate`: store the token of a successful exchange; a failed exchange raises
        and leaves the client as it was. */
    method Authenticate() returns (ok: bool)
      modifies this
      ensures ok <==> upstream.token(Current()).Some?
      ensures ok ==> accessToken == upstream.token(Current()).value
      ensures !ok ==> accessToken == old(accessToken)
      ensures Current() == old(Current()) && connected == old(connected)
    {
      var reply := upstream.token(Current());
      if reply.None? {
        return false;
      }
      accessToken := reply.value;
      return true;
    }

    function HeadersFor(orgUnit: Json): Headers
      reads this
    {
      MakeHeaders(accessToken, orgUnit, codec)
    }

    /** `get_folders`: a failed call raises (None). */
    method GetFolders() returns (r: Option<seq<Record>>)
      ensures r == upstream.folders(Current(), HeadersFor(JNull))
    {
      r := upstream.folders(Current(), HeadersFor(JNull));
    }

    /** `get_queue_items` and `get_filtered_queue_items`, which send the same request: a
        failed call yields []. */
    method GetQueueItems(folderId: Json) returns (items: seq<Record>)
      ensures upstream.queueItems(Current(), HeadersFor(folderId)).None? ==> items == []
      ensures upstream.queueItems(Current(), HeadersFor(folderId)).Some? ==>
                items == upstream.queueItems(Current(), HeadersFor(folderId)).value
    {
      var reply := upstream.queueItems(Current(), HeadersFor(folderId));
      items := if reply.Some? then reply.value else [];
    }

    /** `get_jobs`: a failed call yields []. */
    method GetJobs(folderId: Json) returns (jobs: seq<Record>)
      ensures upstream.jobs(Current(), HeadersFor(folderId)).None? ==> jobs == []
      ensures upstream.jobs(Current(), HeadersFor(folderId)).Some? ==>
                jobs == upstream.jobs(Current(), HeadersFor(folderId)).value
    {
      var reply := upstream.jobs(Current(), HeadersFor(folderId));
      jobs := if reply.Some? then reply.value else [];
    }

    /** `get_record_count`: the number of stored queue items, or 0 without a connection or
        when the query fails. */
    method GetRecordCount() returns (n: nat)
      ensures !connected || db.countFails ==> n == 0
      ensures connected && !db.countFails ==> n == |db.queueItems|
    {
      if !connected || db.countFails {
        return 0;
      }
      return |db.queueItems|;
    }

    /** `insert_data`: no connection or an empty batch is a no-op; a successful statement
        upserts the batch; a failed one is swallowed, leaving what the server left. */
    method InsertData(rows: seq<QueueRow>)
      modifies db
      ensures !connected || rows == [] ==> db.queueItems == old(db.queueItems)
      ensures connected && rows != [] && db.queueFault(old(db.queueItems), rows).None? ==>
                db.queueItems == Upsert(old(db.queueItems), rows)
      ensures connected && rows != [] && db.queueFault(old(db.queueItems), rows).Some? ==>
                db.queueItems == db.queueFault(old(db.queueItems), rows).value
      ensures db.jobs == old(db.jobs)
    {
      if !connected || rows == [] {
        return;
      }
      var fault := db.queueFault(db.queueItems, rows);
      if fault.None? {
        db.queueItems := Upsert(db.queueItems, rows);
      } else {
        db.queueItems := fault.value;
      }
    }

    /** `insert_jobs`: the same, on the jobs table, with every column but `id` updated. */
    method InsertJobs(rows: seq<JobRow>)
      modifies db
      ensures !connected || rows == [] ==> db.jobs == old(db.jobs)
      ensures connected && rows != [] && db.jobFault(old(db.jobs), rows).None? ==>
                db.jobs == UpsertJobs(old(db.jobs), rows)
      ensures connected && rows != [] && db.jobFault(old(db.jobs), rows).Some? ==>
                db.jobs == db.jobFault(old(db.jobs), rows).value
      ensures db.queueItems == old(db.queueItems)
    {
      if !connected || rows == [] {
        return;
      }
      var fault := db.jobFault(db.jobs, rows);
      if fault.None? {
        db.jobs := UpsertJobs(db.jobs, rows);
      } else {
        db.jobs := fault.value;
      }
    }

    /** One pass of the queue folder loop: fetch the folder's items, and when there are any,
        transform them and upsert the rows. */
    method SyncQueueFolder(folder: Record) returns (rows: Result<seq<QueueRow>, AttributeError>)
      modifies db
      ensures rows == TransformAll(FolderItems(upstream, Current(), accessToken, codec, folder), Get(folder, "Id"))
      ensures rows.Success? && connected && db.WritesSucceed() ==>
                db.queueItems == Upsert(old(db.queueItems), rows.value)
      ensures rows.Failure? || !connected ==> db.queueItems == old(db.queueItems)
      ensures db.jobs == old(db.jobs)
    {
      var folderId := Get(folder, "Id");
      var items := GetQueueItems(folderId);
      EmptyBatches(folderId, ids.uuid, 0, codec);
      if items == [] {
        return Success([]);
      }
      rows := TransformData(items, folderId);
      if rows.Success? {
        InsertData(rows.value);
      }
    }

    /** The folder loop of `run_etl` and `run_update_job`: fetch, transform and upsert each
        folder in turn, collecting the rows. */
    method SyncQueueFolders(folders: seq<Record>) returns (r: Sync<QueueRow>)
      modifies db
      ensures r == QueueSync(upstream, Current(), accessToken, codec, folders)
      ensures connected && db.WritesSucceed() ==> db.queueItems == Upsert(old(db.queueItems), r.written)
      ensures !connected ==> db.queueItems == old(db.queueItems)
      ensures db.jobs == old(db.jobs)
    {
      ghost var step := QueueStep(upstream, Current(), accessToken, codec);
      var all: seq<QueueRow> := [];
      var i := 0;
      while i < |folders|
        invariant 0 <= i <= |folders|
        invariant FolderLoop(step, folders[..i]) == Sync(all, None)
        invariant connected && db.WritesSucceed() ==> db.queueItems == Upsert(old(db.queueItems), all)
        invariant !connected ==> db.queueItems == old(db.queueItems)
        invariant db.jobs == old(db.jobs)
      {
        var rows := SyncQueueFolder(folders[i]);
        assert rows == step(folders[i], |all|);
        FolderLoopStep(step, folders, i, all);
        if rows.Failure? {
          FolderLoopPrefix(step, folders, i + 1);
          return Sync(all, Some(rows.error));
        }
        UpsertAppend(old(db.queueItems), all, rows.value);
        all := all + rows.value;
        i := i + 1;
      }
      assert folders[..i] == folders;
      return Sync(all, None);
    }

    /** `run_etl`. The gate reads the settings the client holds BEFORE `connect_db` loads
        them; past the gate: connect, count, authenticate (raising on failure), list the
        folders (raising on failure), run the folder loop, count again, close. The token it
        ends with is the exchange's, and the table holds every batch handed to `insert_data`
        before it returned or raised. */
    method RunEtl() returns (r: Outcome<QueueRow>)
      modifies this, db
      ensures !old(Configured()) ==>
                r == NotConfigured && db.queueItems == old(db.queueItems) && db.jobs == old(db.jobs)
                && Current() == old(Current()) && connected == old(connected)
      ensures old(Configured()) ==> r == RunOutcome(old(SettingsAfterConnect()))
      ensures old(Configured()) && upstream.token(old(SettingsAfterConnect())).Some? ==>
                accessToken == upstream.token(old(SettingsAfterConnect())).value
      ensures !(old(Configured()) && upstream.token(old(SettingsAfterConnect())).Some?) ==>
                accessToken == old(accessToken)
      ensures old(Configured()) && (old(connected) || db.reachable) && db.WritesSucceed() ==>
                db.queueItems == Upsert(old(db.queueItems), RunWritten(old(SettingsAfterConnect())))
      ensures !old(connected) && !db.reachable ==> db.queueItems == old(db.queueItems)
      ensures db.jobs == old(db.jobs)
    {
      if !Configured() {
        return NotConfigured;
      }
      ConnectDb();
      var initialCount := GetRecordCount();
      r := SyncQueue();
      if r.Finished? {
        var finalCount := GetRecordCount();
        connected := false;
      }
    }

    /** `run_etl` with the gate moved after `connect_db`, so that it reads the settings
        `load_config` has just copied in; past the gate it is `run_etl`. */
    method RunEtlAfterConnect() returns (r: Outcome<QueueRow>)
      modifies this, db
      ensures !Complete(old(SettingsAfterConnect())) ==>
                r == NotConfigured && db.queueItems == old(db.queueItems) && db.jobs == old(db.jobs)
      ensures Complete(old(SettingsAfterConnect())) ==> r == RunOutcome(old(SettingsAfterConnect()))
      ensures Complete(old(SettingsAfterConnect())) && upstream.token(old(SettingsAfterConnect())).Some? ==>
                accessToken == upstream.token(old(SettingsAfterConnect())).value
      ensures !(Complete(old(SettingsAfterConnect())) && upstream.token(old(SettingsAfterConnect())).Some?) ==>
                accessToken == old(accessToken)
      ensures Complete(old(SettingsAfterConnect())) && (old(connected) || db.reachable) && db.WritesSucceed() ==>
                db.queueItems == Upsert(old(db.queueItems), RunWritten(old(SettingsAfterConnect())))
      ensures !old(connected) && !db.reachable ==> db.queueItems == old(db.queueItems)
      ensures db.jobs == old(db.jobs)
    {
      ConnectDb();
      if !Configured() {
        return NotConfigured;
      }
      var initialCount := GetRecordCount();
      r := SyncQueue();
      if r.Finished? {
        var finalCount := GetRecordCount();
        connected := false;
      }
    }

    /** The folders a run past the gate lists with settings `s`: None when the token exchange
        or the folder request raises. */
    ghost function ListedFolders(s: Settings): Option<seq<Record>>
    {
      if upstream.token(s).None? then None
      else upstream.folders(s, MakeHeaders(upstream.token(s).value, JNull, codec))
    }

    /** What a queue run past the gate returns with settings `s`. */
    ghost function RunOutcome(s: Settings): Outcome<QueueRow>
    {
      if upstream.token(s).None? then Raised(AuthenticationFailed)
      else if ListedFolders(s).None? then Raised(FolderListingFailed)
      else SyncOutcome(QueueSync(upstream, s, upstream.token(s).value, codec, ListedFolders(s).value))
    }

    /** The rows a queue run past the gate hands to `insert_data` before it returns or raises:
        none when it raises before the folder loop. */
    ghost function RunWritten(s: Settings): seq<QueueRow>
    {
      if ListedFolders(s).None? then []
      else QueueSync(upstream, s, upstream.token(s).value, codec, ListedFolders(s).value).written
    }

    /** Authenticate, list the folders and run the queue folder loop. */
    method SyncQueue() returns (r: Outcome<QueueRow>)
      modifies this, db
      ensures r == RunOutcome(old(Current()))
      ensures upstream.token(old(Current())).Some? ==> accessToken == upstream.token(old(Current())).value
      ensures upstream.token(old(Current())).None? ==> accessToken == old(accessToken)
      ensures Current() == old(Current()) && connected == old(connected)
      ensures connected && db.WritesSucceed() ==>
                db.queueItems == Upsert(old(db.queueItems), RunWritten(old(Current())))
      ensures !connected ==> db.queueItems == old(db.queueItems)
      ensures db.jobs == old(db.jobs)
    {
      var ok := Authenticate();
      if !ok {
        return Raised(AuthenticationFailed);
      }
      var folders := GetFolders();
      if folders.None? {
        return Raised(FolderListingFailed);
      }
      var sync := SyncQueueFolders(folders.value);
      r := SyncOutcome(sync);
    }

    /** `run_update_job`: `run_etl` without the record counts. */
    method RunUpdateJob() returns (r: Outcome<QueueRow>)
      modifies this, db
      ensures !old(Configured()) ==>
                r == NotConfigured && db.queueItems == old(db.queueItems) && db.jobs == old(db.jobs)
      ensures old(Configured()) ==> r == RunOutcome(old(SettingsAfterConnect()))
      ensures old(Configured()) && upstream.token(old(SettingsAfterConnect())).Some? ==>
                accessToken == upstream.token(old(SettingsAfterConnect())).value
      ensures !(old(Configured()) && upstream.token(old(SettingsAfterConnect())).Some?) ==>
                accessToken == old(accessToken)
      ensures old(Configured()) && (old(connected) || db.reachable) && db.WritesSucceed() ==>
                db.queueItems == Upsert(old(db.queueItems), RunWritten(old(SettingsAfterConnect())))
      ensures !old(connected) && !db.reachable ==> db.queueItems == old(db.queueItems)
      ensures db.jobs == old(db.jobs)
    {
      if !Configured() {
        return NotConfigured;
      }
      ConnectDb();
      r := SyncQueue();
      if r.Finished? {
        connected := false;
      }
    }

    /** `run_jobs_etl`: the same gate and calls, with the jobs loop; every `uuid4` call the loop
        makes advances `ids`. */
    method RunJobsEtl() returns (r: Outcome<JobRow>)
      modifies this, db, ids
      ensures !old(Configured()) ==>
                r == NotConfigured && db.queueItems == old(db.queueItems) && db.jobs == old(db.jobs)
                && ids.drawn == old(ids.drawn)
      ensures old(Configured()) ==> r == JobsOutcome(old(SettingsAfterConnect()), old(ids.drawn))
      ensures old(Configured()) && upstream.token(old(SettingsAfterConnect())).Some? ==>
                accessToken == upstream.token(old(SettingsAfterConnect())).value
      ensures !(old(Configured()) && upstream.token(old(SettingsAfterConnect())).Some?) ==>
                accessToken == old(accessToken)
      ensures old(Configured()) ==>
                ids.drawn == old(ids.drawn) + JobsDrawn(old(SettingsAfterConnect()), old(ids.drawn))
      ensures old(Configured()) && (old(connected) || db.reachable) && db.WritesSucceed() ==>
                db.jobs == UpsertJobs(old(db.jobs), JobsWritten(old(SettingsAfterConnect()), old(ids.drawn)))
      ensures !old(connected) && !db.reachable ==> db.jobs == old(db.jobs)
      ensures db.queueItems == old(db.queueItems)
    {
      if !Configured() {
        return NotConfigured;
      }
      ConnectDb();
      var ok := Authenticate();
      if !ok {
        return Raised(AuthenticationFailed);
      }
      var folders := GetFolders();
      if folders.None? {
        return Raised(FolderListingFailed);
      }
      var sync, used := SyncJobFolders(folders.value, ids.drawn);
      ids.drawn := ids.drawn + used;
      r := SyncOutcome(sync);
      if r.Finished? {
        connected := false;
      }
    }

    /** What a jobs run past the gate returns with settings `s`, after `first` calls of
        `uuid4`. */
    ghost function JobsOutcome(s: Settings, first: nat): Outcome<JobRow>
    {
      if upstream.token(s).None? then Raised(AuthenticationFailed)
      else if ListedFolders(s).None? then Raised(FolderListingFailed)
      else SyncOutcome(JobSync(upstream, s, upstream.token(s).value, codec, ids.uuid, first, ListedFolders(s).value))
    }

    /** The rows a jobs run past the gate hands to `insert_jobs` before it returns or raises. */
    ghost function JobsWritten(s: Settings, first: nat): seq<JobRow>
    {
      if ListedFolders(s).None? then []
      else JobSync(upstream, s, upstream.token(s).value, codec, ids.uuid, first, ListedFolders(s).value).written
    }

    /** The number of `uuid4` calls a jobs run past the gate makes. */
    ghost function JobsDrawn(s: Settings, first: nat): nat
    {
      if ListedFolders(s).None? then 0
      else JobDraws(upstream, s, upstream.token(s).value, codec, ids.uuid, first, ListedFolders(s).value)
    }

    /** One pass of the jobs folder loop: fetch the folder's jobs, and when there are any,
        transform them, drawing ids from `uuid4` call `first + n` on, and upsert the rows;
        that is, the step `JobStep` of the loop for a folder reached after `n` rows. */
    method SyncJobFolder(folder: Record, first: nat, n: nat)
      returns (rows: Result<seq<JobRow>, AttributeError>, used: nat)
      modifies db
      ensures rows == JobStep(upstream, Current(), accessToken, codec, ids.uuid, first)(folder, n)
      ensures used == Draws(FolderJobs(upstream, Current(), accessToken, codec, folder))
      ensures rows.Success? && connected && db.WritesSucceed() ==>
                db.jobs == UpsertJobs(old(db.jobs), rows.value)
      ensures rows.Failure? || !connected ==> db.jobs == old(db.jobs)
      ensures db.queueItems == old(db.queueItems)
    {
      JobStepApplied(upstream, Current(), accessToken, codec, ids.uuid, first, folder, n);
      var folderId := Get(folder, "Id");
      var jobs := GetJobs(folderId);
      EmptyBatches(folderId, ids.uuid, first + n, codec);
      if jobs == [] {
        return Success([]), 0;
      }
      rows, used := TransformJobs(jobs, ids.uuid, first + n, codec);
      if rows.Success? {
        InsertJobs(rows.value);
      }
    }

    /** The folder loop of `run_jobs_etl`, after `first` calls of `uuid4`: `used` is the
        number of calls it makes, one per job of a finished loop, and for a loop that raises
        those of the faulty job and every job before it as well. */
    method SyncJobFolders(folders: seq<Record>, first: nat) returns (r: Sync<JobRow>, used: nat)
      modifies db
      ensures r == JobSync(upstream, Current(), accessToken, codec, ids.uuid, first, folders)
      ensures used == JobDraws(upstream, Current(), accessToken, codec, ids.uuid, first, folders)
      ensures connected && db.WritesSucceed() ==> db.jobs == UpsertJobs(old(db.jobs), r.written)
      ensures !connected ==> db.jobs == old(db.jobs)
      ensures db.queueItems == old(db.queueItems)
    {
      ghost var step := JobStep(upstream, Current(), accessToken, codec, ids.uuid, first);
      var all: seq<JobRow> := [];
      var i := 0;
      while i < |folders|
        invariant 0 <= i <= |folders|
        invariant FolderLoop(step, folders[..i]) == Sync(all, None)
        invariant connected && db.WritesSucceed() ==> db.jobs == UpsertJobs(old(db.jobs), all)
        invariant !connected ==> db.jobs == old(db.jobs)
        invariant db.queueItems == old(db.queueItems)
      {
        var rows, n := SyncJobFolder(folders[i], first, |all|);
        if rows.Failure? {
          JobLoopStops(upstream, Current(), accessToken, codec, ids.uuid, first, folders, i, all);
          return Sync(all, Some(rows.error)), |all| + n;
        }
        FolderLoopStep(step, folders, i, all);
        if connected && db.WritesSucceed() {
          UpsertJobsAppend(old(db.jobs), all, rows.value);
        }
        all := all + rows.value;
        i := i + 1;
      }
      assert folders[..i] == folders;
      JobDrawsFinished(upstream, Current(), accessToken, codec, ids.uuid, first, folders);
      return Sync(all, None), |all|;
    }
  }

  // ---- Properties of the run modes -------------------------------------------------------

  /** A freshly constructed client stops at the gate: nothing is fetched and nothing is
      written, whatever the database holds. */
  method FreshClientEtl(db: Database, upstream: Upstream, ids: IdSource, codec: Codec)
    returns (r: Outcome<QueueRow>)
    modifies db
    ensures r == NotConfigured
    ensures db.queueItems == old(db.queueItems) && db.jobs == old(db.jobs)
  {
    var client := new UiPathClient(db, upstream, ids, codec);
    r := client.RunEtl();
  }

  /** The same gate stops `run_update_job` on a fresh client. */
  method FreshClientUpdateJob(db: Database, upstream: Upstream, ids: IdSource, codec: Codec)
    returns (r: Outcome<QueueRow>)
    modifies db
    ensures r == NotConfigured
    ensures db.queueItems == old(db.queueItems) && db.jobs == old(db.jobs)
  {
    var client := new UiPathClient(db, upstream, ids, codec);
    r := client.RunUpdateJob();
  }

  /** And `run_jobs_etl`: no job is fetched, so no `uuid4` call is made either. */
  method FreshClientJobsEtl(db: Database, upstream: Upstream, ids: IdSource, codec: Codec)
    returns (r: Outcome<JobRow>)
    modifies db, ids
    ensures r == NotConfigured
    ensures db.queueItems == old(db.queueItems) && db.jobs == old(db.jobs)
    ensures ids.drawn == old(ids.drawn)
  {
    var client := new UiPathClient(db, upstream, ids, codec);
    r := client.RunJobsEtl();
  }

  /** With the gate after `connect_db`, a freshly constructed client runs exactly when the
      database answers and its newest configuration row is complete, and then it runs with
      that row. */
  method FreshClientEtlAfterConnect(db: Database, upstream: Upstream, ids: IdSource, codec: Codec)
    returns (client: UiPathClient, r: Outcome<QueueRow>)
    modifies db
    ensures client.db == db && client.upstream == upstream && client.codec == codec
    ensures r == NotConfigured <==>
              !(db.reachable && db.configuration != [] && Complete(db.configuration[|db.configuration| - 1]))
    ensures r != NotConfigured ==> r == client.RunOutcome(db.configuration[|db.configuration| - 1])
  {
    client := new UiPathClient(db, upstream, ids, codec);
    r := client.RunEtlAfterConnect();
  }

  /** A folder whose item fetch raised or came back empty is skipped: the queue loop over the
      other folders writes the same rows and ends the same way. */
  lemma QueueFolderSkipped(up: Upstream, s: Settings, token: Json, codec: Codec,
                           a: seq<Record>, f: Record, b: seq<Record>)
    requires FolderItems(up, s, token, codec, f) == []
    ensures QueueSync(up, s, token, codec, a + [f] + b) == QueueSync(up, s, token, codec, a + b)
  {
    var step := QueueStep(up, s, token, codec);
    forall n: nat
      ensures step(f, n) == Success([])
    {
      EmptyBatches(Get(f, "Id"), n => "", 0, codec);
    }
    FolderLoopSkips(step, a, f, b);
  }

  /** The same for the jobs loop: a folder with no fetched jobs draws no ids and writes no
      rows, so the folders after it are unaffected. */
  lemma JobFolderSkipped(up: Upstream, s: Settings, token: Json, codec: Codec, uuid: nat -> string,
                         first: nat, a: seq<Record>, f: Record, b: seq<Record>)
    requires FolderJobs(up, s, token, codec, f) == []
    ensures JobSync(up, s, token, codec, uuid, first, a + [f] + b)
            == JobSync(up, s, token, codec, uuid, first, a + b)
  {
    var step := JobStep(up, s, token, codec, uuid, first);
    forall n: nat
      ensures step(f, n) == Success([])
    {
      EmptyBatches(Get(f, "Id"), uuid, first + n, codec);
    }
    FolderLoopSkips(step, a, f, b);
  }
}
