/**
 * Every event keeps the protocol invariant and advances the durable state. The
 * invariant and `Good` are hidden in the proofs about single events, which only
 * compose the small `Good...` lemmas of the first section.
 */
module CsvProtocolSteps {
  import opened Wrappers
  import opened CsvStage
  import opened CsvSidecar
  import opened CsvSidecarLaws
  import opened CsvRuns
  import opened CsvProtocol
  import opened CsvProtocolLaws

  // ---- what the invariant says about one command and the tables ---------------------------

  lemma InFlight(h: Digests, s: State, t: int)
    requires StateOk(h, s) && t in s.tasks
    ensures TaskOk(h, s.w, s.tasks[t])
  {
  }

  lemma Durable(h: Digests, s: State)
    requires StateOk(h, s)
    ensures DbOk(h, s.w.db) && RunsOk(s.w.runs) && OwnersOk(s.w) && CancelsOk(s.w)
  {
  }

  // ---- composing a step from a change of the world and a change of the tasks -------------

  lemma GoodSelf(h: Digests, s: State)
    requires StateOk(h, s)
    ensures Good(h, s, s)
  {
    QuietAdvances(s.w, s.w);
  }

  lemma DropKeeps(h: Digests, s: State, t: int)
    requires StateOk(h, s)
    ensures StateOk(h, Drop(s, t))
  {
  }

  lemma GoodDrop(h: Digests, s: State, n: State, t: int)
    requires Good(h, s, n)
    ensures Good(h, s, Drop(n, t))
  {
    DropKeeps(h, n, t);
  }

  lemma WorldKeeps(h: Digests, s: State, v: World)
    requires StateOk(h, s) && WorldOk(h, v) && Forward(s.w, v)
    ensures StateOk(h, s.(w := v))
  {
    TasksStay(h, s.w, v, s.tasks);
  }

  /** No other command is responsible for this task's object key, or about to unlink its upload. */
  predicate KeyFree(s: State, t: int, task: Task) {
    && (forall u :: u in s.tasks && u != t && KeyOf(task).Some? ==> KeyOf(s.tasks[u]) != KeyOf(task))
    && (forall u :: u in s.tasks && u != t && task.Upload? && s.tasks[u].SweepChecked? ==>
          s.tasks[u].name.key != task.job.key)
    && (forall u :: u in s.tasks && u != t && task.SweepChecked? && s.tasks[u].Upload? ==>
          task.name.key != s.tasks[u].job.key)
  }

  lemma PutKeysApart(s: State, t: int, task: Task)
    requires KeysApart(s.tasks) && ChecksApart(s.tasks) && KeyFree(s, t, task)
    ensures KeysApart(Put(s, t, task).tasks) && ChecksApart(Put(s, t, task).tasks)
  {
    var next := Put(s, t, task).tasks;
    forall a, b | a in next && b in next && a != b && KeyOf(next[a]).Some?
      ensures KeyOf(next[a]) != KeyOf(next[b])
    {
    }
  }

  lemma PutKeeps(h: Digests, s: State, t: int, task: Task)
    requires StateOk(h, s) && TaskOk(h, s.w, task) && KeyFree(s, t, task)
    requires !Occupies(task) && (t in s.tasks ==> !Occupies(s.tasks[t]))
    ensures StateOk(h, Put(s, t, task))
  {
    PutKeysApart(s, t, task);
  }

  lemma GoodPut(h: Digests, s: State, n: State, t: int, task: Task)
    requires Good(h, s, n) && TaskOk(h, n.w, task) && KeyFree(n, t, task)
    requires !Occupies(task) && (t in n.tasks ==> !Occupies(n.tasks[t]))
    ensures Good(h, s, Put(n, t, task))
  {
    PutKeeps(h, n, t, task);
  }

  /** A command takes the worker, which must be free. */
  lemma GoodOccupy(h: Digests, s: State, t: int, task: Task)
    requires StateOk(h, s) && TaskOk(h, s.w, task) && KeyFree(s, t, task)
    requires Occupies(task) && s.working.None?
    ensures Good(h, s, Put(s, t, task).(working := Some(t)))
  {
    hide WorldOk, TaskOk, Advances, KeysApart, ChecksApart;
    QuietAdvances(s.w, s.w);
    PutKeysApart(s, t, task);
  }

  lemma GoodRelease(h: Digests, s: State, t: int, task: Task)
    requires StateOk(h, s) && TaskOk(h, s.w, task) && KeyFree(s, t, task)
    requires t in s.tasks && Occupies(s.tasks[t]) && !Occupies(task)
    ensures Good(h, s, Put(s, t, task).(working := None))
  {
    hide WorldOk, TaskOk, Advances, KeysApart, ChecksApart;
    QuietAdvances(s.w, s.w);
    PutKeysApart(s, t, task);
    assert s.working == Some(t);
  }

  /** A stretch that wrote one row of the sidecar. */
  lemma GoodWrite(h: Digests, s: State, db: Db, id: string, e: Edit)
    requires StateOk(h, s) && DbOk(h, db) && Writes(s.w.db, db, id, e)
    requires DropsOnlyGone(s.w, id, e) && !e.RequestCancel? && (e.Confirm? ==> e.request.Some?) && InTime(s.w, id, e)
    ensures Good(h, s, InDb(s, db))
  {
    WriteAdvances(s.w, s.w.(db := db), id, e);
    WriteKeepsWorld(h, s.w, s.w.(db := db), id, e);
    WorldKeeps(h, s, s.w.(db := db));
  }

  /** A claim without a packet is written and counted. */
  lemma GoodBareWrite(h: Digests, s: State, db: Db, id: string, e: Edit)
    requires StateOk(h, s) && DbOk(h, db) && Writes(s.w.db, db, id, e) && e.Confirm? && e.request.None?
    requires InTime(s.w, id, e)
    ensures Good(h, s, s.(w := s.w.(db := db, bare := s.w.bare + 1)))
  {
    var v := s.w.(db := db, bare := s.w.bare + 1);
    WriteAdvances(s.w, v, id, e);
    WriteKeepsWorld(h, s.w, v, id, e);
    WorldKeeps(h, s, v);
  }

  /** A file no live stage and no running upload relies on may be removed. */
  predicate Removable(s: State, name: Name) {
    && (forall id :: id in s.w.db.stages && s.w.db.stages[id].status != Purged ==>
          s.w.db.stages[id].objectKey.Some? ==> name != Object(s.w.db.stages[id].objectKey.value))
    && (forall t :: t in s.tasks && s.tasks[t].Upload? ==> name != FileOf(s.tasks[t].job, s.tasks[t].phase))
  }

  lemma UnlinkKeepsWorld(h: Digests, s: State, name: Name)
    requires StateOk(h, s) && Removable(s, name)
    ensures WorldOk(h, Unlink(s, name).w)
  {
    var v := Unlink(s, name).w;
    forall id | id in v.db.stages && v.db.stages[id].status != Purged
      ensures v.db.stages[id].objectKey.Some? && Object(v.db.stages[id].objectKey.value) in v.disk
    {
      assert v.db.stages[id].objectKey.Some?;
    }
    assert Custody(h, v) && OwnersOk(v);
  }

  lemma UnlinkKeepsTask(h: Digests, w: World, name: Name, task: Task)
    requires TaskOk(h, w, task)
    requires task.Upload? ==> name != FileOf(task.job, task.phase)
    ensures TaskOk(h, w.(disk := w.disk - {name}), task)
  {
  }

  lemma GoodUnlink(h: Digests, s: State, name: Name)
    requires StateOk(h, s) && Removable(s, name)
    ensures Good(h, s, Unlink(s, name))
  {
    UnlinkKeepsWorld(h, s, name);
    QuietAdvances(s.w, Unlink(s, name).w);
    forall t | t in s.tasks ensures TaskOk(h, Unlink(s, name).w, s.tasks[t]) {
      UnlinkKeepsTask(h, s.w, name, s.tasks[t]);
    }
  }

  /** Unlinking the object of a purged stage breaks nobody else's custody. */
  lemma RevokedIsRemovable(h: Digests, s: State, row: Stage)
    requires StateOk(h, s) && Revoked(s.w, row)
    ensures Removable(s, Object(row.objectKey.value))
  {
    forall t | t in s.tasks && s.tasks[t].Upload?
      ensures Object(row.objectKey.value) != FileOf(s.tasks[t].job, s.tasks[t].phase)
    {
      InFlight(h, s, t);
    }
    forall id | id in s.w.db.stages && s.w.db.stages[id].status != Purged && s.w.db.stages[id].objectKey.Some?
      ensures Object(row.objectKey.value) != Object(s.w.db.stages[id].objectKey.value)
    {
      assert Owns(s.w, s.w.db.stages[id]);
    }
  }

  // ---- time, restart and failure ---------------------------------------------------------

  lemma TickKeepsTask(h: Digests, w: World, to: int, task: Task)
    requires TaskOk(h, w, task) && w.now <= to
    requires task.Upload? ==> to - RETENTION_MS < w.disk[FileOf(task.job, task.phase)].mtime
    ensures TaskOk(h, w.(now := to), task)
  {
  }

  lemma TickKeepsWorld(h: Digests, w: World, to: int)
    requires WorldOk(h, w) && w.now <= to
    ensures WorldOk(h, w.(now := to))
  {
  }

  lemma TickKeeps(h: Digests, s: State, to: int)
    requires StateOk(h, s) && s.w.now <= to && UploadsPrompt(s, to)
    ensures Good(h, s, s.(w := s.w.(now := to)))
  {
    QuietAdvances(s.w, s.w.(now := to));
    TickKeepsWorld(h, s.w, to);
    forall t | t in s.tasks ensures TaskOk(h, s.w.(now := to), s.tasks[t]) {
      InFlight(h, s, t);
      TickKeepsTask(h, s.w, to, s.tasks[t]);
    }
  }

  lemma RotateKeepsTask(h: Digests, w: World, nonce: string, task: Task)
    requires TaskOk(h, w, task)
    ensures TaskOk(h, w.(nonce := nonce), task)
  {
  }

  lemma RotateKeepsWorld(h: Digests, w: World, nonce: string)
    requires WorldOk(h, w)
    ensures WorldOk(h, w.(nonce := nonce))
  {
    hide DbOk, RunsOk, LiveOnce;
  }

  lemma RotateKeeps(h: Digests, s: State, nonce: string)
    requires StateOk(h, s)
    ensures Good(h, s, s.(w := s.w.(nonce := nonce)))
  {
    QuietAdvances(s.w, s.w.(nonce := nonce));
    RotateKeepsWorld(h, s.w, nonce);
    hide WorldOk, TaskOk, Advances, KeysApart, ChecksApart, OneWorker;
    forall t | t in s.tasks ensures TaskOk(h, s.w.(nonce := nonce), s.tasks[t]) {
      RotateKeepsTask(h, s.w, nonce, s.tasks[t]);
    }
  }

  lemma CrashKeeps(h: Digests, s: State)
    requires StateOk(h, s)
    ensures Good(h, s, s.(tasks := map[], working := None))
  {
    QuietAdvances(s.w, s.w);
  }

  lemma AmbientKeeps(h: Digests, s: State, e: Event)
    requires StateOk(h, s) && (e.Tick? || e.Rotate? || e.Crash? || e.Abandon?)
    ensures Good(h, s, StepAmbient(s, e))
  {
    hide StateOk;
    hide Good;
    GoodSelf(h, s);
    match e
    case Tick(to) => if s.w.now <= to && UploadsPrompt(s, to) { TickKeeps(h, s, to); }
    case Rotate(nonce) => RotateKeeps(h, s, nonce);
    case Crash => CrashKeeps(h, s);
    case Abandon(t) => if t in s.tasks { GoodDrop(h, s, s, t); }
  }

  // ---- mapping, preview and purge --------------------------------------------------------

  lemma BeginMapKeeps(h: Digests, s: State, e: Event)
    requires StateOk(h, s) && e.MapBegin?
    ensures Good(h, s, BeginMap(s, e))
  {
    hide StateOk;
    hide Good;
    GoodSelf(h, s);
    Durable(h, s);
    if e.task !in s.tasks && MapStart(s.w.db, Sees(s.w, e.ok), e.user, e.id, e.mapping).Ok? {
      GoodPut(h, s, s, e.task, Mapping(e.user, s.w.db.stages[e.id], e.mapping.choices));
    }
  }

  lemma EndMapKeeps(h: Digests, s: State, t: int, ok: bool, source: string)
    requires StateOk(h, s)
    ensures Good(h, s, EndMap(s, t, ok, source))
  {
    hide StateOk;
    hide Good;
    GoodSelf(h, s);
    if t in s.tasks && s.tasks[t].Mapping? {
      var task := s.tasks[t];
      InFlight(h, s, t);
      Durable(h, s);
      GoodDrop(h, s, s, t);
      var r := MapCommit(s.w.db, Sees(s.w, ok), task.user, task.row, task.choices, source);
      if r.Ok? {
        MapCommitWrites(h, s.w.db, Sees(s.w, ok), task.user, task.row, task.choices, source);
        GoodWrite(h, s, r.value, task.row.id, Choose(task.choices, source));
        GoodDrop(h, s, InDb(s, r.value), t);
      }
    }
  }

  lemma BeginPreviewKeeps(h: Digests, s: State, e: Event)
    requires StateOk(h, s) && e.PreviewBegin?
    ensures Good(h, s, BeginPreview(s, e))
  {
    hide StateOk;
    hide Good;
    GoodSelf(h, s);
    Durable(h, s);
    var r := PreviewStart(s.w.db, Sees(s.w, e.ok), e.user, e.id, e.expected);
    if e.task !in s.tasks && r.Ok? && r.value.Calculate? {
      GoodPut(h, s, s, e.task, PreviewReading(e.user, s.w.db.stages[e.id]));
    }
  }

  lemma FetchPreviewKeeps(h: Digests, s: State, t: int)
    requires StateOk(h, s)
    ensures Good(h, s, FetchPreview(s, t))
  {
    hide StateOk;
    hide Good;
    GoodSelf(h, s);
    if t in s.tasks && s.tasks[t].PreviewReading? {
      InFlight(h, s, t);
      GoodPut(h, s, s, t, PreviewFetched(s.tasks[t].user, s.tasks[t].row, ContentOf(s.w, s.tasks[t].row)));
    }
  }

  lemma WorkPreviewKeeps(h: Digests, s: State, t: int, ok: bool)
    requires StateOk(h, s)
    ensures Good(h, s, WorkPreview(s, h, t, ok))
  {
    hide StateOk;
    hide Good;
    GoodSelf(h, s);
    if t in s.tasks && s.tasks[t].PreviewFetched? {
      InFlight(h, s, t);
      GoodDrop(h, s, s, t);
      if s.working.None? { GoodOccupy(h, s, t, PreviewWorking(s.tasks[t].user, s.tasks[t].row)); }
    }
  }

  lemma EndPreviewKeeps(h: Digests, s: State, t: int, ok: bool)
    requires StateOk(h, s) && Injective(h.binding)
    ensures Good(h, s, EndPreview(s, h, t, ok))
  {
    hide StateOk;
    hide Good;
    GoodSelf(h, s);
    if t in s.tasks && s.tasks[t].PreviewPlanned? {
      var task := s.tasks[t];
      InFlight(h, s, t);
      Durable(h, s);
      GoodDrop(h, s, s, t);
      var r := PreviewCommit(s.w.db, Sees(s.w, ok), h, task.user, task.row, task.planned);
      if r.Ok? {
        PreviewCommitWrites(h, s.w.db, Sees(s.w, ok), task.user, task.row, task.planned);
        GoodWrite(h, s, r.value, task.row.id,
                  Show(PreviewName(h, BindingOf(task.row, task.planned)), task.planned.payload.tallies));
        GoodDrop(h, s, InDb(s, r.value), t);
      }
    }
  }

  lemma BeginPurgeKeeps(h: Digests, s: State, t: int, user: int, ok: bool, id: string)
    requires StateOk(h, s)
    ensures Good(h, s, BeginPurge(s, t, user, ok, id))
  {
    hide StateOk;
    hide Good;
    GoodSelf(h, s);
    var r := PurgeStart(s.w.db, Sees(s.w, ok), user, id);
    if t !in s.tasks && r.Ok? {
      Durable(h, s);
      PurgeStartWrites(h, s.w.db, Sees(s.w, ok), user, id);
      RevokingKeeps(h, s, r.value.db, id);
      RevokedNow(h, s, r.value.db, id);
      if r.value.row.objectKey.Some? {
        GoodPut(h, s, InDb(s, r.value.db), t, PurgeUnlinking(user, r.value.row));
      }
    }
  }

  lemma RevokingKeeps(h: Digests, s: State, db: Db, id: string)
    requires StateOk(h, s) && DbOk(h, db)
    requires db == s.w.db || Writes(s.w.db, db, id, PurgeAt(s.w.now))
    ensures Good(h, s, InDb(s, db))
  {
    if db == s.w.db {
      assert InDb(s, db) == s;
      GoodSelf(h, s);
    } else {
      GoodWrite(h, s, db, id, PurgeAt(s.w.now));
    }
  }

  /** The row a purge goes on to unlink is owned by its stage and already revoked. */
  lemma RevokedNow(h: Digests, s: State, db: Db, id: string)
    requires StateOk(h, s) && DbOk(h, db)
    requires db == s.w.db || Writes(s.w.db, db, id, PurgeAt(s.w.now))
    requires id in db.stages && db.stages[id].status == Purged
    ensures db.stages[id].objectKey.Some? ==> Revoked(InDb(s, db).w, db.stages[id])
  {
    assert Owns(s.w, s.w.db.stages[id]);
    assert db.stages[id].objectKey == s.w.db.stages[id].objectKey;
  }

  lemma UnlinkPurgedKeeps(h: Digests, s: State, t: int)
    requires StateOk(h, s)
    ensures Good(h, s, UnlinkPurged(s, t))
  {
    hide StateOk;
    hide Good;
    GoodSelf(h, s);
    if t in s.tasks && s.tasks[t].PurgeUnlinking? {
      var task := s.tasks[t];
      InFlight(h, s, t);
      RevokedIsRemovable(h, s, task.row);
      GoodUnlink(h, s, Object(task.row.objectKey.value));
      GoodPut(h, s, Unlink(s, Object(task.row.objectKey.value)), t, PurgeUnlinked(task.user, task.row));
    }
  }

  lemma EndPurgeKeeps(h: Digests, s: State, t: int, ok: bool)
    requires StateOk(h, s)
    ensures Good(h, s, EndPurge(s, t, ok))
  {
    hide StateOk;
    hide Good;
    GoodSelf(h, s);
    if t in s.tasks && s.tasks[t].PurgeUnlinked? {
      var task := s.tasks[t];
      InFlight(h, s, t);
      Durable(h, s);
      GoodDrop(h, s, s, t);
      var r := PurgeFinish(s.w.db, Sees(s.w, ok), task.user, task.row);
      if r.Ok? {
        PurgeFinishWrites(h, s.w.db, Sees(s.w, ok), task.user, task.row);
        CurrentIsTheRowRead(s.w.db, Sees(s.w, ok), task.user, task.row);
        GoodWrite(h, s, r.value, task.row.id, DropObject);
        GoodDrop(h, s, InDb(s, r.value), t);
      }
    }
  }

  lemma PlanPreviewKeeps(h: Digests, s: State, t: int, planned: Planned)
    requires StateOk(h, s)
    ensures Good(h, s, StepPreview(s, h, PreviewPlan(t, planned)))
  {
    hide StateOk;
    hide Good;
    GoodSelf(h, s);
    if t in s.tasks && s.tasks[t].PreviewWorking? {
      InFlight(h, s, t);
      GoodRelease(h, s, t, PreviewPlanned(s.tasks[t].user, s.tasks[t].row, planned));
    }
  }

  lemma PreviewKeeps(h: Digests, s: State, e: Event)
    requires StateOk(h, s) && Injective(h.binding)
    requires e.MapBegin? || e.MapEnd? || e.PreviewBegin? || e.PreviewFetch? || e.PreviewWork? || e.PreviewPlan?
             || e.PreviewEnd? || e.PurgeBegin? || e.PurgeUnlink? || e.PurgeEnd?
    ensures Good(h, s, StepPreview(s, h, e))
  {
    hide StateOk;
    hide Good;
    hide BeginMap;
    hide EndMap;
    hide BeginPreview;
    hide FetchPreview;
    hide WorkPreview;
    hide EndPreview;
    hide BeginPurge;
    hide UnlinkPurged;
    hide EndPurge;
    match e
    case MapBegin(_, _, _, _, _) => BeginMapKeeps(h, s, e);
    case MapEnd(t, ok, source) => EndMapKeeps(h, s, t, ok, source);
    case PreviewBegin(_, _, _, _, _) => BeginPreviewKeeps(h, s, e);
    case PreviewFetch(t) => FetchPreviewKeeps(h, s, t);
    case PreviewWork(t, ok) => WorkPreviewKeeps(h, s, t, ok);
    case PreviewPlan(t, planned) => PlanPreviewKeeps(h, s, t, planned);
    case PreviewEnd(t, ok) => EndPreviewKeeps(h, s, t, ok);
    case PurgeBegin(t, user, ok, id) => BeginPurgeKeeps(h, s, t, user, ok, id);
    case PurgeUnlink(t) => UnlinkPurgedKeeps(h, s, t);
    case PurgeEnd(t, ok) => EndPurgeKeeps(h, s, t, ok);
  }

  // ---- sweep -----------------------------------------------------------------------------

  lemma BeginSweepKeeps(h: Digests, s: State, t: int, closed: set<int>, ids: seq<string>)
    requires StateOk(h, s)
    ensures Good(h, s, BeginSweep(s, t, closed, ids))
  {
    hide StateOk;
    hide Good;
    GoodSelf(h, s);
    if BeginSweep(s, t, closed, ids) != s {
      Durable(h, s);
      var rows := RowsOf(s.w.db, ids);
      forall i | 0 <= i < |rows| ensures Observed(s.w.db, rows[i]) && Owns(s.w, rows[i]) {
        assert ids[i] in s.w.db.stages;
      }
      GoodPut(h, s, s, t, SweepRows(rows));
    }
  }

  /** The first row of a sweep's list has been purged; the sweep goes on to its file. */
  lemma PurgedPut(h: Digests, s: State, t: int, db: Db)
    requires StateOk(h, s) && t in s.tasks && s.tasks[t].SweepRows? && s.tasks[t].rows != []
    requires var row := s.tasks[t].rows[0];
      && DbOk(h, db) && Writes(s.w.db, db, row.id, PurgeAt(s.w.now)) && db.stages[row.id].status == Purged
    ensures var row, rest := s.tasks[t].rows[0], s.tasks[t].rows[1..];
      Good(h, s, Put(InDb(s, db), t, if row.objectKey.Some? then SweepUnlinking(row, rest) else SweepRows(rest)))
  {
    hide StateOk, Good, Shape, DbOk, Writes;
    var row, rest := s.tasks[t].rows[0], s.tasks[t].rows[1..];
    InFlight(h, s, t);
    RowsAreOk(h, s);
    GoodWrite(h, s, db, row.id, PurgeAt(s.w.now));
    WriteMovesForward(s.w.db, db, row.id, PurgeAt(s.w.now));
    RowsStay(s.w, InDb(s, db).w, s.tasks[t].rows);
    assert Observed(db, row) && RowsRead(InDb(s, db).w, rest);
    hide Observed, Evolves;
    GoodPut(h, s, InDb(s, db), t, if row.objectKey.Some? then SweepUnlinking(row, rest) else SweepRows(rest));
  }

  lemma RowsAreOk(h: Digests, s: State)
    requires StateOk(h, s)
    ensures RowsOk(s.w.db)
  {
  }

  lemma PurgeNextKeeps(h: Digests, s: State, t: int)
    requires StateOk(h, s)
    ensures Good(h, s, PurgeNext(s, t))
  {
    hide StateOk;
    hide Good;
    GoodSelf(h, s);
    if t in s.tasks && s.tasks[t].SweepRows? && s.tasks[t].rows != [] {
      var row, rest := s.tasks[t].rows[0], s.tasks[t].rows[1..];
      InFlight(h, s, t);
      Durable(h, s);
      GoodDrop(h, s, s, t);
      hide Shape, RunsOk, OwnersOk, CancelsOk;
      var r := SweepPurge(s.w.db, row, s.w.now);
      if r.Ok? {
        SweepPurgeWrites(h, s.w.db, row, s.w.now);
        PurgedPut(h, s, t, r.value);
      }
    }
  }

  lemma UnlinkSweptKeeps(h: Digests, s: State, t: int)
    requires StateOk(h, s)
    ensures Good(h, s, UnlinkSwept(s, t))
  {
    hide StateOk;
    hide Good;
    GoodSelf(h, s);
    if t in s.tasks && s.tasks[t].SweepUnlinking? {
      var task := s.tasks[t];
      InFlight(h, s, t);
      RevokedIsRemovable(h, s, task.row);
      GoodUnlink(h, s, Object(task.row.objectKey.value));
      GoodPut(h, s, Unlink(s, Object(task.row.objectKey.value)), t, SweepUnlinked(task.row, task.rows));
    }
  }

  lemma DropSweptKeeps(h: Digests, s: State, t: int)
    requires StateOk(h, s)
    ensures Good(h, s, DropSwept(s, t))
  {
    hide StateOk;
    hide Good;
    GoodSelf(h, s);
    if t in s.tasks && s.tasks[t].SweepUnlinked? {
      var task := s.tasks[t];
      InFlight(h, s, t);
      Durable(h, s);
      GoodDrop(h, s, s, t);
      var r := SweepDrop(s.w.db, task.row);
      if r.Ok? {
        SweepDropWrites(h, s.w.db, task.row);
        assert Evolves(task.row, s.w.db.stages[task.row.id]);
        GoodWrite(h, s, r.value, task.row.id, DropObject);
        WriteMovesForward(s.w.db, r.value, task.row.id, DropObject);
        RowsStay(s.w, InDb(s, r.value).w, task.rows);
        GoodPut(h, s, InDb(s, r.value), t, SweepRows(task.rows));
      }
    }
  }

  lemma NamedAreOwned(w: World)
    requires OwnersOk(w)
    ensures SweepSafe(w, NamedKeys(w.db), w.now - RETENTION_MS)
  {
    forall k | k in NamedKeys(w.db) ensures k in w.owner {
      var id :| id in w.db.stages && w.db.stages[id].objectKey == Some(k);
      assert Owns(w, w.db.stages[id]);
    }
    forall k | k in w.owner ensures k in NamedKeys(w.db) || Object(k) !in w.disk {
      assert w.owner[k] in w.db.stages;
    }
  }

  lemma ListOrphansKeeps(h: Digests, s: State, t: int)
    requires StateOk(h, s)
    ensures Good(h, s, ListOrphans(s, t))
  {
    hide StateOk;
    hide Good;
    GoodSelf(h, s);
    if t in s.tasks && s.tasks[t] == SweepRows([]) {
      Durable(h, s);
      NamedAreOwned(s.w);
      GoodPut(h, s, s, t, SweepListing(NamedKeys(s.w.db), s.w.now - RETENTION_MS));
    } else if t in s.tasks && s.tasks[t].SweepListing? {
      InFlight(h, s, t);
      GoodPut(h, s, s, t, SweepFiles(s.tasks[t].known, s.tasks[t].cutoff, s.w.disk.Keys));
    }
  }

  /** What a sweep unlinks is named by no live stage and written by no running upload. */
  lemma OldOrphanIsRemovable(h: Digests, s: State, t: int, name: Name)
    requires StateOk(h, s) && t in s.tasks && (s.tasks[t].SweepFiles? || s.tasks[t].SweepChecked?)
    requires name in s.w.disk && s.w.disk[name].mtime <= s.tasks[t].cutoff
    requires name.Object? ==> name.key !in s.tasks[t].known
    ensures Removable(s, name)
  {
    InFlight(h, s, t);
    forall id | id in s.w.db.stages && s.w.db.stages[id].status != Purged && s.w.db.stages[id].objectKey.Some?
      ensures name != Object(s.w.db.stages[id].objectKey.value)
    {
      assert Owns(s.w, s.w.db.stages[id]);
    }
    forall u | u in s.tasks && s.tasks[u].Upload?
      ensures name != FileOf(s.tasks[u].job, s.tasks[u].phase)
    {
      InFlight(h, s, u);
    }
  }

  /** No upload has the key of a file found old: its own file is young and the other is not there. */
  lemma OldFileIsNoUpload(h: Digests, s: State, name: Name)
    requires StateOk(h, s) && name in s.w.disk && s.w.disk[name].mtime <= s.w.now - RETENTION_MS
    ensures forall u :: u in s.tasks && s.tasks[u].Upload? ==> s.tasks[u].job.key != name.key
    ensures name.key in s.w.keys
  {
    forall u | u in s.tasks && s.tasks[u].Upload? ensures s.tasks[u].job.key != name.key {
      InFlight(h, s, u);
    }
  }

  lemma SweepOneKeeps(h: Digests, s: State, t: int, name: Name)
    requires StateOk(h, s)
    ensures Good(h, s, SweepOne(s, t, name))
  {
    hide StateOk;
    hide Good;
    GoodSelf(h, s);
    if t in s.tasks && s.tasks[t].SweepFiles? && name in s.tasks[t].todo {
      var task := s.tasks[t];
      InFlight(h, s, t);
      GoodDrop(h, s, s, t);
      var rest := task.todo - {name};
      if (name.Object? && name.key in task.known) || (name in s.w.disk && task.cutoff < s.w.disk[name].mtime) {
        GoodPut(h, s, s, t, SweepFiles(task.known, task.cutoff, rest));
      } else if name in s.w.disk {
        OldFileIsNoUpload(h, s, name);
        GoodPut(h, s, s, t, SweepChecked(task.known, task.cutoff, rest, name));
      }
    }
  }

  lemma SweepAwayKeeps(h: Digests, s: State, t: int)
    requires StateOk(h, s)
    ensures Good(h, s, SweepAway(s, t))
  {
    hide StateOk;
    hide Good;
    GoodSelf(h, s);
    if t in s.tasks && s.tasks[t].SweepChecked? {
      var task := s.tasks[t];
      InFlight(h, s, t);
      if task.name in s.w.disk {
        OldOrphanIsRemovable(h, s, t, task.name);
        GoodUnlink(h, s, task.name);
      } else {
        assert Unlink(s, task.name) == s;
      }
      GoodPut(h, s, Unlink(s, task.name), t, SweepFiles(task.known, task.cutoff, task.todo));
    }
  }

  lemma SweepKeeps(h: Digests, s: State, e: Event)
    requires StateOk(h, s)
    requires e.SweepBegin? || e.SweepRow? || e.SweepUnlink? || e.SweepDropKey? || e.SweepList?
             || e.SweepFile? || e.SweepRemove? || e.SweepEnd?
    ensures Good(h, s, StepSweep(s, e))
  {
    hide StateOk;
    hide Good;
    hide BeginSweep;
    hide PurgeNext;
    hide UnlinkSwept;
    hide DropSwept;
    hide ListOrphans;
    hide SweepOne;
    hide SweepAway;
    match e
    case SweepBegin(t, closed, ids) => BeginSweepKeeps(h, s, t, closed, ids);
    case SweepRow(t) => PurgeNextKeeps(h, s, t);
    case SweepUnlink(t) => UnlinkSweptKeeps(h, s, t);
    case SweepDropKey(t) => DropSweptKeeps(h, s, t);
    case SweepList(t) => ListOrphansKeeps(h, s, t);
    case SweepFile(t, name) => SweepOneKeeps(h, s, t, name);
    case SweepRemove(t) => SweepAwayKeeps(h, s, t);
    case SweepEnd(t) => GoodSelf(h, s); GoodDrop(h, s, s, t);
  }
}
