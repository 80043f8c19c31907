/** Every upload event keeps the protocol invariant. */
module CsvUploadSteps {
  import opened Wrappers
  import opened CsvStage
  import opened CsvSidecar
  import opened CsvSidecarLaws
  import opened CsvProtocol
  import opened CsvProtocolLaws
  import opened CsvProtocolSteps

  /** The world after a young file appeared, was replaced or was renamed under an unadmitted key. */
  predicate Younger(w: World, v: World, key: string) {
    && v == w.(disk := v.disk, keys := v.keys)
    && key !in w.owner && key in v.keys && (forall k :: k in w.keys ==> k in v.keys)
    && (forall n :: n in v.disk && n.key != key ==> n in w.disk && v.disk[n] == w.disk[n])
    && (forall n :: n in w.disk && n.key != key ==> n in v.disk)
    && (forall n :: n in v.disk && n.key == key ==> w.now - RETENTION_MS < v.disk[n].mtime)
  }

  lemma YoungerKeepsWorld(h: Digests, w: World, v: World, key: string)
    requires WorldOk(h, w) && Younger(w, v, key)
    ensures WorldOk(h, v)
  {
    forall id | id in v.db.stages && v.db.stages[id].status != Purged
      ensures v.db.stages[id].objectKey.Some? && Object(v.db.stages[id].objectKey.value) in v.disk
      ensures Holds(h, v.disk[Object(v.db.stages[id].objectKey.value)], v.db.stages[id].sha, v.db.stages[id].bytes)
    {
      assert Owns(w, w.db.stages[id]);
    }
    forall id | id in v.db.stages ensures Owns(v, v.db.stages[id]) {
      assert Owns(w, w.db.stages[id]);
    }
    assert ReadyOk(v) && ActivationsOk(v) && CancelsOk(v);
  }

  /** The command neither owns this key nor is about to unlink a file of it. */
  predicate Elsewhere(task: Task, key: string) {
    KeyOf(task) != Some(key) && (task.SweepChecked? ==> task.name.key != key)
  }

  lemma YoungerKeepsTask(h: Digests, w: World, v: World, key: string, task: Task)
    requires TaskOk(h, w, task) && Younger(w, v, key) && Elsewhere(task, key)
    ensures TaskOk(h, v, task)
  {
  }

  /** Replaces the task `t` that owns `key` in a world where only files of `key` changed. */
  lemma OwnFileKeeps(h: Digests, s: State, v: World, t: int, key: string, task: Task)
    requires StateOk(h, s) && Younger(s.w, v, key)
    requires forall u :: u in s.tasks && u != t ==> Elsewhere(s.tasks[u], key)
    requires KeyOf(task) == Some(key) && TaskOk(h, v, task) && !Occupies(task)
    requires t in s.tasks ==> !Occupies(s.tasks[t])
    ensures Good(h, s, Put(s.(w := v), t, task))
  {
    hide StateOk;
    hide Advances;
    var base := State(v, s.tasks - {t}, s.working);
    OthersKeep(h, s, v, t, key);
    PutKeeps(h, base, t, task);
    QuietAdvances(s.w, v);
    assert Put(s.(w := v), t, task).tasks == base.tasks[t := task];
  }

  lemma OthersKeep(h: Digests, s: State, v: World, t: int, key: string)
    requires StateOk(h, s) && Younger(s.w, v, key)
    requires forall u :: u in s.tasks && u != t ==> Elsewhere(s.tasks[u], key)
    requires t in s.tasks ==> !Occupies(s.tasks[t])
    ensures StateOk(h, State(v, s.tasks - {t}, s.working))
  {
    YoungerKeepsWorld(h, s.w, v, key);
    var rest := s.tasks - {t};
    forall u | u in rest ensures TaskOk(h, v, rest[u]) {
      InFlight(h, s, u);
      YoungerKeepsTask(h, s.w, v, key, s.tasks[u]);
    }
  }

  /** Only one command in flight is responsible for a key. */
  lemma KeyIsMine(h: Digests, s: State, t: int)
    requires StateOk(h, s) && t in s.tasks && KeyOf(s.tasks[t]).Some?
    ensures forall u :: u in s.tasks && u != t ==> KeyOf(s.tasks[u]) != KeyOf(s.tasks[t])
    ensures s.tasks[t].Upload? ==> forall u :: u in s.tasks && u != t ==> Elsewhere(s.tasks[u], s.tasks[t].job.key)
  {
  }

  lemma FreshKeyIsNobodys(h: Digests, s: State, key: string)
    requires StateOk(h, s) && key !in s.w.keys
    ensures forall u :: u in s.tasks ==> Elsewhere(s.tasks[u], key)
    ensures Object(key) !in s.w.disk && key !in s.w.owner
  {
    forall u | u in s.tasks ensures Elsewhere(s.tasks[u], key) {
      InFlight(h, s, u);
    }
  }

  lemma StartKeeps(h: Digests, s: State, e: Event)
    requires StateOk(h, s) && e.UploadStart?
    ensures Good(h, s, StartUpload(s, e))
  {
    hide StateOk;
    hide Good;
    GoodSelf(h, s);
    if StartUpload(s, e) != s {
      FreshKeyIsNobodys(h, s, e.key);
      var v := s.w.(keys := s.w.keys + {e.key}, disk := s.w.disk[Part(e.key) := File([], s.w.now)]);
      var job := UploadJob(e.user, s.w.nonce, e.id, e.sha, e.bytes, e.key);
      OnlyOneFile(h, s, v, e.key);
      OwnFileKeeps(h, s, v, e.task, e.key, Upload(job, Receiving));
    }
  }

  lemma OnlyOneFile(h: Digests, s: State, v: World, key: string)
    requires StateOk(h, s) && key !in s.w.keys
    requires v == s.w.(keys := s.w.keys + {key}, disk := s.w.disk[Part(key) := File([], s.w.now)])
    ensures Younger(s.w, v, key)
  {
  }

  lemma ChunkKeeps(h: Digests, s: State, t: int, data: seq<int>)
    requires StateOk(h, s)
    ensures Good(h, s, ReceiveChunk(s, t, data))
  {
    hide StateOk;
    hide Good;
    GoodSelf(h, s);
    if ReceiveChunk(s, t, data) != s {
      InFlight(h, s, t);
      KeyIsMine(h, s, t);
      var job := s.tasks[t].job;
      OwnFileKeeps(h, s, ReceiveChunk(s, t, data).w, t, job.key, Upload(job, Receiving));
      assert s.tasks[t := Upload(job, Receiving)] == s.tasks;
    }
  }

  lemma InstallKeeps(h: Digests, s: State, t: int)
    requires StateOk(h, s)
    ensures Good(h, s, InstallUpload(s, h, t))
  {
    hide StateOk;
    hide Good;
    GoodSelf(h, s);
    if InstallUpload(s, h, t) != s {
      InFlight(h, s, t);
      KeyIsMine(h, s, t);
      var job := s.tasks[t].job;
      OwnFileKeeps(h, s, InstallUpload(s, h, t).w, t, job.key, Upload(job, Stored));
    }
  }

  lemma UnadmittedIsRemovable(h: Digests, s: State, t: int, name: Name)
    requires StateOk(h, s) && t in s.tasks && KeyOf(s.tasks[t]) == Some(name.key)
    ensures Removable(Drop(s, t), name)
  {
    InFlight(h, s, t);
    KeyIsMine(h, s, t);
    forall id | id in s.w.db.stages && s.w.db.stages[id].status != Purged && s.w.db.stages[id].objectKey.Some?
      ensures name != Object(s.w.db.stages[id].objectKey.value)
    {
      assert Owns(s.w, s.w.db.stages[id]);
    }
  }

  lemma ReleaseFileKeeps(h: Digests, s: State, t: int, name: Name)
    requires StateOk(h, s) && t in s.tasks && KeyOf(s.tasks[t]) == Some(name.key)
    ensures Good(h, s, Drop(Unlink(s, name), t))
  {
    UnadmittedIsRemovable(h, s, t, name);
    DropKeeps(h, s, t);
    GoodUnlink(h, Drop(s, t), name);
    assert Unlink(Drop(s, t), name) == Drop(Unlink(s, name), t);
  }

  // ---- the insert ------------------------------------------------------------------------

  /** `v` is `w` with one new row, for an object nobody owned before. */
  predicate Inserts(h: Digests, w: World, v: World, row: Stage, key: string) {
    && v == w.(db := v.db, owner := w.owner[key := row.id])
    && DbOk(h, v.db) && row.id !in w.db.stages && v.db.stages == w.db.stages[row.id := row]
    && row == NewStage(row.id, row.target, row.owner, row.sha, row.bytes, key, w.now, w.now + RETENTION_MS)
    && key !in w.owner && key in w.keys
    && Object(key) in w.disk && Holds(h, w.disk[Object(key)], row.sha, row.bytes)
    && w.now - RETENTION_MS < w.disk[Object(key)].mtime
  }

  lemma InsertKeepsOwners(h: Digests, w: World, v: World, row: Stage, key: string)
    requires Inserts(h, w, v, row, key) && OwnersOk(w) && Custody(h, w)
    ensures OwnersOk(v) && Custody(h, v)
  {
    forall id | id in v.db.stages ensures Owns(v, v.db.stages[id]) {
      if id != row.id {
        assert Owns(w, w.db.stages[id]);
      }
    }
  }

  lemma InsertKeepsLiveOnce(h: Digests, w: World, v: World, row: Stage, key: string)
    requires Inserts(h, w, v, row, key) && LiveOnce(w.db, w.now) && RowsOk(w.db)
    requires !HasDuplicate(w.db, row.target, row.owner, row.sha, row.bytes, w.now)
    ensures LiveOnce(v.db, v.now)
  {
    forall i, j | i in v.db.stages && j in v.db.stages && i != j
      ensures Live(v.db.stages[i]) && Live(v.db.stages[j]) && SameFile(v.db.stages[i], v.db.stages[j]) ==>
        v.db.stages[i].expiresAt <= v.now || v.db.stages[j].expiresAt <= v.now
    {
      if i == row.id && Live(v.db.stages[j]) && SameFile(row, v.db.stages[j]) {
        assert !Duplicates(w.db.stages[j], row.target, row.owner, row.sha, row.bytes, w.now);
      }
      if j == row.id && Live(v.db.stages[i]) && SameFile(v.db.stages[i], row) {
        assert !Duplicates(w.db.stages[i], row.target, row.owner, row.sha, row.bytes, w.now);
      }
    }
  }

  lemma InsertEvolves(h: Digests, w: World, v: World, row: Stage, key: string)
    requires Inserts(h, w, v, row, key)
    ensures RowsEvolve(w.db, v.db)
  {
  }

  lemma InsertAdvances(h: Digests, w: World, v: World, row: Stage, key: string)
    requires Inserts(h, w, v, row, key)
    ensures Advances(w, v)
  {
    RunsEvolveReflexive(w.runs);
  }

  lemma InsertKeepsWorld(h: Digests, w: World, v: World, row: Stage, key: string)
    requires Inserts(h, w, v, row, key) && WorldOk(h, w)
    requires !HasDuplicate(w.db, row.target, row.owner, row.sha, row.bytes, w.now)
    ensures WorldOk(h, v)
  {
    InsertKeepsOwners(h, w, v, row, key);
    InsertKeepsLiveOnce(h, w, v, row, key);
    InsertEvolves(h, w, v, row, key);
    CommandsStay(w, v);
  }

  /** The intermediate world in which only the sidecar has moved. */
  lemma InsertKeepsTask(h: Digests, w: World, v: World, row: Stage, key: string, task: Task)
    requires Inserts(h, w, v, row, key) && TaskOk(h, w, task) && KeyOf(task) != Some(key)
    ensures TaskOk(h, v, task)
  {
    hide Inserts, TaskOk, Forward;
    InsertForward(h, w, v, row, key);
    TaskStays(h, w, w.(db := v.db), task);
    OwnerKeepsTask(h, w, v, row, key, task);
  }

  lemma InsertForward(h: Digests, w: World, v: World, row: Stage, key: string)
    requires Inserts(h, w, v, row, key)
    ensures Forward(w, w.(db := v.db))
  {
    InsertEvolves(h, w, v, row, key);
    RunsEvolveReflexive(w.runs);
  }

  lemma OwnerKeepsTask(h: Digests, w: World, v: World, row: Stage, key: string, task: Task)
    requires Inserts(h, w, v, row, key) && TaskOk(h, w.(db := v.db), task) && KeyOf(task) != Some(key)
    ensures TaskOk(h, v, task)
  {
    hide Observed, DbOk;
    if AboutSweep(task) {
      OwnerKeepsSweep(h, w, v, row, key, task);
    } else {
      OwnerKeepsOther(h, w, v, row, key, task);
    }
    hide TaskOk;
  }

  lemma OwnerKeepsSweep(h: Digests, w: World, v: World, row: Stage, key: string, task: Task)
    requires Inserts(h, w, v, row, key) && TaskOk(h, w.(db := v.db), task) && AboutSweep(task)
    ensures TaskOk(h, v, task)
  {
    hide Observed, DbOk;
  }

  lemma OwnerKeepsOther(h: Digests, w: World, v: World, row: Stage, key: string, task: Task)
    requires Inserts(h, w, v, row, key) && TaskOk(h, w.(db := v.db), task)
    requires KeyOf(task) != Some(key) && !AboutSweep(task)
    ensures TaskOk(h, v, task)
  {
    hide Observed, DbOk;
  }

  lemma AdmissionInserts(h: Digests, w: World, job: UploadJob, db: Db)
    requires WorldOk(h, w) && UploadOk(h, w, job, Inspected)
    requires DbOk(h, db) && job.id !in w.db.stages
    requires db.stages == w.db.stages[job.id := NewStage(job.id, job.nonce, job.user, job.sha, job.bytes, job.key,
                                                        w.now, w.now + RETENTION_MS)]
    ensures Inserts(h, w, w.(db := db, owner := w.owner[job.key := job.id]), db.stages[job.id], job.key)
  {
  }

  lemma InsertKeepsState(h: Digests, s: State, v: World, t: int, row: Stage, key: string)
    requires StateOk(h, s) && Inserts(h, s.w, v, row, key)
    requires !HasDuplicate(s.w.db, row.target, row.owner, row.sha, row.bytes, s.w.now)
    requires t in s.tasks && KeyOf(s.tasks[t]) == Some(key)
    ensures Good(h, s, Drop(s, t).(w := v))
  {
    InsertAdvances(h, s.w, v, row, key);
    InsertKeepsWorld(h, s.w, v, row, key);
    DropKeeps(h, s, t);
    var rest := Drop(s, t);
    forall u | u in rest.tasks ensures TaskOk(h, v, rest.tasks[u]) {
      InFlight(h, s, u);
      InsertKeepsTask(h, s.w, v, row, key, s.tasks[u]);
    }
  }

  lemma InsertedKeeps(h: Digests, s: State, t: int, job: UploadJob, db: Db)
    requires StateOk(h, s) && t in s.tasks && s.tasks[t] == Upload(job, Inspected)
    requires !HasDuplicate(s.w.db, job.nonce, job.user, job.sha, job.bytes, s.w.now)
    requires DbOk(h, db) && job.id !in s.w.db.stages
    requires db.stages == s.w.db.stages[job.id := NewStage(job.id, job.nonce, job.user, job.sha, job.bytes, job.key,
                                                          s.w.now, s.w.now + RETENTION_MS)]
    ensures Good(h, s, Drop(s.(w := s.w.(db := db, owner := s.w.owner[job.key := job.id])), t))
  {
    InFlight(h, s, t);
    AdmissionInserts(h, s.w, job, db);
    var v := s.w.(db := db, owner := s.w.owner[job.key := job.id]);
    InsertKeepsState(h, s, v, t, db.stages[job.id], job.key);
    assert Drop(s.(w := v), t) == Drop(s, t).(w := v);
  }

  lemma AdmitKeepsState(h: Digests, s: State, t: int, ok: bool)
    requires StateOk(h, s)
    ensures Good(h, s, AdmitUpload(s, t, ok))
  {
    hide StateOk;
    hide Good;
    GoodSelf(h, s);
    if InPhase(s, t, Inspected) {
      InFlight(h, s, t);
      KeyIsMine(h, s, t);
      Durable(h, s);
      var job := s.tasks[t].job;
      var r := Admit(s.w.db, Sees(s.w, ok), job.user, job.nonce, job.id, job.sha, job.bytes, job.key);
      if r.Ok? && r.value.Inserted? {
        AdmitKeeps(h, s.w.db, Sees(s.w, ok), job.user, job.nonce, job.id, job.sha, job.bytes, job.key);
        InsertedKeeps(h, s, t, job, r.value.db);
      } else {
        GoodPut(h, s, s, t, Discarding(job.key));
      }
    }
  }

  lemma WorkKeeps(h: Digests, s: State, t: int, ok: bool)
    requires StateOk(h, s)
    ensures Good(h, s, BeginAdmission(s, t, ok))
  {
    hide StateOk;
    hide Good;
    GoodSelf(h, s);
    if InPhase(s, t, Stored) && s.working.None? {
      InFlight(h, s, t);
      KeyIsMine(h, s, t);
      GoodOccupy(h, s, t, Upload(s.tasks[t].job, Working));
    }
  }

  lemma WorkedKeeps(h: Digests, s: State, t: int)
    requires StateOk(h, s)
    ensures Good(h, s, EndAdmission(s, t))
  {
    hide StateOk;
    hide Good;
    GoodSelf(h, s);
    if InPhase(s, t, Working) {
      InFlight(h, s, t);
      KeyIsMine(h, s, t);
      GoodRelease(h, s, t, Upload(s.tasks[t].job, Inspected));
    }
  }

  lemma RejectKeeps(h: Digests, s: State, t: int)
    requires StateOk(h, s)
    ensures Good(h, s, RejectUpload(s, t))
  {
    hide StateOk;
    hide Good;
    GoodSelf(h, s);
    if t in s.tasks && s.tasks[t].Upload? && s.tasks[t].phase != Receiving {
      InFlight(h, s, t);
      KeyIsMine(h, s, t);
      GoodDrop(h, s, s, t);
      DropKeeps(h, s, t);
      GoodPut(h, s, Drop(s, t), t, Discarding(s.tasks[t].job.key));
    }
  }

  lemma UploadKeeps(h: Digests, s: State, e: Event)
    requires StateOk(h, s)
    requires e.UploadStart? || e.UploadChunk? || e.UploadInstall? || e.UploadDrop? || e.UploadWork?
             || e.UploadWorked? || e.UploadReject? || e.UploadAdmit? || e.Discard?
    ensures Good(h, s, StepUpload(s, h, e))
  {
    hide StateOk;
    hide Good;
    hide StartUpload;
    hide ReceiveChunk;
    hide InstallUpload;
    hide AdmitUpload;
    hide BeginAdmission;
    hide EndAdmission;
    hide RejectUpload;
    GoodSelf(h, s);
    match e
    case UploadStart(_, _, _, _, _, _, _) => StartKeeps(h, s, e);
    case UploadChunk(t, data) => ChunkKeeps(h, s, t, data);
    case UploadInstall(t) => InstallKeeps(h, s, t);
    case UploadDrop(t, removed) =>
      if InPhase(s, t, Receiving) {
        GoodDrop(h, s, s, t);
        ReleaseFileKeeps(h, s, t, Part(s.tasks[t].job.key));
      }
    case UploadAdmit(t, ok) => AdmitKeepsState(h, s, t, ok);
    case Discard(t, removed) =>
      if t in s.tasks && s.tasks[t].Discarding? {
        GoodDrop(h, s, s, t);
        ReleaseFileKeeps(h, s, t, Object(s.tasks[t].key));
      }
    case UploadWork(t, ok) => WorkKeeps(h, s, t, ok);
    case UploadWorked(t) => WorkedKeeps(h, s, t);
    case UploadReject(t) => RejectKeeps(h, s, t);
  }
}
