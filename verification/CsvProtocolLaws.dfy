/**
 * The invariant of the staging protocol: what every reachable state satisfies,
 * whatever interleaving, failure or restart led to it.
 */
module CsvProtocolLaws {
  import opened Wrappers
  import opened CsvStage
  import opened CsvSidecar
  import opened CsvSidecarLaws
  import opened CsvRuns
  import opened CsvProtocol

  // ---- the durable state -----------------------------------------------------------------

  predicate Holds(h: Digests, file: File, sha: string, bytes: int) {
    |file.content| == bytes && h.content(file.content) == sha
  }

  /** A stage that is not purged has its object on disk, of the recorded length and digest. */
  predicate Custody(h: Digests, w: World) {
    forall id :: id in w.db.stages && w.db.stages[id].status != Purged ==>
      && w.db.stages[id].objectKey.Some?
      && Object(w.db.stages[id].objectKey.value) in w.disk
      && Holds(h, w.disk[Object(w.db.stages[id].objectKey.value)], w.db.stages[id].sha, w.db.stages[id].bytes)
  }

  /** The row's object key is one that was admitted for this row. */
  predicate Owns(w: World, row: Stage) {
    row.objectKey.Some? ==> row.objectKey.value in w.owner && w.owner[row.objectKey.value] == row.id
  }

  /** An object once admitted is named by its stage until it is gone, and never comes back. */
  predicate OwnersOk(w: World) {
    && (forall id :: id in w.db.stages ==> Owns(w, w.db.stages[id]))
    && (forall k :: k in w.owner ==>
          && k in w.keys && w.owner[k] in w.db.stages
          && (w.db.stages[w.owner[k]].objectKey == Some(k) || Object(k) !in w.disk))
    && (forall n :: n in w.disk ==> n.key in w.keys)
  }

  predicate SameFile(a: Stage, b: Stage) {
    a.target == b.target && a.owner == b.owner && a.sha == b.sha && a.bytes == b.bytes
  }

  /** Never two unexpired staged-or-previewed stages for one target, owner, digest and length. */
  predicate LiveOnce(db: Db, now: int) {
    forall i, j | i in db.stages && j in db.stages && i != j ::
      Live(db.stages[i]) && Live(db.stages[j]) && SameFile(db.stages[i], db.stages[j]) ==>
        db.stages[i].expiresAt <= now || db.stages[j].expiresAt <= now
  }

  /** The stage names this run and was confirmed by this command. */
  predicate Names(db: Db, stage: string, run: int, command: string) {
    && stage in db.stages && db.stages[stage].nativeRun == Some(run)
    && db.stages[stage].command == Some(command)
  }

  /** A runnable run is the one its stage names, under the command that confirmed the stage. */
  predicate ReadyOk(w: World) {
    forall r :: r in w.runs && w.runs[r].ready ==>
      && w.runs[r].assoc.Some?
      && Names(w.db, w.runs[r].assoc.value.stageId, r, w.runs[r].assoc.value.confirmation)
  }

  predicate BeforeCancel(w: World, stage: string, version: nat) {
    stage in w.cancelledAt ==> version < w.cancelledAt[stage]
  }

  predicate ActivationsOk(w: World) {
    forall a :: a in w.activations ==>
      && Names(w.db, a.stage, a.run, a.command) && a.boundAt <= w.db.stages[a.stage].version
      && BeforeCancel(w, a.stage, a.boundAt)
  }

  predicate CancelsOk(w: World) {
    && (forall id :: id in w.cancelledAt ==>
          && id in w.db.stages && w.db.stages[id].cancelCommand.Some?
          && w.cancelledAt[id] <= w.db.stages[id].version)
    && (forall id :: id in w.db.stages && w.db.stages[id].cancelCommand.Some? ==> id in w.cancelledAt)
  }

  /** The stage is confirmed, and this is the dataset it was mapped to. */
  predicate MappedTo(db: Db, stage: string, dataset: string) {
    && stage in db.stages && db.stages[stage].command.Some?
    && db.stages[stage].sourceId == Some(dataset)
  }

  /** A run serves only stages of its own dataset. */
  predicate ServesOk(w: World) {
    forall r :: r in w.runs && w.runs[r].assoc.Some? ==>
      MappedTo(w.db, w.runs[r].assoc.value.stageId, w.runs[r].dataset)
  }

  /** An accepted command is kept by the one run of its stage's dataset. */
  predicate Recorded(w: World, a: Acceptance) {
    && a.run in w.runs && MappedTo(w.db, a.stage, w.runs[a.run].dataset)
    && a.command in w.runs[a.run].receipts && w.runs[a.run].receipts[a.command].stageId == a.stage
  }

  /** The list is what the runs have recorded, and no command of a stage is accepted twice. */
  predicate AcceptedOk(w: World) {
    && (forall i :: 0 <= i < |w.accepted| ==> Recorded(w, w.accepted[i]))
    && (forall i, j :: 0 <= i < j < |w.accepted| ==>
          w.accepted[i].stage != w.accepted[j].stage || w.accepted[i].command != w.accepted[j].command)
    && (forall r, c :: r in w.runs && c in w.runs[r].receipts ==>
          Acceptance(w.runs[r].receipts[c].stageId, c, r) in w.accepted)
  }

  predicate NoneRunnable(runs: Runs, stage: string) {
    forall r :: r in runs && Serves(runs[r], stage) ==> !Runnable(runs[r])
  }

  /** A stage whose cancel command is past its loop has no run left that could work. */
  predicate StoppedOk(w: World) {
    forall id :: id in w.stopped ==>
      id in w.db.stages && w.db.stages[id].cancelCommand.Some? && NoneRunnable(w.runs, id)
  }

  /** What the apply and cancel commands rely on. */
  predicate ApplyOk(w: World) { ServesOk(w) && AcceptedOk(w) && StoppedOk(w) }

  predicate WorldOk(h: Digests, w: World) {
    && DbOk(h, w.db) && RunsOk(w.runs) && Custody(h, w) && OwnersOk(w) && LiveOnce(w.db, w.now)
    && ReadyOk(w) && ActivationsOk(w) && CancelsOk(w) && ApplyOk(w)
  }

  // ---- commands in flight ----------------------------------------------------------------

  predicate Previewable(w: World, row: Stage) {
    Observed(w.db, row) && Live(row) && row.choices.Some? && row.sourceId.Some?
  }

  predicate Revoked(w: World, row: Stage) {
    && Observed(w.db, row) && Owns(w, row) && row.objectKey.Some?
    && w.db.stages[row.id].status == Purged
  }

  predicate Gone(w: World, row: Stage) {
    row.objectKey.Some? && Object(row.objectKey.value) !in w.disk
  }

  predicate RowsRead(w: World, rows: seq<Stage>) {
    forall i :: 0 <= i < |rows| ==> Observed(w.db, rows[i]) && Owns(w, rows[i])
  }

  /** Every object admitted since the sweep named the known ones is too young for its cutoff. */
  predicate SweepSafe(w: World, known: set<string>, cutoff: int) {
    && cutoff <= w.now - RETENTION_MS
    && (forall k :: k in known ==> k in w.owner)
    && (forall k :: k in w.owner ==>
          k in known || Object(k) !in w.disk || cutoff < w.disk[Object(k)].mtime)
  }

  predicate UploadOk(h: Digests, w: World, job: UploadJob, phase: UploadPhase) {
    && job.key in w.keys && job.key !in w.owner
    && FileOf(job, phase) in w.disk && w.now - RETENTION_MS < w.disk[FileOf(job, phase)].mtime
    && (phase == Receiving ==> Object(job.key) !in w.disk)
    && (phase != Receiving ==> Part(job.key) !in w.disk)
    && (phase != Receiving ==> Holds(h, w.disk[Object(job.key)], job.sha, job.bytes))
  }

  /** The context's run is over or has moved on: nothing it carries is recorded any more. */
  predicate Stale(runs: Runs, c: Context) {
    c.runId in runs && (runs[c.runId].native != PartialRun || c.generation < runs[c.runId].generation)
  }

  /** A row the command has read, already confirmed. */
  predicate Confirmation(w: World, x: Execution, row: Stage) {
    Observed(w.db, row) && row.id == x.stageId && row.command.Some?
  }

  predicate LoadOk(w: World, load: Load) {
    && Confirmation(w, load.execution, load.confirmed) && Confirmation(w, load.execution, load.row)
    && load.row.sourceId.Some?
  }

  predicate BoundOk(w: World, c: Context, version: nat) {
    && Names(w.db, c.assoc.stageId, c.runId, c.assoc.confirmation)
    && version <= w.db.stages[c.assoc.stageId].version
    && BeforeCancel(w, c.assoc.stageId, version)
    && (c.assoc.stageId in w.stopped ==> Stale(w.runs, c))
  }

  predicate TaskOk(h: Digests, w: World, task: Task) {
    match task
    case Upload(job, phase) => UploadOk(h, w, job, phase)
    case Discarding(key) => key in w.keys && key !in w.owner
    case Mapping(_, row, _) => Observed(w.db, row) && Live(row)
    case PreviewReading(_, row) => Previewable(w, row)
    case PreviewFetched(_, row, _) => Previewable(w, row)
    case PreviewWorking(_, row) => Previewable(w, row)
    case PreviewPlanned(_, row, _) => Previewable(w, row)
    case PurgeUnlinking(_, row) => Revoked(w, row) && row.status == Purged
    case PurgeUnlinked(_, row) => Revoked(w, row) && row.status == Purged && Gone(w, row)
    case SweepRows(rows) => RowsRead(w, rows)
    case SweepUnlinking(row, rows) => Revoked(w, row) && RowsRead(w, rows)
    case SweepUnlinked(row, rows) => Revoked(w, row) && Gone(w, row) && RowsRead(w, rows)
    case SweepListing(known, cutoff) => SweepSafe(w, known, cutoff)
    case SweepFiles(known, cutoff, todo) =>
      && SweepSafe(w, known, cutoff)
      && (forall n :: n in w.disk && w.disk[n].mtime <= cutoff ==>
            n in todo || (n.Object? && n.key in known))
    case SweepChecked(known, cutoff, todo, name) =>
      && SweepSafe(w, known, cutoff)
      && (forall n :: n in w.disk && w.disk[n].mtime <= cutoff ==>
            n == name || n in todo || (n.Object? && n.key in known))
      && name.key in w.keys && (name.Object? ==> name.key !in known)
      && (name in w.disk ==> w.disk[name].mtime <= cutoff)
    case Holding(c) => Held(w.runs, c)
    case Bound(c, version) => Held(w.runs, c) && BoundOk(w, c, version)
    case ExecEntered(_) => true
    case ExecStage(_, _) => true
    case ExecSeen(x, _, seen) => seen.Some? ==> Confirmation(w, x, seen.value)
    case ExecClaimed(_) => true
    case ExecConfirmed(x, row) => Confirmation(w, x, row)
    case LoadReading(load) => LoadOk(w, load)
    case LoadFetched(load, _) => LoadOk(w, load)
    case LoadWorking(load) => LoadOk(w, load)
    case LoadPlanned(load, _) => LoadOk(w, load)
    case ExecSealing(load, _) => LoadOk(w, load)
    case ExecSealed(load, _, run) =>
      LoadOk(w, load) && run in w.runs && load.row.sourceId == Some(w.runs[run].dataset)
    case Cancelling(_, stop, _, _) =>
      stop.stageId in w.db.stages && w.db.stages[stop.stageId].cancelCommand.Some?
  }

  function KeyOf(task: Task): Option<string> {
    match task
    case Upload(job, _) => Some(job.key)
    case Discarding(key) => Some(key)
    case _ => None
  }

  predicate KeysApart(tasks: map<int, Task>) {
    forall t, u :: t in tasks && u in tasks && t != u && KeyOf(tasks[t]).Some? ==>
      KeyOf(tasks[t]) != KeyOf(tasks[u])
  }

  /** A sweep about to unlink a file meets no upload of the same key. */
  predicate ChecksApart(tasks: map<int, Task>) {
    forall t, u :: t in tasks && u in tasks && tasks[t].SweepChecked? && tasks[u].Upload? ==>
      tasks[t].name.key != tasks[u].job.key
  }

  predicate Occupies(task: Task) {
    (task.Upload? && task.phase == Working) || task.PreviewWorking? || task.LoadWorking?
  }

  /** The `working` flag: the one task whose parse or plan is running, if there is one. */
  predicate OneWorker(s: State) {
    && (forall t :: t in s.tasks && Occupies(s.tasks[t]) ==> s.working == Some(t))
    && (s.working.Some? ==> s.working.value in s.tasks && Occupies(s.tasks[s.working.value]))
  }

  predicate TasksOk(h: Digests, w: World, tasks: map<int, Task>) {
    forall t :: t in tasks ==> TaskOk(h, w, tasks[t])
  }

  predicate StateOk(h: Digests, s: State) {
    && WorldOk(h, s.w) && TasksOk(h, s.w, s.tasks)
    && KeysApart(s.tasks) && ChecksApart(s.tasks) && OneWorker(s)
  }

  // ---- changes that leave the directory and the clock alone -------------------------------

  /** The two databases move forward; files, keys and clock stay. */
  predicate Forward(w: World, v: World) {
    && v.now == w.now && v.disk == w.disk && v.keys == w.keys && v.owner == w.owner && v.stopped == w.stopped
    && RowsEvolve(w.db, v.db) && RunsEvolve(w.runs, v.runs)
    && (forall id :: id in v.cancelledAt ==>
          || (id in w.cancelledAt && v.cancelledAt[id] == w.cancelledAt[id])
          || (id in w.db.stages && w.db.stages[id].version < v.cancelledAt[id]))
  }

  lemma RunsEvolveReflexive(runs: Runs)
    ensures RunsEvolve(runs, runs)
  {
    forall id | id in runs ensures RunEvolves(runs[id], runs[id]) {
      if runs[id].assoc.Some? {
        var a := runs[id].assoc.value;
        assert a == a.(stageVersion := a.stageVersion);
      }
    }
  }

  /** An upload, a mapping, a preview or a purge. */
  predicate AboutFiles(task: Task) {
    || task.Upload? || task.Discarding? || task.Mapping? || task.PreviewReading? || task.PreviewFetched?
    || task.PreviewWorking? || task.PreviewPlanned? || task.PurgeUnlinking? || task.PurgeUnlinked?
  }

  predicate AboutSweep(task: Task) {
    || task.SweepRows? || task.SweepUnlinking? || task.SweepUnlinked? || task.SweepListing? || task.SweepFiles?
    || task.SweepChecked?
  }

  lemma FileTaskStays(h: Digests, w: World, v: World, task: Task)
    requires TaskOk(h, w, task) && Forward(w, v) && AboutFiles(task)
    ensures TaskOk(h, v, task)
  {
    hide Observed, RowsEvolve, RunsEvolve, Holds;
    match task
    case Mapping(_, row, _) => ObservedStays(w.db, v.db, row);
    case PreviewReading(_, row) => ObservedStays(w.db, v.db, row);
    case PreviewFetched(_, row, _) => ObservedStays(w.db, v.db, row);
    case PreviewWorking(_, row) => ObservedStays(w.db, v.db, row);
    case PreviewPlanned(_, row, _) => ObservedStays(w.db, v.db, row);
    case PurgeUnlinking(_, row) => RevokedStays(w, v, row);
    case PurgeUnlinked(_, row) => RevokedStays(w, v, row);
    case _ => UploadTaskStays(h, w, v, task); hide TaskOk;
  }

  lemma UploadTaskStays(h: Digests, w: World, v: World, task: Task)
    requires TaskOk(h, w, task) && Forward(w, v) && (task.Upload? || task.Discarding?)
    ensures TaskOk(h, v, task)
  {
    hide RowsEvolve, RunsEvolve, Holds;
  }

  lemma SweepTaskStays(h: Digests, w: World, v: World, task: Task)
    requires TaskOk(h, w, task) && Forward(w, v) && AboutSweep(task)
    ensures TaskOk(h, v, task)
  {
    hide Observed, RowsEvolve, RunsEvolve, RowsRead, Owns;
    match task
    case SweepRows(rows) => RowsStay(w, v, rows);
    case SweepUnlinking(row, rows) => RevokedStays(w, v, row); RowsStay(w, v, rows);
    case SweepUnlinked(row, rows) => RevokedStays(w, v, row); RowsStay(w, v, rows);
    case _ => ListTaskStays(h, w, v, task); hide TaskOk;
  }

  lemma ListTaskStays(h: Digests, w: World, v: World, task: Task)
    requires TaskOk(h, w, task) && Forward(w, v) && (task.SweepListing? || task.SweepFiles? || task.SweepChecked?)
    ensures TaskOk(h, v, task)
  {
    hide RowsEvolve, RunsEvolve;
  }

  lemma RevokedStays(w: World, v: World, row: Stage)
    requires Revoked(w, row) && Forward(w, v)
    ensures Revoked(v, row)
  {
    ObservedStays(w.db, v.db, row);
  }

  lemma ApplyTaskStays(h: Digests, w: World, v: World, task: Task)
    requires TaskOk(h, w, task) && Forward(w, v) && !AboutFiles(task) && !AboutSweep(task)
    ensures TaskOk(h, v, task)
  {
    hide BoundOk, LoadOk, Observed, Held;
    match task
    case Holding(c) => HeldStays(w.runs, v.runs, c);
    case Bound(c, version) => BoundStays(w, v, c, version);
    case ExecEntered(_) =>
    case ExecStage(_, _) =>
    case ExecSeen(_, _, seen) => if seen.Some? { ObservedStays(w.db, v.db, seen.value); }
    case ExecClaimed(_) =>
    case ExecConfirmed(_, row) => ObservedStays(w.db, v.db, row);
    case LoadReading(load) => LoadStays(w, v, load);
    case LoadFetched(load, _) => LoadStays(w, v, load);
    case LoadWorking(load) => LoadStays(w, v, load);
    case LoadPlanned(load, _) => LoadStays(w, v, load);
    case ExecSealing(load, _) => LoadStays(w, v, load);
    case ExecSealed(load, _, run) => LoadStays(w, v, load); assert RunEvolves(w.runs[run], v.runs[run]);
    case Cancelling(_, stop, _, _) => assert Evolves(w.db.stages[stop.stageId], v.db.stages[stop.stageId]);
  }

  lemma TaskStays(h: Digests, w: World, v: World, task: Task)
    requires TaskOk(h, w, task) && Forward(w, v)
    ensures TaskOk(h, v, task)
  {
    hide TaskOk, Forward;
    if AboutFiles(task) { FileTaskStays(h, w, v, task); }
    else if AboutSweep(task) { SweepTaskStays(h, w, v, task); }
    else { ApplyTaskStays(h, w, v, task); }
  }

  lemma LoadStays(w: World, v: World, load: Load)
    requires LoadOk(w, load) && RowsEvolve(w.db, v.db)
    ensures LoadOk(v, load)
  {
    ObservedStays(w.db, v.db, load.confirmed);
    ObservedStays(w.db, v.db, load.row);
  }

  lemma BoundStays(w: World, v: World, c: Context, version: nat)
    requires Held(w.runs, c) && BoundOk(w, c, version) && Forward(w, v)
    ensures Held(v.runs, c) && BoundOk(v, c, version)
  {
    HeldStays(w.runs, v.runs, c);
    NamesStay(w.db, v.db, c.assoc.stageId, c.runId, c.assoc.confirmation);
    assert RunEvolves(w.runs[c.runId], v.runs[c.runId]);
  }

  lemma RowsStay(w: World, v: World, rows: seq<Stage>)
    requires RowsRead(w, rows) && RowsEvolve(w.db, v.db) && v.owner == w.owner
    ensures RowsRead(v, rows)
  {
    forall i | 0 <= i < |rows| ensures Observed(v.db, rows[i]) && Owns(v, rows[i]) {
      ObservedStays(w.db, v.db, rows[i]);
    }
  }

  lemma NamesStay(before: Db, after: Db, stage: string, run: int, command: string)
    requires Names(before, stage, run, command) && RowsEvolve(before, after)
    ensures Names(after, stage, run, command)
    ensures before.stages[stage].version <= after.stages[stage].version
  {
    assert Evolves(before.stages[stage], after.stages[stage]);
  }

  lemma TasksStay(h: Digests, w: World, v: World, tasks: map<int, Task>)
    requires TasksOk(h, w, tasks) && Forward(w, v)
    ensures TasksOk(h, v, tasks)
  {
    forall t | t in tasks ensures TaskOk(h, v, tasks[t]) {
      TaskStays(h, w, v, tasks[t]);
    }
  }

  predicate DropsOnlyGone(w: World, id: string, e: Edit) {
    e.DropObject? && id in w.db.stages && w.db.stages[id].objectKey.Some? ==>
      Object(w.db.stages[id].objectKey.value) !in w.disk
  }

  /** No row appears, and a row lets go of its object only once the object is gone. */
  predicate KeysKept(w: World, db: Db) {
    && db.stages.Keys == w.db.stages.Keys
    && (forall id :: id in db.stages ==>
          || db.stages[id].objectKey == w.db.stages[id].objectKey
          || (db.stages[id].objectKey.None? && w.db.stages[id].objectKey.Some?
              && Object(w.db.stages[id].objectKey.value) !in w.disk))
  }

  lemma WriteKeepsKeys(w: World, db: Db, id: string, e: Edit)
    requires RowsOk(w.db) && Writes(w.db, db, id, e) && DropsOnlyGone(w, id, e)
    ensures KeysKept(w, db)
  {
    assert e.DropObject? || db.stages[id].objectKey == w.db.stages[id].objectKey;
  }

  lemma KeysKeptFiles(h: Digests, w: World, v: World)
    requires Custody(h, w) && RowsOk(v.db) && RowsEvolve(w.db, v.db) && KeysKept(w, v.db)
    requires v.disk == w.disk
    ensures Custody(h, v)
  {
    forall id | id in v.db.stages && v.db.stages[id].status != Purged
      ensures v.db.stages[id].objectKey.Some?
      ensures Object(v.db.stages[id].objectKey.value) in v.disk
      ensures Holds(h, v.disk[Object(v.db.stages[id].objectKey.value)], v.db.stages[id].sha, v.db.stages[id].bytes)
    {
      assert Evolves(w.db.stages[id], v.db.stages[id]);
      assert Shape(v.db.stages[id]);
      assert w.db.stages[id].status != Purged;
    }
  }

  lemma KeysKeptOwners(w: World, v: World)
    requires OwnersOk(w) && RowsOk(w.db) && RowsOk(v.db) && KeysKept(w, v.db)
    requires v.disk == w.disk && v.keys == w.keys && v.owner == w.owner
    ensures OwnersOk(v)
  {
    forall id | id in v.db.stages ensures Owns(v, v.db.stages[id]) {
      assert Owns(w, w.db.stages[id]);
    }
    forall k | k in v.owner
      ensures v.owner[k] in v.db.stages
      ensures v.db.stages[v.owner[k]].objectKey == Some(k) || Object(k) !in v.disk
    {
      assert w.owner[k] in w.db.stages;
    }
  }

  lemma WriteKeepsLiveOnce(w: Db, v: Db, now: int, id: string, e: Edit)
    requires RowsOk(w) && LiveOnce(w, now) && Writes(w, v, id, e)
    ensures LiveOnce(v, now)
  {
    WriteMovesForward(w, v, id, e);
    EditKeepsOrder(w.stages[id], e);
    forall i, j | i in v.stages && j in v.stages && i != j
      ensures Live(v.stages[i]) && Live(v.stages[j]) && SameFile(v.stages[i], v.stages[j]) ==>
        v.stages[i].expiresAt <= now || v.stages[j].expiresAt <= now
    {
      assert Evolves(w.stages[i], v.stages[i]) && Evolves(w.stages[j], v.stages[j]);
    }
  }

  lemma WriteKeepsCancels(w: World, v: World, id: string, e: Edit)
    requires RowsOk(w.db) && CancelsOk(w) && Writes(w.db, v.db, id, e) && v.cancelledAt == w.cancelledAt
    requires !e.RequestCancel?
    ensures CancelsOk(v)
  {
    WriteMovesForward(w.db, v.db, id, e);
    assert v.db.stages[id].cancelCommand == w.db.stages[id].cancelCommand;
  }

  /** One guarded edit of one row keeps the whole durable invariant. */
  lemma WriteKeepsWorld(h: Digests, w: World, v: World, id: string, e: Edit)
    requires WorldOk(h, w) && DbOk(h, v.db) && Writes(w.db, v.db, id, e)
    requires v == w.(db := v.db, bare := v.bare)
    requires DropsOnlyGone(w, id, e) && !e.RequestCancel?
    ensures WorldOk(h, v) && Forward(w, v)
  {
    WriteMovesForward(w.db, v.db, id, e);
    WriteKeepsKeys(w, v.db, id, e);
    KeysKeptFiles(h, w, v);
    KeysKeptOwners(w, v);
    WriteKeepsLiveOnce(w.db, v.db, w.now, id, e);
    WriteKeepsCancels(w, v, id, e);
    RunsEvolveReflexive(w.runs);
    CommandsStay(w, v);
  }

  /** The facts about runs and activations survive any forward move of the sidecar alone. */
  lemma CommandsStay(w: World, v: World)
    requires ReadyOk(w) && ActivationsOk(w) && RowsEvolve(w.db, v.db)
    requires v.runs == w.runs && v.activations == w.activations
    requires v.cancelledAt == w.cancelledAt
    requires ApplyOk(w) && v.accepted == w.accepted && v.stopped == w.stopped
    ensures ReadyOk(v) && ActivationsOk(v) && ApplyOk(v)
  {
    MappedStay(w, v);
    forall r | r in v.runs && v.runs[r].ready
      ensures v.runs[r].assoc.Some? && Names(v.db, v.runs[r].assoc.value.stageId, r, v.runs[r].assoc.value.confirmation)
    {
      NamesStay(w.db, v.db, v.runs[r].assoc.value.stageId, r, v.runs[r].assoc.value.confirmation);
    }
    forall a | a in v.activations
      ensures Names(v.db, a.stage, a.run, a.command) && a.boundAt <= v.db.stages[a.stage].version
      ensures BeforeCancel(v, a.stage, a.boundAt)
    {
      NamesStay(w.db, v.db, a.stage, a.run, a.command);
    }
  }

  lemma MappedStays(before: Db, after: Db, stage: string, dataset: string)
    requires MappedTo(before, stage, dataset) && RowsEvolve(before, after)
    ensures MappedTo(after, stage, dataset)
  {
    assert Evolves(before.stages[stage], after.stages[stage]);
  }

  lemma MappedStay(w: World, v: World)
    requires ApplyOk(w) && RowsEvolve(w.db, v.db)
    requires v.runs == w.runs && v.accepted == w.accepted && v.stopped == w.stopped
    ensures ApplyOk(v)
  {
    forall r | r in v.runs && v.runs[r].assoc.Some?
      ensures MappedTo(v.db, v.runs[r].assoc.value.stageId, v.runs[r].dataset)
    {
      MappedStays(w.db, v.db, v.runs[r].assoc.value.stageId, v.runs[r].dataset);
    }
    forall i | 0 <= i < |v.accepted| ensures Recorded(v, v.accepted[i]) {
      MappedStays(w.db, v.db, v.accepted[i].stage, w.runs[v.accepted[i].run].dataset);
    }
    forall id | id in v.stopped ensures id in v.db.stages && v.db.stages[id].cancelCommand.Some? {
      assert Evolves(w.db.stages[id], v.db.stages[id]);
    }
  }

  // ---- what one step may change ----------------------------------------------------------

  /** Each row is untouched or one guarded write further on; a new row starts at version 0. */
  predicate RowsStep(before: Db, after: Db) {
    && (forall id :: id in before.stages ==>
          && id in after.stages
          && (after.stages[id] == before.stages[id]
              || (Evolves(before.stages[id], after.stages[id])
                  && after.stages[id].version == before.stages[id].version + 1)))
    && (forall id :: id in after.stages && id !in before.stages ==> after.stages[id].version == 0)
  }

  /** A row lets go of its object only once the object is gone. */
  predicate KeysStep(w: World, after: Db) {
    forall id :: id in w.db.stages && id in after.stages ==>
      || after.stages[id].objectKey == w.db.stages[id].objectKey
      || (after.stages[id].objectKey.None? && w.db.stages[id].objectKey.Some?
          && Object(w.db.stages[id].objectKey.value) !in w.disk)
  }

  /** The list of activations grows by at most one run, which was partial. */
  predicate ActivatesPartial(w: World, v: World) {
    || v.activations == w.activations
    || (|v.activations| == |w.activations| + 1 && v.activations[..|w.activations|] == w.activations
        && v.activations[|w.activations|].run in w.runs
        && w.runs[v.activations[|w.activations|].run].native == PartialRun)
  }

  predicate Advances(w: World, v: World) {
    && RowsStep(w.db, v.db) && KeysStep(w, v.db) && RunsEvolve(w.runs, v.runs) && ActivatesPartial(w, v)
    && (forall k :: k in w.owner ==> k in v.owner && v.owner[k] == w.owner[k])
    && w.accepted <= v.accepted && w.stopped <= v.stopped
    && w.bare <= v.bare && (w.bare == v.bare ==> PacketsOnly(w.db, v.db))
    && w.now <= v.now && ConfirmedInTime(w, v.db)
  }

  /** Whatever stage was confirmed in between was not expired. */
  predicate ConfirmedInTime(w: World, after: Db) {
    forall id | id in w.db.stages && id in after.stages ::
      w.db.stages[id].command.None? && after.stages[id].command.Some? ==>
      w.now < w.db.stages[id].expiresAt
  }

  /** Whatever stage was confirmed in between was confirmed with a packet. */
  predicate PacketsOnly(before: Db, after: Db) {
    forall id :: id in after.stages && after.stages[id].command.Some? ==>
      after.stages[id].request.Some? || (id in before.stages && before.stages[id].command.Some?)
  }

  /** History that a step does not add to. */
  predicate SameHistory(w: World, v: World) {
    && v.activations == w.activations && v.owner == w.owner && v.accepted == w.accepted && v.stopped == w.stopped
    && v.bare == w.bare
  }

  lemma QuietAdvances(w: World, v: World)
    requires v.db == w.db && v.runs == w.runs && SameHistory(w, v) && w.now <= v.now
    ensures Advances(w, v)
  {
    RunsEvolveReflexive(w.runs);
  }

  /** A claim without a packet is counted; any other write confirms with one or not at all. */
  predicate Counted(w: World, v: World, e: Edit) {
    v.bare == w.bare + if e.Confirm? && e.request.None? then 1 else 0
  }

  /** A write that confirms meets a stage that is not expired. */
  predicate InTime(w: World, id: string, e: Edit) {
    e.Confirm? ==> id in w.db.stages && w.now < w.db.stages[id].expiresAt
  }

  lemma WriteConfirms(w: World, v: World, id: string, e: Edit)
    requires Writes(w.db, v.db, id, e) && Counted(w, v, e) && v.now == w.now && InTime(w, id, e)
    ensures w.bare <= v.bare && (w.bare == v.bare ==> PacketsOnly(w.db, v.db)) && ConfirmedInTime(w, v.db)
  {
  }

  lemma WriteAdvances(w: World, v: World, id: string, e: Edit)
    requires RowsOk(w.db) && Writes(w.db, v.db, id, e) && DropsOnlyGone(w, id, e)
    requires v.runs == w.runs && SameHistory(w, v.(bare := w.bare)) && Counted(w, v, e)
    requires v.now == w.now && InTime(w, id, e)
    ensures Advances(w, v)
  {
    WriteConfirms(w, v, id, e);
    WriteMovesForward(w.db, v.db, id, e);
    WriteKeepsKeys(w, v.db, id, e);
    RunsEvolveReflexive(w.runs);
  }

  lemma RunsAdvance(w: World, v: World)
    requires v.db == w.db && RunsEvolve(w.runs, v.runs) && SameHistory(w, v) && v.now == w.now
    ensures Advances(w, v)
  {
  }

  /** What a step must establish. */
  predicate Good(h: Digests, s: State, next: State) {
    StateOk(h, next) && Advances(s.w, next.w)
  }
}
