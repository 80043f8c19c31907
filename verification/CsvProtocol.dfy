/**
 * The staging service, its object directory, the native run store and every
 * command in flight, as one state machine. An event is at most one stretch of
 * code between two awaits, so a sequence of events is an arbitrary interleaving
 * of commands, failures and restarts. Joined into one event are only the
 * authority check of an upload with the creation of its temporary file, its
 * digest with the sync and the rename, the start of its inspection with the read
 * of its object, and the re-read after planning with the comparison that
 * follows it. An event whose guard fails changes nothing.
 */
module CsvProtocol {
  import opened Wrappers
  import opened HexText
  import opened CsvStage
  import opened CsvSidecar
  import opened CsvRuns

  /** A file of the object directory: an installed object or the temporary beside it. */
  datatype Name = Object(key: string) | Part(key: string)
  datatype File = File(content: seq<int>, mtime: int)

  datatype UploadJob = UploadJob(user: int, nonce: string, id: string, sha: string, bytes: int, key: string)
  datatype UploadPhase = Receiving | Stored | Working | Inspected

  /** One `apply` or `resume` command as its caller issued it. */
  datatype Execution = Execution(user: int, session: int, stageId: string, packet: ClaimPacket, resume: bool)

  /** What a loaded preview carries: the confirmation read, the row and saved preview loaded from. */
  datatype Load = Load(execution: Execution, confirmed: Stage, row: Stage, saved: SavedPreview)

  /** The plan recomputed from the file, as far as the command compares it. */
  datatype PlanView = PlanView(
    planId: string, destinationVersion: string, history: string, selectedRows: int, sourceSeconds: int,
    destinationSeconds: int, rejected: nat, fileErrors: nat, excluded: nat, newPeople: nat)

  /** Where a command is suspended, with the values it carries across the await. */
  datatype Task =
    | Upload(job: UploadJob, phase: UploadPhase)
    | Discarding(key: string)
    | Mapping(user: int, row: Stage, choices: string)
    | PreviewReading(user: int, row: Stage)
    | PreviewFetched(user: int, row: Stage, content: Option<seq<int>>)
    | PreviewWorking(user: int, row: Stage)
    | PreviewPlanned(user: int, row: Stage, planned: Planned)
    | PurgeUnlinking(user: int, row: Stage)
    | PurgeUnlinked(user: int, row: Stage)
    | SweepRows(rows: seq<Stage>)
    | SweepUnlinking(row: Stage, rows: seq<Stage>)
    | SweepUnlinked(row: Stage, rows: seq<Stage>)
    | SweepListing(known: set<string>, cutoff: int)
    | SweepFiles(known: set<string>, cutoff: int, todo: set<Name>)
    | SweepChecked(known: set<string>, cutoff: int, todo: set<Name>, name: Name)
    | ExecEntered(execution: Execution)
    | ExecStage(execution: Execution, row: Stage)
    | ExecSeen(execution: Execution, row: Stage, seen: Option<Stage>)
    | ExecClaimed(execution: Execution)
    | ExecConfirmed(execution: Execution, row: Stage)
    | LoadReading(load: Load)
    | LoadFetched(load: Load, content: Option<seq<int>>)
    | LoadWorking(load: Load)
    | LoadPlanned(load: Load, plan: PlanView)
    | ExecSealing(load: Load, plan: PlanView)
    | ExecSealed(load: Load, plan: PlanView, run: int)
    | Cancelling(user: int, stop: CancelInput, target: string, left: nat)
    | Holding(context: Context)
    | Bound(context: Context, version: nat)

  /** One run made runnable: for which stage, under which confirmation, bound at which version. */
  datatype Activation = Activation(stage: string, run: int, command: string, boundAt: nat)

  /** One command accepted by the run store as new work. */
  datatype Acceptance = Acceptance(stage: string, command: string, run: int)

  /**
   * The durable state. The fields from `keys` on are history: every object key
   * ever generated, the stage each object was admitted for, the activations and
   * accepted commands so far, the row version that recorded each stage's
   * cancellation, the stages whose cancel command has found no run left to stop
   * or has stopped it, and how many claims without a packet were accepted.
   */
  datatype World = World(
    now: int, nonce: string, db: Db, disk: map<Name, File>, runs: Runs,
    keys: set<string>, owner: map<string, string>,
    activations: seq<Activation>, accepted: seq<Acceptance>, cancelledAt: map<string, nat>,
    stopped: set<string>, bare: nat)

  datatype State = State(w: World, tasks: map<int, Task>, working: Option<int>)

  function Start(now: int, nonce: string): State {
    State(World(now, nonce, Db(map[], map[]), map[], map[], {}, map[], [], [], map[], {}, 0), map[], None)
  }

  function Sees(w: World, ok: bool): Env { Env(w.now, w.nonce, ok) }

  /** The file an upload is responsible for. */
  function FileOf(job: UploadJob, phase: UploadPhase): Name {
    if phase == Receiving then Part(job.key) else Object(job.key)
  }

  /** Uploads are shorter than the retention window: the only assumption on scheduling. */
  predicate UploadsPrompt(s: State, at: int) {
    forall t :: t in s.tasks && s.tasks[t].Upload? ==>
      FileOf(s.tasks[t].job, s.tasks[t].phase) in s.w.disk ==>
        at - RETENTION_MS < s.w.disk[FileOf(s.tasks[t].job, s.tasks[t].phase)].mtime
  }

  datatype Event =
    | Tick(to: int) | Rotate(nonce: string) | Crash | Abandon(task: int)
    | UploadStart(task: int, user: int, ok: bool, id: string, sha: string, bytes: int, key: string)
    | UploadChunk(task: int, data: seq<int>)
    | UploadInstall(task: int)
    | UploadDrop(task: int, removed: bool)
    | UploadWork(task: int, ok: bool)
    | UploadWorked(task: int)
    | UploadReject(task: int)
    | UploadAdmit(task: int, ok: bool)
    | Discard(task: int, removed: bool)
    | MapBegin(task: int, user: int, ok: bool, id: string, mapping: MapInput)
    | MapEnd(task: int, ok: bool, source: string)
    | PreviewBegin(task: int, user: int, ok: bool, id: string, expected: Option<string>)
    | PreviewFetch(task: int)
    | PreviewWork(task: int, ok: bool)
    | PreviewPlan(task: int, planned: Planned)
    | PreviewEnd(task: int, ok: bool)
    | PurgeBegin(task: int, user: int, ok: bool, id: string)
    | PurgeUnlink(task: int)
    | PurgeEnd(task: int, ok: bool)
    | SweepBegin(task: int, closed: set<int>, ids: seq<string>)
    | SweepRow(task: int)
    | SweepUnlink(task: int)
    | SweepDropKey(task: int)
    | SweepList(task: int)
    | SweepFile(task: int, name: Name)
    | SweepRemove(task: int)
    | SweepEnd(task: int)
    | ClaimStage(user: int, ok: bool, claim: ClaimInput, current: bool)
    | CancelStage(user: int, ok: bool, cancel: CancelInput)
    | DriverBind(user: int, ok: bool, binding: RunBinding)
    | ProgressStage(binding: RunBinding, phase: ApplyPhase, terminalAt: Option<int>)
    | ExecBegin(task: int, ok: bool, execution: Execution)
    | ExecRead(task: int, ok: bool)
    | ExecConfirm(task: int, ok: bool)
    | ExecDecide(task: int, ok: bool, found: Option<int>, live: bool, current: bool)
    | ExecReread(task: int, ok: bool)
    | LoadBegin(task: int, ok: bool)
    | LoadFetch(task: int)
    | LoadWork(task: int, ok: bool)
    | LoadPlan(task: int, plan: PlanView)
    | LoadEnd(task: int, ok: bool, grown: bool)
    | ExecSeal(task: int, run: int)
    | ExecAuthorize(task: int, ok: bool, prior: bool)
    | CancelBegin(task: int, user: int, ok: bool, cancel: CancelInput)
    | CancelTry(task: int, ok: bool, found: Option<int>)
    | SealRun(run: int, dataset: string, planId: string, selectedRows: int)
    | HoldRun(task: int, run: int)
    | BindHeld(task: int, ok: bool)
    | RecordBound(task: int, ok: bool)
    | RecordStageVersion(task: int, version: int)
    | StopRun(ok: bool, stop: StopInput)
    | LeaseRun(ok: bool, run: int, holder: string, ttl: int)
    | RunHeld(task: int, holder: string, generation: nat)
    | SettleHeld(task: int, lease: Option<(string, nat)>, phase: ApplyPhase)
    | FinishRun(run: int, holder: string, generation: nat)

  // ---- task bookkeeping ------------------------------------------------------------------

  function Put(s: State, t: int, task: Task): State { s.(tasks := s.tasks[t := task]) }

  function Drop(s: State, t: int): State {
    s.(tasks := s.tasks - {t}, working := if s.working == Some(t) then None else s.working)
  }

  function InDb(s: State, db: Db): State { s.(w := s.w.(db := db)) }

  function InRuns(s: State, runs: Runs): State { s.(w := s.w.(runs := runs)) }

  function Unlink(s: State, name: Name): State { s.(w := s.w.(disk := s.w.disk - {name})) }

  // ---- upload ----------------------------------------------------------------------------

  function StartUpload(s: State, e: Event): State
    requires e.UploadStart?
  {
    if e.task in s.tasks || e.key in s.w.keys || !e.ok || !LowerHex(e.sha) || |e.sha| != 64
       || !(1 <= e.bytes <= MAX_BYTES) then s
    else
      var w := s.w.(keys := s.w.keys + {e.key}, disk := s.w.disk[Part(e.key) := File([], s.w.now)]);
      Put(s.(w := w), e.task, Upload(UploadJob(e.user, s.w.nonce, e.id, e.sha, e.bytes, e.key), Receiving))
  }

  predicate InPhase(s: State, t: int, phase: UploadPhase) {
    t in s.tasks && s.tasks[t].Upload? && s.tasks[t].phase == phase
  }

  function ReceiveChunk(s: State, t: int, data: seq<int>): State {
    if !InPhase(s, t, Receiving) || Part(s.tasks[t].job.key) !in s.w.disk then s
    else
      var name := Part(s.tasks[t].job.key);
      var content := s.w.disk[name].content + data;
      if |content| > MAX_BYTES then s
      else s.(w := s.w.(disk := s.w.disk[name := File(content, s.w.now)]))
  }

  /** Only a stream of the promised length and digest is renamed to its object name. */
  function InstallUpload(s: State, h: Digests, t: int): State {
    if !InPhase(s, t, Receiving) || Part(s.tasks[t].job.key) !in s.w.disk then s
    else
      var job := s.tasks[t].job;
      var file := s.w.disk[Part(job.key)];
      if |file.content| != job.bytes || h.content(file.content) != job.sha then s
      else
        var disk := (s.w.disk - {Part(job.key)})[Object(job.key) := file];
        Put(s.(w := s.w.(disk := disk)), t, Upload(job, Stored))
  }

  function AdmitUpload(s: State, t: int, ok: bool): State {
    if !InPhase(s, t, Inspected) then s
    else
      var job := s.tasks[t].job;
      match Admit(s.w.db, Sees(s.w, ok), job.user, job.nonce, job.id, job.sha, job.bytes, job.key)
      case Refused(_) => Put(s, t, Discarding(job.key))
      case Ok(Duplicate) => Put(s, t, Discarding(job.key))
      case Ok(Inserted(db)) => Drop(s.(w := s.w.(db := db, owner := s.w.owner[job.key := job.id])), t)
  }

  function DropUpload(s: State, t: int, removed: bool): State {
    if !InPhase(s, t, Receiving) then s
    else if removed then Drop(Unlink(s, Part(s.tasks[t].job.key)), t)
    else Drop(s, t)
  }

  function BeginAdmission(s: State, t: int, ok: bool): State {
    if !InPhase(s, t, Stored) || !ok || s.tasks[t].job.nonce != s.w.nonce || s.working.Some? then s
    else Put(s, t, Upload(s.tasks[t].job, Working)).(working := Some(t))
  }

  function EndAdmission(s: State, t: int): State {
    if !InPhase(s, t, Working) then s
    else Put(s, t, Upload(s.tasks[t].job, Inspected)).(working := None)
  }

  /** Anything thrown after the rename leads to deleting the object again. */
  function RejectUpload(s: State, t: int): State {
    if t !in s.tasks || !s.tasks[t].Upload? || s.tasks[t].phase == Receiving then s
    else Put(Drop(s, t), t, Discarding(s.tasks[t].job.key))
  }

  function DiscardObject(s: State, t: int, removed: bool): State {
    if t !in s.tasks || !s.tasks[t].Discarding? then s
    else if removed then Drop(Unlink(s, Object(s.tasks[t].key)), t)
    else Drop(s, t)
  }

  function StepUpload(s: State, h: Digests, e: Event): State {
    match e
    case UploadStart(_, _, _, _, _, _, _) => StartUpload(s, e)
    case UploadChunk(t, data) => ReceiveChunk(s, t, data)
    case UploadInstall(t) => InstallUpload(s, h, t)
    case UploadDrop(t, removed) => DropUpload(s, t, removed)
    case UploadWork(t, ok) => BeginAdmission(s, t, ok)
    case UploadWorked(t) => EndAdmission(s, t)
    case UploadReject(t) => RejectUpload(s, t)
    case UploadAdmit(t, ok) => AdmitUpload(s, t, ok)
    case Discard(t, removed) => DiscardObject(s, t, removed)
    case _ => s
  }

  // ---- mapping, preview, purge -----------------------------------------------------------

  function BeginMap(s: State, e: Event): State
    requires e.MapBegin?
  {
    if e.task in s.tasks then s
    else
      match MapStart(s.w.db, Sees(s.w, e.ok), e.user, e.id, e.mapping)
      case Refused(_) => s
      case Ok(row) => Put(s, e.task, Mapping(e.user, row, e.mapping.choices))
  }

  function EndMap(s: State, t: int, ok: bool, source: string): State {
    if t !in s.tasks || !s.tasks[t].Mapping? then s
    else
      match MapCommit(s.w.db, Sees(s.w, ok), s.tasks[t].user, s.tasks[t].row, s.tasks[t].choices, source)
      case Refused(_) => Drop(s, t)
      case Ok(db) => Drop(InDb(s, db), t)
  }

  function BeginPreview(s: State, e: Event): State
    requires e.PreviewBegin?
  {
    if e.task in s.tasks then s
    else
      match PreviewStart(s.w.db, Sees(s.w, e.ok), e.user, e.id, e.expected)
      case Refused(_) => s
      case Ok(Receipt(_)) => s
      case Ok(Calculate(row)) => Put(s, e.task, PreviewReading(e.user, row))
  }

  /** The bytes a row's object holds now, if it is there. */
  function ContentOf(w: World, row: Stage): Option<seq<int>> {
    if row.objectKey.None? || Object(row.objectKey.value) !in w.disk then None
    else Some(w.disk[Object(row.objectKey.value)].content)
  }

  function FetchPreview(s: State, t: int): State {
    if t !in s.tasks || !s.tasks[t].PreviewReading? then s
    else Put(s, t, PreviewFetched(s.tasks[t].user, s.tasks[t].row, ContentOf(s.w, s.tasks[t].row)))
  }

  /** The object has been read back; the plan needs the one worker. */
  function WorkPreview(s: State, h: Digests, t: int, ok: bool): State {
    if t !in s.tasks || !s.tasks[t].PreviewFetched? then s
    else
      match PreviewRead(s.w.db, Sees(s.w, ok), h, s.tasks[t].user, s.tasks[t].row, s.tasks[t].content)
      case Refused(_) => Drop(s, t)
      case Ok(_) =>
        if s.working.Some? then Drop(s, t)
        else Put(s, t, PreviewWorking(s.tasks[t].user, s.tasks[t].row)).(working := Some(t))
  }

  function EndPreview(s: State, h: Digests, t: int, ok: bool): State {
    if t !in s.tasks || !s.tasks[t].PreviewPlanned? || s.tasks[t].row.choices.None? then s
    else
      match PreviewCommit(s.w.db, Sees(s.w, ok), h, s.tasks[t].user, s.tasks[t].row, s.tasks[t].planned)
      case Refused(_) => Drop(s, t)
      case Ok(db) => Drop(InDb(s, db), t)
  }

  function BeginPurge(s: State, t: int, user: int, ok: bool, id: string): State {
    if t in s.tasks then s
    else
      match PurgeStart(s.w.db, Sees(s.w, ok), user, id)
      case Refused(_) => s
      case Ok(step) =>
        if step.row.objectKey.None? then InDb(s, step.db)
        else Put(InDb(s, step.db), t, PurgeUnlinking(user, step.row))
  }

  function UnlinkPurged(s: State, t: int): State {
    if t !in s.tasks || !s.tasks[t].PurgeUnlinking? || s.tasks[t].row.objectKey.None? then s
    else Put(Unlink(s, Object(s.tasks[t].row.objectKey.value)), t, PurgeUnlinked(s.tasks[t].user, s.tasks[t].row))
  }

  function EndPurge(s: State, t: int, ok: bool): State {
    if t !in s.tasks || !s.tasks[t].PurgeUnlinked? then s
    else
      match PurgeFinish(s.w.db, Sees(s.w, ok), s.tasks[t].user, s.tasks[t].row)
      case Refused(_) => Drop(s, t)
      case Ok(db) => Drop(InDb(s, db), t)
  }

  function StepPreview(s: State, h: Digests, e: Event): State {
    match e
    case MapBegin(_, _, _, _, _) => BeginMap(s, e)
    case MapEnd(t, ok, source) => EndMap(s, t, ok, source)
    case PreviewBegin(_, _, _, _, _) => BeginPreview(s, e)
    case PreviewFetch(t) => FetchPreview(s, t)
    case PreviewWork(t, ok) => WorkPreview(s, h, t, ok)
    case PreviewPlan(t, planned) =>
      if t !in s.tasks || !s.tasks[t].PreviewWorking? then s
      else Put(s, t, PreviewPlanned(s.tasks[t].user, s.tasks[t].row, planned)).(working := None)
    case PreviewEnd(t, ok) => EndPreview(s, h, t, ok)
    case PurgeBegin(t, user, ok, id) => BeginPurge(s, t, user, ok, id)
    case PurgeUnlink(t) => UnlinkPurged(s, t)
    case PurgeEnd(t, ok) => EndPurge(s, t, ok)
    case _ => s
  }

  // ---- sweep -----------------------------------------------------------------------------

  function RowsOf(db: Db, ids: seq<string>): seq<Stage>
    requires forall id :: id in ids ==> id in db.stages
  {
    seq(|ids|, i requires 0 <= i < |ids| => db.stages[ids[i]])
  }

  /** `ids` lists exactly the expired rows, in the order the database returned them. */
  function BeginSweep(s: State, t: int, closed: set<int>, ids: seq<string>): State {
    if t in s.tasks || exists id :: id in ids && id !in s.w.db.stages then s
    else if exists id :: id in s.w.db.stages
              && (id in ids) != Expired(s.w.db.stages[id], s.w.now, s.w.nonce, closed) then s
    else Put(s, t, SweepRows(RowsOf(s.w.db, ids)))
  }

  function PurgeNext(s: State, t: int): State {
    if t !in s.tasks || !s.tasks[t].SweepRows? || s.tasks[t].rows == [] then s
    else
      var row, rest := s.tasks[t].rows[0], s.tasks[t].rows[1..];
      match SweepPurge(s.w.db, row, s.w.now)
      case Refused(_) => Drop(s, t)
      case Ok(db) =>
        Put(InDb(s, db), t, if row.objectKey.Some? then SweepUnlinking(row, rest) else SweepRows(rest))
  }

  function UnlinkSwept(s: State, t: int): State {
    if t !in s.tasks || !s.tasks[t].SweepUnlinking? || s.tasks[t].row.objectKey.None? then s
    else Put(Unlink(s, Object(s.tasks[t].row.objectKey.value)), t, SweepUnlinked(s.tasks[t].row, s.tasks[t].rows))
  }

  function DropSwept(s: State, t: int): State {
    if t !in s.tasks || !s.tasks[t].SweepUnlinked? then s
    else
      match SweepDrop(s.w.db, s.tasks[t].row)
      case Refused(_) => Drop(s, t)
      case Ok(db) => Put(InDb(s, db), t, SweepRows(s.tasks[t].rows))
  }

  /** First the names and the cutoff, taken together; after an await, the directory listing. */
  function ListOrphans(s: State, t: int): State {
    if t !in s.tasks then s
    else if s.tasks[t] == SweepRows([]) then
      Put(s, t, SweepListing(NamedKeys(s.w.db), s.w.now - RETENTION_MS))
    else if s.tasks[t].SweepListing? then
      Put(s, t, SweepFiles(s.tasks[t].known, s.tasks[t].cutoff, s.w.disk.Keys))
    else s
  }

  /** One listed name: known objects and young files are passed over; a name gone meanwhile ends the sweep. */
  function SweepOne(s: State, t: int, name: Name): State {
    if t !in s.tasks || !s.tasks[t].SweepFiles? || name !in s.tasks[t].todo then s
    else
      var task := s.tasks[t];
      var rest := task.todo - {name};
      if name.Object? && name.key in task.known then Put(s, t, SweepFiles(task.known, task.cutoff, rest))
      else if name !in s.w.disk then Drop(s, t)
      else if task.cutoff < s.w.disk[name].mtime then Put(s, t, SweepFiles(task.known, task.cutoff, rest))
      else Put(s, t, SweepChecked(task.known, task.cutoff, rest, name))
  }

  /** The unlink of a name found old; a name gone meanwhile is no failure here. */
  function SweepAway(s: State, t: int): State {
    if t !in s.tasks || !s.tasks[t].SweepChecked? then s
    else
      var task := s.tasks[t];
      Put(Unlink(s, task.name), t, SweepFiles(task.known, task.cutoff, task.todo))
  }

  function StepSweep(s: State, e: Event): State {
    match e
    case SweepBegin(t, closed, ids) => BeginSweep(s, t, closed, ids)
    case SweepRow(t) => PurgeNext(s, t)
    case SweepUnlink(t) => UnlinkSwept(s, t)
    case SweepDropKey(t) => DropSwept(s, t)
    case SweepList(t) => ListOrphans(s, t)
    case SweepFile(t, name) => SweepOne(s, t, name)
    case SweepRemove(t) => SweepAway(s, t)
    case SweepEnd(t) =>
      if t in s.tasks && s.tasks[t].SweepFiles? && s.tasks[t].todo == {} then Drop(s, t) else s
    case _ => s
  }

  // ---- confirmation, cancellation and runs -----------------------------------------------

  function CancelStep(s: State, user: int, ok: bool, input: CancelInput): State {
    match Cancellation(s.w.db, Sees(s.w, ok), user, input)
    case Refused(_) => s
    case Ok(c) =>
      if c.db == s.w.db then s
      else s.(w := s.w.(db := c.db, cancelledAt := s.w.cancelledAt[input.stageId := c.version]))
  }

  function ClaimStep(s: State, user: int, ok: bool, input: ClaimInput, current: bool): State {
    match Claim(s.w.db, Sees(s.w, ok), user, input, current)
    case Refused(_) => s
    case Ok(c) =>
      var bare := if input.request.None? && c.db != s.w.db then 1 else 0;
      InDb(s, c.db).(w := s.w.(db := c.db, bare := s.w.bare + bare))
  }

  /** The driver's own bind, with any binding whatever. */
  function DriverStep(s: State, user: int, ok: bool, b: RunBinding): State {
    match BindRun(s.w.db, Sees(s.w, ok), user, b)
    case Refused(_) => s
    case Ok(c) => InDb(s, c.db)
  }

  function ProgressStep(s: State, b: RunBinding, phase: ApplyPhase, terminalAt: Option<int>): State {
    match MarkProgress(s.w.db, Sees(s.w, true), VerifyBinding(s.w.runs, Sees(s.w, true), b), b, phase, terminalAt)
    case None => s
    case Some(c) => InDb(s, c.db)
  }

  /** The first half of `bound`: the stage is asked to acknowledge the run. */
  function BindStep(s: State, t: int, ok: bool): State {
    if t !in s.tasks || !s.tasks[t].Holding? then s
    else
      var c := s.tasks[t].context;
      match BindRun(s.w.db, Sees(s.w, ok), c.assoc.user, BindingFor(c))
      case Refused(_) => Drop(s, t)
      case Ok(bound) => Put(InDb(s, bound.db), t, Bound(c, bound.version))
  }

  function ActivateStep(s: State, t: int, ok: bool, runs: Runs, current: Context, version: nat): State {
    match Activate(runs, Sees(s.w, ok), current)
    case Refused(_) => Drop(InRuns(s, runs), t)
    case Ok(active) =>
      var a := Activation(current.assoc.stageId, current.runId, current.assoc.confirmation, version);
      Drop(s.(w := s.w.(runs := active, activations := s.w.activations + [a])), t)
  }

  /** The second half of `bound`: record the version, then activate a partial run not yet ready. */
  function RecordStep(s: State, t: int, ok: bool): State {
    if t !in s.tasks || !s.tasks[t].Bound? then s
    else
      var c := s.tasks[t].context;
      match RecordVersion(s.w.runs, c, s.tasks[t].version)
      case Refused(_) => Drop(s, t)
      case Ok(None) => Drop(s, t)
      case Ok(Some(runs)) =>
        if c.runId !in runs || runs[c.runId].assoc.None? then Drop(s, t)
        else
          var current := ContextOf(runs[c.runId]);
          if current.native != PartialRun || current.ready then Drop(InRuns(s, runs), t)
          else ActivateStep(s, t, ok, runs, current, s.tasks[t].version)
  }

  function StepApply(s: State, e: Event): State {
    match e
    case ClaimStage(user, ok, input, current) => ClaimStep(s, user, ok, input, current)
    case CancelStage(user, ok, input) => CancelStep(s, user, ok, input)
    case DriverBind(user, ok, b) => DriverStep(s, user, ok, b)
    case ProgressStage(b, phase, terminalAt) => ProgressStep(s, b, phase, terminalAt)
    case BindHeld(t, ok) => BindStep(s, t, ok)
    case RecordBound(t, ok) => RecordStep(s, t, ok)
    case _ => s
  }

  function RecordHeld(s: State, t: int, version: int): State {
    if t !in s.tasks || !s.tasks[t].Holding? then s
    else
      match RecordVersion(s.w.runs, s.tasks[t].context, version)
      case Refused(_) => Drop(s, t)
      case Ok(None) => Drop(s, t)
      case Ok(Some(runs)) => InRuns(s, runs)
  }

  function StopStep(s: State, ok: bool, stop: StopInput): State {
    match Stop(s.w.runs, Sees(s.w, ok), stop)
    case Refused(_) => s
    case Ok(runs) => InRuns(s, runs)
  }

  function StepRuns(s: State, e: Event): State {
    match e
    case SealRun(run, dataset, planId, selectedRows) =>
      InRuns(s, Seal(s.w.runs, run, dataset, planId, selectedRows))
    case HoldRun(t, run) =>
      if t in s.tasks || run !in s.w.runs || s.w.runs[run].assoc.None? then s
      else Put(s, t, Holding(ContextOf(s.w.runs[run])))
    case RecordStageVersion(t, version) => RecordHeld(s, t, version)
    case StopRun(ok, stop) => StopStep(s, ok, stop)
    case LeaseRun(ok, run, holder, ttl) => InRuns(s, ClaimLease(s.w.runs, Sees(s.w, ok), run, holder, ttl))
    case RunHeld(t, holder, generation) =>
      if t !in s.tasks || !s.tasks[t].Holding? then s
      else InRuns(s, MarkRunning(s.w.runs, Sees(s.w, true), s.tasks[t].context, holder, generation))
    case SettleHeld(t, lease, phase) =>
      if t !in s.tasks || !s.tasks[t].Holding? then s
      else InRuns(s, Settle(s.w.runs, Sees(s.w, true), s.tasks[t].context, lease, phase))
    case FinishRun(run, holder, generation) =>
      InRuns(s, Complete(s.w.runs, Sees(s.w, true), run, holder, generation))
    case _ => s
  }

  // ---- the apply command -----------------------------------------------------------------

  /** What `readOwnedConfirmation` answers from: the row, if it is confirmed under a preview it names. */
  function SeenBy(row: Stage): Option<Stage> {
    if row.command.None? || row.command.value == "" || row.confirmedPreview.None? || row.confirmedPreview.value == ""
    then None else Some(row)
  }

  datatype Decision = Refuse(why: ApplyRefusal) | Answer(hold: bool) | Propose | Proceed

  /**
   * What a command does once it has read the stage and its confirmation: an
   * exact command the stage's latest run has accepted is only answered, a stage
   * not yet confirmed is claimed, a confirmed one goes on to its run. `live`
   * says that the run's own authority still stands.
   */
  function Decide(runs: Runs, found: Option<int>, x: Execution, row: Stage, seen: Option<Stage>, live: bool): Decision
    requires found.Some? ==> found.value in runs && runs[found.value].assoc.Some?
  {
    if seen.Some? && seen.value.cancelCommand.Some? then Refuse(RunCancelled)
    else if found.Some? && x.packet.commandId in runs[found.value].receipts then
      var run := runs[found.value];
      var receipt := run.receipts[x.packet.commandId];
      if receipt.stageId != x.stageId || receipt.user != x.user || receipt.packet != x.packet
         || seen.None? || receipt.target != seen.value.target then Refuse(CommandConflict)
      else Answer(!run.ready && ContextOf(run).phase == Queued && run.assoc.value.command == x.packet.commandId && live)
    else if seen.None? then
      if x.resume then Refuse(BindingMismatch) else Propose
    else if !x.resume && (seen.value.command != Some(x.packet.commandId) || seen.value.request != Some(x.packet))
    then Refuse(CommandConflict)
    else if x.resume && (x.packet.version != row.version || seen.value.confirmedPreview != Some(x.packet.previewId))
    then Refuse(BindingMismatch)
    else Proceed
  }

  /** The claim a command proposes: its own packet, whose canonical text is far below the size limit. */
  function ClaimOf(x: Execution): ClaimInput {
    ClaimInput(x.stageId, x.packet.previewId, x.packet.version, x.packet.commandId, Some(ClaimText(0, Some(x.packet))))
  }

  function BeginExec(s: State, t: int, ok: bool, x: Execution): State {
    if t in s.tasks || Owned(s.w.db, Sees(s.w, ok), x.user, x.stageId).Refused? then s
    else Put(s, t, ExecEntered(x))
  }

  function ReadExec(s: State, t: int, ok: bool): State {
    if t !in s.tasks || !s.tasks[t].ExecEntered? then s
    else
      var x := s.tasks[t].execution;
      match Owned(s.w.db, Sees(s.w, ok), x.user, x.stageId)
      case Refused(_) => Drop(s, t)
      case Ok(row) => Put(s, t, ExecStage(x, row))
  }

  function ConfirmExec(s: State, t: int, ok: bool): State {
    if t !in s.tasks || !s.tasks[t].ExecStage? then s
    else
      var x := s.tasks[t].execution;
      match Owned(s.w.db, Sees(s.w, ok), x.user, x.stageId)
      case Refused(_) => Drop(s, t)
      case Ok(row) => Put(s, t, ExecSeen(x, s.tasks[t].row, SeenBy(row)))
  }

  function DecideExec(s: State, t: int, ok: bool, found: Option<int>, live: bool, current: bool): State {
    if t !in s.tasks || !s.tasks[t].ExecSeen? || !FoundByStage(s.w.runs, s.tasks[t].execution.stageId, found) then s
    else
      var x, seen := s.tasks[t].execution, s.tasks[t].seen;
      match Decide(s.w.runs, found, x, s.tasks[t].row, seen, live)
      case Refuse(_) => Drop(s, t)
      case Answer(hold) =>
        if hold && found.Some? then Put(s, t, Holding(ContextOf(s.w.runs[found.value]))) else Drop(s, t)
      case Proceed => if seen.Some? then Put(s, t, ExecConfirmed(x, seen.value)) else Drop(s, t)
      case Propose =>
        match Claim(s.w.db, Sees(s.w, ok), x.user, ClaimOf(x), current)
        case Refused(_) => Drop(s, t)
        case Ok(c) => Put(InDb(s, c.db), t, ExecClaimed(x))
  }

  /** After its claim a command reads the confirmation again. */
  function RereadExec(s: State, t: int, ok: bool): State {
    if t !in s.tasks || !s.tasks[t].ExecClaimed? then s
    else
      var x := s.tasks[t].execution;
      match Owned(s.w.db, Sees(s.w, ok), x.user, x.stageId)
      case Refused(_) => Drop(s, t)
      case Ok(row) =>
        if SeenBy(row).None? || row.cancelCommand.Some? then Drop(s, t) else Put(s, t, ExecConfirmed(x, row))
  }

  function BeginLoad(s: State, t: int, ok: bool): State {
    if t !in s.tasks || !s.tasks[t].ExecConfirmed? then s
    else
      var x := s.tasks[t].execution;
      match Owned(s.w.db, Sees(s.w, ok), x.user, x.stageId)
      case Refused(_) => Drop(s, t)
      case Ok(row) =>
        if row.cancelCommand.Some? || row.status !in {Previewed, Confirmed} then Drop(s, t)
        else
          match Saved(s.w.db, row, Some(x.packet.previewId))
          case Refused(_) => Drop(s, t)
          case Ok(saved) =>
            if row.choices.None? || row.sourceId.None? || !InputAllowed(row, s.w.now) then Drop(s, t)
            else Put(s, t, LoadReading(Load(x, s.tasks[t].row, row, saved)))
  }

  function FetchLoad(s: State, t: int): State {
    if t !in s.tasks || !s.tasks[t].LoadReading? then s
    else Put(s, t, LoadFetched(s.tasks[t].load, ContentOf(s.w, s.tasks[t].load.row)))
  }

  function WorkLoad(s: State, h: Digests, t: int, ok: bool): State {
    if t !in s.tasks || !s.tasks[t].LoadFetched? then s
    else
      var load := s.tasks[t].load;
      match PreviewRead(s.w.db, Sees(s.w, ok), h, load.execution.user, load.row, s.tasks[t].content)
      case Refused(_) => Drop(s, t)
      case Ok(_) => if s.working.Some? then Drop(s, t) else Put(s, t, LoadWorking(load)).(working := Some(t))
  }

  function PlanLoad(s: State, t: int, plan: PlanView): State {
    if t !in s.tasks || !s.tasks[t].LoadWorking? then s
    else Put(s, t, LoadPlanned(s.tasks[t].load, plan)).(working := None)
  }

  /** The plan is still the previewed one; a history that has grown needs the bound run's own evidence. */
  predicate StillPreviewed(load: Load, plan: PlanView, grown: bool) {
    && plan.destinationVersion == load.saved.binding.destinationVersion
    && (plan.history == load.saved.binding.history
        || (load.row.status == Confirmed && load.row.nativeRun.Some? && grown))
  }

  /** The plan is the one the packet acknowledges. */
  predicate Acknowledged(packet: ClaimPacket, plan: PlanView) {
    && plan.rejected == 0 && plan.fileErrors == 0
    && packet.selectedRows == plan.selectedRows && packet.sourceSeconds == plan.sourceSeconds
    && packet.destinationSeconds == plan.destinationSeconds
    && (plan.excluded > 0 ==> packet.acknowledgeExclusions)
    && (plan.destinationSeconds != plan.sourceSeconds ==> packet.acknowledgeDifference)
    && (plan.newPeople > 0 ==> packet.acknowledgePeople)
  }

  function EndLoad(s: State, t: int, ok: bool, grown: bool): State {
    if t !in s.tasks || !s.tasks[t].LoadPlanned? then s
    else
      var load, plan := s.tasks[t].load, s.tasks[t].plan;
      if Current(s.w.db, Sees(s.w, ok), load.execution.user, load.row).Refused?
         || !StillPreviewed(load, plan, grown) || !Acknowledged(load.execution.packet, plan)
      then Drop(s, t)
      else Put(s, t, ExecSealing(load, plan))
  }

  /** The dataset's run: the one it has, if that was sealed from this very plan, or a new one. */
  function SealExec(s: State, t: int, run: int): State {
    if t !in s.tasks || !s.tasks[t].ExecSealing? || s.tasks[t].load.row.sourceId.None? then s
    else
      var load, plan := s.tasks[t].load, s.tasks[t].plan;
      var runs := Seal(s.w.runs, run, load.row.sourceId.value, plan.planId, plan.selectedRows);
      if run !in runs || runs[run].dataset != load.row.sourceId.value then s
      else if runs[run].planId != plan.planId then Drop(s, t)
      else Put(InRuns(s, runs), t, ExecSealed(load, plan, run))
  }

  function AuthorizeOf(load: Load, plan: PlanView, run: int): AuthorizeInput {
    var x, row := load.execution, load.row;
    AuthorizeInput(run, x.stageId, row.version, x.packet.previewId, row.target, x.user, x.session, row.expiresAt,
                   x.packet.commandId, if load.confirmed.command.Some? then load.confirmed.command.value else "",
                   x.packet, plan.planId, plan.sourceSeconds, plan.destinationSeconds - plan.sourceSeconds)
  }

  /** New work is bound next; a replay only if the run still serves this very command. */
  function AuthorizeExec(s: State, t: int, ok: bool, prior: bool): State {
    if t !in s.tasks || !s.tasks[t].ExecSealed? then s
    else
      var a := AuthorizeOf(s.tasks[t].load, s.tasks[t].plan, s.tasks[t].run);
      match Authorize(s.w.runs, Sees(s.w, ok), a, prior)
      case Refused(_) => Drop(s, t)
      case Ok(done) =>
        if a.runId !in done.runs || done.runs[a.runId].assoc.None? then Drop(s, t)
        else if done.outcome == Replayed then
          if done.runs[a.runId].assoc.value.command != a.command then Drop(s, t)
          else Put(s, t, Holding(ContextOf(done.runs[a.runId])))
        else
          var w := s.w.(runs := done.runs, accepted := s.w.accepted + [Acceptance(a.stageId, a.command, a.runId)]);
          Put(s.(w := w), t, Holding(ContextOf(done.runs[a.runId])))
  }

  function StepExecute(s: State, h: Digests, e: Event): State {
    match e
    case ExecBegin(t, ok, x) => BeginExec(s, t, ok, x)
    case ExecRead(t, ok) => ReadExec(s, t, ok)
    case ExecConfirm(t, ok) => ConfirmExec(s, t, ok)
    case ExecDecide(t, ok, found, live, current) => DecideExec(s, t, ok, found, live, current)
    case ExecReread(t, ok) => RereadExec(s, t, ok)
    case LoadBegin(t, ok) => BeginLoad(s, t, ok)
    case LoadFetch(t) => FetchLoad(s, t)
    case LoadWork(t, ok) => WorkLoad(s, h, t, ok)
    case LoadPlan(t, plan) => PlanLoad(s, t, plan)
    case LoadEnd(t, ok, grown) => EndLoad(s, t, ok, grown)
    case ExecSeal(t, run) => SealExec(s, t, run)
    case ExecAuthorize(t, ok, prior) => AuthorizeExec(s, t, ok, prior)
    case _ => s
  }

  // ---- the cancel command ----------------------------------------------------------------

  /** The cancellation is recorded on the stage before any run is touched. */
  function BeginCancel(s: State, t: int, user: int, ok: bool, input: CancelInput): State {
    if t in s.tasks || Cancellation(s.w.db, Sees(s.w, ok), user, input).Refused? then s
    else
      var next := CancelStep(s, user, ok, input);
      if input.stageId !in next.w.db.stages then next
      else Put(next, t, Cancelling(user, input, next.w.db.stages[input.stageId].target, 3))
  }

  function MarkStopped(s: State, stage: string): State { s.(w := s.w.(stopped := s.w.stopped + {stage})) }

  /** The latest run is stopped under the command it serves now; a refusal leaves one attempt less. */
  function StopFound(s: State, t: int, ok: bool, r: int): State
    requires t in s.tasks && s.tasks[t].Cancelling? && s.tasks[t].left > 0
    requires r in s.w.runs && s.w.runs[r].assoc.Some?
  {
    var task := s.tasks[t];
    var stop := StopInput(r, task.stop.stageId, task.target, task.stop.previewId,
                          s.w.runs[r].assoc.value.command, task.stop.cancellation);
    match Stop(s.w.runs, Sees(s.w, ok), stop)
    case Refused(_) => Put(s, t, task.(left := task.left - 1))
    case Ok(runs) =>
      if r !in runs || runs[r].assoc.None? then s
      else Put(MarkStopped(InRuns(s, runs), task.stop.stageId), t, Holding(ContextOf(runs[r])))
  }

  /** One of its three attempts: the stage's latest run, read afresh, is stopped unless it is over. */
  function TryCancel(s: State, t: int, ok: bool, found: Option<int>): State {
    if t !in s.tasks || !s.tasks[t].Cancelling? || !FoundByStage(s.w.runs, s.tasks[t].stop.stageId, found) then s
    else if s.tasks[t].left == 0 then Drop(s, t)
    else if found.None? || s.w.runs[found.value].native != PartialRun
    then Drop(MarkStopped(s, s.tasks[t].stop.stageId), t)
    else StopFound(s, t, ok, found.value)
  }

  // ---- one step --------------------------------------------------------------------------

  /** Time, a new destination incarnation, a restart, or a command failing in an await. */
  function StepAmbient(s: State, e: Event): State {
    match e
    case Tick(to) => if s.w.now <= to && UploadsPrompt(s, to) then s.(w := s.w.(now := to)) else s
    case Rotate(nonce) => s.(w := s.w.(nonce := nonce))
    case Crash => s.(tasks := map[], working := None)
    case Abandon(t) => if t in s.tasks then Drop(s, t) else s
    case _ => s
  }

  function Step(h: Digests, s: State, e: Event): State {
    if e.Tick? || e.Rotate? || e.Crash? || e.Abandon? then StepAmbient(s, e)
    else if e.UploadStart? || e.UploadChunk? || e.UploadInstall? || e.UploadDrop? || e.UploadWork?
            || e.UploadWorked? || e.UploadReject? || e.UploadAdmit? || e.Discard? then StepUpload(s, h, e)
    else if e.MapBegin? || e.MapEnd? || e.PreviewBegin? || e.PreviewFetch? || e.PreviewWork? || e.PreviewPlan?
            || e.PreviewEnd? || e.PurgeBegin? || e.PurgeUnlink? || e.PurgeEnd? then StepPreview(s, h, e)
    else if e.SweepBegin? || e.SweepRow? || e.SweepUnlink? || e.SweepDropKey? || e.SweepList? || e.SweepFile?
            || e.SweepRemove? || e.SweepEnd? then StepSweep(s, e)
    else if e.ClaimStage? || e.CancelStage? || e.DriverBind? || e.ProgressStage? || e.BindHeld?
            || e.RecordBound? then StepApply(s, e)
    else if e.CancelBegin? then BeginCancel(s, e.task, e.user, e.ok, e.cancel)
    else if e.CancelTry? then TryCancel(s, e.task, e.ok, e.found)
    else if e.ExecBegin? || e.ExecRead? || e.ExecConfirm? || e.ExecDecide? || e.ExecReread? || e.LoadBegin?
            || e.LoadFetch? || e.LoadWork? || e.LoadPlan? || e.LoadEnd? || e.ExecSeal? || e.ExecAuthorize?
    then StepExecute(s, h, e)
    else StepRuns(s, e)
  }

  /** Any sequence of events from a state. */
  function After(h: Digests, s: State, events: seq<Event>): State
    decreases |events|
  {
    if events == [] then s else After(h, Step(h, s, events[0]), events[1..])
  }
}
