/**
 * Who can change a stage, and until when, over whole runs: every change of a
 * row is made for its owner with authority over the present destination, or is
 * the purge of a sweep or the progress of the bound run; and a stage whose
 * window has passed unconfirmed is never confirmed.
 */
module CsvAccess {
  import opened Wrappers
  import opened HexText
  import opened CsvStage
  import opened CsvSidecar
  import opened CsvSidecarLaws
  import opened CsvRuns
  import opened CsvProtocol
  import opened CsvProtocolLaws
  import opened CsvProtocolSteps
  import opened CsvGuarantees

  /** The user an event acts for, and whether that user's authority stands at that moment. */
  datatype Actor = Actor(user: int, ok: bool)

  function ActsFor(s: State, e: Event): Option<Actor> {
    match e
    case MapEnd(t, ok, _) => if t in s.tasks && s.tasks[t].Mapping? then Some(Actor(s.tasks[t].user, ok)) else None
    case PreviewEnd(t, ok) =>
      if t in s.tasks && s.tasks[t].PreviewPlanned? then Some(Actor(s.tasks[t].user, ok)) else None
    case PurgeBegin(_, user, ok, _) => Some(Actor(user, ok))
    case PurgeEnd(t, ok) => if t in s.tasks && s.tasks[t].PurgeUnlinked? then Some(Actor(s.tasks[t].user, ok)) else None
    case ClaimStage(user, ok, _, _) => Some(Actor(user, ok))
    case CancelStage(user, ok, _) => Some(Actor(user, ok))
    case CancelBegin(_, user, ok, _) => Some(Actor(user, ok))
    case DriverBind(user, ok, _) => Some(Actor(user, ok))
    case BindHeld(t, ok) =>
      if t in s.tasks && s.tasks[t].Holding? then Some(Actor(s.tasks[t].context.assoc.user, ok)) else None
    case ExecDecide(t, ok, _, _, _) =>
      if t in s.tasks && s.tasks[t].ExecSeen? then Some(Actor(s.tasks[t].execution.user, ok)) else None
    case _ => None
  }

  /** The event acts for the owner of the row, over the destination it was staged for. */
  predicate ByOwner(s: State, e: Event, row: Stage) {
    ActsFor(s, e) == Some(Actor(row.owner, true)) && row.target == s.w.nonce
  }

  predicate Maintains(e: Event) { e.SweepRow? || e.SweepDropKey? || e.ProgressStage? }

  /** What a sweep or a run's progress may do to a row: nothing its owner has decided changes. */
  predicate Maintained(before: Stage, after: Stage) {
    && after.owner == before.owner && after.target == before.target
    && after.command == before.command && after.confirmedPreview == before.confirmedPreview
    && after.request == before.request && after.cancelCommand == before.cancelCommand
    && after.cancelRequest == before.cancelRequest && after.nativeRun == before.nativeRun
    && after.sourceId == before.sourceId && after.summary == before.summary
    && (after.status != Purged ==>
          before.status != Purged && after.choices == before.choices && after.previewId == before.previewId)
  }

  /** Every row is as it was, or this user may act on it. */
  predicate OnlyOwn(db: Db, next: Db, env: Env, user: int) {
    forall id :: id in db.stages ==>
      && id in next.stages
      && (next.stages[id] == db.stages[id]
          || (env.allowed && db.stages[id].owner == user && db.stages[id].target == env.nonce))
  }

  // ---- the stretches ---------------------------------------------------------------------

  lemma FileStretches(h: Digests, db: Db, env: Env, user: int, row: Stage, choices: string, source: string,
                      planned: Planned)
    requires RowsOk(db)
    ensures MapCommit(db, env, user, row, choices, source).Ok? ==>
      OnlyOwn(db, MapCommit(db, env, user, row, choices, source).value, env, user)
    ensures row.choices.Some? && PreviewCommit(db, env, h, user, row, planned).Ok? ==>
      OnlyOwn(db, PreviewCommit(db, env, h, user, row, planned).value, env, user)
  {
    hide Shape, Apply, PreviewName, BindingOf;
  }

  lemma PurgeStretches(db: Db, env: Env, user: int, row: Stage, id: string)
    requires RowsOk(db)
    ensures PurgeStart(db, env, user, id).Ok? ==> OnlyOwn(db, PurgeStart(db, env, user, id).value.db, env, user)
    ensures PurgeFinish(db, env, user, row).Ok? ==> OnlyOwn(db, PurgeFinish(db, env, user, row).value, env, user)
  {
    hide Shape, Apply;
  }

  lemma CommandStretches(db: Db, env: Env, user: int, claim: ClaimInput, current: bool, cancel: CancelInput,
                         b: RunBinding)
    requires RowsOk(db)
    ensures Claim(db, env, user, claim, current).Ok? ==>
      OnlyOwn(db, Claim(db, env, user, claim, current).value.db, env, user)
    ensures Cancellation(db, env, user, cancel).Ok? ==>
      OnlyOwn(db, Cancellation(db, env, user, cancel).value.db, env, user)
    ensures BindRun(db, env, user, b).Ok? ==> OnlyOwn(db, BindRun(db, env, user, b).value.db, env, user)
  {
    hide Shape, Apply, CanonicalClaim, Saved, InputAllowed, CommandId;
  }

  lemma SweepStretches(db: Db, row: Stage, now: int)
    requires RowsOk(db)
    ensures SweepPurge(db, row, now).Ok? ==> OnlyMaintained(db, SweepPurge(db, row, now).value)
    ensures SweepDrop(db, row).Ok? && row.id in db.stages && db.stages[row.id].status == Purged ==>
      OnlyMaintained(db, SweepDrop(db, row).value)
  {
    hide Shape;
  }

  predicate OnlyMaintained(db: Db, next: Db) {
    forall id :: id in db.stages ==> id in next.stages && Maintained(db.stages[id], next.stages[id])
  }

  lemma ProgressStretch(db: Db, env: Env, verified: bool, b: RunBinding, phase: ApplyPhase, terminalAt: Option<int>)
    requires RowsOk(db) && MarkProgress(db, env, verified, b, phase, terminalAt).Some?
    ensures OnlyMaintained(db, MarkProgress(db, env, verified, b, phase, terminalAt).value.db)
  {
    hide Shape;
  }

  // ---- the events ------------------------------------------------------------------------

  predicate RowsKept(before: Db, after: Db) {
    forall id :: id in before.stages ==> id in after.stages && after.stages[id] == before.stages[id]
  }

  /** Every row is as it was, or the event acts for its owner. */
  predicate ForOwner(s: State, e: Event, after: Db) {
    forall id :: id in s.w.db.stages ==>
      && id in after.stages && (after.stages[id] == s.w.db.stages[id] || ByOwner(s, e, s.w.db.stages[id]))
  }

  lemma AdmitKeepsRows(s: State, t: int, ok: bool)
    ensures RowsKept(s.w.db, AdmitUpload(s, t, ok).w.db)
  {
    hide HasDuplicate;
  }

  lemma UploadsKeepRows(h: Digests, s: State, e: Event)
    ensures StepAmbient(s, e).w.db == s.w.db
    ensures !e.UploadAdmit? ==> StepUpload(s, h, e).w.db == s.w.db
  {
    hide StartUpload, ReceiveChunk, InstallUpload, DropUpload, BeginAdmission, EndAdmission, RejectUpload, AdmitUpload;
    hide UploadsPrompt;
    if e.UploadStart? {
      StreamKeepsRows(h, s, e, 0, []);
    } else if e.UploadChunk? {
      StreamKeepsRows(h, s, UploadStart(0, 0, false, "", "", 0, ""), e.task, e.data);
    } else if !e.UploadAdmit? && !e.Tick? && !e.Rotate? && !e.Crash? && !e.Abandon? {
      StoredKeepsRows(h, s, e);
    }
  }

  lemma StreamKeepsRows(h: Digests, s: State, e: Event, t: int, data: seq<int>)
    requires e.UploadStart?
    ensures StartUpload(s, e).w.db == s.w.db && ReceiveChunk(s, t, data).w.db == s.w.db
  {
    hide LowerHex;
  }

  lemma StoredKeepsRows(h: Digests, s: State, e: Event)
    requires !e.UploadStart? && !e.UploadChunk? && !e.UploadAdmit?
    ensures StepUpload(s, h, e).w.db == s.w.db
  {
    hide StartUpload, ReceiveChunk, AdmitUpload;
  }

  lemma RunsKeepRows(s: State, e: Event)
    ensures StepRuns(s, e).w.db == s.w.db
    ensures e.CancelTry? ==> TryCancel(s, e.task, e.ok, e.found).w.db == s.w.db
  {
    hide Seal, RecordVersion, Stop, ClaimLease, MarkRunning, Settle, Complete, ContextOf, FoundByStage;
  }

  lemma MapForOwner(h: Digests, s: State, e: Event)
    requires RowsOk(s.w.db) && (e.MapEnd? || e.PreviewEnd?)
    ensures ForOwner(s, e, StepPreview(s, h, e).w.db)
  {
    var t := e.task;
    if e.MapEnd? && t in s.tasks && s.tasks[t].Mapping? {
      var task := s.tasks[t];
      FileStretches(h, s.w.db, Sees(s.w, e.ok), task.user, task.row, task.choices, e.source,
                    Planned("", "", Payload("", "", "", "")));
      hide MapCommit;
    } else if e.PreviewEnd? && t in s.tasks && s.tasks[t].PreviewPlanned? {
      var task := s.tasks[t];
      FileStretches(h, s.w.db, Sees(s.w, e.ok), task.user, task.row, "", "", task.planned);
      hide PreviewCommit;
    }
  }

  lemma PurgeBeginForOwner(s: State, t: int, user: int, ok: bool, id: string)
    requires RowsOk(s.w.db)
    ensures OnlyOwn(s.w.db, BeginPurge(s, t, user, ok, id).w.db, Sees(s.w, ok), user)
  {
    if id in s.w.db.stages {
      PurgeStretches(s.w.db, Sees(s.w, ok), user, s.w.db.stages[id], id);
    }
    hide RowsOk;
  }

  lemma PurgeForOwner(h: Digests, s: State, e: Event)
    requires RowsOk(s.w.db) && (e.PurgeBegin? || e.PurgeEnd?)
    ensures ForOwner(s, e, StepPreview(s, h, e).w.db)
  {
    if e.PurgeBegin? {
      PurgeBeginForOwner(s, e.task, e.user, e.ok, e.id);
    } else if e.task in s.tasks && s.tasks[e.task].PurgeUnlinked? {
      PurgeStretches(s.w.db, Sees(s.w, e.ok), s.tasks[e.task].user, s.tasks[e.task].row, "");
    }
    hide RowsOk, BeginPurge, PurgeFinish;
  }

  lemma ReadingKeepsRows(h: Digests, s: State, e: Event)
    requires !e.MapEnd? && !e.PreviewEnd? && !e.PurgeBegin? && !e.PurgeEnd?
    ensures StepPreview(s, h, e).w.db == s.w.db
  {
    hide MapStart, PreviewStart, PreviewRead, ContentOf, EndMap, EndPreview, BeginPurge, EndPurge;
  }

  lemma PreviewsForOwner(h: Digests, s: State, e: Event)
    requires RowsOk(s.w.db)
    ensures ForOwner(s, e, StepPreview(s, h, e).w.db)
  {
    hide RowsOk, ForOwner, StepPreview;
    if e.MapEnd? || e.PreviewEnd? {
      MapForOwner(h, s, e);
    } else if e.PurgeBegin? || e.PurgeEnd? {
      PurgeForOwner(h, s, e);
    } else {
      ReadingKeepsRows(h, s, e);
      SameIsForOwner(s, e);
    }
  }

  lemma SweepRowMaintains(s: State, t: int)
    requires RowsOk(s.w.db)
    ensures OnlyMaintained(s.w.db, PurgeNext(s, t).w.db)
  {
    if t in s.tasks && s.tasks[t].SweepRows? && s.tasks[t].rows != [] {
      SweepStretches(s.w.db, s.tasks[t].rows[0], s.w.now);
    }
    hide SweepPurge, RowsOk;
  }

  lemma SweepDropMaintains(h: Digests, s: State, t: int)
    requires StateOk(h, s)
    ensures OnlyMaintained(s.w.db, DropSwept(s, t).w.db)
  {
    Durable(h, s);
    if t in s.tasks && s.tasks[t].SweepUnlinked? {
      InFlight(h, s, t);
      SweepStretches(s.w.db, s.tasks[t].row, s.w.now);
    }
    hide SweepDrop, StateOk, RowsOk;
  }

  lemma SweepsKeepRows(s: State, e: Event)
    requires !e.SweepRow? && !e.SweepDropKey?
    ensures StepSweep(s, e).w.db == s.w.db
  {
    hide Expired, NamedKeys, RowsOf, PurgeNext, DropSwept;
  }

  lemma SweepsMaintain(h: Digests, s: State, e: Event)
    requires StateOk(h, s) && (e.SweepRow? || e.SweepDropKey?)
    ensures OnlyMaintained(s.w.db, StepSweep(s, e).w.db)
  {
    hide StateOk, RowsOk, OnlyMaintained, PurgeNext, DropSwept;
    Durable(h, s);
    if e.SweepRow? {
      SweepRowMaintains(s, e.task);
    } else {
      SweepDropMaintains(h, s, e.task);
    }
  }

  /** A stretch run for a user writes only rows that user owns. */
  lemma OwnIsForOwner(s: State, e: Event, after: Db, user: int, ok: bool)
    requires OnlyOwn(s.w.db, after, Sees(s.w, ok), user) && ActsFor(s, e) == Some(Actor(user, ok))
    ensures ForOwner(s, e, after)
  {
    hide ActsFor;
  }

  lemma ClaimedRows(s: State, user: int, ok: bool, claim: ClaimInput, current: bool)
    requires RowsOk(s.w.db)
    ensures OnlyOwn(s.w.db, ClaimStep(s, user, ok, claim, current).w.db, Sees(s.w, ok), user)
  {
    CommandStretches(s.w.db, Sees(s.w, ok), user, claim, current, CancelInput("", "", "", "", 0),
                     RunBinding("", 0, "", "", 0, 0, ""));
    hide Claim, RowsOk;
  }

  lemma BoundRows(s: State, user: int, ok: bool, b: RunBinding)
    requires RowsOk(s.w.db)
    ensures OnlyOwn(s.w.db, DriverStep(s, user, ok, b).w.db, Sees(s.w, ok), user)
    ensures BindRun(s.w.db, Sees(s.w, ok), user, b).Ok? ==>
      OnlyOwn(s.w.db, BindRun(s.w.db, Sees(s.w, ok), user, b).value.db, Sees(s.w, ok), user)
  {
    CommandStretches(s.w.db, Sees(s.w, ok), user, ClaimInput("", "", 0, "", None), false,
                     CancelInput("", "", "", "", 0), b);
    hide BindRun, RowsOk;
  }

  lemma CancelledRows(s: State, user: int, ok: bool, input: CancelInput)
    requires RowsOk(s.w.db)
    ensures OnlyOwn(s.w.db, CancelStep(s, user, ok, input).w.db, Sees(s.w, ok), user)
  {
    CommandStretches(s.w.db, Sees(s.w, ok), user, ClaimInput("", "", 0, "", None), false, input,
                     RunBinding("", 0, "", "", 0, 0, ""));
    hide Cancellation, RowsOk;
  }

  lemma CommandsForOwner(s: State, e: Event)
    requires RowsOk(s.w.db) && (e.ClaimStage? || e.CancelStage? || e.DriverBind?)
    ensures ForOwner(s, e, StepApply(s, e).w.db)
  {
    hide RowsOk, OnlyOwn, ForOwner, ClaimStep, CancelStep, DriverStep;
    if e.ClaimStage? {
      ClaimedRows(s, e.user, e.ok, e.claim, e.current);
    } else if e.CancelStage? {
      CancelledRows(s, e.user, e.ok, e.cancel);
    } else {
      BoundRows(s, e.user, e.ok, e.binding);
    }
    OwnIsForOwner(s, e, StepApply(s, e).w.db, e.user, e.ok);
  }

  lemma BindForOwner(s: State, e: Event)
    requires RowsOk(s.w.db) && e.BindHeld?
    ensures ForOwner(s, e, StepApply(s, e).w.db)
  {
    hide RowsOk, OnlyOwn, ForOwner, BindRun;
    if e.task in s.tasks && s.tasks[e.task].Holding? {
      var c := s.tasks[e.task].context;
      BoundRows(s, c.assoc.user, e.ok, BindingFor(c));
      OwnSelf(s.w.db, Sees(s.w, e.ok), c.assoc.user);
      OwnIsForOwner(s, e, StepApply(s, e).w.db, c.assoc.user, e.ok);
    } else {
      SameIsForOwner(s, e);
    }
  }

  lemma OwnSelf(db: Db, env: Env, user: int)
    ensures OnlyOwn(db, db, env, user)
  {
  }

  lemma ProgressMaintains(s: State, e: Event)
    requires RowsOk(s.w.db) && e.ProgressStage?
    ensures OnlyMaintained(s.w.db, StepApply(s, e).w.db)
  {
    var verified := VerifyBinding(s.w.runs, Sees(s.w, true), e.binding);
    if MarkProgress(s.w.db, Sees(s.w, true), verified, e.binding, e.phase, e.terminalAt).Some? {
      ProgressStretch(s.w.db, Sees(s.w, true), verified, e.binding, e.phase, e.terminalAt);
    }
    hide MarkProgress;
  }

  lemma RecordKeepsRows(s: State, e: Event)
    requires e.RecordBound?
    ensures StepApply(s, e).w.db == s.w.db
  {
    hide RecordVersion, Activate, ContextOf;
  }

  /** The one write of a command is its claim. */
  lemma DecidedRows(s: State, t: int, ok: bool, found: Option<int>, live: bool, current: bool)
    requires t in s.tasks && s.tasks[t].ExecSeen?
    ensures var x := s.tasks[t].execution;
      var claim := Claim(s.w.db, Sees(s.w, ok), x.user, ClaimOf(x), current);
      var after := DecideExec(s, t, ok, found, live, current).w.db;
      after == s.w.db || (claim.Ok? && after == claim.value.db)
  {
    hide Claim, Decide, FoundByStage, ContextOf, ClaimOf;
  }

  lemma ExecForOwner(h: Digests, s: State, e: Event)
    requires RowsOk(s.w.db)
    ensures ForOwner(s, e, StepExecute(s, h, e).w.db)
  {
    hide RowsOk, OnlyOwn, ForOwner, DecideExec, Claim, Cancellation, BindRun, ClaimOf;
    if e.ExecDecide? && e.task in s.tasks && s.tasks[e.task].ExecSeen? {
      var x := s.tasks[e.task].execution;
      DecidedRows(s, e.task, e.ok, e.found, e.live, e.current);
      CommandStretches(s.w.db, Sees(s.w, e.ok), x.user, ClaimOf(x), e.current, CancelInput("", "", "", "", 0),
                       RunBinding("", 0, "", "", 0, 0, ""));
      OwnSelf(s.w.db, Sees(s.w, e.ok), x.user);
      OwnIsForOwner(s, e, StepExecute(s, h, e).w.db, s.tasks[e.task].execution.user, e.ok);
    } else {
      ReadsKeepRows(h, s, e);
      SameIsForOwner(s, e);
      hide StepExecute;
    }
  }

  lemma LoadsKeepRows(h: Digests, s: State, e: Event)
    requires e.LoadBegin? || e.LoadFetch? || e.LoadWork? || e.LoadPlan? || e.LoadEnd? || e.ExecSeal? || e.ExecAuthorize?
    ensures StepExecute(s, h, e).w.db == s.w.db
  {
    hide Authorize, Seal, Owned, PreviewRead, ContentOf, ContextOf, Current, Saved, StillPreviewed, Acknowledged;
    hide BeginExec, ReadExec, ConfirmExec, DecideExec, RereadExec;
  }

  lemma ReadsKeepRows(h: Digests, s: State, e: Event)
    requires !e.ExecDecide? || e.task !in s.tasks || !s.tasks[e.task].ExecSeen?
    ensures StepExecute(s, h, e).w.db == s.w.db
  {
    hide BeginLoad, FetchLoad, WorkLoad, PlanLoad, EndLoad, SealExec, AuthorizeExec, Claim, Decide, Owned, FoundByStage;
    if e.LoadBegin? || e.LoadFetch? || e.LoadWork? || e.LoadPlan? || e.LoadEnd? || e.ExecSeal? || e.ExecAuthorize? {
      LoadsKeepRows(h, s, e);
    }
  }

  lemma BeginCancelRows(s: State, t: int, user: int, ok: bool, input: CancelInput)
    ensures BeginCancel(s, t, user, ok, input).w.db == s.w.db
            || BeginCancel(s, t, user, ok, input).w.db == CancelStep(s, user, ok, input).w.db
  {
    hide CancelStep, Cancellation;
  }

  lemma CancelForOwner(s: State, e: Event)
    requires RowsOk(s.w.db) && e.CancelBegin?
    ensures ForOwner(s, e, BeginCancel(s, e.task, e.user, e.ok, e.cancel).w.db)
  {
    hide RowsOk, OnlyOwn, ForOwner, CancelStep, BeginCancel;
    BeginCancelRows(s, e.task, e.user, e.ok, e.cancel);
    CancelledRows(s, e.user, e.ok, e.cancel);
    OwnSelf(s.w.db, Sees(s.w, e.ok), e.user);
    OwnIsForOwner(s, e, BeginCancel(s, e.task, e.user, e.ok, e.cancel).w.db, e.user, e.ok);
  }

  /** What one event may do to the rows that are there. */
  predicate Guarded(s: State, e: Event, after: Db) {
    ForOwner(s, e, after) || (Maintains(e) && OnlyMaintained(s.w.db, after))
  }

  lemma SweepsGuarded(h: Digests, s: State, e: Event)
    requires StateOk(h, s)
    ensures Guarded(s, e, StepSweep(s, e).w.db)
  {
    hide StateOk, StepSweep, ForOwner, OnlyMaintained;
    if e.SweepRow? || e.SweepDropKey? {
      SweepsMaintain(h, s, e);
    } else {
      SweepsKeepRows(s, e);
      SameIsForOwner(s, e);
    }
  }

  lemma AppliesGuarded(s: State, e: Event)
    requires RowsOk(s.w.db)
    requires e.ClaimStage? || e.CancelStage? || e.DriverBind? || e.ProgressStage? || e.BindHeld? || e.RecordBound?
    ensures Guarded(s, e, StepApply(s, e).w.db)
  {
    hide RowsOk, StepApply, ForOwner, OnlyMaintained;
    if e.ProgressStage? {
      ProgressMaintains(s, e);
    } else if e.BindHeld? {
      BindForOwner(s, e);
    } else if e.RecordBound? {
      RecordKeepsRows(s, e);
      SameIsForOwner(s, e);
    } else {
      CommandsForOwner(s, e);
    }
  }

  lemma UploadsGuarded(h: Digests, s: State, e: Event)
    ensures Guarded(s, e, StepUpload(s, h, e).w.db) && Guarded(s, e, StepAmbient(s, e).w.db)
  {
    hide ForOwner, StepUpload, StepAmbient;
    UploadsForOwner(h, s, e);
  }

  lemma PreviewsGuarded(h: Digests, s: State, e: Event)
    requires RowsOk(s.w.db)
    ensures Guarded(s, e, StepPreview(s, h, e).w.db) && Guarded(s, e, StepExecute(s, h, e).w.db)
  {
    hide RowsOk, ForOwner, StepPreview, StepExecute;
    PreviewsForOwner(h, s, e);
    ExecForOwner(h, s, e);
  }

  lemma CancelsGuarded(s: State, e: Event)
    requires RowsOk(s.w.db)
    ensures e.CancelTry? ==> Guarded(s, e, TryCancel(s, e.task, e.ok, e.found).w.db)
    ensures e.CancelBegin? ==> Guarded(s, e, BeginCancel(s, e.task, e.user, e.ok, e.cancel).w.db)
    ensures Guarded(s, e, StepRuns(s, e).w.db)
  {
    hide RowsOk, ForOwner, StepRuns, TryCancel, BeginCancel;
    RunsKeepRows(s, e);
    SameIsForOwner(s, e);
    if e.CancelBegin? {
      CancelForOwner(s, e);
    }
  }

  predicate FileEvent(e: Event) {
    || e.Tick? || e.Rotate? || e.Crash? || e.Abandon?
    || e.UploadStart? || e.UploadChunk? || e.UploadInstall? || e.UploadDrop? || e.UploadWork?
    || e.UploadWorked? || e.UploadReject? || e.UploadAdmit? || e.Discard?
    || e.MapBegin? || e.MapEnd? || e.PreviewBegin? || e.PreviewFetch? || e.PreviewWork? || e.PreviewPlan?
    || e.PreviewEnd? || e.PurgeBegin? || e.PurgeUnlink? || e.PurgeEnd?
  }

  lemma FilesGuarded(h: Digests, s: State, e: Event)
    requires RowsOk(s.w.db) && FileEvent(e)
    ensures Guarded(s, e, Step(h, s, e).w.db)
  {
    hide RowsOk, Guarded, StepUpload, StepPreview, StepAmbient;
    UploadsGuarded(h, s, e);
    PreviewsGuarded(h, s, e);
  }

  lemma CommandsGuarded(h: Digests, s: State, e: Event)
    requires StateOk(h, s) && RowsOk(s.w.db) && !FileEvent(e)
    ensures Guarded(s, e, Step(h, s, e).w.db)
  {
    hide StateOk, RowsOk, Guarded, StepUpload, StepPreview, StepSweep, StepAmbient, StepRuns, StepExecute, StepApply;
    hide BeginCancel, TryCancel;
    SweepsGuarded(h, s, e);
    CancelsGuarded(s, e);
    PreviewsGuarded(h, s, e);
    if e.ClaimStage? || e.CancelStage? || e.DriverBind? || e.ProgressStage? || e.BindHeld? || e.RecordBound? {
      AppliesGuarded(s, e);
    }
  }

  /**
   * A row changes only for its owner, with authority, over the destination it
   * was staged for; or by a sweep or by its run's progress, neither of which
   * touches what the owner has decided.
   */
  lemma OthersChangeNothing(h: Digests, s: State, e: Event)
    requires StateOk(h, s) && Injective(h.binding)
    ensures Guarded(s, e, Step(h, s, e).w.db)
  {
    hide StateOk, RowsOk, Guarded, Step;
    RowsAreOk(h, s);
    if FileEvent(e) {
      FilesGuarded(h, s, e);
    } else {
      CommandsGuarded(h, s, e);
    }
  }

  lemma UploadsForOwner(h: Digests, s: State, e: Event)
    ensures ForOwner(s, e, StepUpload(s, h, e).w.db) && ForOwner(s, e, StepAmbient(s, e).w.db)
  {
    hide ForOwner, RowsKept, StepAmbient, AdmitUpload;
    UploadsKeepRows(h, s, e);
    SameIsForOwner(s, e);
    if e.UploadAdmit? {
      AdmitKeepsRows(s, e.task, e.ok);
      KeptIsForOwner(s, e, AdmitUpload(s, e.task, e.ok).w.db);
    }
    hide StepUpload;
  }

  lemma KeptIsForOwner(s: State, e: Event, after: Db)
    requires RowsKept(s.w.db, after)
    ensures ForOwner(s, e, after)
  {
  }

  lemma SameIsForOwner(s: State, e: Event)
    ensures ForOwner(s, e, s.w.db)
  {
  }

  // ---- whole runs ------------------------------------------------------------------------

  /** No event of the run acts for the owner of the stage with authority. */
  predicate WithoutOwner(h: Digests, s: State, events: seq<Event>, id: string)
    decreases |events|
  {
    events == [] ||
    (&& (id in s.w.db.stages ==> !ByOwner(s, events[0], s.w.db.stages[id]))
     && WithoutOwner(h, Step(h, s, events[0]), events[1..], id))
  }

  lemma MaintainedOn(a: Stage, b: Stage, c: Stage)
    requires Maintained(a, b) && Maintained(b, c)
    ensures Maintained(a, c)
  {
  }

  /**
   * However long a run, and whoever else acts in it: without its owner a stage
   * is not mapped, previewed, confirmed, cancelled or bound.
   */
  lemma {:induction false} OwnerDecidesAlone(h: Digests, s: State, events: seq<Event>, id: string)
    requires StateOk(h, s) && Injective(h.binding) && id in s.w.db.stages && WithoutOwner(h, s, events, id)
    ensures id in After(h, s, events).w.db.stages
    ensures Maintained(s.w.db.stages[id], After(h, s, events).w.db.stages[id])
    decreases |events|
  {
    hide Step, StateOk, Maintained, ByOwner;
    if events == [] {
      MaintainedSelf(s.w.db.stages[id]);
    } else {
      var next := Step(h, s, events[0]);
      OneStep(h, s, events[0]);
      OthersChangeNothing(h, s, events[0]);
      MaintainedSelf(s.w.db.stages[id]);
      OwnerDecidesAlone(h, next, events[1..], id);
      MaintainedOn(s.w.db.stages[id], next.w.db.stages[id], After(h, s, events).w.db.stages[id]);
    }
  }

  lemma MaintainedSelf(row: Stage)
    ensures Maintained(row, row)
  {
  }

  /** A stage whose window has passed before it was confirmed is never confirmed, and so never bound or run. */
  lemma {:induction false} ExpiredNeverConfirmed(h: Digests, s: State, events: seq<Event>, id: string)
    requires StateOk(h, s) && Injective(h.binding) && id in s.w.db.stages
    requires s.w.db.stages[id].command.None? && s.w.db.stages[id].expiresAt <= s.w.now
    ensures var w := After(h, s, events).w;
      && id in w.db.stages && w.db.stages[id].command.None? && w.db.stages[id].nativeRun.None?
      && w.db.stages[id].confirmedPreview.None?
      && (forall a :: a in w.activations ==> a.stage != id)
    decreases |events|
  {
    hide Step, StateOk;
    if events == [] {
      UnconfirmedIsIdle(h, s, id);
    } else {
      OneStep(h, s, events[0]);
      StaysUnconfirmed(s.w, Step(h, s, events[0]).w, id);
      ExpiredNeverConfirmed(h, Step(h, s, events[0]), events[1..], id);
    }
  }

  lemma StaysUnconfirmed(w: World, v: World, id: string)
    requires Advances(w, v) && id in w.db.stages && w.db.stages[id].command.None? && w.db.stages[id].expiresAt <= w.now
    ensures id in v.db.stages && v.db.stages[id].command.None? && v.db.stages[id].expiresAt <= v.now
  {
  }

  lemma UnconfirmedIsIdle(h: Digests, s: State, id: string)
    requires StateOk(h, s) && id in s.w.db.stages && s.w.db.stages[id].command.None?
    ensures s.w.db.stages[id].nativeRun.None? && s.w.db.stages[id].confirmedPreview.None?
    ensures forall a :: a in s.w.activations ==> a.stage != id
  {
    assert Shape(s.w.db.stages[id]);
  }
}
