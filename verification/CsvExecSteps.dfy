/** Every event of the apply and cancel commands keeps the protocol invariant. */
module CsvExecSteps {
  import opened Wrappers
  import opened CsvSidecar
  import opened CsvSidecarLaws
  import opened CsvRuns
  import opened CsvProtocol
  import opened CsvProtocolLaws
  import opened CsvProtocolSteps
  import opened CsvApplySteps

  // ---- up to the decision ----------------------------------------------------------------

  lemma OwnedIsObserved(db: Db, env: Env, user: int, id: string)
    requires RowsOk(db) && Owned(db, env, user, id).Ok?
    ensures Observed(db, Owned(db, env, user, id).value) && Owned(db, env, user, id).value.id == id
  {
  }

  lemma EnterKeeps(h: Digests, s: State, t: int, ok: bool, x: Execution)
    requires StateOk(h, s)
    ensures Good(h, s, BeginExec(s, t, ok, x))
  {
    hide StateOk;
    hide Good;
    GoodSelf(h, s);
    if t !in s.tasks { GoodPut(h, s, s, t, ExecEntered(x)); }
  }

  lemma ReadKeeps(h: Digests, s: State, t: int, ok: bool)
    requires StateOk(h, s)
    ensures Good(h, s, ReadExec(s, t, ok))
  {
    hide StateOk;
    hide Good;
    hide Owned;
    GoodSelf(h, s);
    GoodDrop(h, s, s, t);
    if t in s.tasks && s.tasks[t].ExecEntered? {
      var x := s.tasks[t].execution;
      var r := Owned(s.w.db, Sees(s.w, ok), x.user, x.stageId);
      if r.Ok? { GoodPut(h, s, s, t, ExecStage(x, r.value)); }
    }
  }

  lemma ConfirmKeeps(h: Digests, s: State, t: int, ok: bool)
    requires StateOk(h, s)
    ensures Good(h, s, ConfirmExec(s, t, ok))
  {
    hide StateOk;
    hide Good;
    hide Owned;
    GoodSelf(h, s);
    GoodDrop(h, s, s, t);
    if t in s.tasks && s.tasks[t].ExecStage? {
      Durable(h, s);
      var x := s.tasks[t].execution;
      var r := Owned(s.w.db, Sees(s.w, ok), x.user, x.stageId);
      if r.Ok? {
        OwnedIsObserved(s.w.db, Sees(s.w, ok), x.user, x.stageId);
        GoodPut(h, s, s, t, ExecSeen(x, s.tasks[t].row, SeenBy(r.value)));
      }
    }
  }

  lemma HoldingKeeps(h: Digests, s: State, n: State, t: int, run: int)
    requires Good(h, s, n) && run in n.w.runs && n.w.runs[run].assoc.Some?
    requires t in n.tasks ==> !Occupies(n.tasks[t])
    ensures Good(h, s, Put(n, t, Holding(ContextOf(n.w.runs[run]))))
  {
    GoodIsOk(h, s, n);
    Durable(h, n);
    hide StateOk;
    hide Good;
    SelfEvolves(n.w.runs[run]);
    GoodPut(h, s, n, t, Holding(ContextOf(n.w.runs[run])));
  }

  lemma ProposedKeeps(h: Digests, s: State, t: int, ok: bool, x: Execution, current: bool)
    requires StateOk(h, s) && t in s.tasks && !Occupies(s.tasks[t])
    requires Claim(s.w.db, Sees(s.w, ok), x.user, ClaimOf(x), current).Ok?
    ensures var done := Claim(s.w.db, Sees(s.w, ok), x.user, ClaimOf(x), current).value;
      Good(h, s, Put(InDb(s, done.db), t, ExecClaimed(x)))
  {
    hide StateOk;
    hide Good;
    hide Claim;
    hide CanonicalClaim;
    var db := Claim(s.w.db, Sees(s.w, ok), x.user, ClaimOf(x), current).value.db;
    Durable(h, s);
    ClaimIsCanonical(s.w.db, Sees(s.w, ok), x.user, ClaimOf(x), current);
    ClaimWrites(h, s.w.db, Sees(s.w, ok), x.user, ClaimOf(x), current);
    ClaimedKeeps(h, s, ClaimOf(x), db);
    assert InDb(s, db) == s.(w := s.w.(db := db, bare := s.w.bare + 0));
    GoodPut(h, s, InDb(s, db), t, ExecClaimed(x));
  }

  lemma DecideKeeps(h: Digests, s: State, t: int, ok: bool, found: Option<int>, live: bool, current: bool)
    requires StateOk(h, s)
    ensures Good(h, s, DecideExec(s, t, ok, found, live, current))
  {
    hide StateOk;
    hide Good;
    hide Claim;
    hide Decide;
    GoodSelf(h, s);
    GoodDrop(h, s, s, t);
    if t in s.tasks && s.tasks[t].ExecSeen? && FoundByStage(s.w.runs, s.tasks[t].execution.stageId, found) {
      InFlight(h, s, t);
      var x, seen := s.tasks[t].execution, s.tasks[t].seen;
      match Decide(s.w.runs, found, x, s.tasks[t].row, seen, live)
      case Refuse(_) =>
      case Answer(hold) => if found.Some? { HoldingKeeps(h, s, s, t, found.value); }
      case Proceed => if seen.Some? { GoodPut(h, s, s, t, ExecConfirmed(x, seen.value)); }
      case Propose =>
        if Claim(s.w.db, Sees(s.w, ok), x.user, ClaimOf(x), current).Ok? { ProposedKeeps(h, s, t, ok, x, current); }
    }
  }

  lemma RereadKeeps(h: Digests, s: State, t: int, ok: bool)
    requires StateOk(h, s)
    ensures Good(h, s, RereadExec(s, t, ok))
  {
    hide StateOk;
    hide Good;
    hide Owned;
    GoodSelf(h, s);
    GoodDrop(h, s, s, t);
    if t in s.tasks && s.tasks[t].ExecClaimed? {
      Durable(h, s);
      var x := s.tasks[t].execution;
      var r := Owned(s.w.db, Sees(s.w, ok), x.user, x.stageId);
      if r.Ok? && SeenBy(r.value).Some? {
        OwnedIsObserved(s.w.db, Sees(s.w, ok), x.user, x.stageId);
        GoodPut(h, s, s, t, ExecConfirmed(x, r.value));
      }
    }
  }

  // ---- loading the preview ---------------------------------------------------------------

  lemma BeginLoadKeeps(h: Digests, s: State, t: int, ok: bool)
    requires StateOk(h, s)
    ensures Good(h, s, BeginLoad(s, t, ok))
  {
    hide StateOk;
    hide Good;
    hide Owned;
    hide Saved;
    GoodSelf(h, s);
    GoodDrop(h, s, s, t);
    if t in s.tasks && s.tasks[t].ExecConfirmed? {
      InFlight(h, s, t);
      Durable(h, s);
      var x := s.tasks[t].execution;
      var r := Owned(s.w.db, Sees(s.w, ok), x.user, x.stageId);
      if r.Ok? {
        var row := r.value;
        OwnedIsObserved(s.w.db, Sees(s.w, ok), x.user, x.stageId);
        OwnedIsRow(s.w.db, Sees(s.w, ok), x.user, x.stageId);
        var saved := Saved(s.w.db, row, Some(x.packet.previewId));
        if saved.Ok? && row.sourceId.Some? {
          GoodPut(h, s, s, t, LoadReading(Load(x, s.tasks[t].row, row, saved.value)));
        }
      }
    }
  }

  lemma OwnedIsRow(db: Db, env: Env, user: int, id: string)
    requires Owned(db, env, user, id).Ok?
    ensures id in db.stages && Owned(db, env, user, id).value == db.stages[id]
  {
  }

  lemma FetchLoadKeeps(h: Digests, s: State, t: int)
    requires StateOk(h, s)
    ensures Good(h, s, FetchLoad(s, t))
  {
    hide StateOk, Good, LoadOk;
    GoodSelf(h, s);
    if t in s.tasks && s.tasks[t].LoadReading? {
      InFlight(h, s, t);
      GoodPut(h, s, s, t, LoadFetched(s.tasks[t].load, ContentOf(s.w, s.tasks[t].load.row)));
    }
  }

  lemma WorkLoadKeeps(h: Digests, s: State, t: int, ok: bool)
    requires StateOk(h, s)
    ensures Good(h, s, WorkLoad(s, h, t, ok))
  {
    hide StateOk, Good, LoadOk, PreviewRead;
    GoodSelf(h, s);
    GoodDrop(h, s, s, t);
    if t in s.tasks && s.tasks[t].LoadFetched? {
      InFlight(h, s, t);
      if s.working.None? { GoodOccupy(h, s, t, LoadWorking(s.tasks[t].load)); }
    }
  }

  lemma PlanLoadKeeps(h: Digests, s: State, t: int, plan: PlanView)
    requires StateOk(h, s)
    ensures Good(h, s, PlanLoad(s, t, plan))
  {
    hide StateOk, Good, LoadOk;
    GoodSelf(h, s);
    if t in s.tasks && s.tasks[t].LoadWorking? {
      InFlight(h, s, t);
      GoodRelease(h, s, t, LoadPlanned(s.tasks[t].load, plan));
    }
  }

  lemma EndLoadKeeps(h: Digests, s: State, t: int, ok: bool, grown: bool)
    requires StateOk(h, s)
    ensures Good(h, s, EndLoad(s, t, ok, grown))
  {
    hide StateOk, Good, LoadOk, Current, StillPreviewed, Acknowledged;
    GoodSelf(h, s);
    GoodDrop(h, s, s, t);
    if t in s.tasks && s.tasks[t].LoadPlanned? {
      InFlight(h, s, t);
      GoodPut(h, s, s, t, ExecSealing(s.tasks[t].load, s.tasks[t].plan));
    }
  }

  // ---- sealing and authorizing -----------------------------------------------------------

  lemma SealExecKeeps(h: Digests, s: State, t: int, run: int)
    requires StateOk(h, s)
    ensures Good(h, s, SealExec(s, t, run))
  {
    hide StateOk;
    hide Good;
    hide Seal;
    GoodSelf(h, s);
    GoodDrop(h, s, s, t);
    if t in s.tasks && s.tasks[t].ExecSealing? && s.tasks[t].load.row.sourceId.Some? {
      var load, plan := s.tasks[t].load, s.tasks[t].plan;
      var dataset := load.row.sourceId.value;
      var runs := Seal(s.w.runs, run, dataset, plan.planId, plan.selectedRows);
      SealKeeps(h, s, run, dataset, plan.planId, plan.selectedRows);
      if run in runs && runs[run].dataset == dataset {
        SealedKeeps(h, s, t, run, runs);
      }
    }
  }

  lemma SealedKeeps(h: Digests, s: State, t: int, run: int, runs: Runs)
    requires StateOk(h, s) && Good(h, s, InRuns(s, runs)) && t in s.tasks && s.tasks[t].ExecSealing?
    requires run in runs && s.tasks[t].load.row.sourceId == Some(runs[run].dataset)
    ensures Good(h, s, Put(InRuns(s, runs), t, ExecSealed(s.tasks[t].load, s.tasks[t].plan, run)))
  {
    hide StateOk, Good, LoadOk;
    InFlight(h, s, t);
    LoadIsStill(s.w, InRuns(s, runs).w, s.tasks[t].load);
    GoodPut(h, s, InRuns(s, runs), t, ExecSealed(s.tasks[t].load, s.tasks[t].plan, run));
  }

  lemma LoadIsStill(w: World, v: World, load: Load)
    requires LoadOk(w, load) && v.db == w.db
    ensures LoadOk(v, load)
  {
  }

  /** The run accepts a command of a stage of its own dataset that no run of the stage has accepted. */
  lemma AcceptedApply(w: World, v: World, a: AuthorizeInput)
    requires ApplyOk(w) && RunsOk(w.runs) && a.runId in w.runs && a.command !in w.runs[a.runId].receipts
    requires MappedTo(w.db, a.stageId, w.runs[a.runId].dataset)
    requires v == w.(runs := w.runs[a.runId := Associate(w.runs[a.runId], a)],
                     accepted := w.accepted + [Acceptance(a.stageId, a.command, a.runId)])
    ensures ApplyOk(v)
  {
    forall i | 0 <= i < |v.accepted| ensures Recorded(v, v.accepted[i]) {
      if i < |w.accepted| { assert Recorded(w, w.accepted[i]); }
    }
    forall i | 0 <= i < |w.accepted|
      ensures w.accepted[i].stage != a.stageId || w.accepted[i].command != a.command
    {
      assert Recorded(w, w.accepted[i]);
      if w.accepted[i].stage == a.stageId { assert w.accepted[i].run == a.runId; }
    }
    forall id | id in v.stopped ensures NoneRunnable(v.runs, id) {
      assert NoneRunnable(w.runs, id);
    }
  }

  /** What depends on the rows and the directory alone. */
  lemma SameRowsKeep(h: Digests, w: World, v: World)
    requires Custody(h, w) && OwnersOk(w) && CancelsOk(w)
    requires v.db == w.db && v.disk == w.disk && v.keys == w.keys
    requires v.owner == w.owner && v.cancelledAt == w.cancelledAt
    ensures Custody(h, v) && OwnersOk(v) && CancelsOk(v)
  {
  }

  /** `v` is `w` with one command newly accepted. */
  predicate Accepts(w: World, v: World, a: AuthorizeInput) {
    && a.runId in w.runs && a.command !in w.runs[a.runId].receipts
    && v == w.(runs := w.runs[a.runId := Associate(w.runs[a.runId], a)],
               accepted := w.accepted + [Acceptance(a.stageId, a.command, a.runId)])
  }

  lemma AcceptedReady(w: World, v: World, a: AuthorizeInput)
    requires ReadyOk(w) && ActivationsOk(w) && Accepts(w, v, a)
    ensures ReadyOk(v) && ActivationsOk(v)
  {
  }

  lemma AcceptedForward(w: World, v: World, a: AuthorizeInput)
    requires RunsOk(w.runs) && Accepts(w, v, a)
    ensures Forward(w, v)
  {
    AssociateKeeps(w.runs, a);
    EvolvesReflexive(w.db);
    hide RowsEvolve, RunsEvolve, RunsOk;
  }

  lemma AcceptedAdvances(w: World, v: World, a: AuthorizeInput)
    requires RunsOk(w.runs) && Accepts(w, v, a)
    ensures Advances(w, v)
  {
    AssociateKeeps(w.runs, a);
    hide RunsEvolve, RunsOk;
  }

  lemma AcceptedWorld(h: Digests, w: World, v: World, a: AuthorizeInput)
    requires WorldOk(h, w) && a.runId in w.runs && a.command !in w.runs[a.runId].receipts
    requires MappedTo(w.db, a.stageId, w.runs[a.runId].dataset)
    requires v == w.(runs := w.runs[a.runId := Associate(w.runs[a.runId], a)],
                     accepted := w.accepted + [Acceptance(a.stageId, a.command, a.runId)])
    ensures WorldOk(h, v) && Forward(w, v) && Advances(w, v)
  {
    hide DbOk, RunsOk, Custody, OwnersOk, CancelsOk, LiveOnce, ApplyOk, ReadyOk, ActivationsOk;
    hide RunsEvolve, Forward, Advances, Associate, MappedTo;
    AssociateKeeps(w.runs, a);
    AcceptedApply(w, v, a);
    AcceptedReady(w, v, a);
    AcceptedForward(w, v, a);
    AcceptedAdvances(w, v, a);
    SameRowsKeep(h, w, v);
  }

  lemma AcceptedKeeps(h: Digests, s: State, a: AuthorizeInput)
    requires StateOk(h, s) && a.runId in s.w.runs && a.command !in s.w.runs[a.runId].receipts
    requires MappedTo(s.w.db, a.stageId, s.w.runs[a.runId].dataset)
    ensures var v := s.w.(runs := s.w.runs[a.runId := Associate(s.w.runs[a.runId], a)],
                          accepted := s.w.accepted + [Acceptance(a.stageId, a.command, a.runId)]);
      Good(h, s, s.(w := v))
  {
    hide Advances;
    var v := s.w.(runs := s.w.runs[a.runId := Associate(s.w.runs[a.runId], a)],
                  accepted := s.w.accepted + [Acceptance(a.stageId, a.command, a.runId)]);
    AcceptedWorld(h, s.w, v, a);
    WorldKeeps(h, s, v);
  }

  lemma SealedIsMapped(w: World, load: Load, run: int)
    requires LoadOk(w, load) && run in w.runs && load.row.sourceId == Some(w.runs[run].dataset)
    ensures MappedTo(w.db, load.execution.stageId, w.runs[run].dataset)
  {
  }

  lemma NewWorkKeeps(h: Digests, s: State, t: int, a: AuthorizeInput)
    requires StateOk(h, s) && t in s.tasks && s.tasks[t].ExecSealed? && s.tasks[t].run == a.runId
    requires a.stageId == s.tasks[t].load.execution.stageId
    requires a.runId in s.w.runs && a.command !in s.w.runs[a.runId].receipts
    ensures var v := s.w.(runs := s.w.runs[a.runId := Associate(s.w.runs[a.runId], a)],
                          accepted := s.w.accepted + [Acceptance(a.stageId, a.command, a.runId)]);
      Good(h, s, Put(s.(w := v), t, Holding(ContextOf(v.runs[a.runId]))))
  {
    hide StateOk, Good;
    InFlight(h, s, t);
    SealedIsMapped(s.w, s.tasks[t].load, s.tasks[t].run);
    AcceptedKeeps(h, s, a);
    var v := s.w.(runs := s.w.runs[a.runId := Associate(s.w.runs[a.runId], a)],
                  accepted := s.w.accepted + [Acceptance(a.stageId, a.command, a.runId)]);
    HoldingKeeps(h, s, s.(w := v), t, a.runId);
  }

  lemma AuthorizeExecKeeps(h: Digests, s: State, t: int, ok: bool, prior: bool)
    requires StateOk(h, s)
    ensures Good(h, s, AuthorizeExec(s, t, ok, prior))
  {
    hide StateOk, Good, Authorize, Associate, RunsOk, RunsEvolve;
    GoodSelf(h, s);
    GoodDrop(h, s, s, t);
    if t in s.tasks && s.tasks[t].ExecSealed? {
      Durable(h, s);
      var a := AuthorizeOf(s.tasks[t].load, s.tasks[t].plan, s.tasks[t].run);
      var r := Authorize(s.w.runs, Sees(s.w, ok), a, prior);
      if r.Ok? {
        AuthorizeKeeps(s.w.runs, Sees(s.w, ok), a, prior);
        AuthorizedExists(s.w.runs, Sees(s.w, ok), a, prior);
        if r.value.outcome == Replayed {
          HoldingKeeps(h, s, s, t, a.runId);
        } else {
          NewWorkKeeps(h, s, t, a);
        }
      }
    }
  }

  lemma AuthorizedExists(runs: Runs, env: Env, a: AuthorizeInput, prior: bool)
    requires Authorize(runs, env, a, prior).Ok?
    ensures a.runId in runs
  {
  }

  lemma ExecuteKeeps(h: Digests, s: State, e: Event)
    requires StateOk(h, s)
    requires e.ExecBegin? || e.ExecRead? || e.ExecConfirm? || e.ExecDecide? || e.ExecReread? || e.LoadBegin?
             || e.LoadFetch? || e.LoadWork? || e.LoadPlan? || e.LoadEnd? || e.ExecSeal? || e.ExecAuthorize?
    ensures Good(h, s, StepExecute(s, h, e))
  {
    hide StateOk;
    hide Good;
    hide BeginExec, ReadExec, ConfirmExec, DecideExec, RereadExec, BeginLoad, FetchLoad, WorkLoad, PlanLoad, EndLoad;
    hide SealExec, AuthorizeExec;
    match e
    case ExecBegin(t, ok, x) => EnterKeeps(h, s, t, ok, x);
    case ExecRead(t, ok) => ReadKeeps(h, s, t, ok);
    case ExecConfirm(t, ok) => ConfirmKeeps(h, s, t, ok);
    case ExecDecide(t, ok, found, live, current) => DecideKeeps(h, s, t, ok, found, live, current);
    case ExecReread(t, ok) => RereadKeeps(h, s, t, ok);
    case LoadBegin(t, ok) => BeginLoadKeeps(h, s, t, ok);
    case LoadFetch(t) => FetchLoadKeeps(h, s, t);
    case LoadWork(t, ok) => WorkLoadKeeps(h, s, t, ok);
    case LoadPlan(t, plan) => PlanLoadKeeps(h, s, t, plan);
    case LoadEnd(t, ok, grown) => EndLoadKeeps(h, s, t, ok, grown);
    case ExecSeal(t, run) => SealExecKeeps(h, s, t, run);
    case ExecAuthorize(t, ok, prior) => AuthorizeExecKeeps(h, s, t, ok, prior);
  }

  // ---- the cancel command ----------------------------------------------------------------

  lemma CancelRecords(db: Db, env: Env, user: int, input: CancelInput)
    requires RowsOk(db) && Cancellation(db, env, user, input).Ok?
    ensures var next := Cancellation(db, env, user, input).value.db;
      input.stageId in next.stages && next.stages[input.stageId].cancelCommand.Some?
  {
  }

  lemma CancelStepDb(s: State, user: int, ok: bool, input: CancelInput)
    requires Cancellation(s.w.db, Sees(s.w, ok), user, input).Ok?
    ensures CancelStep(s, user, ok, input).w.db == Cancellation(s.w.db, Sees(s.w, ok), user, input).value.db
    ensures CancelStep(s, user, ok, input).tasks == s.tasks
  {
  }

  lemma BeginCancelKeeps(h: Digests, s: State, t: int, user: int, ok: bool, input: CancelInput)
    requires StateOk(h, s)
    ensures Good(h, s, BeginCancel(s, t, user, ok, input))
  {
    hide StateOk;
    hide Good;
    hide Cancellation;
    hide CancelStep;
    GoodSelf(h, s);
    if t !in s.tasks && Cancellation(s.w.db, Sees(s.w, ok), user, input).Ok? {
      var next := CancelStep(s, user, ok, input);
      Durable(h, s);
      CancelKeeps(h, s, user, ok, input);
      CancelRecords(s.w.db, Sees(s.w, ok), user, input);
      CancelStepDb(s, user, ok, input);
      GoodPut(h, s, next, t, Cancelling(user, input, next.w.db.stages[input.stageId].target, 3));
    }
  }

  /** No run that serves the stage is still partial. */
  predicate AllOver(runs: Runs, stage: string) {
    forall r :: r in runs && Serves(runs[r], stage) ==> runs[r].native != PartialRun
  }

  /** A dataset has one run, so the latest run of a stage is its only one. */
  lemma LatestIsOnly(w: World, stage: string, found: Option<int>)
    requires ServesOk(w) && RunsOk(w.runs) && FoundByStage(w.runs, stage, found)
    ensures forall r :: r in w.runs && Serves(w.runs[r], stage) ==> found == Some(r)
  {
    forall r | r in w.runs && Serves(w.runs[r], stage) ensures found == Some(r) {
      assert MappedTo(w.db, stage, w.runs[r].dataset);
      assert MappedTo(w.db, stage, w.runs[found.value].dataset);
    }
  }

  lemma BoundStopped(w: World, v: World, c: Context, version: nat, stage: string)
    requires Held(w.runs, c) && BoundOk(w, c, version)
    requires v == w.(stopped := w.stopped + {stage}) && AllOver(w.runs, stage)
    ensures BoundOk(v, c, version)
  {
    if c.assoc.stageId == stage && c.generation == w.runs[c.runId].generation {
      assert Serves(w.runs[c.runId], stage);
    }
  }

  /** Once all runs of a cancelled stage are over, its cancel command has done its work. */
  lemma StoppedKeeps(h: Digests, s: State, stage: string)
    requires StateOk(h, s) && AllOver(s.w.runs, stage)
    requires stage in s.w.db.stages && s.w.db.stages[stage].cancelCommand.Some?
    ensures StateOk(h, MarkStopped(s, stage))
  {
    var v := s.w.(stopped := s.w.stopped + {stage});
    StoppedWorld(h, s.w, stage);
    forall t | t in s.tasks ensures TaskOk(h, v, s.tasks[t]) {
      InFlight(h, s, t);
      StoppedTask(h, s.w, v, stage, s.tasks[t]);
    }
  }

  lemma StoppedTask(h: Digests, w: World, v: World, stage: string, task: Task)
    requires TaskOk(h, w, task) && AllOver(w.runs, stage) && v == w.(stopped := w.stopped + {stage})
    ensures TaskOk(h, v, task)
  {
    if task.Bound? { BoundStopped(w, v, task.context, task.version, stage); }
  }

  lemma StoppedWorld(h: Digests, w: World, stage: string)
    requires WorldOk(h, w) && AllOver(w.runs, stage)
    requires stage in w.db.stages && w.db.stages[stage].cancelCommand.Some?
    ensures WorldOk(h, w.(stopped := w.stopped + {stage}))
  {
    var v := w.(stopped := w.stopped + {stage});
    forall i | 0 <= i < |v.accepted| ensures Recorded(v, v.accepted[i]) {
      assert Recorded(w, w.accepted[i]);
    }
    assert ApplyOk(v);
  }

  lemma GoodStopped(h: Digests, s: State, n: State, stage: string)
    requires Good(h, s, n) && AllOver(n.w.runs, stage)
    requires stage in n.w.db.stages && n.w.db.stages[stage].cancelCommand.Some?
    ensures Good(h, s, MarkStopped(n, stage))
  {
    StoppedKeeps(h, n, stage);
  }

  lemma StoppingKeeps(h: Digests, s: State, ok: bool, stop: StopInput)
    requires StateOk(h, s) && Stop(s.w.runs, Sees(s.w, ok), stop).Ok?
    ensures var runs := Stop(s.w.runs, Sees(s.w, ok), stop).value;
      && Good(h, s, InRuns(s, runs)) && stop.runId in runs && runs[stop.runId].assoc.Some?
      && runs[stop.runId].native == CancelledRun
      && (forall r :: r in runs && r != stop.runId ==> r in s.w.runs && runs[r] == s.w.runs[r])
      && stop.runId in s.w.runs && runs[stop.runId].assoc == s.w.runs[stop.runId].assoc
  {
    hide StateOk;
    hide Good;
    StopKeeps(h, s, ok, stop);
  }

  /** Stopping the only run that serves a stage leaves it none that is partial. */
  lemma StoppedAllOver(before: Runs, after: Runs, r: int, stage: string)
    requires forall q :: q in before && Serves(before[q], stage) ==> q == r
    requires forall q :: q in after && q != r ==> q in before && after[q] == before[q]
    requires r in after && after[r].native == CancelledRun
    ensures AllOver(after, stage)
  {
  }

  lemma StopFoundKeeps(h: Digests, s: State, t: int, ok: bool, r: int)
    requires StateOk(h, s) && t in s.tasks && s.tasks[t].Cancelling? && s.tasks[t].left > 0
    requires r in s.w.runs && s.w.runs[r].assoc.Some?
    requires forall q :: q in s.w.runs && Serves(s.w.runs[q], s.tasks[t].stop.stageId) ==> q == r
    ensures Good(h, s, StopFound(s, t, ok, r))
  {
    hide StateOk, Good, Stop, AllOver;
    GoodSelf(h, s);
    InFlight(h, s, t);
    var task := s.tasks[t];
    var stage := task.stop.stageId;
    var stop := StopInput(r, stage, task.target, task.stop.previewId, s.w.runs[r].assoc.value.command,
                          task.stop.cancellation);
    if Stop(s.w.runs, Sees(s.w, ok), stop).Ok? {
      StoppingKeeps(h, s, ok, stop);
      var runs := Stop(s.w.runs, Sees(s.w, ok), stop).value;
      StoppedAllOver(s.w.runs, runs, r, stage);
      GoodStopped(h, s, InRuns(s, runs), stage);
      HoldingKeeps(h, s, MarkStopped(InRuns(s, runs), stage), t, r);
    } else {
      GoodPut(h, s, s, t, task.(left := task.left - 1));
    }
  }

  lemma TryCancelKeeps(h: Digests, s: State, t: int, ok: bool, found: Option<int>)
    requires StateOk(h, s)
    ensures Good(h, s, TryCancel(s, t, ok, found))
  {
    hide StateOk, Good, StopFound;
    GoodSelf(h, s);
    GoodDrop(h, s, s, t);
    if t in s.tasks && s.tasks[t].Cancelling? && FoundByStage(s.w.runs, s.tasks[t].stop.stageId, found) {
      InFlight(h, s, t);
      ServesAre(h, s);
      Durable(h, s);
      LatestIsOnly(s.w, s.tasks[t].stop.stageId, found);
      if found.None? || s.w.runs[found.value].native != PartialRun {
        GoodStopped(h, s, s, s.tasks[t].stop.stageId);
        GoodDrop(h, s, MarkStopped(s, s.tasks[t].stop.stageId), t);
      } else if s.tasks[t].left > 0 {
        StopFoundKeeps(h, s, t, ok, found.value);
      }
    }
  }

  lemma ServesAre(h: Digests, s: State)
    requires StateOk(h, s)
    ensures ServesOk(s.w)
  {
  }
}
