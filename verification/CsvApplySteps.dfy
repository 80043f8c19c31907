/** Confirmation, cancellation and native-run events keep the protocol invariant. */
module CsvApplySteps {
  import opened Wrappers
  import opened CsvStage
  import opened CsvSidecar
  import opened CsvSidecarLaws
  import opened CsvRuns
  import opened CsvProtocol
  import opened CsvProtocolLaws
  import opened CsvProtocolSteps

  // ---- sidecar commands ------------------------------------------------------------------

  /** A stretch that either replayed, writing nothing, or made one guarded edit. */
  lemma MaybeWrote(h: Digests, s: State, db: Db, id: string, e: Edit)
    requires StateOk(h, s) && DbOk(h, db) && (db == s.w.db || Writes(s.w.db, db, id, e))
    requires !e.DropObject? && !e.RequestCancel? && !e.Confirm?
    ensures Good(h, s, InDb(s, db))
  {
    if db == s.w.db {
      assert InDb(s, db) == s;
      GoodSelf(h, s);
    } else {
      GoodWrite(h, s, db, id, e);
    }
  }

  lemma ClaimIsCanonical(db: Db, env: Env, user: int, input: ClaimInput, current: bool)
    requires Claim(db, env, user, input, current).Ok?
    ensures CanonicalClaim(input.request).Ok?
    ensures input.stageId in db.stages && env.now < db.stages[input.stageId].expiresAt
  {
  }

  lemma ClaimKeeps(h: Digests, s: State, user: int, ok: bool, input: ClaimInput, current: bool)
    requires StateOk(h, s)
    ensures Good(h, s, ClaimStep(s, user, ok, input, current))
  {
    hide StateOk;
    hide Good;
    hide Claim;
    hide CanonicalClaim;
    hide Writes;
    hide DbOk;
    GoodSelf(h, s);
    Durable(h, s);
    var r := Claim(s.w.db, Sees(s.w, ok), user, input, current);
    if r.Ok? {
      ClaimIsCanonical(s.w.db, Sees(s.w, ok), user, input, current);
      ClaimWrites(h, s.w.db, Sees(s.w, ok), user, input, current);
      ClaimedKeeps(h, s, input, r.value.db);
    }
  }

  lemma ClaimedKeeps(h: Digests, s: State, input: ClaimInput, db: Db)
    requires StateOk(h, s) && DbOk(h, db) && CanonicalClaim(input.request).Ok?
    requires input.stageId in s.w.db.stages && s.w.now < s.w.db.stages[input.stageId].expiresAt
    requires db == s.w.db || Writes(s.w.db, db, input.stageId,
      Confirm(input.commandId, input.previewId, CanonicalClaim(input.request).value))
    ensures Good(h, s, s.(w := s.w.(db := db, bare :=
      s.w.bare + if input.request.None? && db != s.w.db then 1 else 0)))
  {
    hide StateOk;
    hide Good;
    GoodSelf(h, s);
    var e := Confirm(input.commandId, input.previewId, CanonicalClaim(input.request).value);
    if db != s.w.db {
      if input.request.None? {
        GoodBareWrite(h, s, db, input.stageId, e);
      } else {
        GoodWrite(h, s, db, input.stageId, e);
      }
    }
  }

  lemma DriverKeeps(h: Digests, s: State, user: int, ok: bool, b: RunBinding)
    requires StateOk(h, s)
    ensures Good(h, s, DriverStep(s, user, ok, b))
  {
    hide StateOk;
    hide Good;
    GoodSelf(h, s);
    Durable(h, s);
    var r := BindRun(s.w.db, Sees(s.w, ok), user, b);
    if r.Ok? {
      BindRunWrites(h, s.w.db, Sees(s.w, ok), user, b);
      MaybeWrote(h, s, r.value.db, b.stageId, Bind(b.nativeRun, b.generation));
    }
  }

  lemma ProgressKeeps(h: Digests, s: State, b: RunBinding, phase: ApplyPhase, terminalAt: Option<int>)
    requires StateOk(h, s)
    ensures Good(h, s, ProgressStep(s, b, phase, terminalAt))
  {
    hide StateOk;
    hide Good;
    GoodSelf(h, s);
    Durable(h, s);
    var env := Sees(s.w, true);
    var verified := VerifyBinding(s.w.runs, env, b);
    var r := MarkProgress(s.w.db, env, verified, b, phase, terminalAt);
    if r.Some? {
      MarkProgressWrites(h, s.w.db, env, verified, b, phase, terminalAt);
      var deadline := if Terminal(PhaseStatus(phase)) then Some(terminalAt.value + RETENTION_MS) else None;
      MaybeWrote(h, s, r.value.db, b.stageId, Progress(PhaseStatus(phase), deadline, b.generation));
    }
  }

  lemma CancelKeepsActivations(w: World, v: World, id: string)
    requires ActivationsOk(w) && RowsEvolve(w.db, v.db) && id in w.db.stages && id !in w.cancelledAt
    requires v.activations == w.activations && v.cancelledAt == w.cancelledAt[id := w.db.stages[id].version + 1]
    ensures ActivationsOk(v)
  {
    forall a | a in v.activations
      ensures Names(v.db, a.stage, a.run, a.command) && a.boundAt <= v.db.stages[a.stage].version
      ensures BeforeCancel(v, a.stage, a.boundAt)
    {
      NamesStay(w.db, v.db, a.stage, a.run, a.command);
    }
  }

  /** Recording a cancellation leaves every other row alone. */
  lemma CancelTouchesOne(before: Db, after: Db, id: string, e: Edit)
    requires Writes(before, after, id, e) && e.RequestCancel?
    ensures after.stages.Keys == before.stages.Keys && id in before.stages && before.stages[id].cancelCommand.None?
    ensures after.stages[id].cancelCommand.Some? && after.stages[id].version == before.stages[id].version + 1
    ensures forall other :: other in before.stages && other != id ==> after.stages[other] == before.stages[other]
  {
  }

  lemma CancelKeepsCancels(w: World, v: World, id: string, e: Edit)
    requires CancelsOk(w) && RowsOk(w.db) && Writes(w.db, v.db, id, e) && e.RequestCancel?
    requires v.cancelledAt == w.cancelledAt[id := w.db.stages[id].version + 1]
    ensures CancelsOk(v) && id !in w.cancelledAt
  {
    CancelTouchesOne(w.db, v.db, id, e);
    hide Writes, RowsOk;
    forall k | k in v.cancelledAt
      ensures k in v.db.stages && v.db.stages[k].cancelCommand.Some? && v.cancelledAt[k] <= v.db.stages[k].version
    {
      if k != id { assert k in w.cancelledAt && v.db.stages[k] == w.db.stages[k]; }
    }
    forall k | k in v.db.stages && v.db.stages[k].cancelCommand.Some? ensures k in v.cancelledAt {
      if k != id { assert v.db.stages[k] == w.db.stages[k]; }
    }
  }

  lemma CancelMovesWorld(h: Digests, w: World, v: World, id: string, e: Edit)
    requires WorldOk(h, w) && DbOk(h, v.db) && Writes(w.db, v.db, id, e) && e.RequestCancel?
    requires v == w.(db := v.db, cancelledAt := w.cancelledAt[id := w.db.stages[id].version + 1])
    ensures WorldOk(h, v) && Forward(w, v)
  {
    WriteMovesForward(w.db, v.db, id, e);
    WriteKeepsKeys(w, v.db, id, e);
    KeysKeptFiles(h, w, v);
    KeysKeptOwners(w, v);
    WriteKeepsLiveOnce(w.db, v.db, w.now, id, e);
    RunsEvolveReflexive(w.runs);
    CancelKeepsCancels(w, v, id, e);
    CancelKeepsActivations(w, v, id);
    MappedStay(w, v);
    CommandsStay(w, w.(db := v.db));
  }

  lemma CancelledKeeps(h: Digests, s: State, db: Db, id: string, e: Edit)
    requires StateOk(h, s) && DbOk(h, db) && Writes(s.w.db, db, id, e) && e.RequestCancel?
    ensures Good(h, s, s.(w := s.w.(db := db, cancelledAt := s.w.cancelledAt[id := s.w.db.stages[id].version + 1])))
  {
    hide WorldOk, TasksOk, Advances, Forward, PreviewsHeld, ReceiptsOk;
    Durable(h, s);
    var v := s.w.(db := db, cancelledAt := s.w.cancelledAt[id := s.w.db.stages[id].version + 1]);
    CancelMovesWorld(h, s.w, v, id, e);
    WriteAdvances(s.w, v, id, e);
    WorldKeeps(h, s, v);
  }

  lemma CancellationVersion(db: Db, env: Env, user: int, input: CancelInput)
    requires Cancellation(db, env, user, input).Ok? && Cancellation(db, env, user, input).value.db != db
    ensures input.stageId in db.stages
      && Cancellation(db, env, user, input).value.version == db.stages[input.stageId].version + 1
  {
  }

  lemma CancelKeeps(h: Digests, s: State, user: int, ok: bool, input: CancelInput)
    requires StateOk(h, s)
    ensures Good(h, s, CancelStep(s, user, ok, input))
  {
    hide StateOk;
    hide Good;
    hide Cancellation;
    hide DbOk;
    GoodSelf(h, s);
    Durable(h, s);
    var r := Cancellation(s.w.db, Sees(s.w, ok), user, input);
    if r.Ok? && r.value.db != s.w.db {
      CancellationWrites(h, s.w.db, Sees(s.w, ok), user, input);
      CancellationVersion(s.w.db, Sees(s.w, ok), user, input);
      var packet := CancelPacket(input.previewId, input.confirmation, input.cancellation);
      CancelledKeeps(h, s, r.value.db, input.stageId, RequestCancel(input.cancellation, packet));
    }
  }

  // ---- the two halves of `bound` ---------------------------------------------------------

  /** A bind is acknowledged only by a stage confirmed by that command and not yet cancelled. */
  lemma BindAcknowledged(db: Db, env: Env, user: int, b: RunBinding)
    requires RowsOk(db) && BindRun(db, env, user, b).Ok?
    ensures var r := BindRun(db, env, user, b).value;
      && Names(r.db, b.stageId, b.nativeRun, b.commandId)
      && r.version == r.db.stages[b.stageId].version
      && b.stageId in db.stages && db.stages[b.stageId].cancelCommand.None?
  {
  }

  lemma BindKeeps(h: Digests, s: State, t: int, ok: bool)
    requires StateOk(h, s)
    ensures Good(h, s, BindStep(s, t, ok))
  {
    hide StateOk;
    hide Good;
    hide BindRun;
    GoodSelf(h, s);
    if t in s.tasks && s.tasks[t].Holding? {
      InFlight(h, s, t);
      GoodDrop(h, s, s, t);
      var c := s.tasks[t].context;
      var r := BindRun(s.w.db, Sees(s.w, ok), c.assoc.user, BindingFor(c));
      if r.Ok? {
        DriverKeeps(h, s, c.assoc.user, ok, BindingFor(c));
        AcknowledgedTask(h, s, c, ok);
        GoodPut(h, s, InDb(s, r.value.db), t, Bound(c, r.value.version));
      }
    }
  }

  lemma AcknowledgedTask(h: Digests, s: State, c: Context, ok: bool)
    requires StateOk(h, s) && Held(s.w.runs, c)
    requires BindRun(s.w.db, Sees(s.w, ok), c.assoc.user, BindingFor(c)).Ok?
    ensures var r := BindRun(s.w.db, Sees(s.w, ok), c.assoc.user, BindingFor(c)).value;
      TaskOk(h, s.w.(db := r.db), Bound(c, r.version))
  {
    hide BindRun;
    var r := BindRun(s.w.db, Sees(s.w, ok), c.assoc.user, BindingFor(c)).value;
    BindAcknowledged(s.w.db, Sees(s.w, ok), c.assoc.user, BindingFor(c));
    BoundTaskOk(h, s.w, r.db, c, r.version);
  }

  lemma BoundTaskOk(h: Digests, w: World, db: Db, c: Context, version: nat)
    requires CancelsOk(w) && Held(w.runs, c) && Names(db, c.assoc.stageId, c.runId, c.assoc.confirmation)
    requires version == db.stages[c.assoc.stageId].version
    requires c.assoc.stageId in w.db.stages && w.db.stages[c.assoc.stageId].cancelCommand.None?
    requires c.assoc.stageId in w.cancelledAt ==> w.db.stages[c.assoc.stageId].cancelCommand.Some?
    requires c.assoc.stageId in w.stopped ==> w.db.stages[c.assoc.stageId].cancelCommand.Some?
    ensures TaskOk(h, w.(db := db), Bound(c, version))
  {
  }

  /** The run store moves forward and makes no run runnable that was not. */
  predicate NothingReadied(before: Runs, after: Runs) {
    forall r :: r in after && after[r].ready ==>
      && r in before && before[r].ready && before[r].assoc.Some? && after[r].assoc.Some?
      && SameAssociation(before[r].assoc.value, after[r].assoc.value)
  }

  /** No run comes to serve another stage or accepts a command. */
  predicate StillServes(before: Runs, after: Runs) {
    && (forall r :: r in after && after[r].assoc.Some? ==>
          r in before && before[r].dataset == after[r].dataset && Serves(before[r], after[r].assoc.value.stageId))
    && (forall r :: r in after && after[r].receipts != map[] ==> r in before && after[r].receipts == before[r].receipts)
  }

  lemma RunsKeepApply(w: World, runs: Runs)
    requires ApplyOk(w) && RunsEvolve(w.runs, runs) && NothingReadied(w.runs, runs) && StillServes(w.runs, runs)
    ensures ApplyOk(w.(runs := runs))
  {
    var v := w.(runs := runs);
    forall i | 0 <= i < |v.accepted| ensures Recorded(v, v.accepted[i]) {
      assert Recorded(w, w.accepted[i]) && RunEvolves(w.runs[w.accepted[i].run], runs[w.accepted[i].run]);
    }
    forall id | id in v.stopped ensures NoneRunnable(runs, id) {
      forall r | r in runs && Serves(runs[r], id) ensures !Runnable(runs[r]) {
        assert RunEvolves(w.runs[r], runs[r]) && Serves(w.runs[r], id);
      }
    }
  }

  lemma RunsKeepWorld(h: Digests, w: World, runs: Runs)
    requires WorldOk(h, w) && RunsOk(runs) && RunsEvolve(w.runs, runs) && NothingReadied(w.runs, runs)
    requires StillServes(w.runs, runs)
    ensures WorldOk(h, w.(runs := runs)) && Forward(w, w.(runs := runs))
  {
    EvolvesReflexive(w.db);
    RunsKeepApply(w, runs);
  }

  lemma EvolvesReflexive(db: Db)
    ensures RowsEvolve(db, db)
  {
  }

  lemma RunsKeep(h: Digests, s: State, runs: Runs)
    requires StateOk(h, s) && RunsOk(runs) && RunsEvolve(s.w.runs, runs) && NothingReadied(s.w.runs, runs)
    requires StillServes(s.w.runs, runs)
    ensures Good(h, s, InRuns(s, runs))
  {
    RunsAdvance(s.w, s.w.(runs := runs));
    RunsKeepWorld(h, s.w, runs);
    WorldKeeps(h, s, s.w.(runs := runs));
  }

  lemma SelfEvolves(run: Run)
    ensures run.assoc.Some? ==> SameAssociation(run.assoc.value, run.assoc.value)
  {
    if run.assoc.Some? {
      var a := run.assoc.value;
      assert a == a.(stageVersion := a.stageVersion);
    }
  }

  lemma RecordQuietly(runs: Runs, c: Context, version: int)
    requires RunsOk(runs) && RecordVersion(runs, c, version).Ok? && RecordVersion(runs, c, version).value.Some?
    ensures NothingReadied(runs, RecordVersion(runs, c, version).value.value)
    ensures StillServes(runs, RecordVersion(runs, c, version).value.value)
  {
    forall r | r in runs && runs[r].assoc.Some? ensures SameAssociation(runs[r].assoc.value, runs[r].assoc.value) {
      var a := runs[r].assoc.value;
      assert a == a.(stageVersion := a.stageVersion);
    }
  }

  lemma ActivatedApply(w: World, runs: Runs, a: Activation)
    requires ApplyOk(w) && a.run in w.runs && Serves(w.runs[a.run], a.stage) && a.stage !in w.stopped
    requires runs == w.runs[a.run := w.runs[a.run].(ready := true)]
    ensures ApplyOk(w.(runs := runs, activations := w.activations + [a]))
  {
    var v := w.(runs := runs, activations := w.activations + [a]);
    forall i | 0 <= i < |v.accepted| ensures Recorded(v, v.accepted[i]) {
      assert Recorded(w, w.accepted[i]);
    }
    forall id | id in v.stopped ensures NoneRunnable(runs, id) {
      assert NoneRunnable(w.runs, id);
    }
  }

  /** The run activated is the one its stage names, under the confirming command. */
  lemma ActivatedWorld(h: Digests, w: World, runs: Runs, a: Activation)
    requires WorldOk(h, w) && RunsOk(runs) && a.run in w.runs && w.runs[a.run].assoc.Some?
    requires runs == w.runs[a.run := w.runs[a.run].(ready := true)]
    requires w.runs[a.run].assoc.value.confirmation == a.command && w.runs[a.run].assoc.value.stageId == a.stage
    requires Names(w.db, a.stage, a.run, a.command) && BeforeCancel(w, a.stage, a.boundAt)
    requires a.boundAt <= w.db.stages[a.stage].version && a.stage !in w.stopped
    ensures WorldOk(h, w.(runs := runs, activations := w.activations + [a]))
  {
    hide ApplyOk, RunsOk, DbOk;
    ActivatedApply(w, runs, a);
  }

  lemma ActivatedEvolves(runs: Runs, id: int)
    requires id in runs
    ensures RunsEvolve(runs, runs[id := runs[id].(ready := true)])
  {
    RunsEvolveReflexive(runs);
    forall r | r in runs ensures RunEvolves(runs[r], runs[id := runs[id].(ready := true)][r]) {
      assert RunEvolves(runs[r], runs[r]);
    }
  }

  /** Both stores after recording and activating, against the state before either. */
  lemma ActivateKeeps(h: Digests, s: State, t: int, mid: Runs, a: Activation)
    requires StateOk(h, s) && StateOk(h, InRuns(s, mid)) && RunsEvolve(s.w.runs, mid)
    requires a.run in mid && mid[a.run].assoc.Some? && mid[a.run].native == PartialRun
    requires a.run in s.w.runs && s.w.runs[a.run].native == PartialRun
    requires mid[a.run].assoc.value.confirmation == a.command && mid[a.run].assoc.value.stageId == a.stage
    requires Names(s.w.db, a.stage, a.run, a.command) && BeforeCancel(s.w, a.stage, a.boundAt)
    requires a.boundAt <= s.w.db.stages[a.stage].version && a.stage !in s.w.stopped
    ensures var runs := mid[a.run := mid[a.run].(ready := true)];
      Good(h, s, Drop(s.(w := s.w.(runs := runs, activations := s.w.activations + [a])), t))
  {
    hide Good, Advances, WorldOk, RunsOk, RunsEvolve;
    var runs := mid[a.run := mid[a.run].(ready := true)];
    var v := s.w.(runs := runs, activations := s.w.activations + [a]);
    ActivatedState(h, InRuns(s, mid), a);
    ActivatedEvolves(mid, a.run);
    RunsEvolveTransitive(s.w.runs, mid, runs);
    EvolvesReflexive(s.w.db);
    WorldKeeps(h, s, v);
    ActivationAdvances(s.w, v, a);
    GoodOf(h, s, s.(w := v));
    GoodDrop(h, s, s.(w := v), t);
  }

  lemma ActivatedState(h: Digests, s: State, a: Activation)
    requires StateOk(h, s) && a.run in s.w.runs && s.w.runs[a.run].assoc.Some? && s.w.runs[a.run].native == PartialRun
    requires s.w.runs[a.run].assoc.value.confirmation == a.command && s.w.runs[a.run].assoc.value.stageId == a.stage
    requires Names(s.w.db, a.stage, a.run, a.command) && BeforeCancel(s.w, a.stage, a.boundAt)
    requires a.boundAt <= s.w.db.stages[a.stage].version && a.stage !in s.w.stopped
    ensures var runs := s.w.runs[a.run := s.w.runs[a.run].(ready := true)];
      WorldOk(h, s.w.(runs := runs, activations := s.w.activations + [a]))
  {
    var runs := s.w.runs[a.run := s.w.runs[a.run].(ready := true)];
    ReadiedRunsOk(s.w.runs, a.run);
    ActivatedWorld(h, s.w, runs, a);
  }

  lemma ReadiedRunsOk(runs: Runs, id: int)
    requires RunsOk(runs) && id in runs && runs[id].assoc.Some? && runs[id].native == PartialRun
    ensures RunsOk(runs[id := runs[id].(ready := true)])
  {
  }

  lemma GoodOf(h: Digests, s: State, n: State)
    requires StateOk(h, n) && Advances(s.w, n.w)
    ensures Good(h, s, n)
  {
  }

  lemma GoodIsOk(h: Digests, s: State, n: State)
    requires Good(h, s, n)
    ensures StateOk(h, n) && Advances(s.w, n.w)
  {
  }

  lemma ActivationAdvances(w: World, v: World, a: Activation)
    requires v.db == w.db && SameHistory(w, v.(activations := w.activations)) && RunsEvolve(w.runs, v.runs)
    requires v.activations == w.activations + [a] && v.now == w.now
    requires a.run in w.runs && w.runs[a.run].native == PartialRun
    ensures Advances(w, v)
  {
  }

  /** A recorded version leaves the association the context was handed, up to that version. */
  lemma RecordedAssociation(runs: Runs, c: Context, version: int)
    requires RunsOk(runs) && Held(runs, c)
    requires RecordVersion(runs, c, version).Ok? && RecordVersion(runs, c, version).value.Some?
    ensures var next := RecordVersion(runs, c, version).value.value;
      && c.runId in next && c.runId in runs && next[c.runId].assoc.Some? && next[c.runId].id == c.runId
      && next[c.runId].assoc.value.stageId == c.assoc.stageId
      && next[c.runId].assoc.value.confirmation == c.assoc.confirmation
      && next[c.runId].native == runs[c.runId].native
  {
    assert SameAssociation(c.assoc, runs[c.runId].assoc.value);
  }

  /** What the store holds after recording the version of an acknowledged bind. */
  /** What recording a version makes of the runs. */
  lemma RecordedRuns(runs: Runs, c: Context, version: int)
    requires RunsOk(runs) && Held(runs, c)
    requires RecordVersion(runs, c, version).Ok? && RecordVersion(runs, c, version).value.Some?
    ensures var next := RecordVersion(runs, c, version).value.value;
      && RunsOk(next) && RunsEvolve(runs, next) && NothingReadied(runs, next) && StillServes(runs, next)
      && c.runId in next && c.runId in runs && next[c.runId].assoc.Some? && next[c.runId].id == c.runId
      && next[c.runId].assoc.value.stageId == c.assoc.stageId
      && next[c.runId].assoc.value.confirmation == c.assoc.confirmation
      && next[c.runId].native == runs[c.runId].native && runs[c.runId].generation == c.generation
  {
    hide RunsEvolve, RunsOk, NothingReadied, StillServes;
    RecordVersionKeeps(runs, c, version);
    RecordQuietly(runs, c, version);
    RecordedAssociation(runs, c, version);
  }

  lemma RecordedKeeps(h: Digests, s: State, t: int, runs: Runs)
    requires StateOk(h, s) && t in s.tasks && s.tasks[t].Bound?
    requires RecordVersion(s.w.runs, s.tasks[t].context, s.tasks[t].version) == Ok(Some(runs))
    ensures var c := s.tasks[t].context;
      && Good(h, s, InRuns(s, runs)) && RunsEvolve(s.w.runs, runs)
      && c.runId in runs && c.runId in s.w.runs && runs[c.runId].assoc.Some? && runs[c.runId].id == c.runId
      && runs[c.runId].assoc.value.stageId == c.assoc.stageId
      && runs[c.runId].assoc.value.confirmation == c.assoc.confirmation
      && runs[c.runId].native == s.w.runs[c.runId].native
      && s.w.runs[c.runId].generation == c.generation
  {
    hide StateOk, Good, DbOk, RunsOk, OwnersOk, CancelsOk, BoundOk, Held, RunsEvolve, RecordVersion;
    InFlight(h, s, t);
    Durable(h, s);
    RecordedRuns(s.w.runs, s.tasks[t].context, s.tasks[t].version);
    RunsKeep(h, s, runs);
  }

  lemma RecordedStepKeeps(h: Digests, s: State, t: int, ok: bool, runs: Runs)
    requires StateOk(h, s) && t in s.tasks && s.tasks[t].Bound?
    requires RecordVersion(s.w.runs, s.tasks[t].context, s.tasks[t].version) == Ok(Some(runs))
    ensures Good(h, s, RecordStep(s, t, ok))
  {
    hide StateOk, Good, RecordVersion, RunsEvolve, Held;
    var c, version := s.tasks[t].context, s.tasks[t].version;
    InFlight(h, s, t);
    RecordedKeeps(h, s, t, runs);
    GoodIsOk(h, s, InRuns(s, runs));
    GoodDrop(h, s, InRuns(s, runs), t);
    if runs[c.runId].native == PartialRun {
      ActivateKeeps(h, s, t, runs, Activation(c.assoc.stageId, c.runId, c.assoc.confirmation, version));
    }
  }

  lemma RecordKeeps(h: Digests, s: State, t: int, ok: bool)
    requires StateOk(h, s)
    ensures Good(h, s, RecordStep(s, t, ok))
  {
    hide StateOk;
    hide Good;
    hide RecordVersion;
    hide RunsEvolve;
    GoodSelf(h, s);
    GoodDrop(h, s, s, t);
    if t in s.tasks && s.tasks[t].Bound? {
      var c, version := s.tasks[t].context, s.tasks[t].version;
      InFlight(h, s, t);
      var r := RecordVersion(s.w.runs, c, version);
      if r.Ok? && r.value.Some? {
        RecordedStepKeeps(h, s, t, ok, r.value.value);
      }
    }
  }

  lemma ApplyKeeps(h: Digests, s: State, e: Event)
    requires StateOk(h, s)
    requires e.ClaimStage? || e.CancelStage? || e.DriverBind? || e.ProgressStage? || e.BindHeld? || e.RecordBound?
    ensures Good(h, s, StepApply(s, e))
  {
    hide StateOk;
    hide Good;
    hide ClaimStep;
    hide CancelStep;
    hide DriverStep;
    hide ProgressStep;
    hide BindStep;
    hide RecordStep;
    match e
    case ClaimStage(user, ok, input, current) => ClaimKeeps(h, s, user, ok, input, current);
    case CancelStage(user, ok, input) => CancelKeeps(h, s, user, ok, input);
    case DriverBind(user, ok, b) => DriverKeeps(h, s, user, ok, b);
    case ProgressStage(b, phase, terminalAt) => ProgressKeeps(h, s, b, phase, terminalAt);
    case BindHeld(t, ok) => BindKeeps(h, s, t, ok);
    case RecordBound(t, ok) => RecordKeeps(h, s, t, ok);
  }

  // ---- run store commands ----------------------------------------------------------------

  /** One run replaced by a later version of itself that is no more runnable than before. */
  predicate Successor(run: Run, next: Run) {
    && next.id == run.id && RunOk(next) && RunEvolves(run, next)
    && (next.ready ==> run.ready && run.assoc == next.assoc)
    && (next.assoc.Some? ==> Serves(run, next.assoc.value.stageId)) && next.receipts == run.receipts
  }

  lemma SuccessorKeepsStore(runs: Runs, id: int, run: Run)
    requires RunsOk(runs) && id in runs && Successor(runs[id], run)
    ensures RunsOk(runs[id := run]) && RunsEvolve(runs, runs[id := run]) && NothingReadied(runs, runs[id := run])
    ensures StillServes(runs, runs[id := run])
  {
    RunsEvolveReflexive(runs);
    var next := runs[id := run];
    forall r | r in runs ensures RunEvolves(runs[r], next[r]) {
      assert RunEvolves(runs[r], runs[r]);
    }
    forall r | r in next && next[r].ready
      ensures r in runs && runs[r].ready && runs[r].assoc.Some? && next[r].assoc.Some?
      ensures SameAssociation(runs[r].assoc.value, next[r].assoc.value)
    {
      assert RunOk(runs[r]) && runs[r].assoc == next[r].assoc;
      SelfEvolves(runs[r]);
    }
  }

  lemma OneRunKeeps(h: Digests, s: State, id: int, run: Run)
    requires StateOk(h, s) && id in s.w.runs && Successor(s.w.runs[id], run)
    ensures Good(h, s, InRuns(s, s.w.runs[id := run]))
  {
    hide StateOk;
    hide Good;
    Durable(h, s);
    SuccessorKeepsStore(s.w.runs, id, run);
    RunsKeep(h, s, s.w.runs[id := run]);
  }

  lemma SealQuietly(runs: Runs, run: int, dataset: string, planId: string, selectedRows: int)
    requires RunsOk(runs)
    ensures var next := Seal(runs, run, dataset, planId, selectedRows);
      RunsOk(next) && RunsEvolve(runs, next) && NothingReadied(runs, next) && StillServes(runs, next)
  {
    hide RunOk;
    RunsEvolveReflexive(runs);
    forall r | r in runs && runs[r].ready
      ensures runs[r].assoc.Some? && SameAssociation(runs[r].assoc.value, runs[r].assoc.value)
    {
      ReadyServes(runs[r]);
      SelfEvolves(runs[r]);
    }
    FreshRunOk(run, dataset, planId, selectedRows);
  }

  lemma ReadyServes(run: Run)
    requires RunOk(run)
    ensures run.ready ==> run.assoc.Some?
  {
  }

  lemma FreshRunOk(run: int, dataset: string, planId: string, selectedRows: int)
    ensures RunOk(Run(run, dataset, planId, selectedRows, PartialRun, Queued, false, None, map[], 0, None, None,
                      None, None, None))
  {
  }

  lemma SealKeeps(h: Digests, s: State, run: int, dataset: string, planId: string, selectedRows: int)
    requires StateOk(h, s)
    ensures Good(h, s, InRuns(s, Seal(s.w.runs, run, dataset, planId, selectedRows)))
  {
    hide StateOk;
    hide Good;
    hide Seal;
    Durable(h, s);
    SealQuietly(s.w.runs, run, dataset, planId, selectedRows);
    RunsKeep(h, s, Seal(s.w.runs, run, dataset, planId, selectedRows));
  }

  lemma RecordHeldKeeps(h: Digests, s: State, t: int, version: int)
    requires StateOk(h, s)
    ensures Good(h, s, RecordHeld(s, t, version))
  {
    hide StateOk;
    hide Good;
    GoodSelf(h, s);
    Durable(h, s);
    GoodDrop(h, s, s, t);
    if t in s.tasks && s.tasks[t].Holding? {
      var r := RecordVersion(s.w.runs, s.tasks[t].context, version);
      if r.Ok? && r.value.Some? {
        RecordVersionKeeps(s.w.runs, s.tasks[t].context, version);
        RecordQuietly(s.w.runs, s.tasks[t].context, version);
        RunsKeep(h, s, r.value.value);
      }
    }
  }

  /** Lease, running, settling and completion change one run without readying it. */
  lemma WorkKeeps(h: Digests, s: State, runs: Runs, id: int)
    requires StateOk(h, s)
    requires runs == s.w.runs || (id in s.w.runs && id in runs && runs == s.w.runs[id := runs[id]]
                                  && Successor(s.w.runs[id], runs[id]))
    ensures Good(h, s, InRuns(s, runs))
  {
    hide StateOk;
    hide Good;
    GoodSelf(h, s);
    if runs == s.w.runs {
      assert InRuns(s, runs) == s;
    } else {
      OneRunKeeps(h, s, id, runs[id]);
    }
  }

  lemma LeaseKeeps(h: Digests, s: State, ok: bool, run: int, holder: string, ttl: int)
    requires StateOk(h, s)
    ensures Good(h, s, InRuns(s, ClaimLease(s.w.runs, Sees(s.w, ok), run, holder, ttl)))
  {
    hide StateOk;
    hide Good;
    Durable(h, s);
    WorkKeeps(h, s, ClaimLease(s.w.runs, Sees(s.w, ok), run, holder, ttl), run);
  }

  lemma RunningKeeps(h: Digests, s: State, c: Context, holder: string, generation: nat)
    requires StateOk(h, s)
    ensures Good(h, s, InRuns(s, MarkRunning(s.w.runs, Sees(s.w, true), c, holder, generation)))
  {
    hide StateOk;
    hide Good;
    Durable(h, s);
    if c.runId in s.w.runs { SelfEvolves(s.w.runs[c.runId]); }
    WorkKeeps(h, s, MarkRunning(s.w.runs, Sees(s.w, true), c, holder, generation), c.runId);
  }

  lemma SettlingKeeps(h: Digests, s: State, c: Context, lease: Option<(string, nat)>, phase: ApplyPhase)
    requires StateOk(h, s)
    ensures Good(h, s, InRuns(s, Settle(s.w.runs, Sees(s.w, true), c, lease, phase)))
  {
    hide StateOk, Good, DbOk, OwnersOk, CancelsOk;
    Durable(h, s);
    if c.runId in s.w.runs { SelfEvolves(s.w.runs[c.runId]); }
    WorkKeeps(h, s, Settle(s.w.runs, Sees(s.w, true), c, lease, phase), c.runId);
  }

  lemma FinishKeeps(h: Digests, s: State, run: int, holder: string, generation: nat)
    requires StateOk(h, s)
    ensures Good(h, s, InRuns(s, Complete(s.w.runs, Sees(s.w, true), run, holder, generation)))
  {
    hide StateOk;
    hide Good;
    Durable(h, s);
    if run in s.w.runs { SelfEvolves(s.w.runs[run]); }
    WorkKeeps(h, s, Complete(s.w.runs, Sees(s.w, true), run, holder, generation), run);
  }

  lemma StopKeeps(h: Digests, s: State, ok: bool, stop: StopInput)
    requires StateOk(h, s)
    ensures Good(h, s, StopStep(s, ok, stop))
  {
    hide StateOk;
    hide Good;
    GoodSelf(h, s);
    Durable(h, s);
    if Stop(s.w.runs, Sees(s.w, ok), stop).Ok? {
      SelfEvolves(s.w.runs[stop.runId]);
      WorkKeeps(h, s, Stop(s.w.runs, Sees(s.w, ok), stop).value, stop.runId);
    }
  }

  lemma HoldKeeps(h: Digests, s: State, t: int, run: int)
    requires StateOk(h, s) && t !in s.tasks && run in s.w.runs && s.w.runs[run].assoc.Some?
    ensures Good(h, s, Put(s, t, Holding(ContextOf(s.w.runs[run]))))
  {
    hide StateOk;
    hide Good;
    GoodSelf(h, s);
    Durable(h, s);
    SelfEvolves(s.w.runs[run]);
    GoodPut(h, s, s, t, Holding(ContextOf(s.w.runs[run])));
  }

  lemma HeldKeeps(h: Digests, s: State, e: Event)
    requires StateOk(h, s) && (e.HoldRun? || e.RunHeld? || e.SettleHeld?)
    ensures Good(h, s, StepRuns(s, e))
  {
    hide StateOk, Good, MarkRunning, Settle, ContextOf;
    GoodSelf(h, s);
    if e.HoldRun? {
      if e.task !in s.tasks && e.run in s.w.runs && s.w.runs[e.run].assoc.Some? { HoldKeeps(h, s, e.task, e.run); }
    } else if e.task in s.tasks && s.tasks[e.task].Holding? {
      if e.RunHeld? {
        RunningKeeps(h, s, s.tasks[e.task].context, e.holder, e.generation);
      } else {
        SettlingKeeps(h, s, s.tasks[e.task].context, e.lease, e.phase);
      }
    }
  }

  lemma RunStoreKeeps(h: Digests, s: State, e: Event)
    requires StateOk(h, s)
    ensures Good(h, s, StepRuns(s, e))
  {
    hide StateOk;
    hide Good;
    hide Seal;
    hide RecordHeld;
    hide StopStep;
    hide ClaimLease;
    hide MarkRunning;
    hide Settle;
    hide Complete;
    GoodSelf(h, s);
    match e
    case SealRun(run, dataset, planId, selectedRows) => SealKeeps(h, s, run, dataset, planId, selectedRows);
    case HoldRun(t, run) => HeldKeeps(h, s, e);
    case RecordStageVersion(t, version) => RecordHeldKeeps(h, s, t, version);
    case StopRun(ok, stop) => StopKeeps(h, s, ok, stop);
    case LeaseRun(ok, run, holder, ttl) => LeaseKeeps(h, s, ok, run, holder, ttl);
    case RunHeld(_, _, _) => HeldKeeps(h, s, e);
    case SettleHeld(_, _, _) => HeldKeeps(h, s, e);
    case FinishRun(run, holder, generation) => FinishKeeps(h, s, run, holder, generation);
    case _ =>
  }
}
