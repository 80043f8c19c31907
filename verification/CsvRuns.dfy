/**
 * The native run store: the synchronous operations the command layer issues on
 * the other database. A dataset has at most one run.
 */
module CsvRuns {
  import opened Wrappers
  import opened CsvStage
  import opened CsvSidecar

  datatype ApplyRefusal =
    | UnknownRun | BindingMismatch | AuthorityRequired | CommandConflict | CommandLimitReached
    | RunCancelled | InputExpired | ApplyBusy | StaleLease

  datatype Native = PartialRun | CompleteRun | CancelledRun

  /** Which stage and which accepted command a run currently serves. */
  datatype Association = Association(
    stageId: string, stageVersion: int, previewId: string, target: string,
    user: int, session: int, inputExpires: int,
    command: string, confirmation: string, packet: ClaimPacket)

  datatype AcceptedCommand = AcceptedCommand(stageId: string, user: int, target: string, packet: ClaimPacket)

  datatype Run = Run(
    id: int, dataset: string, planId: string, selectedRows: int, native: Native, phase: ApplyPhase, ready: bool,
    assoc: Option<Association>, receipts: map<string, AcceptedCommand>,
    generation: nat, holder: Option<string>, leaseExpires: Option<int>,
    sourceSeconds: Option<int>, cancelCommand: Option<string>, finishedAt: Option<int>)

  /** A context handed out by the store: a snapshot of an associated run. */
  datatype Context = Context(
    runId: int, assoc: Association, ready: bool, phase: ApplyPhase, native: Native,
    generation: nat, finishedAt: Option<int>)

  type Runs = map<int, Run>

  function ContextOf(run: Run): Context
    requires run.assoc.Some?
  {
    var phase := match run.native
      case CompleteRun => Done
      case CancelledRun => Stopped
      case PartialRun => run.phase;
    Context(run.id, run.assoc.value, run.ready, phase, run.native, run.generation, run.finishedAt)
  }

  /** The live session fence for one incarnation of the destination. */
  predicate Proof(env: Env, nonce: string) { env.allowed && env.nonce == nonce }

  /** The fence every update of an associated run repeats. */
  predicate Same(run: Run, c: Context) {
    && run.id == c.runId && run.assoc.Some?
    && run.assoc.value.stageId == c.assoc.stageId
    && run.assoc.value.previewId == c.assoc.previewId
    && run.assoc.value.target == c.assoc.target
    && run.assoc.value.command == c.assoc.command
    && run.assoc.value.session == c.assoc.session
    && run.assoc.value.user == c.assoc.user
  }

  predicate HasRun(runs: Runs, dataset: string) { exists r :: r in runs && runs[r].dataset == dataset }

  /** A confirmed plan becomes a run, unless its dataset has one already. */
  function Seal(runs: Runs, id: int, dataset: string, planId: string, selectedRows: int): Runs {
    if id in runs || HasRun(runs, dataset) then runs
    else runs[id := Run(id, dataset, planId, selectedRows, PartialRun, Queued, false, None, map[], 0, None, None,
                        None, None, None)]
  }

  /** The latest run that serves a stage, if one does. */
  predicate FoundByStage(runs: Runs, stage: string, found: Option<int>) {
    match found
    case Some(r) =>
      && r in runs && Serves(runs[r], stage)
      && forall q :: q in runs && Serves(runs[q], stage) ==> q <= r
    case None => forall q :: q in runs ==> !Serves(runs[q], stage)
  }

  predicate Serves(run: Run, stage: string) { run.assoc.Some? && run.assoc.value.stageId == stage }

  /** A run the driver may work on. */
  predicate Runnable(run: Run) { run.ready && run.native == PartialRun }

  function RecordVersion(runs: Runs, c: Context, version: int): Result<Option<Runs>, ApplyRefusal> {
    if version < c.assoc.stageVersion then Refused(BindingMismatch)
    else if c.runId in runs && Same(runs[c.runId], c) && runs[c.runId].generation == c.generation
            && runs[c.runId].assoc.value.stageVersion <= version
    then
      var run := runs[c.runId];
      Ok(Some(runs[c.runId := run.(assoc := Some(run.assoc.value.(stageVersion := version)))]))
    else Ok(None)
  }

  function Activate(runs: Runs, env: Env, c: Context): Result<Runs, ApplyRefusal> {
    if c.runId in runs && Same(runs[c.runId], c) && runs[c.runId].native == PartialRun
       && runs[c.runId].phase == Queued && Proof(env, c.assoc.target)
       && env.now < runs[c.runId].assoc.value.inputExpires
    then Ok(runs[c.runId := runs[c.runId].(ready := true)])
    else Refused(AuthorityRequired)
  }

  datatype AuthorizeInput = AuthorizeInput(
    runId: int, stageId: string, stageVersion: int, previewId: string, target: string,
    user: int, session: int, inputExpires: int, command: string, confirmation: string,
    packet: ClaimPacket, planId: string, sourceSeconds: int, delta: int)

  datatype Outcome = Accepted | Finished | Replayed
  datatype Authorized = Authorized(runs: Runs, outcome: Outcome)

  predicate ShortName(s: string) { 0 < |s| <= 128 }

  predicate AcceptedAs(r: AcceptedCommand, a: AuthorizeInput) {
    r.stageId == a.stageId && r.user == a.user && r.target == a.target && r.packet == a.packet
  }

  /** `priorSession` is the session proof of the association that is about to be replaced. */
  predicate Occupied(run: Run, env: Env, priorSession: bool) {
    && run.assoc.Some?
    && priorSession && env.nonce == run.assoc.value.target && run.native != CancelledRun
    && env.now < run.assoc.value.inputExpires
    && (run.phase == Queued
        || (run.phase == Running && run.leaseExpires.Some? && env.now < run.leaseExpires.value))
  }

  predicate Replaceable(run: Run, env: Env, priorSession: bool) {
    || run.assoc.None?
    || run.phase in {Paused, PartlyDone, Broken, Done}
    || !(priorSession && env.nonce == run.assoc.value.target)
    || run.assoc.value.inputExpires <= env.now
    || (run.phase == Running && (run.leaseExpires.None? || run.leaseExpires.value <= env.now))
  }

  function Associate(run: Run, a: AuthorizeInput): Run {
    run.(
      assoc := Some(Association(a.stageId, a.stageVersion, a.previewId, a.target, a.user, a.session,
                                a.inputExpires, a.command, a.confirmation, a.packet)),
      receipts := run.receipts[a.command := AcceptedCommand(a.stageId, a.user, a.target, a.packet)],
      sourceSeconds := Some(a.sourceSeconds),
      phase := if run.native == CompleteRun then Done else Queued,
      ready := false, holder := None, leaseExpires := None, generation := run.generation + 1)
  }

  function Authorize(runs: Runs, env: Env, a: AuthorizeInput, priorSession: bool): Result<Authorized, ApplyRefusal> {
    if a.runId !in runs then Refused(UnknownRun)
    else
      var run := runs[a.runId];
      if !(1 <= a.stageVersion <= MAX_SAFE) || !SafeCount(a.sourceSeconds)
         || !(-MAX_SAFE <= a.delta <= MAX_SAFE) || !ShortName(a.stageId) || !ShortName(a.previewId)
         || !ShortName(a.command) || !ShortName(a.confirmation) then Refused(BindingMismatch)
      else if !Proof(env, a.target) then Refused(AuthorityRequired)
      else if a.packet.commandId != a.command || a.packet.previewId != a.previewId
              || a.packet.selectedRows != run.selectedRows || a.packet.sourceSeconds != a.sourceSeconds
              || a.packet.destinationSeconds - a.sourceSeconds != a.delta then Refused(BindingMismatch)
      else if a.command in run.receipts then
        if !AcceptedAs(run.receipts[a.command], a) then Refused(CommandConflict)
        else Ok(Authorized(runs, Replayed))
      else if |run.receipts| >= 256 then Refused(CommandLimitReached)
      else if run.planId != a.planId then Refused(BindingMismatch)
      else if run.native == CancelledRun then Refused(RunCancelled)
      else if run.assoc.Some? && run.assoc.value.command == a.command then
        if run.assoc.value.stageId != a.stageId || run.assoc.value.previewId != a.previewId
           || run.assoc.value.user != a.user || run.assoc.value.confirmation != a.confirmation
        then Refused(CommandConflict)
        else Ok(Authorized(runs, Replayed))
      else if a.inputExpires <= env.now then Refused(InputExpired)
      else if Occupied(run, env, priorSession) || run.generation >= MAX_SAFE
              || (run.sourceSeconds.Some? && run.sourceSeconds.value != a.sourceSeconds)
              || !Replaceable(run, env, priorSession) then Refused(ApplyBusy)
      else
        Ok(Authorized(runs[a.runId := Associate(run, a)],
                      if run.native == CompleteRun then Finished else Accepted))
  }

  datatype StopInput = StopInput(
    runId: int, stageId: string, target: string, previewId: string, execution: string, command: string)

  predicate Stoppable(runs: Runs, env: Env, i: StopInput) {
    && i.runId in runs && runs[i.runId].assoc.Some?
    && runs[i.runId].assoc.value.stageId == i.stageId
    && runs[i.runId].assoc.value.target == i.target
    && runs[i.runId].assoc.value.previewId == i.previewId
    && runs[i.runId].assoc.value.command == i.execution
    && runs[i.runId].native in {PartialRun, CancelledRun}
    && Proof(env, i.target)
  }

  function Stop(runs: Runs, env: Env, i: StopInput): Result<Runs, ApplyRefusal> {
    if !Stoppable(runs, env, i) then Refused(UnknownRun)
    else
      var run := runs[i.runId];
      Ok(runs[i.runId := run.(
        native := CancelledRun, phase := Stopped, ready := false, cancelCommand := Some(i.command),
        finishedAt := if run.finishedAt.Some? then run.finishedAt else Some(env.now),
        holder := None, leaseExpires := None)])
  }

  /** The driver's lease on a run it is about to work on. */
  function ClaimLease(runs: Runs, env: Env, id: int, holder: string, ttl: int): Runs {
    if id in runs && runs[id].native == PartialRun && env.allowed && runs[id].generation < MAX_SAFE
       && (runs[id].leaseExpires.None? || runs[id].leaseExpires.value <= env.now)
    then runs[id := runs[id].(holder := Some(holder), leaseExpires := Some(env.now + ttl),
                              generation := runs[id].generation + 1)]
    else runs
  }

  function MarkRunning(runs: Runs, env: Env, c: Context, holder: string, generation: nat): Runs {
    if c.runId in runs && Same(runs[c.runId], c) && runs[c.runId].native == PartialRun
       && runs[c.runId].ready && runs[c.runId].holder == Some(holder)
       && runs[c.runId].generation == generation
       && runs[c.runId].leaseExpires.Some? && env.now < runs[c.runId].leaseExpires.value
    then runs[c.runId := runs[c.runId].(phase := Running)]
    else runs
  }

  /** `lease` absent: only a terminal run or one nobody holds may be settled. */
  function Settle(runs: Runs, env: Env, c: Context, lease: Option<(string, nat)>, phase: ApplyPhase): Runs {
    if c.runId !in runs || !Same(runs[c.runId], c) then runs
    else
      var run := runs[c.runId];
      var held := match lease
        case Some(l) => run.holder == Some(l.0) && run.generation == l.1
        case None => run.native != PartialRun || run.leaseExpires.None? || run.leaseExpires.value <= env.now;
      if held && (run.native == PartialRun || (run.native == CompleteRun && phase == Done)
                  || (run.native == CancelledRun && phase == Stopped))
      then runs[c.runId := run.(phase := phase, holder := None, leaseExpires := None)]
      else runs
  }

  function Complete(runs: Runs, env: Env, id: int, holder: string, generation: nat): Runs {
    if id in runs && runs[id].native == PartialRun && runs[id].holder == Some(holder)
       && runs[id].generation == generation
       && runs[id].leaseExpires.Some? && env.now < runs[id].leaseExpires.value
    then runs[id := runs[id].(native := CompleteRun, finishedAt := Some(env.now))]
    else runs
  }

  /** What the staging service asks the run store before it records progress. */
  predicate VerifyBinding(runs: Runs, env: Env, b: RunBinding) {
    && b.nativeRun in runs && runs[b.nativeRun].assoc.Some?
    && runs[b.nativeRun].assoc.value.stageId == b.stageId
    && runs[b.nativeRun].assoc.value.target == b.target && env.nonce == b.target
    && runs[b.nativeRun].assoc.value.previewId == b.previewId
    && runs[b.nativeRun].generation == b.generation
    && runs[b.nativeRun].assoc.value.confirmation == b.commandId
  }

  function BindingFor(c: Context): RunBinding {
    RunBinding(c.assoc.stageId, c.assoc.stageVersion, c.assoc.target, c.assoc.previewId,
               c.runId, c.generation, c.assoc.confirmation)
  }

  // ---- what every operation keeps --------------------------------------------------------

  /** Associations that differ at most in the recorded stage version, which only grows. */
  predicate SameAssociation(before: Association, after: Association) {
    after == before.(stageVersion := after.stageVersion) && before.stageVersion <= after.stageVersion
  }

  /**
   * How one run may differ from an earlier observation: the generation fences
   * the association, accepted commands are never forgotten, and a completed or
   * cancelled run stays so.
   */
  predicate RunEvolves(before: Run, after: Run) {
    && after.id == before.id && after.dataset == before.dataset
    && after.planId == before.planId && after.selectedRows == before.selectedRows
    && before.generation <= after.generation
    && (before.assoc.Some? ==> after.assoc.Some?)
    && (before.generation == after.generation && before.assoc.Some? ==>
          SameAssociation(before.assoc.value, after.assoc.value))
    && (forall c :: c in before.receipts ==> c in after.receipts && after.receipts[c] == before.receipts[c])
    && (before.native != PartialRun ==> after.native == before.native)
  }

  predicate RunOk(run: Run) {
    && (run.assoc.None? ==> !run.ready && run.receipts == map[])
    && (run.assoc.Some? ==>
          && run.assoc.value.command in run.receipts
          && run.receipts[run.assoc.value.command] ==
               AcceptedCommand(run.assoc.value.stageId, run.assoc.value.user, run.assoc.value.target,
                               run.assoc.value.packet))
    && (run.native == CancelledRun ==> !run.ready)
  }

  predicate RunsOk(runs: Runs) {
    && (forall id :: id in runs ==> runs[id].id == id && RunOk(runs[id]))
    && OneRunEach(runs)
  }

  /** No two runs of one dataset. */
  predicate OneRunEach(runs: Runs) {
    forall a, b :: a in runs && b in runs && a != b ==> runs[a].dataset != runs[b].dataset
  }

  predicate RunsEvolve(before: Runs, after: Runs) {
    forall id :: id in before ==> id in after && RunEvolves(before[id], after[id])
  }

  /** A snapshot somebody holds: still exact as long as the generation has not moved. */
  predicate Held(runs: Runs, c: Context) {
    && c.runId in runs && c.generation <= runs[c.runId].generation
    && (c.generation == runs[c.runId].generation ==>
          && runs[c.runId].assoc.Some?
          && SameAssociation(c.assoc, runs[c.runId].assoc.value))
  }

  lemma HeldStays(before: Runs, after: Runs, c: Context)
    requires Held(before, c) && RunsEvolve(before, after)
    ensures Held(after, c)
  {
    var mid, last := before[c.runId], after[c.runId];
    assert RunEvolves(mid, last);
    if c.generation == last.generation {
      assert mid.generation == last.generation;
    }
  }

  lemma RunsEvolveTransitive(a: Runs, b: Runs, c: Runs)
    requires RunsEvolve(a, b) && RunsEvolve(b, c)
    ensures RunsEvolve(a, c)
  {
    forall id | id in a ensures id in c && RunEvolves(a[id], c[id]) {
      assert RunEvolves(a[id], b[id]) && RunEvolves(b[id], c[id]);
    }
  }

  lemma AssociateKeeps(runs: Runs, a: AuthorizeInput)
    requires RunsOk(runs) && a.runId in runs && a.command !in runs[a.runId].receipts
    ensures var next := runs[a.runId := Associate(runs[a.runId], a)]; RunsOk(next) && RunsEvolve(runs, next)
  {
    var run, next := runs[a.runId], Associate(runs[a.runId], a);
    assert RunOk(next) && RunEvolves(run, next);
    forall id | id in runs && id != a.runId ensures RunEvolves(runs[id], runs[id]) {
      if runs[id].assoc.Some? {
        var old_ := runs[id].assoc.value;
        assert old_ == old_.(stageVersion := old_.stageVersion);
      }
    }
  }

  lemma AuthorizeKeeps(runs: Runs, env: Env, a: AuthorizeInput, priorSession: bool)
    requires RunsOk(runs) && Authorize(runs, env, a, priorSession).Ok?
    ensures var next := Authorize(runs, env, a, priorSession).value;
      && RunsOk(next.runs) && RunsEvolve(runs, next.runs)
      && a.runId in next.runs && next.runs[a.runId].assoc.Some?
      && (next.outcome == Replayed ==> next.runs == runs)
      && (next.outcome != Replayed ==>
            && !next.runs[a.runId].ready && a.command !in runs[a.runId].receipts
            && next.runs == runs[a.runId := Associate(runs[a.runId], a)])
  {
    hide RunOk, OneRunEach;
    if Authorize(runs, env, a, priorSession).value.outcome == Replayed {
      ReplayKeeps(runs, a.runId);
    } else {
      AssociateKeeps(runs, a);
    }
  }

  lemma ReplayKeeps(runs: Runs, id: int)
    requires RunsOk(runs) && id in runs
    ensures RunsEvolve(runs, runs)
    ensures runs[id].receipts != map[] ==> runs[id].assoc.Some?
  {
    forall r | r in runs ensures RunEvolves(runs[r], runs[r]) {
      if runs[r].assoc.Some? {
        var a := runs[r].assoc.value;
        assert a == a.(stageVersion := a.stageVersion);
      }
    }
  }

  /**
   * A command the run store once accepted is never accepted again: whatever
   * happened to the run since, the same command replays or is refused, and the
   * store does not change.
   */
  lemma {:induction false} AcceptedOnce(runs: Runs, later: Runs, env: Env, env': Env, a: AuthorizeInput,
                                       again: AuthorizeInput, p: bool, p': bool)
    requires RunsOk(runs) && Authorize(runs, env, a, p).Ok?
    requires RunsEvolve(Authorize(runs, env, a, p).value.runs, later)
    requires again.runId == a.runId && again.command == a.command
    ensures Authorize(later, env', again, p').Ok? ==>
      Authorize(later, env', again, p').value == Authorized(later, Replayed)
  {
    AuthorizeKeeps(runs, env, a, p);
    var next := Authorize(runs, env, a, p).value.runs;
    assert a.command in next[a.runId].receipts;
    assert RunEvolves(next[a.runId], later[a.runId]);
  }

  lemma RecordVersionKeeps(runs: Runs, c: Context, version: int)
    requires RunsOk(runs)
    requires RecordVersion(runs, c, version).Ok? && RecordVersion(runs, c, version).value.Some?
    ensures var next := RecordVersion(runs, c, version).value.value;
      && RunsOk(next) && RunsEvolve(runs, next) && c.runId in next && next[c.runId].assoc.Some?
      && next[c.runId].ready == runs[c.runId].ready
  {
  }
}
