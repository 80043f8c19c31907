/**
 * What repeating and cancelling an apply command comes to, over every
 * interleaving: a command is accepted once, by one run, and a cancelled stage
 * has nothing left that could work.
 */
module CsvCommands {
  import opened Wrappers
  import opened CsvStage
  import opened CsvSidecar
  import opened CsvSidecarLaws
  import opened CsvRuns
  import opened CsvProtocol
  import opened CsvProtocolLaws
  import opened CsvExecSteps
  import opened CsvGuarantees

  // ---- runs only grow --------------------------------------------------------------------

  /** Accepted commands and finished cancellations are never forgotten. */
  lemma {:induction false} HistoryGrows(h: Digests, s: State, events: seq<Event>)
    requires StateOk(h, s) && Injective(h.binding)
    ensures var last := After(h, s, events).w; s.w.accepted <= last.accepted && s.w.stopped <= last.stopped
    decreases |events|
  {
    hide Step, StateOk;
    if events != [] {
      OneStep(h, s, events[0]);
      HistoryGrows(h, Step(h, s, events[0]), events[1..]);
    }
  }

  lemma ApplyFacts(h: Digests, s: State)
    requires StateOk(h, s)
    ensures DbOk(h, s.w.db) && RunsOk(s.w.runs) && ServesOk(s.w) && AcceptedOk(s.w) && StoppedOk(s.w)
  {
  }

  // ---- repeated commands -----------------------------------------------------------------

  /** The runs a stage's commands were accepted by, over its whole life, are one run. */
  lemma OneRunPerStage(h: Digests, now: int, nonce: string, events: seq<Event>)
    requires Injective(h.binding)
    ensures var w := After(h, Start(now, nonce), events).w;
      && (forall i, j | 0 <= i < |w.accepted| && 0 <= j < |w.accepted| ::
            w.accepted[i].stage == w.accepted[j].stage ==>
            w.accepted[i].run == w.accepted[j].run)
      && (forall r, c :: r in w.runs && c in w.runs[r].receipts ==>
            Acceptance(w.runs[r].receipts[c].stageId, c, r) in w.accepted)
  {
    hide StateOk;
    StartIsOk(h, now, nonce);
    Reachable(h, Start(now, nonce), events);
    ApplyFacts(h, After(h, Start(now, nonce), events));
    SameStageSameRun(After(h, Start(now, nonce), events).w);
  }

  lemma SameStageSameRun(w: World)
    requires AcceptedOk(w) && RunsOk(w.runs)
    ensures forall i, j | 0 <= i < |w.accepted| && 0 <= j < |w.accepted| ::
      w.accepted[i].stage == w.accepted[j].stage ==>
      w.accepted[i].run == w.accepted[j].run
  {
    forall i, j | 0 <= i < |w.accepted| && 0 <= j < |w.accepted| && w.accepted[i].stage == w.accepted[j].stage
      ensures w.accepted[i].run == w.accepted[j].run
    {
      assert Recorded(w, w.accepted[i]) && Recorded(w, w.accepted[j]);
    }
  }

  /** A claim on a stage that is confirmed already. */
  lemma ConfirmedClaimWritesNothing(db: Db, env: Env, user: int, input: ClaimInput, current: bool)
    requires RowsOk(db) && input.stageId in db.stages && db.stages[input.stageId].command.Some?
    ensures Claim(db, env, user, input, current).Ok? ==> Claim(db, env, user, input, current).value.db == db
  {
    assert Shape(db.stages[input.stageId]);
  }

  ghost predicate ClaimsWriteNothing(db: Db, stage: string) {
    forall env: Env, user: int, input: ClaimInput, current: bool ::
      input.stageId == stage && Claim(db, env, user, input, current).Ok? ==>
        Claim(db, env, user, input, current).value.db == db
  }

  lemma ConfirmedIsClaimed(db: Db, stage: string)
    requires RowsOk(db) && stage in db.stages && db.stages[stage].command.Some?
    ensures ClaimsWriteNothing(db, stage)
  {
    hide Claim, RowsOk;
    forall env: Env, user: int, input: ClaimInput, current: bool |
      input.stageId == stage && Claim(db, env, user, input, current).Ok?
      ensures Claim(db, env, user, input, current).value.db == db
    {
      ConfirmedClaimWritesNothing(db, env, user, input, current);
    }
  }

  /** The run keeps a receipt of this command for this stage. */
  predicate HasAccepted(run: Run, a: Acceptance) {
    a.command in run.receipts && run.receipts[a.command].stageId == a.stage
  }

  /**
   * Once a command of a stage has been accepted, then whatever happens, and
   * however often and by whichever run the command is offered again: no run
   * accepts it again, no claim writes, and what the stage was confirmed with
   * stays.
   */
  lemma RepeatedCommandIsInert(h: Digests, now: int, nonce: string, events: seq<Event>, more: seq<Event>, a: Acceptance)
    requires Injective(h.binding) && a in After(h, Start(now, nonce), events).w.accepted
    ensures var mid := After(h, Start(now, nonce), events).w;
      var last := After(h, After(h, Start(now, nonce), events), more).w;
      && mid.accepted <= last.accepted
      && (forall i :: |mid.accepted| <= i < |last.accepted| ==>
            last.accepted[i].stage != a.stage || last.accepted[i].command != a.command)
      && (forall r :: r in last.runs && HasAccepted(last.runs[r], a) ==> r == a.run)
      && a.stage in mid.db.stages && a.stage in last.db.stages
      && last.db.stages[a.stage].command == mid.db.stages[a.stage].command
      && last.db.stages[a.stage].request == mid.db.stages[a.stage].request
      && ClaimsWriteNothing(last.db, a.stage)
  {
    hide StateOk, Claim, After;
    var first := After(h, Start(now, nonce), events);
    var last := After(h, first, more);
    StartIsOk(h, now, nonce);
    Reachable(h, Start(now, nonce), events);
    Reachable(h, first, more);
    HistoryGrows(h, first, more);
    ApplyFacts(h, first);
    ApplyFacts(h, last);
    AcceptedStage(first.w, a);
    VersionsCountWrites(h, first, more, a.stage);
    AcceptedElsewhere(first.w, last.w, a);
    ConfirmedIsClaimed(last.w.db, a.stage);
  }

  lemma AcceptedStage(w: World, a: Acceptance)
    requires AcceptedOk(w) && a in w.accepted
    ensures a.stage in w.db.stages && w.db.stages[a.stage].command.Some?
  {
    var i :| 0 <= i < |w.accepted| && w.accepted[i] == a;
    assert Recorded(w, w.accepted[i]);
  }

  lemma AcceptedElsewhere(w: World, v: World, a: Acceptance)
    requires a in w.accepted && w.accepted <= v.accepted && AcceptedOk(v)
    ensures forall i :: |w.accepted| <= i < |v.accepted| ==>
      v.accepted[i].stage != a.stage || v.accepted[i].command != a.command
    ensures forall r :: r in v.runs && HasAccepted(v.runs[r], a) ==> r == a.run
  {
    var i :| 0 <= i < |w.accepted| && w.accepted[i] == a;
    assert v.accepted[i] == a;
    forall r | r in v.runs && HasAccepted(v.runs[r], a)
      ensures r == a.run
    {
      var j :| 0 <= j < |v.accepted| && v.accepted[j] == Acceptance(a.stage, a.command, r);
      assert i == j;
    }
  }

  /**
   * While the run still serves the stage, the decision itself stops the
   * repetition: the exact command is only answered, and any other use of its
   * name is a conflict.
   */
  lemma AcceptedIsOnlyAnswered(h: Digests, now: int, nonce: string, events: seq<Event>, a: Acceptance,
                               found: Option<int>, x: Execution, row: Stage, seen: Option<Stage>, live: bool)
    requires Injective(h.binding)
    requires var w := After(h, Start(now, nonce), events).w;
      && a in w.accepted && FoundByStage(w.runs, a.stage, found) && found.Some?
      && x.stageId == a.stage && x.packet.commandId == a.command
    requires seen.Some? ==> seen.value.cancelCommand.None?
    ensures var w := After(h, Start(now, nonce), events).w;
      && found == Some(a.run)
      && (Decide(w.runs, found, x, row, seen, live).Answer?
          || Decide(w.runs, found, x, row, seen, live) == Refuse(CommandConflict))
  {
    hide StateOk, After;
    var s := After(h, Start(now, nonce), events);
    StartIsOk(h, now, nonce);
    Reachable(h, Start(now, nonce), events);
    ApplyFacts(h, s);
    AcceptedByTheServing(s.w, a, found.value);
  }

  lemma AcceptedByTheServing(w: World, a: Acceptance, r: int)
    requires AcceptedOk(w) && ServesOk(w) && RunsOk(w.runs) && a in w.accepted
    requires r in w.runs && Serves(w.runs[r], a.stage)
    ensures r == a.run && a.command in w.runs[r].receipts
  {
    var i :| 0 <= i < |w.accepted| && w.accepted[i] == a;
    assert Recorded(w, w.accepted[i]) && MappedTo(w.db, a.stage, w.runs[r].dataset);
  }

  // ---- cancelling ------------------------------------------------------------------------

  /**
   * Once a cancel command has come to the end of its loop, no run of its stage
   * can work, and none ever will again, whatever was in flight.
   */
  lemma CancelStopsTheStage(h: Digests, now: int, nonce: string, events: seq<Event>, more: seq<Event>, stage: string)
    requires Injective(h.binding) && stage in After(h, Start(now, nonce), events).w.stopped
    ensures var last := After(h, After(h, Start(now, nonce), events), more).w;
      && stage in last.stopped && stage in last.db.stages && last.db.stages[stage].cancelCommand.Some?
      && (forall r :: r in last.runs && Serves(last.runs[r], stage) ==> !Runnable(last.runs[r]))
  {
    hide StateOk, After;
    var first := After(h, Start(now, nonce), events);
    StartIsOk(h, now, nonce);
    Reachable(h, Start(now, nonce), events);
    Reachable(h, first, more);
    HistoryGrows(h, first, more);
    ApplyFacts(h, After(h, first, more));
  }

  lemma StopFoundEnds(h: Digests, s: State, t: int, ok: bool, r: int)
    requires StateOk(h, s) && t in s.tasks && s.tasks[t].Cancelling? && s.tasks[t].left > 0
    requires r in s.w.runs && Serves(s.w.runs[r], s.tasks[t].stop.stageId) && s.w.runs[r].native == PartialRun
    requires forall q :: q in s.w.runs && Serves(s.w.runs[q], s.tasks[t].stop.stageId) ==> q == r
    requires s.tasks[t].stop.stageId !in s.w.stopped
    ensures var n := StopFound(s, t, ok, r);
      s.tasks[t].stop.stageId in n.w.stopped <==> AllOver(n.w.runs, s.tasks[t].stop.stageId)
  {
    hide StateOk, Stop;
    var task := s.tasks[t];
    var stop := StopInput(r, task.stop.stageId, task.target, task.stop.previewId, s.w.runs[r].assoc.value.command,
                          task.stop.cancellation);
    if Stop(s.w.runs, Sees(s.w, ok), stop).Ok? {
      StoppingKeeps(h, s, ok, stop);
      StoppedAllOver(s.w.runs, Stop(s.w.runs, Sees(s.w, ok), stop).value, r, task.stop.stageId);
    }
  }

  /**
   * An attempt ends the loop exactly when it leaves the stage with no partial
   * run; only a refused stop goes round again.
   */
  lemma AttemptEndsTheLoop(h: Digests, s: State, t: int, ok: bool, found: Option<int>)
    requires StateOk(h, s) && t in s.tasks && s.tasks[t].Cancelling? && s.tasks[t].left > 0
    requires FoundByStage(s.w.runs, s.tasks[t].stop.stageId, found) && s.tasks[t].stop.stageId !in s.w.stopped
    ensures var n := TryCancel(s, t, ok, found);
      s.tasks[t].stop.stageId in n.w.stopped <==> AllOver(n.w.runs, s.tasks[t].stop.stageId)
  {
    ApplyFacts(h, s);
    hide StateOk, AcceptedOk, StoppedOk, DbOk, ServesOk, RunsOk, StopFound;
    LatestIsOnly(s.w, s.tasks[t].stop.stageId, found);
    if found.Some? && s.w.runs[found.value].native == PartialRun { StopFoundEnds(h, s, t, ok, found.value); }
  }
}
