/**
 * Replays never write: once a claim, a cancellation or a bind has been accepted,
 * repeating it, after any number of other events, changes no row. And the one
 * way a claim can confirm less than a preview.
 */
module CsvReplays {
  import opened Wrappers
  import opened CsvStage
  import opened CsvSidecar
  import opened CsvSidecarLaws
  import opened CsvRuns
  import opened CsvProtocol
  import opened CsvProtocolLaws
  import opened CsvProtocolSteps
  import opened CsvApplySteps
  import opened CsvGuarantees

  /** What is known of a row after any number of further events. */
  lemma Later(h: Digests, s: State, events: seq<Event>, id: string)
    requires StateOk(h, s) && Injective(h.binding) && id in s.w.db.stages
    ensures var last := After(h, s, events).w.db;
      RowsOk(last) && id in last.stages && Evolves(s.w.db.stages[id], last.stages[id])
  {
    VersionsCountWrites(h, s, events, id);
    Reachable(h, s, events);
    Durable(h, After(h, s, events));
  }

  lemma ConfirmedRefusesClaims(db: Db, env: Env, user: int, input: ClaimInput, current: bool)
    requires RowsOk(db) && input.stageId in db.stages && db.stages[input.stageId].command.Some?
    ensures Claim(db, env, user, input, current).Ok? ==>
      Claim(db, env, user, input, current).value == Claimed(db, db.stages[input.stageId].version)
  {
    assert Shape(db.stages[input.stageId]);
  }

  lemma CancelledRefusesOthers(db: Db, env: Env, user: int, input: CancelInput)
    requires RowsOk(db) && input.stageId in db.stages && db.stages[input.stageId].cancelCommand.Some?
    ensures Cancellation(db, env, user, input).Ok? ==>
      && Cancellation(db, env, user, input).value == Claimed(db, db.stages[input.stageId].version)
      && db.stages[input.stageId].cancelCommand == Some(input.cancellation)
  {
  }

  lemma BoundAcknowledges(db: Db, env: Env, user: int, b: RunBinding)
    requires RowsOk(db) && b.stageId in db.stages && db.stages[b.stageId].nativeRun == Some(b.nativeRun)
    requires db.stages[b.stageId].lease.Some? && b.generation <= db.stages[b.stageId].lease.value
    ensures BindRun(db, env, user, b).Ok? ==>
      BindRun(db, env, user, b).value == Claimed(db, db.stages[b.stageId].version)
  {
  }

  /** A confirmed stage is confirmed for good: no later claim on it writes anything. */
  lemma ClaimReplayNeverWrites(h: Digests, s: State, user: int, ok: bool, input: ClaimInput, current: bool,
                               events: seq<Event>, env: Env, user': int, again: ClaimInput, current': bool)
    requires StateOk(h, s) && Injective(h.binding)
    requires Claim(s.w.db, Sees(s.w, ok), user, input, current).Ok?
    requires again.stageId == input.stageId
    ensures var last := After(h, ClaimStep(s, user, ok, input, current), events).w.db;
      Claim(last, env, user', again, current').Ok? ==>
        Claim(last, env, user', again, current').value == Claimed(last, last.stages[input.stageId].version)
  {
    hide StateOk;
    hide Good;
    hide Claim;
    hide After;
    var first := ClaimStep(s, user, ok, input, current);
    var id := input.stageId;
    Durable(h, s);
    ClaimKeeps(h, s, user, ok, input, current);
    GoodIsOk(h, s, first);
    ClaimConfirms(s.w.db, Sees(s.w, ok), user, input, current);
    Later(h, first, events, input.stageId);
    ConfirmedRefusesClaims(After(h, first, events).w.db, env, user', again, current');
  }

  lemma ClaimConfirms(db: Db, env: Env, user: int, input: ClaimInput, current: bool)
    requires RowsOk(db) && Claim(db, env, user, input, current).Ok?
    ensures var next := Claim(db, env, user, input, current).value.db;
      input.stageId in next.stages && next.stages[input.stageId].command == Some(input.commandId)
  {
  }

  /** After a cancellation is recorded, no later request for the stage writes anything. */
  lemma CancellationReplayNeverWrites(h: Digests, s: State, user: int, ok: bool, input: CancelInput,
                                      events: seq<Event>, env: Env, user': int, again: CancelInput)
    requires StateOk(h, s) && Injective(h.binding)
    requires Cancellation(s.w.db, Sees(s.w, ok), user, input).Ok?
    requires again.stageId == input.stageId
    ensures var last := After(h, CancelStep(s, user, ok, input), events).w.db;
      Cancellation(last, env, user', again).Ok? ==>
        && Cancellation(last, env, user', again).value == Claimed(last, last.stages[input.stageId].version)
        && last.stages[input.stageId].cancelCommand == Some(input.cancellation)
        && again.cancellation == input.cancellation
  {
    hide StateOk;
    hide Good;
    hide Cancellation;
    hide After;
    var first := CancelStep(s, user, ok, input);
    Durable(h, s);
    CancelKeeps(h, s, user, ok, input);
    GoodIsOk(h, s, first);
    CancellationRecords(s.w.db, Sees(s.w, ok), user, input);
    Later(h, first, events, input.stageId);
    CancelledRefusesOthers(After(h, first, events).w.db, env, user', again);
  }

  lemma CancellationRecords(db: Db, env: Env, user: int, input: CancelInput)
    requires RowsOk(db) && Cancellation(db, env, user, input).Ok?
    ensures var next := Cancellation(db, env, user, input).value.db;
      input.stageId in next.stages && next.stages[input.stageId].cancelCommand == Some(input.cancellation)
  {
  }

  /** A bind repeated with the same run and generation acknowledges or refuses, and never writes. */
  lemma BindReplayNeverWrites(h: Digests, s: State, user: int, ok: bool, b: RunBinding,
                              events: seq<Event>, env: Env, user': int, again: RunBinding)
    requires StateOk(h, s) && Injective(h.binding)
    requires BindRun(s.w.db, Sees(s.w, ok), user, b).Ok?
    requires again.stageId == b.stageId && again.nativeRun == b.nativeRun && again.generation == b.generation
    ensures var last := After(h, DriverStep(s, user, ok, b), events).w.db;
      BindRun(last, env, user', again).Ok? ==>
        BindRun(last, env, user', again).value == Claimed(last, last.stages[b.stageId].version)
  {
    hide StateOk;
    hide Good;
    hide BindRun;
    hide After;
    var first := DriverStep(s, user, ok, b);
    Durable(h, s);
    DriverKeeps(h, s, user, ok, b);
    GoodIsOk(h, s, first);
    BindRecords(s.w.db, Sees(s.w, ok), user, b);
    Later(h, first, events, b.stageId);
    BoundAcknowledges(After(h, first, events).w.db, env, user', again);
  }

  lemma BindRecords(db: Db, env: Env, user: int, b: RunBinding)
    requires RowsOk(db) && BindRun(db, env, user, b).Ok?
    ensures var next := BindRun(db, env, user, b).value.db;
      && b.stageId in next.stages && next.stages[b.stageId].nativeRun == Some(b.nativeRun)
      && next.stages[b.stageId].lease == Some(b.generation)
  {
  }

  /** Over any run, every native run only moves forward and keeps the commands it accepted. */
  lemma {:induction false} RunsOnlyEvolve(h: Digests, s: State, events: seq<Event>)
    requires StateOk(h, s) && Injective(h.binding)
    ensures RunsEvolve(s.w.runs, After(h, s, events).w.runs)
    decreases |events|
  {
    hide Step;
    hide StateOk;
    hide RowsStep;
    if events == [] {
      RunsEvolveReflexive(s.w.runs);
    } else {
      var next := Step(h, s, events[0]);
      OneStep(h, s, events[0]);
      RunsOnlyEvolve(h, next, events[1..]);
      RunsEvolveTransitive(s.w.runs, next.w.runs, After(h, next, events[1..]).w.runs);
    }
  }

  // ---- what a claim confirms -------------------------------------------------------------

  /**
   * An accepted claim confirms the preview that is current exactly when it names
   * one: an empty preview id is taken for "whichever is current", but is what
   * the row then records.
   */
  lemma ClaimConfirmsCurrentPreview(h: Digests, db: Db, env: Env, user: int, input: ClaimInput, current: bool)
    requires DbOk(h, db) && Claim(db, env, user, input, current).Ok?
    requires input.stageId in db.stages && db.stages[input.stageId].status == Previewed
    ensures var row := Claim(db, env, user, input, current).value.db.stages[input.stageId];
      (row.confirmedPreview == row.previewId) <==> input.previewId != ""
  {
    var row := db.stages[input.stageId];
    assert Describes(h, db.previews[row.previewId.value], row);
    assert row.previewId.value[..8] == "preview_";
  }

  /** With a request packet the empty preview id is refused, so the command layer never meets that case. */
  lemma PacketNamesThePreview(db: Db, env: Env, user: int, input: ClaimInput, current: bool)
    requires Claim(db, env, user, input, current).Ok? && input.request.Some?
    ensures input.previewId != ""
  {
    assert PreviewId(input.request.value.packet.value.previewId);
  }
}
