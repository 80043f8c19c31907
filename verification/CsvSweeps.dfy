/**
 * What a sweep achieves among all other commands: if it comes to its directory
 * listing at all, every row it set out with is purged and has let go of its file,
 * for good.
 */
module CsvSweeps {
  import opened CsvStage
  import opened CsvSidecar
  import opened CsvSidecarLaws
  import opened CsvRuns
  import opened CsvProtocol
  import opened CsvProtocolLaws
  import opened CsvProtocolSteps
  import opened CsvGuarantees

  /** The sweep still has this row to deal with. */
  predicate Pending(task: Task, id: string) {
    || (task.SweepRows? && Among(task.rows, id))
    || (task.SweepUnlinking? && (task.row.id == id || Among(task.rows, id)))
    || (task.SweepUnlinked? && (task.row.id == id || Among(task.rows, id)))
  }

  predicate Among(rows: seq<Stage>, id: string) { exists i :: 0 <= i < |rows| && rows[i].id == id }

  /** The sweep is past its rows and goes through the directory. */
  predicate PastRows(task: Task) { task.SweepListing? || task.SweepFiles? || task.SweepChecked? }

  predicate Cleared(db: Db, id: string) {
    id in db.stages && db.stages[id].status == Purged && db.stages[id].objectKey.None?
  }

  /** The event is one of this sweep's own steps. */
  predicate MovesSweep(e: Event, t: int) {
    || e == SweepRow(t) || e == SweepUnlink(t) || e == SweepDropKey(t) || e == SweepList(t) || e == SweepRemove(t)
    || (e.SweepFile? && e.task == t)
  }

  /** The task is as it was, if it is still there. */
  predicate Left(s: State, n: State, t: int) { t in s.tasks && (t in n.tasks ==> n.tasks[t] == s.tasks[t]) }

  // ---- nobody else moves a sweep ---------------------------------------------------------

  lemma UploadsLeave(h: Digests, s: State, e: Event, t: int)
    requires t in s.tasks && AboutSweep(s.tasks[t])
    ensures Left(s, StepUpload(s, h, e), t) && Left(s, StepAmbient(s, e), t)
  {
    hide Admit, UploadsPrompt;
  }

  lemma PreviewsLeave(h: Digests, s: State, e: Event, t: int)
    requires t in s.tasks && AboutSweep(s.tasks[t])
    ensures Left(s, StepPreview(s, h, e), t)
  {
    hide MapStart, MapCommit, PreviewStart, PreviewRead, PreviewCommit, PurgeStart, PurgeFinish, ContentOf;
  }

  lemma SweepsLeave(s: State, e: Event, t: int)
    requires t in s.tasks && AboutSweep(s.tasks[t]) && !MovesSweep(e, t)
    ensures Left(s, StepSweep(s, e), t)
  {
    hide SweepPurge, SweepDrop, Expired, NamedKeys, RowsOf;
  }

  lemma AppliesLeave(s: State, e: Event, t: int)
    requires t in s.tasks && AboutSweep(s.tasks[t])
    ensures Left(s, StepApply(s, e), t)
  {
    hide Claim, Cancellation, BindRun, MarkProgress, RecordVersion, Activate, ContextOf;
  }

  lemma RunsLeave(s: State, e: Event, t: int)
    requires t in s.tasks && AboutSweep(s.tasks[t])
    ensures Left(s, StepRuns(s, e), t)
  {
    hide Seal, RecordVersion, Stop, ClaimLease, MarkRunning, Settle, Complete, ContextOf;
  }

  lemma CancelsLeave(s: State, e: Event, t: int)
    requires t in s.tasks && AboutSweep(s.tasks[t])
    ensures e.CancelBegin? ==> Left(s, BeginCancel(s, e.task, e.user, e.ok, e.cancel), t)
    ensures e.CancelTry? ==> Left(s, TryCancel(s, e.task, e.ok, e.found), t)
  {
    hide Cancellation, Stop, FoundByStage, ContextOf;
  }

  lemma ExecLeaves(h: Digests, s: State, e: Event, t: int)
    requires t in s.tasks && AboutSweep(s.tasks[t])
    requires !e.LoadBegin? && !e.LoadFetch? && !e.LoadWork? && !e.LoadPlan? && !e.LoadEnd?
    requires !e.ExecSeal? && !e.ExecAuthorize?
    ensures Left(s, StepExecute(s, h, e), t)
  {
    hide Claim, Decide, Owned, FoundByStage, ContextOf;
    hide BeginLoad, FetchLoad, WorkLoad, PlanLoad, EndLoad, SealExec, AuthorizeExec;
  }

  lemma LoadsLeave(h: Digests, s: State, e: Event, t: int)
    requires t in s.tasks && AboutSweep(s.tasks[t])
    requires e.LoadBegin? || e.LoadFetch? || e.LoadWork? || e.LoadPlan? || e.LoadEnd? || e.ExecSeal? || e.ExecAuthorize?
    ensures Left(s, StepExecute(s, h, e), t)
  {
    hide Authorize, Seal, Owned, PreviewRead, ContentOf, ContextOf, Current, Saved, StillPreviewed, Acknowledged;
    hide BeginExec, ReadExec, ConfirmExec, DecideExec, RereadExec;
  }

  lemma CommandsLeave(h: Digests, s: State, e: Event, t: int)
    requires t in s.tasks && AboutSweep(s.tasks[t])
    ensures Left(s, StepExecute(s, h, e), t)
  {
    hide StepExecute, Left, AboutSweep;
    if e.LoadBegin? || e.LoadFetch? || e.LoadWork? || e.LoadPlan? || e.LoadEnd? || e.ExecSeal? || e.ExecAuthorize? {
      LoadsLeave(h, s, e, t);
    } else {
      ExecLeaves(h, s, e, t);
    }
  }

  lemma OthersLeaveSweep(h: Digests, s: State, e: Event, t: int)
    requires t in s.tasks && AboutSweep(s.tasks[t]) && !MovesSweep(e, t)
    ensures Left(s, Step(h, s, e), t)
  {
    hide StepUpload, StepPreview, StepSweep, StepAmbient, StepRuns, StepExecute, StepApply, BeginCancel, TryCancel;
    hide Left, AboutSweep, MovesSweep;
    UploadsLeave(h, s, e, t);
    PreviewsLeave(h, s, e, t);
    SweepsLeave(s, e, t);
    AppliesLeave(s, e, t);
    RunsLeave(s, e, t);
    CancelsLeave(s, e, t);
    CommandsLeave(h, s, e, t);
  }

  // ---- the sweep's own steps -------------------------------------------------------------

  /** A row not yet dealt with is dealt with now, or still to come. */
  predicate Forth(s: State, n: State, t: int, id: string) {
    t in n.tasks ==> Pending(n.tasks[t], id) || Cleared(n.w.db, id)
  }

  lemma RestAmong(rows: seq<Stage>, id: string)
    requires Among(rows, id) && rows[0].id != id
    ensures Among(rows[1..], id)
  {
    var i :| 0 <= i < |rows| && rows[i].id == id;
    assert rows[1..][i - 1] == rows[i];
  }

  lemma PurgeForth(h: Digests, s: State, t: int, id: string)
    requires StateOk(h, s) && t in s.tasks && Pending(s.tasks[t], id)
    ensures Forth(s, PurgeNext(s, t), t, id)
  {
    hide StateOk;
    InFlight(h, s, t);
    Durable(h, s);
    if s.tasks[t].SweepRows? && s.tasks[t].rows != [] {
      var row, rest := s.tasks[t].rows[0], s.tasks[t].rows[1..];
      if row.id != id {
        RestAmong(s.tasks[t].rows, id);
      } else {
        SweptIsPurged(s.w.db, row, s.w.now);
      }
      hide SweepPurge, Among, Shape;
    }
  }

  /** A sweep that purges a row it has read purges that very row. */
  lemma SweptIsPurged(db: Db, row: Stage, now: int)
    requires RowsOk(db) && Observed(db, row)
    ensures SweepPurge(db, row, now).Ok? ==>
      var next := SweepPurge(db, row, now).value;
      row.id in next.stages && next.stages[row.id].status == Purged && next.stages[row.id].objectKey == row.objectKey
  {
  }

  lemma DropForth(h: Digests, s: State, t: int, id: string)
    requires StateOk(h, s) && t in s.tasks && Pending(s.tasks[t], id)
    ensures Forth(s, DropSwept(s, t), t, id)
  {
    hide StateOk;
    InFlight(h, s, t);
    Durable(h, s);
    hide Among, Shape;
  }

  lemma UnlinkForth(s: State, t: int, id: string)
    requires t in s.tasks && Pending(s.tasks[t], id)
    ensures Forth(s, UnlinkSwept(s, t), t, id)
  {
    hide Among;
  }

  lemma PendingIsSweep(task: Task, id: string)
    requires Pending(task, id)
    ensures AboutSweep(task) && !PastRows(task) && task != SweepRows([])
  {
  }

  predicate SweepEvent(e: Event) {
    || e.SweepBegin? || e.SweepRow? || e.SweepUnlink? || e.SweepDropKey? || e.SweepList?
    || e.SweepFile? || e.SweepRemove?
  }

  lemma SweepStep(h: Digests, s: State, e: Event)
    requires SweepEvent(e)
    ensures Step(h, s, e) == StepSweep(s, e)
  {
    hide StepSweep;
  }

  /** Past its rows, a sweep's other steps do not concern a pending one. */
  lemma ListingForth(s: State, e: Event, t: int, id: string)
    requires t in s.tasks && Pending(s.tasks[t], id)
    requires e == SweepList(t) || e == SweepRemove(t) || (e.SweepFile? && e.task == t)
    ensures Forth(s, StepSweep(s, e), t, id)
  {
    PendingIsSweep(s.tasks[t], id);
    hide Pending, NamedKeys;
  }

  lemma OwnStepForth(h: Digests, s: State, e: Event, t: int, id: string)
    requires StateOk(h, s) && t in s.tasks && Pending(s.tasks[t], id) && MovesSweep(e, t)
    ensures Forth(s, Step(h, s, e), t, id)
  {
    hide StateOk, Step, PurgeNext, DropSwept, UnlinkSwept, ListOrphans, SweepOne, SweepAway, Pending, Forth;
    SweepStep(h, s, e);
    if e.SweepRow? {
      PurgeForth(h, s, t, id);
    } else if e.SweepDropKey? {
      DropForth(h, s, t, id);
    } else if e.SweepUnlink? {
      UnlinkForth(s, t, id);
    } else {
      ListingForth(s, e, t, id);
    }
  }

  lemma StepForth(h: Digests, s: State, e: Event, t: int, id: string)
    requires StateOk(h, s) && t in s.tasks && Pending(s.tasks[t], id)
    ensures Forth(s, Step(h, s, e), t, id)
  {
    PendingIsSweep(s.tasks[t], id);
    hide StateOk, Step, Pending, MovesSweep, AboutSweep;
    if MovesSweep(e, t) {
      OwnStepForth(h, s, e, t, id);
    } else {
      OthersLeaveSweep(h, s, e, t);
    }
  }

  lemma ClearedStays(w: World, v: World, id: string)
    requires Cleared(w.db, id) && Advances(w, v)
    ensures Cleared(v.db, id)
  {
    hide KeysStep, ActivatesPartial, PacketsOnly, ConfirmedInTime, RunsEvolve;
  }

  // ---- whole runs ------------------------------------------------------------------------

  /** No failure, restart or lost race ends the task during the run. */
  predicate Survives(h: Digests, s: State, events: seq<Event>, t: int)
    decreases |events|
  {
    t in s.tasks && (events == [] || Survives(h, Step(h, s, events[0]), events[1..], t))
  }

  lemma {:induction false} ClearedForGood(h: Digests, s: State, events: seq<Event>, id: string)
    requires StateOk(h, s) && Injective(h.binding) && Cleared(s.w.db, id)
    ensures Cleared(After(h, s, events).w.db, id)
    decreases |events|
  {
    hide StateOk, Step, Cleared, Advances;
    if events != [] {
      OneStep(h, s, events[0]);
      ClearedStays(s.w, Step(h, s, events[0]).w, id);
      ClearedForGood(h, Step(h, s, events[0]), events[1..], id);
    }
  }

  /** A row a sweep has taken up is still to come, or purged without its key, whatever happens besides. */
  lemma {:induction false} SweepGoesOn(h: Digests, s: State, events: seq<Event>, t: int, id: string)
    requires StateOk(h, s) && Injective(h.binding) && Survives(h, s, events, t) && Pending(s.tasks[t], id)
    ensures var last := After(h, s, events);
      t in last.tasks && (Pending(last.tasks[t], id) || Cleared(last.w.db, id))
    decreases |events|
  {
    hide StateOk, Step, Cleared, Pending, Advances;
    if events != [] {
      var n := Step(h, s, events[0]);
      OneStep(h, s, events[0]);
      StepForth(h, s, events[0], t, id);
      if Pending(n.tasks[t], id) {
        SweepGoesOn(h, n, events[1..], t, id);
      } else {
        ClearedForGood(h, n, events[1..], id);
        SurvivorIsThere(h, n, events[1..], t);
      }
    }
  }

  lemma {:induction false} SurvivorIsThere(h: Digests, s: State, events: seq<Event>, t: int)
    requires Survives(h, s, events, t)
    ensures t in After(h, s, events).tasks
    decreases |events|
  {
    hide Step;
    if events != [] {
      SurvivorIsThere(h, Step(h, s, events[0]), events[1..], t);
    }
  }

  lemma SweepBegins(h: Digests, s: State, t: int, closed: set<int>, ids: seq<string>)
    ensures Step(h, s, SweepBegin(t, closed, ids)) == BeginSweep(s, t, closed, ids)
  {
    hide Step, BeginSweep;
    SweepStep(h, s, SweepBegin(t, closed, ids));
  }

  /** A sweep sets out with every row expired at that moment. */
  lemma SweepTakesAll(h: Digests, s: State, t: int, closed: set<int>, ids: seq<string>, id: string)
    requires StateOk(h, s) && t !in s.tasks && t in BeginSweep(s, t, closed, ids).tasks
    requires id in s.w.db.stages && Expired(s.w.db.stages[id], s.w.now, s.w.nonce, closed)
    ensures Pending(BeginSweep(s, t, closed, ids).tasks[t], id)
  {
    Durable(h, s);
    hide StateOk, Expired;
    assert id in ids;
    var i :| 0 <= i < |ids| && ids[i] == id;
    assert RowsOf(s.w.db, ids)[i].id == id;
  }

  /**
   * Whatever happens besides: once a sweep has come to its directory listing,
   * every row that was expired when it began is purged, has no file any more
   * and never gets one again.
   */
  lemma SweepClearsEveryExpiredRow(h: Digests, s: State, t: int, closed: set<int>, ids: seq<string>, events: seq<Event>,
                                   more: seq<Event>, id: string)
    requires StateOk(h, s) && Injective(h.binding) && t !in s.tasks
    requires id in s.w.db.stages && Expired(s.w.db.stages[id], s.w.now, s.w.nonce, closed)
    requires Survives(h, Step(h, s, SweepBegin(t, closed, ids)), events, t)
    requires t in After(h, Step(h, s, SweepBegin(t, closed, ids)), events).tasks
    requires PastRows(After(h, Step(h, s, SweepBegin(t, closed, ids)), events).tasks[t])
    ensures Cleared(After(h, After(h, Step(h, s, SweepBegin(t, closed, ids)), events), more).w.db, id)
  {
    var first := Step(h, s, SweepBegin(t, closed, ids));
    hide StepSweep;
    SweepBegins(h, s, t, closed, ids);
    hide StateOk, Step, Cleared, Pending, PastRows, Expired, BeginSweep, Survives;
    FirstSurvives(h, first, events, t);
    SweepTakesAll(h, s, t, closed, ids, id);
    OneStep(h, s, SweepBegin(t, closed, ids));
    SweepGoesOn(h, first, events, t, id);
    var last := After(h, first, events);
    if Pending(last.tasks[t], id) {
      PendingIsSweep(last.tasks[t], id);
    } else {
      Reachable(h, first, events);
      ClearedForGood(h, last, more, id);
    }
  }

  lemma FirstSurvives(h: Digests, s: State, events: seq<Event>, t: int)
    requires Survives(h, s, events, t)
    ensures t in s.tasks
  {
    hide Step;
  }
}
