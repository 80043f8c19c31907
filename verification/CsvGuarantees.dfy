/**
 * What the staging and apply protocol guarantees, for every sequence of events:
 * any interleaving of uploads, mappings, previews, purges, sweeps, claims,
 * cancellations, binds and driver ticks, with failures and restarts anywhere.
 */
module CsvGuarantees {
  import opened Wrappers
  import opened CsvStage
  import opened CsvSidecar
  import opened CsvSidecarLaws
  import opened CsvRuns
  import opened CsvProtocol
  import opened CsvProtocolLaws
  import opened CsvProtocolSteps
  import opened CsvUploadSteps
  import opened CsvApplySteps
  import opened CsvExecSteps

  lemma StartIsOk(h: Digests, now: int, nonce: string)
    ensures StateOk(h, Start(now, nonce))
  {
  }

  lemma StepKeeps(h: Digests, s: State, e: Event)
    requires StateOk(h, s) && Injective(h.binding)
    ensures Good(h, s, Step(h, s, e))
  {
    hide StateOk;
    hide Good;
    hide StepAmbient;
    hide StepUpload;
    hide StepPreview;
    hide StepSweep;
    hide StepApply;
    hide StepRuns;
    hide StepExecute;
    hide BeginCancel;
    hide TryCancel;
    if e.Tick? || e.Rotate? || e.Crash? || e.Abandon? { AmbientKeeps(h, s, e); }
    else if e.UploadStart? || e.UploadChunk? || e.UploadInstall? || e.UploadDrop? || e.UploadWork?
            || e.UploadWorked? || e.UploadReject? || e.UploadAdmit? || e.Discard? { UploadKeeps(h, s, e); }
    else if e.MapBegin? || e.MapEnd? || e.PreviewBegin? || e.PreviewFetch? || e.PreviewWork? || e.PreviewPlan?
            || e.PreviewEnd? || e.PurgeBegin? || e.PurgeUnlink? || e.PurgeEnd? { PreviewKeeps(h, s, e); }
    else if e.SweepBegin? || e.SweepRow? || e.SweepUnlink? || e.SweepDropKey? || e.SweepList? || e.SweepFile?
            || e.SweepRemove? || e.SweepEnd? { SweepKeeps(h, s, e); }
    else if e.ClaimStage? || e.CancelStage? || e.DriverBind? || e.ProgressStage? || e.BindHeld?
            || e.RecordBound? { ApplyKeeps(h, s, e); }
    else if e.CancelBegin? { BeginCancelKeeps(h, s, e.task, e.user, e.ok, e.cancel); }
    else if e.CancelTry? { TryCancelKeeps(h, s, e.task, e.ok, e.found); }
    else if e.ExecBegin? || e.ExecRead? || e.ExecConfirm? || e.ExecDecide? || e.ExecReread? || e.LoadBegin?
            || e.LoadFetch? || e.LoadWork? || e.LoadPlan? || e.LoadEnd? || e.ExecSeal? || e.ExecAuthorize?
    { ExecuteKeeps(h, s, e); }
    else { RunStoreKeeps(h, s, e); }
  }

  /** One event: the invariant again, and each store a step further on. */
  lemma OneStep(h: Digests, s: State, e: Event)
    requires StateOk(h, s) && Injective(h.binding)
    ensures StateOk(h, Step(h, s, e)) && Advances(s.w, Step(h, s, e).w)
  {
    hide Step;
    hide StateOk;
    hide Advances;
    StepKeeps(h, s, e);
  }

  /** The invariant holds in every reachable state. */
  lemma {:induction false} Reachable(h: Digests, s: State, events: seq<Event>)
    requires StateOk(h, s) && Injective(h.binding)
    ensures StateOk(h, After(h, s, events))
    decreases |events|
  {
    hide Step;
    hide StateOk;
    hide Advances;
    if events != [] {
      OneStep(h, s, events[0]);
      Reachable(h, Step(h, s, events[0]), events[1..]);
    }
  }

  // ---- no ABA ----------------------------------------------------------------------------

  /** How many events of a run write this row. */
  function WritesTo(h: Digests, s: State, events: seq<Event>, id: string): nat
    decreases |events|
  {
    if events == [] then 0
    else
      var next := Step(h, s, events[0]);
      var wrote := id in s.w.db.stages && id in next.w.db.stages && next.w.db.stages[id] != s.w.db.stages[id];
      (if wrote then 1 else 0) + WritesTo(h, next, events[1..], id)
  }

  /**
   * Over a whole run a row's version counts its writes exactly, every column
   * that is written once keeps its value, and two observations with the same
   * version are the same row.
   */
  lemma {:induction false} VersionsCountWrites(h: Digests, s: State, events: seq<Event>, id: string)
    requires StateOk(h, s) && Injective(h.binding) && id in s.w.db.stages
    ensures var last := After(h, s, events).w.db.stages;
      && id in last
      && last[id].version == s.w.db.stages[id].version + WritesTo(h, s, events, id)
      && Evolves(s.w.db.stages[id], last[id])
    decreases |events|
  {
    hide Step;
    hide StateOk;
    if events != [] {
      var next := Step(h, s, events[0]);
      OneStep(h, s, events[0]);
      VersionsCountWrites(h, next, events[1..], id);
      EvolvesTransitive(s.w.db.stages[id], next.w.db.stages[id], After(h, next, events[1..]).w.db.stages[id]);
    }
  }

  /** How many events write this row while it is at version `v`. */
  function WritesAt(h: Digests, s: State, events: seq<Event>, id: string, v: nat): nat
    decreases |events|
  {
    if events == [] then 0
    else
      var next := Step(h, s, events[0]);
      var wrote := id in s.w.db.stages && id in next.w.db.stages && s.w.db.stages[id].version == v
                   && next.w.db.stages[id] != s.w.db.stages[id];
      (if wrote then 1 else 0) + WritesAt(h, next, events[1..], id, v)
  }

  /** Of all commands that read one version of a row, at most one writes. */
  lemma {:induction false} OneWriterPerVersion(h: Digests, s: State, events: seq<Event>, id: string, v: nat)
    requires StateOk(h, s) && Injective(h.binding)
    ensures WritesAt(h, s, events, id, v) <= 1
    ensures id in s.w.db.stages && v < s.w.db.stages[id].version ==> WritesAt(h, s, events, id, v) == 0
    decreases |events|
  {
    hide Step;
    hide StateOk;
    if events != [] {
      OneStep(h, s, events[0]);
      OneWriterPerVersion(h, Step(h, s, events[0]), events[1..], id, v);
    }
  }

  // ---- activation ------------------------------------------------------------------------

  /**
   * At most one native run is ever activated for a stage: the one the stage row
   * names, under the command that confirmed the stage, and only if the stage
   * acknowledged it before any cancellation was recorded.
   */
  lemma OneActivationPerStage(h: Digests, now: int, nonce: string, events: seq<Event>)
    requires Injective(h.binding)
    ensures var w := After(h, Start(now, nonce), events).w;
      && (forall a :: a in w.activations ==>
            && a.stage in w.db.stages
            && w.db.stages[a.stage].nativeRun == Some(a.run)
            && w.db.stages[a.stage].command == Some(a.command)
            && (w.db.stages[a.stage].cancelCommand.Some? ==>
                  a.stage in w.cancelledAt && a.boundAt < w.cancelledAt[a.stage]))
      && (forall a, b :: a in w.activations && b in w.activations && a.stage == b.stage ==>
            a.run == b.run && a.command == b.command)
      && (forall r :: r in w.runs && w.runs[r].ready ==>
            w.runs[r].assoc.Some? && Names(w.db, w.runs[r].assoc.value.stageId, r, w.runs[r].assoc.value.confirmation))
  {
    StartIsOk(h, now, nonce);
    Reachable(h, Start(now, nonce), events);
  }

  /** Once a stage's cancellation is recorded, no bind of any run is acknowledged for it. */
  lemma CancelledStageRefusesBind(h: Digests, s: State, t: int, ok: bool)
    requires StateOk(h, s) && t in s.tasks && s.tasks[t].Holding?
    requires s.tasks[t].context.assoc.stageId in s.w.db.stages
    requires s.w.db.stages[s.tasks[t].context.assoc.stageId].cancelCommand.Some?
    ensures t !in BindStep(s, t, ok).tasks && BindStep(s, t, ok).w == s.w
  {
  }

  /**
   * A cancelled native run stays cancelled and stopped: whatever commands were in
   * flight, none of them makes it runnable again.
   */
  lemma {:induction false} CancelledRunStaysStopped(h: Digests, s: State, events: seq<Event>, run: int)
    requires StateOk(h, s) && Injective(h.binding)
    requires run in s.w.runs && s.w.runs[run].native == CancelledRun
    ensures var last := After(h, s, events).w;
      && run in last.runs && last.runs[run].native == CancelledRun && !last.runs[run].ready
      && |s.w.activations| <= |last.activations|
      && last.activations[..|s.w.activations|] == s.w.activations
      && (forall i :: |s.w.activations| <= i < |last.activations| ==> last.activations[i].run != run)
    decreases |events|
  {
    hide Step;
    hide StateOk;
    hide RowsStep;
    hide KeysStep;
    if events == [] {
      Durable(h, s);
      assert RunOk(s.w.runs[run]);
    } else {
      var next := Step(h, s, events[0]);
      OneStep(h, s, events[0]);
      assert RunEvolves(s.w.runs[run], next.w.runs[run]);
      CancelledRunStaysStopped(h, next, events[1..], run);
    }
  }

  // ---- custody of the raw file -----------------------------------------------------------

  /**
   * In every reachable state a stage that is not purged has its file on disk,
   * with the recorded length and digest, and a stage whose object key is cleared
   * no longer has its file.
   */
  lemma ObjectCustody(h: Digests, now: int, nonce: string, events: seq<Event>)
    requires Injective(h.binding)
    ensures var w := After(h, Start(now, nonce), events).w;
      && (forall id :: id in w.db.stages && w.db.stages[id].status != Purged ==>
            && w.db.stages[id].objectKey.Some?
            && Object(w.db.stages[id].objectKey.value) in w.disk
            && |w.disk[Object(w.db.stages[id].objectKey.value)].content| == w.db.stages[id].bytes
            && h.content(w.disk[Object(w.db.stages[id].objectKey.value)].content) == w.db.stages[id].sha)
      && (forall k :: k in w.owner && w.owner[k] in w.db.stages && w.db.stages[w.owner[k]].objectKey.None? ==>
            Object(k) !in w.disk)
  {
    StartIsOk(h, now, nonce);
    Reachable(h, Start(now, nonce), events);
  }

  /**
   * A row gives up its object key only when it is purged and the file is already
   * gone; until then it keeps the same key.
   */
  lemma KeyClearedAfterFile(h: Digests, s: State, e: Event, id: string)
    requires StateOk(h, s) && Injective(h.binding)
    requires id in s.w.db.stages && s.w.db.stages[id].objectKey.Some?
    ensures var k := s.w.db.stages[id].objectKey.value;
      var next := Step(h, s, e).w;
      && id in next.db.stages
      && (next.db.stages[id].objectKey != Some(k) ==>
            && next.db.stages[id].objectKey.None? && next.db.stages[id].status == Purged
            && Object(k) !in s.w.disk && Object(k) !in next.disk)
  {
    hide Step;
    hide StateOk;
    OneStep(h, s, e);
    Durable(h, s);
    Durable(h, Step(h, s, e));
    assert Owns(s.w, s.w.db.stages[id]);
    assert Shape(Step(h, s, e).w.db.stages[id]);
  }

  /** In every reachable state a finished sweep has left no file older than its cutoff that no row names. */
  lemma SweepLeavesNoOrphan(h: Digests, now: int, nonce: string, events: seq<Event>, t: int)
    requires Injective(h.binding)
    requires var tasks := After(h, Start(now, nonce), events).tasks;
      t in tasks && tasks[t].SweepFiles? && tasks[t].todo == {}
    ensures var s := After(h, Start(now, nonce), events);
      forall n :: n in s.w.disk && s.w.disk[n].mtime <= s.tasks[t].cutoff ==>
        n.Object? && exists id :: id in s.w.db.stages && s.w.db.stages[id].objectKey == Some(n.key)
  {
    StartIsOk(h, now, nonce);
    Reachable(h, Start(now, nonce), events);
    SweptDirectory(h, After(h, Start(now, nonce), events), t);
  }

  lemma SweptDirectory(h: Digests, s: State, t: int)
    requires StateOk(h, s) && t in s.tasks && s.tasks[t].SweepFiles? && s.tasks[t].todo == {}
    ensures forall n :: n in s.w.disk && s.w.disk[n].mtime <= s.tasks[t].cutoff ==>
      n.Object? && exists id :: id in s.w.db.stages && s.w.db.stages[id].objectKey == Some(n.key)
  {
    var task := s.tasks[t];
    assert TaskOk(h, s.w, task);
    forall n | n in s.w.disk && s.w.disk[n].mtime <= task.cutoff
      ensures n.Object? && exists id :: id in s.w.db.stages && s.w.db.stages[id].objectKey == Some(n.key)
    {
      assert n.Object? && n.key in task.known;
      assert s.w.owner[n.key] in s.w.db.stages;
      assert s.w.db.stages[s.w.owner[n.key]].objectKey == Some(n.key);
    }
  }

  // ---- previews and uploads --------------------------------------------------------------

  /**
   * In every previewed, confirmed or finished stage the saved preview exists,
   * belongs to the stage and is bound to its target, owner, file and present
   * choices; from confirmation until purge the confirmed preview is the current
   * one exactly when the claim named one; a purged stage has no saved preview.
   */
  lemma PreviewIntegrity(h: Digests, now: int, nonce: string, events: seq<Event>)
    requires Injective(h.binding)
    ensures var db := After(h, Start(now, nonce), events).w.db;
      && (forall id :: id in db.stages && db.stages[id].status !in {Staged, Purged} ==>
            && db.stages[id].previewId.Some?
            && db.stages[id].previewId.value in db.previews
            && Describes(h, db.previews[db.stages[id].previewId.value], db.stages[id]))
      && (forall id :: id in db.stages && Rank(db.stages[id].status) in {1, 2} ==>
            (db.stages[id].confirmedPreview == db.stages[id].previewId <==>
               db.stages[id].confirmedPreview != Some("")))
      && (forall p :: p in db.previews && db.previews[p].stageId in db.stages ==>
            db.stages[db.previews[p].stageId].status != Purged)
  {
    StartIsOk(h, now, nonce);
    Reachable(h, Start(now, nonce), events);
    SavedAreCurrent(h, After(h, Start(now, nonce), events).w.db);
  }

  lemma SavedAreCurrent(h: Digests, db: Db)
    requires DbOk(h, db)
    ensures forall id :: id in db.stages && db.stages[id].status !in {Staged, Purged} ==>
      && db.stages[id].previewId.Some?
      && db.stages[id].previewId.value in db.previews
      && Describes(h, db.previews[db.stages[id].previewId.value], db.stages[id])
    ensures forall id :: id in db.stages && Rank(db.stages[id].status) in {1, 2} ==>
      (db.stages[id].confirmedPreview == db.stages[id].previewId <==> db.stages[id].confirmedPreview != Some(""))
  {
    forall id | id in db.stages && db.stages[id].status !in {Staged, Purged}
      ensures db.stages[id].previewId.Some? && db.stages[id].previewId.value != ""
    {
      assert Shape(db.stages[id]);
      assert db.previews[db.stages[id].previewId.value].id[..8] == "preview_";
    }
  }

  /** As long as no claim without a packet was accepted, every confirmed stage was confirmed with one. */
  predicate AllPackets(w: World) {
    w.bare == 0 ==> forall id :: id in w.db.stages && w.db.stages[id].command.Some? ==> w.db.stages[id].request.Some?
  }

  lemma AdvanceKeepsPackets(w: World, v: World)
    requires AllPackets(w) && Advances(w, v)
    ensures AllPackets(v)
  {
    if v.bare == 0 {
      forall id | id in v.db.stages && v.db.stages[id].command.Some? ensures v.db.stages[id].request.Some? {
        if id in w.db.stages && w.db.stages[id].command.Some? {
          assert v.db.stages[id] == w.db.stages[id] || Evolves(w.db.stages[id], v.db.stages[id]);
        }
      }
    }
  }

  lemma {:induction false} PacketsKept(h: Digests, s: State, events: seq<Event>)
    requires StateOk(h, s) && Injective(h.binding) && AllPackets(s.w)
    ensures AllPackets(After(h, s, events).w)
    decreases |events|
  {
    hide Step, StateOk, Advances, AllPackets;
    if events != [] {
      OneStep(h, s, events[0]);
      AdvanceKeepsPackets(s.w, Step(h, s, events[0]).w);
      PacketsKept(h, Step(h, s, events[0]), events[1..]);
    }
  }

  lemma UploadsCountNothing(h: Digests, s: State, e: Event)
    ensures StepUpload(s, h, e).w.bare == s.w.bare && StepAmbient(s, e).w.bare == s.w.bare
  {
    hide Admit, UploadsPrompt;
  }

  lemma PreviewsCountNothing(h: Digests, s: State, e: Event)
    ensures StepPreview(s, h, e).w.bare == s.w.bare
  {
    hide MapStart, MapCommit, PreviewStart, PreviewRead, PreviewCommit, PurgeStart, PurgeFinish, ContentOf;
  }

  lemma SweepsCountNothing(s: State, e: Event)
    ensures StepSweep(s, e).w.bare == s.w.bare
  {
    hide SweepPurge, SweepDrop, Expired, NamedKeys, RowsOf;
  }

  lemma RunsCountNothing(s: State, e: Event)
    ensures StepRuns(s, e).w.bare == s.w.bare
    ensures !e.ClaimStage? || e.claim.request.Some? ==> StepApply(s, e).w.bare == s.w.bare
  {
    hide Claim, Cancellation, BindRun, MarkProgress, Seal, RecordVersion, Activate, Stop, ClaimLease;
    hide MarkRunning, Settle, Complete, ContextOf;
  }

  lemma LoadsCountNothing(h: Digests, s: State, e: Event)
    requires e.LoadBegin? || e.LoadFetch? || e.LoadWork? || e.LoadPlan? || e.LoadEnd? || e.ExecSeal? || e.ExecAuthorize?
    ensures StepExecute(s, h, e).w.bare == s.w.bare
  {
    hide Authorize, Seal, Owned, PreviewRead, ContentOf, ContextOf, Current, Saved, StillPreviewed, Acknowledged;
    hide BeginExec, ReadExec, ConfirmExec, DecideExec, RereadExec;
  }

  lemma ExecCountsNothing(h: Digests, s: State, e: Event)
    requires !e.LoadBegin? && !e.LoadFetch? && !e.LoadWork? && !e.LoadPlan? && !e.LoadEnd?
    requires !e.ExecSeal? && !e.ExecAuthorize?
    ensures StepExecute(s, h, e).w.bare == s.w.bare
  {
    hide Claim, Decide, Owned, ContextOf, FoundByStage;
    hide BeginLoad, FetchLoad, WorkLoad, PlanLoad, EndLoad, SealExec, AuthorizeExec;
  }

  lemma CommandsCountNothing(h: Digests, s: State, e: Event)
    ensures StepExecute(s, h, e).w.bare == s.w.bare
    ensures e.CancelBegin? ==> BeginCancel(s, e.task, e.user, e.ok, e.cancel).w.bare == s.w.bare
    ensures e.CancelTry? ==> TryCancel(s, e.task, e.ok, e.found).w.bare == s.w.bare
  {
    hide Cancellation, Stop, FoundByStage, ContextOf, StepExecute;
    if e.LoadBegin? || e.LoadFetch? || e.LoadWork? || e.LoadPlan? || e.LoadEnd? || e.ExecSeal? || e.ExecAuthorize? {
      LoadsCountNothing(h, s, e);
    } else {
      ExecCountsNothing(h, s, e);
    }
  }

  /** Only a claim that carries no packet is counted as one. */
  lemma BareIsCounted(h: Digests, s: State, e: Event)
    ensures Step(h, s, e).w.bare == s.w.bare || (e.ClaimStage? && e.claim.request.None?)
  {
    hide StepUpload, StepPreview, StepSweep, StepAmbient, StepRuns, StepExecute, BeginCancel, TryCancel, StepApply;
    UploadsCountNothing(h, s, e);
    PreviewsCountNothing(h, s, e);
    SweepsCountNothing(s, e);
    RunsCountNothing(s, e);
    CommandsCountNothing(h, s, e);
  }

  lemma {:induction false} NoBareClaims(h: Digests, s: State, events: seq<Event>)
    requires forall e :: e in events && e.ClaimStage? ==> e.claim.request.Some?
    ensures After(h, s, events).w.bare == s.w.bare
    decreases |events|
  {
    hide Step;
    if events != [] {
      assert events[0] in events;
      BareIsCounted(h, s, events[0]);
      assert forall e :: e in events[1..] ==> e in events;
      NoBareClaims(h, Step(h, s, events[0]), events[1..]);
    }
  }

  /**
   * When every claim carries its packet, as the command layer's do, the
   * confirmed preview is the current one from confirmation until purge, without
   * exception.
   */
  lemma PacketClaimsConfirmCurrent(h: Digests, now: int, nonce: string, events: seq<Event>)
    requires Injective(h.binding)
    requires forall e :: e in events && e.ClaimStage? ==> e.claim.request.Some?
    ensures var db := After(h, Start(now, nonce), events).w.db;
      forall id :: id in db.stages && Rank(db.stages[id].status) in {1, 2} ==>
        && db.stages[id].previewId.Some? && db.stages[id].confirmedPreview == db.stages[id].previewId
        && db.stages[id].request.Some?
  {
    var last := After(h, Start(now, nonce), events);
    StartIsOk(h, now, nonce);
    Reachable(h, Start(now, nonce), events);
    PacketsKept(h, Start(now, nonce), events);
    NoBareClaims(h, Start(now, nonce), events);
    Durable(h, last);
    forall id | id in last.w.db.stages && Rank(last.w.db.stages[id].status) in {1, 2}
      ensures last.w.db.stages[id].previewId.Some? && last.w.db.stages[id].request.Some?
      ensures last.w.db.stages[id].confirmedPreview == last.w.db.stages[id].previewId
    {
      assert Shape(last.w.db.stages[id]);
    }
  }

  /** One file never has two unexpired stages an administrator could still map or preview. */
  lemma OneLiveStagePerFile(h: Digests, now: int, nonce: string, events: seq<Event>, i: string, j: string)
    requires Injective(h.binding)
    requires var w := After(h, Start(now, nonce), events).w;
      && i in w.db.stages && j in w.db.stages
      && Live(w.db.stages[i]) && Live(w.db.stages[j]) && SameFile(w.db.stages[i], w.db.stages[j])
      && w.now < w.db.stages[i].expiresAt && w.now < w.db.stages[j].expiresAt
    ensures i == j
  {
    StartIsOk(h, now, nonce);
    Reachable(h, Start(now, nonce), events);
  }

  /** At most one parse or plan is in progress at any time: an upload's, a preview's or an apply command's. */
  lemma OneWorkItem(h: Digests, now: int, nonce: string, events: seq<Event>, t: int, u: int)
    requires Injective(h.binding)
    requires var tasks := After(h, Start(now, nonce), events).tasks;
      t in tasks && u in tasks && Occupies(tasks[t]) && Occupies(tasks[u])
    ensures t == u
  {
    StartIsOk(h, now, nonce);
    Reachable(h, Start(now, nonce), events);
  }
}
