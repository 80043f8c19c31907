/**
 * The staging service as an object: the two sidecar tables and the object
 * directory are its fields, and each method is one synchronous stretch of a
 * command, written in the order of its checks. A contract says first what a
 * caller may rely on, then which stretch of the protocol the method is.
 */
module CsvStagingService {
  import opened Wrappers
  import opened CsvStage
  import opened CsvSidecar
  import opened CsvSidecarLaws
  import opened CsvProtocolLaws

  /** This user may act on the stage: authority, ownership and the present destination. */
  predicate MayAct(db: Db, env: Env, user: int, id: string) {
    env.allowed && id in db.stages && db.stages[id].owner == user && db.stages[id].target == env.nonce
  }

  /** Exactly this row has moved, one version on; no row came or went. */
  predicate OneRowMoved(before: Db, after: Db, id: string) {
    && after.stages.Keys == before.stages.Keys && id in before.stages
    && Evolves(before.stages[id], after.stages[id])
    && after.stages[id].version == before.stages[id].version + 1
    && (forall other :: other in before.stages && other != id ==> after.stages[other] == before.stages[other])
  }

  lemma WriteMovesOneRow(h: Digests, before: Db, after: Db, id: string, e: Edit)
    requires DbOk(h, before) && Writes(before, after, id, e)
    ensures OneRowMoved(before, after, id) && after.stages[id] == Apply(before.stages[id], e)
  {
    EditKeepsOrder(before.stages[id], e);
  }

  /** The row was read before and is still the very same, and the user may act on it. */
  predicate StillCurrent(db: Db, env: Env, user: int, row: Stage) {
    MayAct(db, env, user, row.id) && db.stages[row.id] == row
  }

  lemma CurrentMeansSame(db: Db, env: Env, user: int, row: Stage)
    requires RowsOk(db) && Observed(db, row)
    ensures Current(db, env, user, row).Ok? <==> StillCurrent(db, env, user, row)
  {
  }

  predicate NoPreviewOf(db: Db, id: string) {
    forall p :: p in db.previews ==> db.previews[p].stageId != id
  }

  lemma AdmitKeepsOnce(db: Db, env: Env, user: int, nonce: string, id: string, sha: string, bytes: int, key: string)
    requires LiveOnce(db, env.now) && id !in db.stages && !HasDuplicate(db, nonce, user, sha, bytes, env.now)
    ensures LiveOnce(db.(stages := db.stages[id := NewStage(id, nonce, user, sha, bytes, key, env.now,
                                                           env.now + RETENTION_MS)]), env.now)
  {
    forall other | other in db.stages ensures !Duplicates(db.stages[other], nonce, user, sha, bytes, env.now) {
    }
  }

  lemma OnceMeansOne(db: Db, nonce: string, user: int, sha: string, bytes: int, now: int)
    requires LiveOnce(db, now)
    ensures forall i, j :: (i in db.stages && j in db.stages && Duplicates(db.stages[i], nonce, user, sha, bytes, now)
      && Duplicates(db.stages[j], nonce, user, sha, bytes, now)) ==> i == j
  {
  }

  /** The state a claim has met when it confirms a stage. */
  predicate Claimable(db: Db, env: Env, user: int, input: ClaimInput) {
    && MayAct(db, env, user, input.stageId)
    && var row := db.stages[input.stageId];
      && row.status == Previewed && row.version == input.expectedVersion && row.cancelCommand.None?
      && row.objectKey.Some? && env.now < row.expiresAt && 1 <= |input.commandId| <= 128
      && (input.previewId == "" || row.previewId == Some(input.previewId))
  }

  /**
   * An accepted claim: the stage is confirmed by its command at the version
   * answered. It was already, and nothing changes, or this very claim has met a
   * claimable stage and confirms the preview it names, in one write of one row.
   */
  predicate ClaimAnswered(before: Db, after: Db, env: Env, user: int, input: ClaimInput, version: nat) {
    var id := input.stageId;
    && MayAct(before, env, user, id) && id in after.stages
    && after.stages[id].status == Confirmed && after.stages[id].command == Some(input.commandId)
    && after.stages[id].version == version && after.stages[id].cancelCommand.None?
    && (before.stages[id].status == Confirmed ==> after == before)
    && (before.stages[id].status != Confirmed ==>
          && Claimable(before, env, user, input) && OneRowMoved(before, after, id)
          && after.previews == before.previews && after.stages[id].previewId == before.stages[id].previewId
          && after.stages[id].confirmedPreview == Some(input.previewId)
          && (input.previewId != "" ==> after.stages[id].confirmedPreview == after.stages[id].previewId))
  }

  lemma ClaimMeets(h: Digests, db: Db, env: Env, user: int, input: ClaimInput, current: bool)
    requires DbOk(h, db) && Claim(db, env, user, input, current).Ok?
    ensures db.stages[input.stageId].status != Confirmed ==> Claimable(db, env, user, input)
  {
    RowHasItsId(h, db, input.stageId);
    hide DbOk, CanonicalClaim, Apply;
  }

  lemma ClaimMoves(h: Digests, db: Db, env: Env, user: int, input: ClaimInput, current: bool)
    requires DbOk(h, db) && Claim(db, env, user, input, current).Ok?
    requires db.stages[input.stageId].status != Confirmed
    ensures OneRowMoved(db, Claim(db, env, user, input, current).value.db, input.stageId)
  {
    RowHasItsId(h, db, input.stageId);
    ClaimWrites(h, db, env, user, input, current);
    WriteMovesOneRow(h, db, Claim(db, env, user, input, current).value.db, input.stageId,
                     Confirm(input.commandId, input.previewId, CanonicalClaim(input.request).value));
    hide DbOk, OneRowMoved, CanonicalClaim, Saved, InputAllowed;
  }

  lemma ClaimAnswers(h: Digests, db: Db, env: Env, user: int, input: ClaimInput, current: bool)
    requires DbOk(h, db) && Claim(db, env, user, input, current).Ok?
    ensures var done := Claim(db, env, user, input, current).value;
      ClaimAnswered(db, done.db, env, user, input, done.version)
  {
    RowHasItsId(h, db, input.stageId);
    if db.stages[input.stageId].status != Confirmed {
      ClaimMeets(h, db, env, user, input, current);
      ClaimMoves(h, db, env, user, input, current);
    }
    hide DbOk, OneRowMoved, CanonicalClaim, Claimable, InputAllowed;
  }

  /**
   * An accepted cancellation: it is on the row of the confirmation it names, at
   * the version answered. It was already, and nothing changes, or this request
   * has met the expected version with no other cancellation, in one write.
   */
  predicate CancelAnswered(before: Db, after: Db, env: Env, user: int, input: CancelInput, version: nat) {
    var id := input.stageId;
    && MayAct(before, env, user, id) && id in after.stages && CommandId(input.cancellation)
    && after.stages[id].command == Some(input.confirmation) && after.stages[id].version == version
    && after.stages[id].cancelCommand == Some(input.cancellation)
    && after.stages[id].cancelRequest == Some(CancelPacket(input.previewId, input.confirmation, input.cancellation))
    && (before.stages[id].cancelCommand.Some? ==> after == before)
    && (before.stages[id].cancelCommand.None? ==>
          && OneRowMoved(before, after, id) && after.previews == before.previews
          && before.stages[id].version == input.expectedVersion
          && after.stages[id].status == before.stages[id].status)
  }

  lemma CancelAnswers(h: Digests, db: Db, env: Env, user: int, input: CancelInput)
    requires DbOk(h, db) && Cancellation(db, env, user, input).Ok?
    ensures var done := Cancellation(db, env, user, input).value;
      CancelAnswered(db, done.db, env, user, input, done.version)
  {
    RowHasItsId(h, db, input.stageId);
    var packet := CancelPacket(input.previewId, input.confirmation, input.cancellation);
    if db.stages[input.stageId].cancelCommand.None? {
      CancellationWrites(h, db, env, user, input);
      CancelMoves(h, db, env, user, input);
    }
    hide DbOk, OneRowMoved, Writes, CommandId;
  }

  lemma CancelMoves(h: Digests, db: Db, env: Env, user: int, input: CancelInput)
    requires DbOk(h, db) && Cancellation(db, env, user, input).Ok?
    requires db.stages[input.stageId].cancelCommand.None?
    ensures OneRowMoved(db, Cancellation(db, env, user, input).value.db, input.stageId)
  {
    RowHasItsId(h, db, input.stageId);
    CancellationWrites(h, db, env, user, input);
    var packet := CancelPacket(input.previewId, input.confirmation, input.cancellation);
    WriteMovesOneRow(h, db, Cancellation(db, env, user, input).value.db, input.stageId,
                     RequestCancel(input.cancellation, packet));
    hide DbOk, OneRowMoved, CommandId;
  }

  /**
   * Recorded progress moves the bound, confirmed stage on by one write; an end
   * is dated in the past and sets the deadline a retention window later.
   */
  predicate ProgressRecorded(before: Db, after: Db, env: Env, b: RunBinding, phase: ApplyPhase, terminalAt: Option<int>,
                             version: nat)
  {
    && OneRowMoved(before, after, b.stageId) && after.previews == before.previews
    && before.stages[b.stageId].status == Confirmed && before.stages[b.stageId].nativeRun == Some(b.nativeRun)
    && before.stages[b.stageId].version == b.stageVersion && after.stages[b.stageId].version == version
    && after.stages[b.stageId].status == PhaseStatus(phase) && after.stages[b.stageId].lease == Some(b.generation)
    && (if Terminal(PhaseStatus(phase))
        then terminalAt.Some? && terminalAt.value <= env.now
             && after.stages[b.stageId].retention == Some(terminalAt.value + RETENTION_MS)
        else after.stages[b.stageId].retention.None?)
  }

  lemma ProgressRecords(h: Digests, db: Db, env: Env, verified: bool, b: RunBinding, phase: ApplyPhase,
                        terminalAt: Option<int>)
    requires DbOk(h, db) && MarkProgress(db, env, verified, b, phase, terminalAt).Some?
    ensures var done := MarkProgress(db, env, verified, b, phase, terminalAt).value;
      verified && ProgressRecorded(db, done.db, env, b, phase, terminalAt, done.version)
  {
    RowHasItsId(h, db, b.stageId);
    MarkProgressWrites(h, db, env, verified, b, phase, terminalAt);
    WriteMovesOneRow(h, db, MarkProgress(db, env, verified, b, phase, terminalAt).value.db, b.stageId,
                     Progress(PhaseStatus(phase),
                              if Terminal(PhaseStatus(phase)) then Some(terminalAt.value + RETENTION_MS) else None,
                              b.generation));
    hide DbOk, OneRowMoved, Writes, Allowed;
  }

  lemma RowHasItsId(h: Digests, db: Db, id: string)
    requires DbOk(h, db) && id in db.stages
    ensures db.stages[id].id == id
  {
  }

  lemma MoveChanges(before: Db, after: Db, id: string, e: Edit)
    requires Writes(before, after, id, e)
    ensures after != before
  {
    assert after.stages[id].version != before.stages[id].version;
  }

  /** The row one sweep leaves behind for an expired one. */
  function Swept(row: Stage, now: int): Stage {
    if row.objectKey.Some? then Apply(Apply(row, PurgeAt(now)), DropObject) else Apply(row, PurgeAt(now))
  }

  lemma SweptIsPurged(row: Stage, now: int)
    ensures var next := Swept(row, now);
      next.status == Purged && next.objectKey.None? && next.retention == Some(now)
      && next.choices.None? && next.previewId.None?
  {
  }

  /** The object keys of the rows in `ids`. */
  function FilesOf(rows: map<string, Stage>, ids: set<string>): set<string> {
    set id | id in ids && id in rows && rows[id].objectKey.Some? :: rows[id].objectKey.value
  }

  function KeysOf(row: Stage): set<string> {
    if row.objectKey.Some? then {row.objectKey.value} else {}
  }

  lemma FilesOfOneMore(rows: map<string, Stage>, ids: set<string>, id: string)
    requires id in rows
    ensures FilesOf(rows, ids + {id}) == FilesOf(rows, ids) + KeysOf(rows[id])
  {
    forall k | k in FilesOf(rows, ids) + KeysOf(rows[id]) ensures k in FilesOf(rows, ids + {id}) {
      if k in KeysOf(rows[id]) {
        assert id in ids + {id};
      }
    }
  }

  /** The receipts of stages outside `ids`. */
  function ReceiptsLeft(receipts: map<string, SavedPreview>, ids: set<string>): map<string, SavedPreview> {
    map p | p in receipts && receipts[p].stageId !in ids :: receipts[p]
  }

  lemma ReceiptsLeftOneMore(receipts: map<string, SavedPreview>, ids: set<string>, id: string)
    ensures ReceiptsLeft(ReceiptsLeft(receipts, ids), {id}) == ReceiptsLeft(receipts, ids + {id})
  {
  }

  lemma NothingSwept(rows: map<string, Stage>, receipts: map<string, SavedPreview>, now: int)
    ensures FilesOf(rows, {}) == {} && ReceiptsLeft(receipts, {}) == receipts && SweptRows(rows, {}, now, rows)
  {
  }

  lemma RemovedTwice(files: map<string, seq<int>>, a: set<string>, b: set<string>)
    ensures (files - a) - b == files - (a + b)
  {
  }

  function ExpiredIds(rows: map<string, Stage>, now: int, nonce: string, closed: set<int>): set<string> {
    set id | id in rows && Expired(rows[id], now, nonce, closed)
  }

  lemma ExpiredAreRows(rows: map<string, Stage>, now: int, nonce: string, closed: set<int>)
    ensures ExpiredIds(rows, now, nonce, closed) <= rows.Keys
  {
  }

  /** Every row of `ids` swept, every other row as it was. */
  ghost predicate SweptRows(rows: map<string, Stage>, ids: set<string>, now: int, after: map<string, Stage>) {
    && after.Keys == rows.Keys
    && forall id :: id in rows ==> after[id] == if id in ids then Swept(rows[id], now) else rows[id]
  }

  lemma SweptOneMore(rows: map<string, Stage>, ids: set<string>, now: int, after: map<string, Stage>, id: string)
    requires SweptRows(rows, ids, now, after) && id in rows && id !in ids
    ensures SweptRows(rows, ids + {id}, now, after[id := Swept(after[id], now)])
  {
  }

  lemma StillRows(rows: map<string, Stage>, ids: set<string>, now: int, after: map<string, Stage>)
    requires SweptRows(rows, ids, now, after)
    ensures after.Keys == rows.Keys
  {
  }

  lemma UntouchedRow(rows: map<string, Stage>, ids: set<string>, now: int, after: map<string, Stage>, id: string)
    requires SweptRows(rows, ids, now, after) && id in rows && id !in ids
    ensures after[id] == rows[id] && Swept(after[id], now).id == after[id].id
  {
  }

  lemma SweptRowsArePurged(rows: map<string, Stage>, ids: set<string>, now: int, after: map<string, Stage>)
    requires SweptRows(rows, ids, now, after)
    ensures forall id :: id in rows && id in ids ==>
      after[id].status == Purged && after[id].objectKey.None? && after[id].retention == Some(now)
    ensures forall id :: id in rows && id !in ids ==> after[id] == rows[id]
  {
    forall id | id in rows && id in ids
      ensures after[id].status == Purged && after[id].objectKey.None? && after[id].retention == Some(now)
    {
      SweptIsPurged(rows[id], now);
    }
  }

  class StagingService {
    var stages: map<string, Stage>
    var previews: map<string, SavedPreview>
    var objects: map<string, seq<int>>

    constructor ()
      ensures Tables() == Db(map[], map[]) && objects == map[]
    {
      stages, previews, objects := map[], map[], map[];
    }

    function Tables(): Db
      reads this
    {
      Db(stages, previews)
    }

    /** The compare-and-swap every row write goes through. */
    method CompareAndSwap(id: string, version: nat, e: Edit) returns (ok: bool)
      modifies this`stages
      ensures ok == Cas(old(Tables()), id, version, e).Ok?
      ensures ok ==> Tables() == Cas(old(Tables()), id, version, e).value
      ensures !ok ==> Tables() == old(Tables())
    {
      if id !in stages || stages[id].version != version {
        return false;
      }
      stages := stages[id := Apply(stages[id], e)];
      return true;
    }

    method DeletePreviews(stageId: string)
      modifies this`previews
      ensures Tables() == WithoutPreviews(old(Tables()), stageId)
    {
      previews := map p | p in previews && previews[p].stageId != stageId :: previews[p];
    }

    /** An answered upload leaves exactly one unexpired stage of its file that can still be mapped or claimed. */
    method Insert(ghost h: Digests, env: Env, user: int, nonce: string, id: string, sha: string, bytes: int,
                  key: string)
      returns (r: Result<Admission, Refusal>)
      requires DbOk(h, Tables()) && LiveOnce(Tables(), env.now)
      modifies this`stages
      ensures DbOk(h, Tables()) && LiveOnce(Tables(), env.now)
      ensures r.Refused? || r.value.Duplicate? ==> Tables() == old(Tables())
      ensures r.Ok? ==> env.allowed && HasDuplicate(Tables(), nonce, user, sha, bytes, env.now)
      ensures r.Ok? ==> forall i, j :: (i in stages && j in stages
        && Duplicates(stages[i], nonce, user, sha, bytes, env.now)
        && Duplicates(stages[j], nonce, user, sha, bytes, env.now)) ==> i == j
      ensures r.Ok? && r.value.Inserted? ==>
        && id !in old(stages) && stages.Keys == old(stages).Keys + {id}
        && (forall other :: other in old(stages) ==> stages[other] == old(stages)[other])
        && stages[id].version == 0 && stages[id].objectKey == Some(key)
        && !HasDuplicate(old(Tables()), nonce, user, sha, bytes, env.now)
      ensures r == Admit(old(Tables()), env, user, nonce, id, sha, bytes, key)
      ensures Tables() == if r.Ok? && r.value.Inserted? then r.value.db else old(Tables())
    {
      hide DbOk, LiveOnce, RowsEvolve;
      OnceMeansOne(Tables(), nonce, user, sha, bytes, env.now);
      if !env.allowed || env.nonce != nonce {
        return Refused(AdministratorRequired);
      }
      if exists i :: i in stages && Duplicates(stages[i], nonce, user, sha, bytes, env.now) {
        return Ok(Duplicate);
      }
      if id in stages {
        return Refused(StorageUnavailable);
      }
      AdmitKeeps(h, Tables(), env, user, nonce, id, sha, bytes, key);
      AdmitKeepsOnce(Tables(), env, user, nonce, id, sha, bytes, key);
      stages := stages[id := NewStage(id, nonce, user, sha, bytes, key, env.now, env.now + RETENTION_MS)];
      OnceMeansOne(Tables(), nonce, user, sha, bytes, env.now);
      assert Duplicates(stages[id], nonce, user, sha, bytes, env.now);
      return Ok(Inserted(Tables()));
    }

    /** The mapping is stored exactly when the row is still the one read at the start. */
    method EndMap(ghost h: Digests, env: Env, user: int, row: Stage, choices: string, source: string)
      returns (refusal: Option<Refusal>)
      requires DbOk(h, Tables()) && Observed(Tables(), row) && Live(row)
      modifies this`stages
      ensures DbOk(h, Tables())
      ensures refusal.None? <==> StillCurrent(old(Tables()), env, user, row)
      ensures refusal.Some? ==> Tables() == old(Tables())
      ensures refusal.None? ==>
        && OneRowMoved(old(Tables()), Tables(), row.id)
        && stages[row.id] == row.(choices := Some(choices), sourceId := Some(source), status := Staged,
                                  previewId := None, summary := None, version := row.version + 1)
      ensures var spec := MapCommit(old(Tables()), env, user, row, choices, source);
        && (spec.Ok? ==> refusal == None && Tables() == spec.value)
        && (spec.Refused? ==> refusal == Some(spec.error) && Tables() == old(Tables()))
    {
      var latest := Current(Tables(), env, user, row);
      CurrentMeansSame(Tables(), env, user, row);
      if latest.Refused? {
        return Some(latest.error);
      }
      MapCommitWrites(h, Tables(), env, user, row, choices, source);
      WriteMovesOneRow(h, Tables(), MapCommit(Tables(), env, user, row, choices, source).value, row.id,
                       Choose(choices, source));
      var ok := CompareAndSwap(row.id, row.version, Choose(choices, source));
      return if ok then None else Some(PreviewStale);
    }

    /** One transaction; the row has just been re-read, so the compare-and-swap succeeds. */
    method EndPreview(env: Env, h: Digests, user: int, row: Stage, planned: Planned) returns (refusal: Option<Refusal>)
      requires DbOk(h, Tables()) && Injective(h.binding)
      requires Observed(Tables(), row) && Live(row) && row.choices.Some? && row.sourceId.Some?
      modifies this`stages, this`previews
      ensures DbOk(h, Tables())
      ensures refusal.None? <==> StillCurrent(old(Tables()), env, user, row)
      ensures refusal.Some? ==> Tables() == old(Tables())
      ensures refusal.None? ==>
        && OneRowMoved(old(Tables()), Tables(), row.id)
        && stages[row.id].status == Previewed && stages[row.id].previewId.Some?
        && stages[row.id].previewId.value in previews
        && Describes(h, previews[stages[row.id].previewId.value], stages[row.id])
        && (forall p :: p in old(previews) ==> p in previews && previews[p] == old(previews)[p])
      ensures var spec := PreviewCommit(old(Tables()), env, h, user, row, planned);
        && (spec.Ok? ==> refusal == None && Tables() == spec.value)
        && (spec.Refused? ==> refusal == Some(spec.error) && Tables() == old(Tables()))
    {
      var latest := Current(Tables(), env, user, row);
      CurrentMeansSame(Tables(), env, user, row);
      if latest.Refused? {
        return Some(latest.error);
      }
      PreviewCommitWrites(h, Tables(), env, user, row, planned);
      WriteMovesOneRow(h, Tables(), PreviewCommit(Tables(), env, h, user, row, planned).value, row.id,
                       Show(PreviewName(h, BindingOf(row, planned)), planned.payload.tallies));
      var binding := BindingOf(row, planned);
      var name := PreviewName(h, binding);
      if name !in previews {
        previews := previews[name := SavedPreview(name, row.id, row.version, binding, planned.payload)];
      }
      var ok := CompareAndSwap(row.id, row.version, Show(name, planned.payload.tallies));
      assert ok;
      return None;
    }

    /** The first half of a purge is refused exactly to others and while the stage is confirmed. */
    method BeginPurge(ghost h: Digests, env: Env, user: int, id: string) returns (r: Result<Stage, Refusal>)
      requires DbOk(h, Tables())
      modifies this`stages, this`previews
      ensures DbOk(h, Tables())
      ensures r.Refused? <==> !MayAct(old(Tables()), env, user, id) || old(stages)[id].status == Confirmed
      ensures r.Refused? ==> Tables() == old(Tables())
      ensures r.Ok? ==>
        && id in stages && r.value == stages[id] && stages[id].status == Purged
        && stages[id].choices.None? && stages[id].previewId.None? && NoPreviewOf(Tables(), id)
        && stages[id].objectKey == old(stages)[id].objectKey
        && (if old(stages)[id].status == Purged then Tables() == old(Tables())
            else OneRowMoved(old(Tables()), Tables(), id) && stages[id].retention == Some(env.now))
        && (forall p :: p in old(previews) && old(previews)[p].stageId != id ==>
              p in previews && previews[p] == old(previews)[p])
      ensures var spec := PurgeStart(old(Tables()), env, user, id);
        && (spec.Ok? ==> r == Ok(spec.value.row) && Tables() == spec.value.db)
        && (spec.Refused? ==> r == Refused(spec.error) && Tables() == old(Tables()))
    {
      var found := Owned(Tables(), env, user, id);
      if found.Refused? {
        return Refused(found.error);
      }
      var row := found.value;
      if row.status == Confirmed {
        return Refused(RunBusy);
      }
      PurgeStartWrites(h, Tables(), env, user, id);
      assert Shape(row);
      if row.status != Purged {
        EditKeepsOrder(row, PurgeAt(env.now));
      }
      if row.status != Purged {
        var ok := CompareAndSwap(row.id, row.version, PurgeAt(env.now));
        if !ok {
          return Refused(PreviewStale);
        }
        DeletePreviews(row.id);
        row := Apply(row, PurgeAt(env.now));
      }
      return Ok(row);
    }

    /** The key is let go exactly when the purged row is still the one the first half left. */
    method EndPurge(ghost h: Digests, env: Env, user: int, row: Stage) returns (refusal: Option<Refusal>)
      requires DbOk(h, Tables()) && Observed(Tables(), row) && row.status == Purged
      modifies this`stages
      ensures DbOk(h, Tables())
      ensures refusal.None? <==> StillCurrent(old(Tables()), env, user, row)
      ensures refusal.Some? ==> Tables() == old(Tables())
      ensures refusal.None? ==>
        && OneRowMoved(old(Tables()), Tables(), row.id)
        && stages[row.id] == row.(objectKey := None, version := row.version + 1)
      ensures var spec := PurgeFinish(old(Tables()), env, user, row);
        && (spec.Ok? ==> refusal == None && Tables() == spec.value)
        && (spec.Refused? ==> refusal == Some(spec.error) && Tables() == old(Tables()))
    {
      var latest := Current(Tables(), env, user, row);
      CurrentMeansSame(Tables(), env, user, row);
      if latest.Refused? {
        return Some(latest.error);
      }
      PurgeFinishWrites(h, Tables(), env, user, row);
      WriteMovesOneRow(h, Tables(), PurgeFinish(Tables(), env, user, row).value, row.id, DropObject);
      var ok := CompareAndSwap(row.id, row.version, DropObject);
      return if ok then None else Some(PreviewStale);
    }

    /** An accepted claim finds the stage confirmed by its command, or confirms it from the very preview it expects. */
    method ClaimConfirmation(ghost h: Digests, env: Env, user: int, input: ClaimInput, current: bool)
      returns (r: Result<nat, Refusal>)
      requires DbOk(h, Tables())
      modifies this`stages
      ensures DbOk(h, Tables())
      ensures r.Refused? ==> Tables() == old(Tables())
      ensures r.Ok? ==> current && ClaimAnswered(old(Tables()), Tables(), env, user, input, r.value)
      ensures var spec := Claim(old(Tables()), env, user, input, current);
        && (spec.Ok? ==> r == Ok(spec.value.version) && Tables() == spec.value.db)
        && (spec.Refused? ==> r == Refused(spec.error) && Tables() == old(Tables()))
    {
      var found := Owned(Tables(), env, user, input.stageId);
      if found.Refused? { return Refused(found.error); }
      var row := found.value;
      RowHasItsId(h, Tables(), input.stageId);
      if Claim(Tables(), env, user, input, current).Ok? {
        ClaimWrites(h, Tables(), env, user, input, current);
        ClaimAnswers(h, Tables(), env, user, input, current);
      }
      hide DbOk, ClaimAnswered, CanonicalClaim, Writes, Saved, InputAllowed;
      if row.cancelCommand.Some? { return Refused(PreviewStale); }
      var packet := CanonicalClaim(input.request);
      if packet.Refused? { return Refused(packet.error); }
      var request := packet.value;
      if request.Some? && (request.value.previewId != input.previewId || request.value.commandId != input.commandId
                           || request.value.version != input.expectedVersion) {
        return Refused(MappingInvalid);
      }
      if !InputAllowed(row, env.now) { return Refused(PreviewStale); }
      var receipt := Saved(Tables(), row, Some(input.previewId));
      if receipt.Refused? { return Refused(PreviewStale); }
      if !current { return Refused(PreviewStale); }
      if row.status == Confirmed && row.command == Some(input.commandId) && row.request == request {
        return Ok(row.version);
      }
      if row.status != Previewed || row.version != input.expectedVersion || input.commandId == ""
         || |input.commandId| > 128 {
        return Refused(PreviewStale);
      }
      var ok := CompareAndSwap(row.id, row.version, Confirm(input.commandId, input.previewId, request));
      assert ok;
      return Ok(row.version + 1);
    }

    /** An accepted cancellation is on the row of the confirmation it names, whether it was there or is new. */
    method RequestOwnedCancellation(ghost h: Digests, env: Env, user: int, input: CancelInput)
      returns (r: Result<nat, Refusal>)
      requires DbOk(h, Tables())
      modifies this`stages
      ensures DbOk(h, Tables())
      ensures r.Refused? ==> Tables() == old(Tables())
      ensures r.Ok? ==> CancelAnswered(old(Tables()), Tables(), env, user, input, r.value)
      ensures var spec := Cancellation(old(Tables()), env, user, input);
        && (spec.Ok? ==> r == Ok(spec.value.version) && Tables() == spec.value.db)
        && (spec.Refused? ==> r == Refused(spec.error) && Tables() == old(Tables()))
    {
      var found := Owned(Tables(), env, user, input.stageId);
      if found.Refused? { return Refused(found.error); }
      var row := found.value;
      RowHasItsId(h, Tables(), input.stageId);
      if Cancellation(Tables(), env, user, input).Ok? {
        CancellationWrites(h, Tables(), env, user, input);
        CancelAnswers(h, Tables(), env, user, input);
      }
      hide DbOk, CancelAnswered, Writes, CommandId;
      if !CommandId(input.cancellation) || !SafeCount(input.expectedVersion) { return Refused(MappingInvalid); }
      if row.command != Some(input.confirmation) || row.confirmedPreview != Some(input.previewId) {
        return Refused(PreviewStale);
      }
      var packet := CancelPacket(input.previewId, input.confirmation, input.cancellation);
      if row.cancelCommand == Some(input.cancellation) && row.cancelRequest == Some(packet) {
        return Ok(row.version);
      }
      if row.version != input.expectedVersion || row.cancelCommand.Some? { return Refused(PreviewStale); }
      var ok := CompareAndSwap(row.id, row.version, RequestCancel(input.cancellation, packet));
      assert ok;
      return Ok(row.version + 1);
    }

    /** An acknowledged bind is on a confirmed stage that nobody has cancelled, and never takes a lease back. */
    method BindConfirmedRun(ghost h: Digests, env: Env, user: int, b: RunBinding) returns (r: Result<nat, Refusal>)
      requires DbOk(h, Tables())
      modifies this`stages
      ensures DbOk(h, Tables())
      ensures r.Refused? ==> Tables() == old(Tables())
      ensures r.Ok? ==>
        && MayAct(old(Tables()), env, user, b.stageId) && stages.Keys == old(stages).Keys
        && stages[b.stageId].status == Confirmed && stages[b.stageId].cancelCommand.None?
        && stages[b.stageId].command == Some(b.commandId)
        && stages[b.stageId].nativeRun == Some(b.nativeRun) && stages[b.stageId].lease == Some(b.generation)
        && stages[b.stageId].version == r.value && b.stageVersion <= r.value
        && (old(stages)[b.stageId].lease.Some? ==> old(stages)[b.stageId].lease.value <= b.generation)
      ensures r.Ok? ==>
        if old(stages)[b.stageId].nativeRun == Some(b.nativeRun) && old(stages)[b.stageId].lease == Some(b.generation)
        then Tables() == old(Tables())
        else OneRowMoved(old(Tables()), Tables(), b.stageId) && old(stages)[b.stageId].version == b.stageVersion
      ensures var spec := BindRun(old(Tables()), env, user, b);
        && (spec.Ok? ==> r == Ok(spec.value.version) && Tables() == spec.value.db)
        && (spec.Refused? ==> r == Refused(spec.error) && Tables() == old(Tables()))
    {
      hide DbOk, Allowed, OneRowMoved, Writes;
      var found := Owned(Tables(), env, user, b.stageId);
      if found.Refused? { return Refused(found.error); }
      RowHasItsId(h, Tables(), b.stageId);
      var row := found.value;
      if row.cancelCommand.Some? || (row.nativeRun.Some? && row.nativeRun.value != b.nativeRun)
         || (row.lease.Some? && b.generation < row.lease.value) {
        return Refused(PreviewStale);
      }
      if row.status != Confirmed || row.target != b.target || row.previewId != Some(b.previewId)
         || row.command != Some(b.commandId) || b.stageVersion > row.version {
        return Refused(PreviewStale);
      }
      if row.nativeRun == Some(b.nativeRun) && row.lease == Some(b.generation) { return Ok(row.version); }
      if row.version != b.stageVersion { return Refused(PreviewStale); }
      BindRunWrites(h, Tables(), env, user, b);
      MoveChanges(Tables(), BindRun(Tables(), env, user, b).value.db, b.stageId, Bind(b.nativeRun, b.generation));
      WriteMovesOneRow(h, Tables(), BindRun(Tables(), env, user, b).value.db, b.stageId,
                       Bind(b.nativeRun, b.generation));
      var ok := CompareAndSwap(row.id, row.version, Bind(b.nativeRun, b.generation));
      assert ok;
      return Ok(row.version + 1);
    }

    /** Recorded progress moves the bound stage on once; an end is dated in the past and sets the deadline. */
    method MarkSystemProgress(ghost h: Digests, env: Env, verified: bool, b: RunBinding, phase: ApplyPhase,
                              terminalAt: Option<int>)
      returns (version: Option<nat>)
      requires DbOk(h, Tables())
      modifies this`stages
      ensures DbOk(h, Tables())
      ensures version.None? ==> Tables() == old(Tables())
      ensures version.Some? ==>
        verified && ProgressRecorded(old(Tables()), Tables(), env, b, phase, terminalAt, version.value)
      ensures var spec := MarkProgress(old(Tables()), env, verified, b, phase, terminalAt);
        && (spec.Some? ==> version == Some(spec.value.version) && Tables() == spec.value.db)
        && (spec.None? ==> version == None && Tables() == old(Tables()))
    {
      hide DbOk, Writes, ProgressRecorded;
      if MarkProgress(Tables(), env, verified, b, phase, terminalAt).Some? {
        MarkProgressWrites(h, Tables(), env, verified, b, phase, terminalAt);
        ProgressRecords(h, Tables(), env, verified, b, phase, terminalAt);
      }
      if env.nonce != b.target || !verified || b.stageId !in stages { return None; }
      RowHasItsId(h, Tables(), b.stageId);
      var row := stages[b.stageId];
      if row.version != b.stageVersion || row.status != Confirmed || row.target != b.target
         || row.nativeRun != Some(b.nativeRun) || (row.lease.Some? && row.lease.value > b.generation)
         || row.previewId != Some(b.previewId) || row.command != Some(b.commandId) {
        return None;
      }
      var terminal := Terminal(PhaseStatus(phase));
      if terminal && (terminalAt.None? || terminalAt.value > env.now) { return None; }
      var deadline := if terminal then Some(terminalAt.value + RETENTION_MS) else None;
      var ok := CompareAndSwap(row.id, row.version, Progress(PhaseStatus(phase), deadline, b.generation));
      assert ok;
      return Some(row.version + 1);
    }

    /** One row of a sweep: revoke, unlink, then let go of the key. */
    method SweepRow(id: string, now: int)
      requires id in stages && stages[id].id == id
      modifies this
      ensures stages == old(stages)[id := Swept(old(stages)[id], now)]
      ensures previews == ReceiptsLeft(old(previews), {id})
      ensures objects == old(objects) - KeysOf(old(stages)[id])
    {
      var row := stages[id];
      var ok := CompareAndSwap(row.id, row.version, PurgeAt(now));
      DeletePreviews(row.id);
      if row.objectKey.Some? {
        objects := objects - {row.objectKey.value};
        ok := CompareAndSwap(row.id, row.version + 1, DropObject);
      }
    }

    /** The tables and the directory once the expired rows in `done` are swept. */
    ghost predicate SweptSoFar(before: Db, files: map<string, seq<int>>, done: set<string>, now: int)
      reads this
    {
      && SweptRows(before.stages, done, now, stages)
      && previews == ReceiptsLeft(before.previews, done)
      && objects == files - FilesOf(before.stages, done)
    }

    method SweepNext(id: string, now: int, ghost before: Db, ghost files: map<string, seq<int>>,
                     ghost done: set<string>)
      requires SweptSoFar(before, files, done, now) && id in before.stages && id !in done
      requires forall i :: i in stages ==> stages[i].id == i
      modifies this
      ensures SweptSoFar(before, files, done + {id}, now) && stages.Keys == old(stages).Keys
      ensures forall i :: i in stages ==> stages[i].id == i
    {
      hide Swept;
      hide FilesOf;
      hide ReceiptsLeft;
      hide KeysOf;
      hide SweptRows;
      StillRows(before.stages, done, now, stages);
      SweptOneMore(before.stages, done, now, stages, id);
      UntouchedRow(before.stages, done, now, stages, id);
      SweepRow(id, now);
      FilesOfOneMore(before.stages, done, id);
      ReceiptsLeftOneMore(before.previews, done, id);
      RemovedTwice(files, FilesOf(before.stages, done), KeysOf(before.stages[id]));
    }

    /**
     * The row half of a sweep when nothing runs beside it: every expired row ends
     * purged without previews and without its file, and no other row, preview or
     * file is touched.
     */
    method SweepRows(now: int, nonce: string, closed: set<int>)
      requires forall id :: id in stages ==> stages[id].id == id
      modifies this
      ensures var expired := ExpiredIds(old(stages), now, nonce, closed);
        && stages.Keys == old(stages).Keys
        && (forall id :: id in old(stages) && id in expired ==>
              stages[id].status == Purged && stages[id].objectKey.None? && stages[id].retention == Some(now))
        && (forall id :: id in old(stages) && id !in expired ==> stages[id] == old(stages)[id])
        && previews == ReceiptsLeft(old(previews), expired)
        && objects == old(objects) - FilesOf(old(stages), expired)
    {
      hide FilesOf;
      hide ReceiptsLeft;
      hide SweptRows;
      hide ExpiredIds;
      var expired := ExpiredIds(stages, now, nonce, closed);
      ExpiredAreRows(stages, now, nonce, closed);
      var todo := expired;
      ghost var done: set<string> := {};
      ghost var before, files := Tables(), objects;
      NothingSwept(stages, previews, now);
      while todo != {}
        invariant done == expired - todo && todo <= expired <= before.stages.Keys && stages.Keys == before.stages.Keys
        invariant forall id :: id in stages ==> stages[id].id == id
        invariant SweptSoFar(before, files, done, now)
        decreases |todo|
      {
        var id :| id in todo;
        SweepNext(id, now, before, files, done);
        todo, done := todo - {id}, done + {id};
      }
      assert done == expired;
      SweptRowsArePurged(before.stages, expired, now, stages);
    }
  }
}
