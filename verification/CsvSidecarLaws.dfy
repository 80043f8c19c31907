/**
 * What every stretch of the staging service keeps in the sidecar database, and
 * that each write is one guarded edit of one row.
 */
module CsvSidecarLaws {
  import opened Wrappers
  import opened CsvStage
  import opened CsvSidecar

  /** The saved preview really is this row's: same target, owner, file and present choices. */
  predicate Describes(h: Digests, p: SavedPreview, row: Stage) {
    && p.stageId == row.id
    && p.binding.stageId == row.id && p.binding.target == row.target && p.binding.owner == row.owner
    && p.binding.sha == row.sha && p.binding.bytes == row.bytes
    && row.choices == Some(p.binding.choices)
    && p.id == PreviewName(h, p.binding)
  }

  predicate RowsOk(db: Db) {
    forall id :: id in db.stages ==> db.stages[id].id == id && Shape(db.stages[id])
  }

  /** Every previewed, confirmed or finished stage can still produce its preview. */
  predicate PreviewsHeld(h: Digests, db: Db) {
    forall id :: id in db.stages && db.stages[id].previewId.Some? ==>
      && db.stages[id].previewId.value in db.previews
      && Describes(h, db.previews[db.stages[id].previewId.value], db.stages[id])
  }

  /** A receipt is stored under the name of its binding and belongs to a stage that is not purged. */
  predicate ReceiptsOk(h: Digests, db: Db) {
    forall p :: p in db.previews ==>
      && db.previews[p].id == p && p == PreviewName(h, db.previews[p].binding)
      && db.previews[p].stageId == db.previews[p].binding.stageId
      && db.previews[p].stageId in db.stages
      && db.stages[db.previews[p].stageId].status != Purged
  }

  predicate DbOk(h: Digests, db: Db) {
    RowsOk(db) && PreviewsHeld(h, db) && ReceiptsOk(h, db)
  }

  /** A row somebody read earlier: the database has only moved forward since. */
  predicate Observed(db: Db, row: Stage) {
    row.id in db.stages && Shape(row) && Evolves(row, db.stages[row.id])
  }

  predicate RowsEvolve(before: Db, after: Db) {
    forall id :: id in before.stages ==>
      id in after.stages && Evolves(before.stages[id], after.stages[id])
  }

  /** `after` is `before` with one guarded edit of one row, and whatever happened to the receipts. */
  predicate Writes(before: Db, after: Db, id: string, e: Edit) {
    && id in before.stages && Allowed(before.stages[id], e)
    && after.stages == before.stages[id := Apply(before.stages[id], e)]
  }

  lemma WriteMovesForward(before: Db, after: Db, id: string, e: Edit)
    requires RowsOk(before) && Writes(before, after, id, e)
    ensures RowsOk(after) && RowsEvolve(before, after)
    ensures after.stages[id].version == before.stages[id].version + 1
    ensures forall other :: other in after.stages && other != id ==>
      other in before.stages && after.stages[other] == before.stages[other]
  {
    EditKeepsOrder(before.stages[id], e);
  }

  lemma ObservedStays(before: Db, after: Db, row: Stage)
    requires Observed(before, row) && RowsEvolve(before, after)
    ensures Observed(after, row)
  {
    EvolvesTransitive(row, before.stages[row.id], after.stages[row.id]);
  }

  /**
   * No ABA: when a re-read after an await returns the version read before it,
   * it returns the very same row.
   */
  lemma CurrentIsTheRowRead(db: Db, env: Env, user: int, row: Stage)
    requires RowsOk(db) && Observed(db, row)
    ensures Current(db, env, user, row).Ok? ==>
      db.stages[row.id] == row && Current(db, env, user, row).value == row
  {
  }

  // ---- one lemma for each stretch that writes --------------------------------------------

  /** A fresh row of its own id beside the others. */
  lemma NewRowKeeps(h: Digests, db: Db, row: Stage)
    requires DbOk(h, db) && row.id !in db.stages && Shape(row) && row.previewId.None? && row.status != Purged
    ensures var next := db.(stages := db.stages[row.id := row]); DbOk(h, next) && RowsEvolve(db, next)
  {
    hide Shape, Describes, PreviewName;
  }

  lemma AdmitKeeps(h: Digests, db: Db, env: Env, user: int, nonce: string, id: string, sha: string,
                   bytes: int, key: string)
    requires DbOk(h, db)
    requires Admit(db, env, user, nonce, id, sha, bytes, key).Ok?
    requires Admit(db, env, user, nonce, id, sha, bytes, key).value.Inserted?
    ensures var next := Admit(db, env, user, nonce, id, sha, bytes, key).value.db;
      && DbOk(h, next) && RowsEvolve(db, next) && id !in db.stages
      && next.stages == db.stages[id := NewStage(id, nonce, user, sha, bytes, key, env.now, env.now + RETENTION_MS)]
  {
    NewRowKeeps(h, db, NewStage(id, nonce, user, sha, bytes, key, env.now, env.now + RETENTION_MS));
    hide DbOk, RowsEvolve, HasDuplicate;
  }

  lemma MapCommitWrites(h: Digests, db: Db, env: Env, user: int, row: Stage, choices: string, source: string)
    requires DbOk(h, db) && Observed(db, row) && Live(row)
    requires MapCommit(db, env, user, row, choices, source).Ok?
    ensures var next := MapCommit(db, env, user, row, choices, source).value;
      DbOk(h, next) && Writes(db, next, row.id, Choose(choices, source))
  {
    CurrentIsTheRowRead(db, env, user, row);
    EditKeepsOrder(row, Choose(choices, source));
  }

  /** The receipt of a binding: the one just stored, or the one that was there under the same digest. */
  lemma ReceiptDescribes(h: Digests, db: Db, row: Stage, planned: Planned)
    requires DbOk(h, db) && Injective(h.binding) && row.choices.Some?
    ensures var name := PreviewName(h, BindingOf(row, planned));
      name in db.previews ==> Describes(h, db.previews[name], row) && db.previews[name].id == name
  {
    var binding := BindingOf(row, planned);
    var name := PreviewName(h, binding);
    if name in db.previews {
      var known := db.previews[name].binding;
      assert name[8..] == h.binding(binding);
      assert PreviewName(h, known)[8..] == h.binding(known);
      assert known == binding;
    }
  }

  lemma NewReceiptDescribes(h: Digests, row: Stage, planned: Planned)
    requires row.choices.Some?
    ensures var binding := BindingOf(row, planned);
      var name := PreviewName(h, binding);
      Describes(h, SavedPreview(name, row.id, row.version, binding, planned.payload), row)
  {
  }

  /** `next` is `db` with the preview of a row shown under a receipt that describes it. */
  predicate Shows(h: Digests, db: Db, next: Db, row: Stage, name: string, summary: string) {
    && row.id in db.stages && db.stages[row.id] == row && Allowed(row, Show(name, summary))
    && next.stages == db.stages[row.id := Apply(row, Show(name, summary))]
    && name in next.previews && Describes(h, next.previews[name], row) && next.previews[name].id == name
    && (forall p :: p in db.previews ==> p in next.previews && next.previews[p] == db.previews[p])
    && (forall p :: p in next.previews && p !in db.previews ==> p == name)
  }

  lemma ShowKeepsRows(h: Digests, db: Db, next: Db, row: Stage, name: string, summary: string)
    requires RowsOk(db) && Shows(h, db, next, row, name, summary)
    ensures RowsOk(next)
  {
    EditKeepsOrder(row, Show(name, summary));
    hide Shape, Evolves, Allowed, Describes;
  }

  lemma ShowKeepsPreviews(h: Digests, db: Db, next: Db, row: Stage, name: string, summary: string)
    requires PreviewsHeld(h, db) && Shows(h, db, next, row, name, summary)
    ensures PreviewsHeld(h, next)
  {
    assert Describes(h, next.previews[name], next.stages[row.id]);
    hide Describes, Allowed;
  }

  lemma ShowKeepsReceipts(h: Digests, db: Db, next: Db, row: Stage, name: string, summary: string)
    requires ReceiptsOk(h, db) && Shows(h, db, next, row, name, summary)
    ensures ReceiptsOk(h, next)
  {
  }

  lemma ShowKeeps(h: Digests, db: Db, next: Db, row: Stage, name: string, summary: string)
    requires DbOk(h, db) && Shows(h, db, next, row, name, summary)
    ensures DbOk(h, next)
  {
    hide RowsOk, PreviewsHeld, ReceiptsOk, Shows;
    ShowKeepsRows(h, db, next, row, name, summary);
    ShowKeepsPreviews(h, db, next, row, name, summary);
    ShowKeepsReceipts(h, db, next, row, name, summary);
  }

  lemma PreviewCommitWrites(h: Digests, db: Db, env: Env, user: int, row: Stage, planned: Planned)
    requires DbOk(h, db) && Injective(h.binding)
    requires Observed(db, row) && Live(row) && row.choices.Some? && row.sourceId.Some?
    requires PreviewCommit(db, env, h, user, row, planned).Ok?
    ensures var next := PreviewCommit(db, env, h, user, row, planned).value;
      && DbOk(h, next)
      && Writes(db, next, row.id, Show(PreviewName(h, BindingOf(row, planned)), planned.payload.tallies))
  {
    CurrentIsTheRowRead(db, env, user, row);
    ReceiptDescribes(h, db, row, planned);
    var name := PreviewName(h, BindingOf(row, planned));
    NewReceiptDescribes(h, row, planned);
    hide Shape, Evolves, PreviewName, BindingOf, Describes, RowsOk, PreviewsHeld, ReceiptsOk;
    ShowKeeps(h, db, PreviewCommit(db, env, h, user, row, planned).value, row, name, planned.payload.tallies);
  }

  lemma PurgeKeeps(h: Digests, db: Db, next: Db, row: Stage, now: int)
    requires DbOk(h, db) && row.id in db.stages && db.stages[row.id] == row
    requires next == WithoutPreviews(db.(stages := db.stages[row.id := Apply(row, PurgeAt(now))]), row.id)
    ensures DbOk(h, next) && Writes(db, next, row.id, PurgeAt(now))
  {
    EditKeepsOrder(row, PurgeAt(now));
  }

  lemma PurgeStartWrites(h: Digests, db: Db, env: Env, user: int, id: string)
    requires DbOk(h, db)
    requires PurgeStart(db, env, user, id).Ok?
    ensures var step := PurgeStart(db, env, user, id).value;
      && DbOk(h, step.db) && id in step.db.stages && step.db.stages[id] == step.row
      && step.row.status == Purged
      && (step.db == db || Writes(db, step.db, id, PurgeAt(env.now)))
  {
    if db.stages[id].status != Purged {
      PurgeKeeps(h, db, PurgeStart(db, env, user, id).value.db, db.stages[id], env.now);
    }
  }

  lemma PurgeFinishWrites(h: Digests, db: Db, env: Env, user: int, row: Stage)
    requires DbOk(h, db) && Observed(db, row) && row.status == Purged
    requires PurgeFinish(db, env, user, row).Ok?
    ensures DbOk(h, PurgeFinish(db, env, user, row).value)
    ensures Writes(db, PurgeFinish(db, env, user, row).value, row.id, DropObject)
  {
    CurrentIsTheRowRead(db, env, user, row);
    EditKeepsOrder(row, DropObject);
  }

  lemma SweepPurgeWrites(h: Digests, db: Db, row: Stage, now: int)
    requires DbOk(h, db) && Observed(db, row)
    requires SweepPurge(db, row, now).Ok?
    ensures var next := SweepPurge(db, row, now).value;
      && DbOk(h, next) && Writes(db, next, row.id, PurgeAt(now))
      && next.stages[row.id] == Apply(row, PurgeAt(now))
  {
    PurgeKeeps(h, db, SweepPurge(db, row, now).value, row, now);
  }

  lemma SweepDropWrites(h: Digests, db: Db, row: Stage)
    requires DbOk(h, db) && row.id in db.stages && db.stages[row.id].status == Purged
    requires SweepDrop(db, row).Ok?
    ensures DbOk(h, SweepDrop(db, row).value)
    ensures Writes(db, SweepDrop(db, row).value, row.id, DropObject)
  {
    EditKeepsOrder(db.stages[row.id], DropObject);
  }

  /** A claim either replays, writing nothing, or confirms the stage once. */
  lemma ClaimWrites(h: Digests, db: Db, env: Env, user: int, input: ClaimInput, current: bool)
    requires DbOk(h, db)
    requires Claim(db, env, user, input, current).Ok?
    ensures var next := Claim(db, env, user, input, current).value.db;
      && DbOk(h, next)
      && (next == db
          || Writes(db, next, input.stageId,
                    Confirm(input.commandId, input.previewId, CanonicalClaim(input.request).value)))
  {
    var row := db.stages[input.stageId];
    if row.status == Previewed {
      EditKeepsOrder(row, Confirm(input.commandId, input.previewId, CanonicalClaim(input.request).value));
    }
  }

  lemma CancellationWrites(h: Digests, db: Db, env: Env, user: int, input: CancelInput)
    requires DbOk(h, db)
    requires Cancellation(db, env, user, input).Ok?
    ensures var next := Cancellation(db, env, user, input).value.db;
      && DbOk(h, next)
      && (next == db
          || Writes(db, next, input.stageId,
                    RequestCancel(input.cancellation,
                                  CancelPacket(input.previewId, input.confirmation, input.cancellation))))
  {
    var packet := CancelPacket(input.previewId, input.confirmation, input.cancellation);
    if db.stages[input.stageId].cancelCommand.None? {
      EditKeepsOrder(db.stages[input.stageId], RequestCancel(input.cancellation, packet));
    }
  }

  lemma BindRunWrites(h: Digests, db: Db, env: Env, user: int, b: RunBinding)
    requires DbOk(h, db)
    requires BindRun(db, env, user, b).Ok?
    ensures var next := BindRun(db, env, user, b).value.db;
      && DbOk(h, next)
      && (next == db || Writes(db, next, b.stageId, Bind(b.nativeRun, b.generation)))
  {
    if db.stages[b.stageId].version == b.stageVersion
       && Allowed(db.stages[b.stageId], Bind(b.nativeRun, b.generation)) {
      EditKeepsOrder(db.stages[b.stageId], Bind(b.nativeRun, b.generation));
    }
  }

  lemma MarkProgressWrites(h: Digests, db: Db, env: Env, verified: bool, b: RunBinding,
                           phase: ApplyPhase, terminalAt: Option<int>)
    requires DbOk(h, db)
    requires MarkProgress(db, env, verified, b, phase, terminalAt).Some?
    ensures var next := MarkProgress(db, env, verified, b, phase, terminalAt).value.db;
      && DbOk(h, next)
      && Writes(db, next, b.stageId,
                Progress(PhaseStatus(phase),
                         if Terminal(PhaseStatus(phase)) then Some(terminalAt.value + RETENTION_MS) else None,
                         b.generation))
  {
    var deadline := if Terminal(PhaseStatus(phase)) then Some(terminalAt.value + RETENTION_MS) else None;
    EditKeepsOrder(db.stages[b.stageId], Progress(PhaseStatus(phase), deadline, b.generation));
  }
}
