/**
 * One row of the private `stages` table, the edits the service makes to it, and
 * what every edit keeps. All writes of the service go through `Cas`, so an
 * `Edit` is exactly the SET list of one UPDATE statement.
 */
module CsvStage {
  import opened Wrappers

  datatype Status = Staged | Previewed | Confirmed | Completed | Cancelled | Failed | Purged

  /** A strict apply packet after it has been parsed and put in canonical key order. */
  datatype ClaimPacket = ClaimPacket(
    previewId: string, commandId: string, version: int,
    selectedRows: int, sourceSeconds: int, destinationSeconds: int,
    acknowledgeExclusions: bool, acknowledgeDifference: bool, acknowledgePeople: bool)

  datatype CancelPacket = CancelPacket(previewId: string, confirmation: string, cancellation: string)

  datatype Stage = Stage(
    id: string, target: string, owner: int, version: nat, status: Status,
    sha: string, bytes: int, objectKey: Option<string>, createdAt: int, expiresAt: int,
    retention: Option<int>, choices: Option<string>, sourceId: Option<string>,
    previewId: Option<string>, summary: Option<string>,
    confirmedPreview: Option<string>, request: Option<ClaimPacket>,
    cancelCommand: Option<string>, cancelRequest: Option<CancelPacket>,
    command: Option<string>, nativeRun: Option<int>, lease: Option<int>)

  /** A fresh row as the upload inserts it. */
  function NewStage(id: string, target: string, owner: int, sha: string, bytes: int,
                    objectKey: string, createdAt: int, expiresAt: int): Stage
  {
    Stage(id, target, owner, 0, Staged, sha, bytes, Some(objectKey), createdAt, expiresAt,
          None, None, None, None, None, None, None, None, None, None, None, None)
  }

  datatype Edit =
    | Choose(choices: string, source: string)
    | Show(preview: string, summary: string)
    | PurgeAt(now: int)
    | DropObject
    | RequestCancel(cancellation: string, packet: CancelPacket)
    | Confirm(command: string, preview: string, request: Option<ClaimPacket>)
    | Bind(run: int, generation: int)
    | Progress(status: Status, retention: Option<int>, generation: int)

  /** The columns one UPDATE sets; every other column keeps the database's value. */
  function Apply(row: Stage, e: Edit): Stage {
    var next := match e
      case Choose(choices, source) =>
        row.(choices := Some(choices), sourceId := Some(source), status := Staged,
             previewId := None, summary := None)
      case Show(preview, summary) =>
        row.(status := Previewed, previewId := Some(preview), summary := Some(summary))
      case PurgeAt(now) =>
        row.(status := Purged, choices := None, previewId := None, retention := Some(now))
      case DropObject =>
        row.(objectKey := None)
      case RequestCancel(cancellation, packet) =>
        row.(cancelCommand := Some(cancellation), cancelRequest := Some(packet))
      case Confirm(command, preview, request) =>
        row.(status := Confirmed, command := Some(command), confirmedPreview := Some(preview),
             request := request)
      case Bind(run, generation) =>
        row.(nativeRun := Some(run), lease := Some(generation))
      case Progress(status, retention, generation) =>
        row.(status := status, retention := retention, lease := Some(generation));
    next.(version := row.version + 1)
  }

  /** A stage a new upload of the same file may still be pointed at. */
  predicate Live(row: Stage) { row.status == Staged || row.status == Previewed }

  predicate Terminal(status: Status) {
    status == Completed || status == Cancelled || status == Failed
  }

  function Rank(status: Status): nat {
    match status
    case Staged | Previewed => 0
    case Confirmed => 1
    case Completed | Cancelled | Failed => 2
    case Purged => 3
  }

  // ---- what may be written to which row ------------------------------------------------

  /** The guard under which the service issues each edit, read off the row it is applied to. */
  predicate Allowed(row: Stage, e: Edit) {
    match e
    case Choose(_, _) => Live(row)
    case Show(_, _) => Live(row) && row.choices.Some? && row.sourceId.Some?
    case PurgeAt(_) => true
    case DropObject => row.status == Purged
    case RequestCancel(_, _) => row.command.Some? && row.cancelCommand.None?
    case Confirm(command, preview, request) =>
      && row.status == Previewed
      && (row.previewId == Some(preview) || (preview == "" && request.None?))
    case Bind(run, generation) =>
      && row.status == Confirmed && row.cancelCommand.None?
      && (row.nativeRun.None? || row.nativeRun == Some(run))
      && (row.lease.None? || row.lease.value <= generation)
    case Progress(status, _, generation) =>
      && row.status == Confirmed && row.nativeRun.Some?
      && (status == Confirmed || Terminal(status))
      && (row.lease.None? || row.lease.value <= generation)
  }

  /** Which columns are filled in which status. */
  predicate Shape(row: Stage) {
    && (row.status != Purged ==> row.objectKey.Some?)
    && (row.status == Staged ==> row.previewId.None?)
    && (Live(row) ==> row.command.None?)
    && (row.status == Previewed ==>
          row.previewId.Some? && row.choices.Some? && row.sourceId.Some?)
    && (Rank(row.status) in {1, 2} ==>
          && row.previewId.Some? && row.choices.Some? && row.sourceId.Some?
          && row.command.Some? && row.confirmedPreview.Some?
          && (row.confirmedPreview == row.previewId
              || (row.confirmedPreview == Some("") && row.request.None?)))
    && (Terminal(row.status) ==> row.nativeRun.Some?)
    && (row.status == Purged ==> row.choices.None? && row.previewId.None?)
    && (row.command.None? ==>
          && row.request.None? && row.confirmedPreview.None? && row.cancelCommand.None?
          && row.nativeRun.None?)
    && (row.cancelCommand.None? <==> row.cancelRequest.None?)
    && (row.nativeRun.None? <==> row.lease.None?)
  }

  /** A column that is written at most once. */
  predicate Kept<T(==)>(before: Option<T>, after: Option<T>) {
    before.Some? ==> after == before
  }

  /**
   * How one row may differ from an earlier observation of it. Reflexive and
   * transitive, so it relates any two states of a run.
   */
  predicate Evolves(before: Stage, after: Stage) {
    && after.id == before.id && after.target == before.target && after.owner == before.owner
    && after.sha == before.sha && after.bytes == before.bytes
    && after.createdAt == before.createdAt && after.expiresAt == before.expiresAt
    && before.version <= after.version
    && (before.version == after.version ==> before == after)
    && Rank(before.status) <= Rank(after.status)
    && Kept(before.command, after.command)
    && (before.command.Some? ==>
          && after.request == before.request && after.confirmedPreview == before.confirmedPreview
          && after.sourceId == before.sourceId)
    && Kept(before.cancelCommand, after.cancelCommand)
    && Kept(before.cancelRequest, after.cancelRequest)
    && Kept(before.nativeRun, after.nativeRun)
    && (before.cancelCommand.Some? ==> after.nativeRun == before.nativeRun)
    && (before.lease.Some? ==> after.lease.Some? && before.lease.value <= after.lease.value)
    && (after.objectKey == before.objectKey || after.objectKey.None?)
  }

  lemma EvolvesTransitive(a: Stage, b: Stage, c: Stage)
    requires Evolves(a, b) && Evolves(b, c)
    ensures Evolves(a, c)
  {
    if a.version == c.version {
      assert a == b == c;
    }
  }

  /** Every guarded edit keeps the shape of the row and moves it forward by exactly one version. */
  lemma EditKeepsOrder(row: Stage, e: Edit)
    requires Shape(row) && Allowed(row, e)
    ensures Shape(Apply(row, e))
    ensures Evolves(row, Apply(row, e))
    ensures Apply(row, e).version == row.version + 1
    ensures Live(Apply(row, e)) ==> Live(row)
  {
    match e
    case Choose(_, _) =>
    case Show(_, _) =>
    case PurgeAt(_) =>
    case DropObject =>
    case RequestCancel(_, _) =>
    case Confirm(_, _, _) =>
    case Bind(_, _) =>
    case Progress(_, _, _) =>
  }
}
