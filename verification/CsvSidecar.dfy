/**
 * The synchronous stretches of the staging service, one function each, over the
 * two tables of the sidecar database. Nothing else can run inside a stretch;
 * anything may run between two of them.
 */
module CsvSidecar {
  import opened Wrappers
  import opened HexText
  import opened CsvStage

  const RETENTION_MS := 24 * 60 * 60 * 1000
  const MAX_BYTES := 5 * 1024 * 1024

  datatype Refusal =
    | AdministratorRequired | RunNotFound | PreviewStale | RunBusy | MappingInvalid
    | SourceChoiceRequired | HashMismatch | LengthMismatch | FileTooLarge | UploadAborted
    | StorageUnavailable

  /** What a preview is bound to: the array the service serialises and digests. */
  datatype Binding = Binding(
    stageId: string, target: string, owner: int, sha: string, bytes: int,
    choices: string, destinationVersion: string, history: string)

  datatype Payload = Payload(result: string, tallies: string, diagnostics: string, catalog: string)

  datatype SavedPreview = SavedPreview(
    id: string, stageId: string, stageVersion: nat, binding: Binding, payload: Payload)

  datatype Db = Db(stages: map<string, Stage>, previews: map<string, SavedPreview>)

  /** The main database and clock as one stretch sees them. */
  datatype Env = Env(now: int, nonce: string, allowed: bool)

  /** SHA-256 of a file's bytes, and of a serialised binding. */
  datatype Digests = Digests(content: seq<int> -> string, binding: Binding -> string)

  ghost predicate Injective(h: Binding -> string) {
    forall a, b {:trigger h(a), h(b)} :: h(a) == h(b) ==> a == b
  }

  function PreviewName(h: Digests, b: Binding): string { "preview_" + h.binding(b) }

  // ---- reads -----------------------------------------------------------------------------

  function Owned(db: Db, env: Env, user: int, id: string): Result<Stage, Refusal> {
    if !env.allowed then Refused(AdministratorRequired)
    else if id !in db.stages then Refused(RunNotFound)
    else if db.stages[id].owner != user || db.stages[id].target != env.nonce then Refused(RunNotFound)
    else Ok(db.stages[id])
  }

  predicate InputAllowed(row: Stage, now: int) {
    row.objectKey.Some? && row.status != Purged && now < row.expiresAt
  }

  /** Re-reads the row after an await and refuses when its version has moved. */
  function Current(db: Db, env: Env, user: int, row: Stage): Result<Stage, Refusal> {
    match Owned(db, env, user, row.id)
    case Refused(e) => Refused(e)
    case Ok(latest) => if latest.version != row.version then Refused(PreviewStale) else Ok(latest)
  }

  /** An absent and an empty preview id both mean "whichever is current". */
  function Saved(db: Db, row: Stage, asked: Option<string>): Result<SavedPreview, Refusal> {
    if row.previewId.None? || row.previewId.value == "" then Refused(PreviewStale)
    else if asked.Some? && asked.value != "" && asked != row.previewId then Refused(PreviewStale)
    else if row.previewId.value !in db.previews then Refused(PreviewStale)
    else if db.previews[row.previewId.value].stageId != row.id then Refused(PreviewStale)
    else Ok(db.previews[row.previewId.value])
  }

  // ---- the only two ways to write --------------------------------------------------------

  function Cas(db: Db, id: string, version: nat, e: Edit): Result<Db, Refusal> {
    if id in db.stages && db.stages[id].version == version
    then Ok(db.(stages := db.stages[id := Apply(db.stages[id], e)]))
    else Refused(PreviewStale)
  }

  function WithoutPreviews(db: Db, stageId: string): Db {
    db.(previews := map p | p in db.previews && db.previews[p].stageId != stageId :: db.previews[p])
  }

  // ---- upload ----------------------------------------------------------------------------

  predicate Duplicates(row: Stage, nonce: string, user: int, sha: string, bytes: int, now: int) {
    && row.target == nonce && row.owner == user && row.sha == sha && row.bytes == bytes
    && Live(row) && now < row.expiresAt
  }

  predicate HasDuplicate(db: Db, nonce: string, user: int, sha: string, bytes: int, now: int) {
    exists id :: id in db.stages && Duplicates(db.stages[id], nonce, user, sha, bytes, now)
  }

  datatype Admission = Inserted(db: Db) | Duplicate

  /** The last stretch of an upload: authority again, then one row or the existing one. */
  function Admit(db: Db, env: Env, user: int, nonce: string, id: string, sha: string, bytes: int,
                 key: string): Result<Admission, Refusal>
  {
    if !env.allowed || env.nonce != nonce then Refused(AdministratorRequired)
    else if HasDuplicate(db, nonce, user, sha, bytes, env.now) then Ok(Duplicate)
    else if id in db.stages then Refused(StorageUnavailable)
    else
      var row := NewStage(id, nonce, user, sha, bytes, key, env.now, env.now + RETENTION_MS);
      Ok(Inserted(db.(stages := db.stages[id := row])))
  }

  // ---- mapping and preview ---------------------------------------------------------------

  /** `known` and `valid` stand for the field checks before and after the version check. */
  datatype MapInput = MapInput(version: int, known: bool, valid: bool, choices: string)

  function MapStart(db: Db, env: Env, user: int, id: string, input: MapInput): Result<Stage, Refusal> {
    match Owned(db, env, user, id)
    case Refused(e) => Refused(e)
    case Ok(row) =>
      if !InputAllowed(row, env.now) then Refused(PreviewStale)
      else if !input.known then Refused(MappingInvalid)
      else if !Live(row) || input.version != row.version then Refused(PreviewStale)
      else if !input.valid then Refused(MappingInvalid)
      else Ok(row)
  }

  function MapCommit(db: Db, env: Env, user: int, row: Stage, choices: string, source: string): Result<Db, Refusal> {
    match Current(db, env, user, row)
    case Refused(e) => Refused(e)
    case Ok(_) => Cas(db, row.id, row.version, Choose(choices, source))
  }

  datatype PreviewPlan = Receipt(saved: SavedPreview) | Calculate(row: Stage)

  function PreviewStart(db: Db, env: Env, user: int, id: string,
                        expected: Option<string>): Result<PreviewPlan, Refusal>
  {
    match Owned(db, env, user, id)
    case Refused(e) => Refused(e)
    case Ok(row) =>
      if !InputAllowed(row, env.now) then Refused(PreviewStale)
      else if !Live(row) then
        if expected.None? || expected.value == "" || expected != row.previewId then Refused(PreviewStale)
        else
          match Saved(db, row, expected)
          case Refused(e) => Refused(e)
          case Ok(p) => Ok(Receipt(p))
      else if expected.Some? && expected != row.previewId then Refused(PreviewStale)
      else if row.choices.None? || row.sourceId.None? then Refused(SourceChoiceRequired)
      else Ok(Calculate(row))
  }

  /** After the object has been read back: it must still be the admitted file. */
  function PreviewRead(db: Db, env: Env, h: Digests, user: int, row: Stage,
                       content: Option<seq<int>>): Result<Stage, Refusal>
  {
    if content.None? || |content.value| != row.bytes || h.content(content.value) != row.sha
    then Refused(HashMismatch)
    else Current(db, env, user, row)
  }

  /** What the worker computed from the file and the destination. */
  datatype Planned = Planned(destinationVersion: string, history: string, payload: Payload)

  function BindingOf(row: Stage, planned: Planned): Binding
    requires row.choices.Some?
  {
    Binding(row.id, row.target, row.owner, row.sha, row.bytes, row.choices.value,
            planned.destinationVersion, planned.history)
  }

  /** INSERT OR IGNORE followed by the compare-and-swap, in one transaction. */
  function PreviewCommit(db: Db, env: Env, h: Digests, user: int, row: Stage, planned: Planned): Result<Db, Refusal>
    requires row.choices.Some?
  {
    match Current(db, env, user, row)
    case Refused(e) => Refused(e)
    case Ok(_) =>
      var binding := BindingOf(row, planned);
      var name := PreviewName(h, binding);
      var receipt := SavedPreview(name, row.id, row.version, binding, planned.payload);
      var kept := if name in db.previews then db.previews else db.previews[name := receipt];
      Cas(db.(previews := kept), row.id, row.version, Show(name, planned.payload.tallies))
  }

  // ---- purge and sweep -------------------------------------------------------------------

  datatype PurgeStep = PurgeStep(db: Db, row: Stage)

  /** Revokes reads first; the caller unlinks `row.objectKey` next, if there is one. */
  function PurgeStart(db: Db, env: Env, user: int, id: string): Result<PurgeStep, Refusal> {
    match Owned(db, env, user, id)
    case Refused(e) => Refused(e)
    case Ok(row) =>
      if row.status == Confirmed then Refused(RunBusy)
      else if row.status == Purged then Ok(PurgeStep(db, row))
      else
        match Cas(db, row.id, row.version, PurgeAt(env.now))
        case Refused(e) => Refused(e)
        case Ok(purged) =>
          Ok(PurgeStep(WithoutPreviews(purged, row.id), Apply(row, PurgeAt(env.now))))
  }

  function PurgeFinish(db: Db, env: Env, user: int, row: Stage): Result<Db, Refusal> {
    match Current(db, env, user, row)
    case Refused(e) => Refused(e)
    case Ok(_) => Cas(db, row.id, row.version, DropObject)
  }

  /** The rows one sweep sets out to purge. */
  predicate Expired(row: Stage, now: int, nonce: string, closed: set<int>) {
    && (row.status != Purged || row.objectKey.Some?)
    && (row.status == Purged || row.target != nonce || row.owner in closed
        || (row.retention.Some? && row.retention.value <= now)
        || row.expiresAt <= now)
  }

  function SweepPurge(db: Db, row: Stage, now: int): Result<Db, Refusal> {
    match Cas(db, row.id, row.version, PurgeAt(now))
    case Refused(e) => Refused(e)
    case Ok(purged) => Ok(WithoutPreviews(purged, row.id))
  }

  function SweepDrop(db: Db, row: Stage): Result<Db, Refusal> {
    Cas(db, row.id, row.version + 1, DropObject)
  }

  function NamedKeys(db: Db): set<string> {
    set id | id in db.stages && db.stages[id].objectKey.Some? :: db.stages[id].objectKey.value
  }

  // ---- confirmation, cancellation and native progress ------------------------------------

  /** The stored request text: its size, and the packet it parses to if it is strict JSON. */
  datatype ClaimText = ClaimText(size: nat, packet: Option<ClaimPacket>)

  datatype ClaimInput = ClaimInput(
    stageId: string, previewId: string, expectedVersion: int, commandId: string,
    request: Option<ClaimText>)

  datatype Claimed = Claimed(db: Db, version: nat)

  predicate PreviewId(s: string) {
    |s| == 72 && s[..8] == "preview_" && LowerHex(s[8..])
  }

  /** Eight, four, four, four and twelve lower-case hex digits. */
  predicate CommandId(s: string) {
    && |s| == 36
    && s[8] == '-' && s[13] == '-' && s[18] == '-' && s[23] == '-'
    && LowerHex(s[..8] + s[9..13] + s[14..18] + s[19..23] + s[24..])
  }

  const MAX_SAFE := 9007199254740991

  predicate SafeCount(n: int) { 0 <= n <= MAX_SAFE }

  function CanonicalClaim(request: Option<ClaimText>): Result<Option<ClaimPacket>, Refusal> {
    if request.None? then Ok(None)
    else if request.value.size > 2048 || request.value.packet.None? then Refused(MappingInvalid)
    else
      var p := request.value.packet.value;
      if !PreviewId(p.previewId) || !CommandId(p.commandId) then Refused(MappingInvalid)
      else if !SafeCount(p.version) || !SafeCount(p.selectedRows) || !SafeCount(p.sourceSeconds)
              || !SafeCount(p.destinationSeconds) then Refused(MappingInvalid)
      else if p.version < 1 || p.selectedRows > 50000 || p.sourceSeconds > 4320000000
      then Refused(MappingInvalid)
      else Ok(Some(p))
  }

  /** `current` is the destination fence: the previewed plan still matches the main database. */
  function Claim(db: Db, env: Env, user: int, input: ClaimInput, current: bool): Result<Claimed, Refusal> {
    match Owned(db, env, user, input.stageId)
    case Refused(e) => Refused(e)
    case Ok(row) =>
      if row.cancelCommand.Some? then Refused(PreviewStale)
      else
        match CanonicalClaim(input.request)
        case Refused(e) => Refused(e)
        case Ok(request) =>
          if request.Some? && (request.value.previewId != input.previewId
                               || request.value.commandId != input.commandId
                               || request.value.version != input.expectedVersion)
          then Refused(MappingInvalid)
          else if !InputAllowed(row, env.now) then Refused(PreviewStale)
          else if Saved(db, row, Some(input.previewId)).Refused? then Refused(PreviewStale)
          else if !current then Refused(PreviewStale)
          else if row.status == Confirmed && row.command == Some(input.commandId) && row.request == request
          then Ok(Claimed(db, row.version))
          else if row.status != Previewed || row.version != input.expectedVersion
                  || input.commandId == "" || |input.commandId| > 128 then Refused(PreviewStale)
          else
            match Cas(db, row.id, row.version, Confirm(input.commandId, input.previewId, request))
            case Refused(e) => Refused(e)
            case Ok(next) => Ok(Claimed(next, row.version + 1))
  }

  datatype CancelInput = CancelInput(
    stageId: string, previewId: string, confirmation: string, cancellation: string, expectedVersion: int)

  function Cancellation(db: Db, env: Env, user: int, input: CancelInput): Result<Claimed, Refusal> {
    match Owned(db, env, user, input.stageId)
    case Refused(e) => Refused(e)
    case Ok(row) =>
      var packet := CancelPacket(input.previewId, input.confirmation, input.cancellation);
      if !CommandId(input.cancellation) || !SafeCount(input.expectedVersion) then Refused(MappingInvalid)
      else if row.command != Some(input.confirmation) || row.confirmedPreview != Some(input.previewId)
      then Refused(PreviewStale)
      else if row.cancelCommand == Some(input.cancellation) && row.cancelRequest == Some(packet)
      then Ok(Claimed(db, row.version))
      else if row.version != input.expectedVersion || row.cancelCommand.Some? then Refused(PreviewStale)
      else
        match Cas(db, row.id, row.version, RequestCancel(input.cancellation, packet))
        case Refused(e) => Refused(e)
        case Ok(next) => Ok(Claimed(next, row.version + 1))
  }

  datatype RunBinding = RunBinding(
    stageId: string, stageVersion: int, target: string, previewId: string,
    nativeRun: int, generation: int, commandId: string)

  function BindRun(db: Db, env: Env, user: int, b: RunBinding): Result<Claimed, Refusal> {
    match Owned(db, env, user, b.stageId)
    case Refused(e) => Refused(e)
    case Ok(row) =>
      if row.cancelCommand.Some?
         || (row.nativeRun.Some? && row.nativeRun.value != b.nativeRun)
         || (row.lease.Some? && b.generation < row.lease.value) then Refused(PreviewStale)
      else if row.status != Confirmed || row.target != b.target || row.previewId != Some(b.previewId)
              || row.command != Some(b.commandId) || b.stageVersion > row.version then Refused(PreviewStale)
      else if row.nativeRun == Some(b.nativeRun) && row.lease == Some(b.generation)
      then Ok(Claimed(db, row.version))
      else if row.version != b.stageVersion then Refused(PreviewStale)
      else
        match Cas(db, row.id, row.version, Bind(b.nativeRun, b.generation))
        case Refused(e) => Refused(e)
        case Ok(next) => Ok(Claimed(next, row.version + 1))
  }

  datatype ApplyPhase = Queued | Running | Paused | PartlyDone | Done | Stopped | Broken

  function PhaseStatus(phase: ApplyPhase): Status {
    match phase
    case Done => Completed
    case Stopped => Status.Cancelled
    case Broken => Failed
    case _ => Confirmed
  }

  /**
   * Records native progress on the row. `verified` is the native store's own
   * check that the run still carries this association.
   */
  function MarkProgress(db: Db, env: Env, verified: bool, b: RunBinding, phase: ApplyPhase,
                        terminalAt: Option<int>): Option<Claimed>
  {
    if env.nonce != b.target || !verified || b.stageId !in db.stages then None
    else
      var row := db.stages[b.stageId];
      if row.version != b.stageVersion || row.status != Confirmed || row.target != b.target
         || row.nativeRun != Some(b.nativeRun)
         || (row.lease.Some? && row.lease.value > b.generation)
         || row.previewId != Some(b.previewId) || row.command != Some(b.commandId) then None
      else
        var terminal := Terminal(PhaseStatus(phase));
        if terminal && (terminalAt.None? || terminalAt.value > env.now) then None
        else
          var deadline := if terminal then Some(terminalAt.value + RETENTION_MS) else None;
          match Cas(db, row.id, row.version, Progress(PhaseStatus(phase), deadline, b.generation))
          case Refused(_) => None
          case Ok(next) => Some(Claimed(next, row.version + 1))
  }
}
