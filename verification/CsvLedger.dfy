/**
 * The ledger of imported rows: sealed runs, the rows of every source with the
 * evidence of the line each came from, and the chunks a run has committed. A
 * commit reads in several steps and writes in one batch; anything may happen
 * in between, also imports by other tools and edits of the time entries.
 */
module CsvLedger {
  import opened Wrappers

  datatype Progress = Open | Complete | Cancelled

  datatype Plan = Plan(source: string, id: string, selected: nat, excluded: set<int>)

  datatype Run = Run(plan: Plan, state: Progress, committed: nat)

  /** The line a row came from and the seconds it held there. */
  datatype Evidence = Evidence(line: int, seconds: int)

  datatype Id = Id(source: string, key: string)

  /** An imported row: the run that wrote it, its evidence, and its time entry while that exists. */
  datatype Row = Row(run: int, evidence: Option<Evidence>, entry: Option<int>)

  datatype Place = Place(run: int, index: int)

  datatype Chunk = Chunk(key: string, evidence: Evidence, request: string, inserted: bool)

  datatype Ledger = Ledger(
    runs: map<int, Run>, rows: map<Id, Row>, chunks: map<Place, Chunk>, entries: map<int, int>)

  // ---- committing one row ----------------------------------------------------------------

  /** A row to commit: its run, position, key, evidence and the digest of the whole request. */
  datatype Input = Input(run: int, index: int, key: string, evidence: Evidence, request: string)

  datatype Why = UnknownRun | Fenced | Closed | BadRow | ExcludedLine | Conflict | NoKey | NoEvidence | Failed

  datatype Choice = Refuse(why: Why) | Replay(inserted: bool) | TryInsert | TryProgress

  /** The ledgers the reads of one attempt see: the run, its positions, the chunk, the key, the key's evidence. */
  datatype Reads = Reads(live: Ledger, position: Ledger, prior: Ledger, known: Ledger, evidence: Ledger)

  predicate ValidSource(input: Input) {
    && input.evidence.line >= 1 && input.evidence.seconds >= 0 && input.index >= 0
    && 1 <= |input.key| <= 128
  }

  function PlaceOf(input: Input): Place { Place(input.run, input.index) }

  /** No chunk of the run holds the key at another position. */
  predicate PositionFree(l: Ledger, input: Input) {
    forall p :: p in l.chunks && p.run == input.run && l.chunks[p].key == input.key ==> p.index == input.index
  }

  /** Why the run does not take rows now, if it does not. */
  function Barred(l: Ledger, input: Input, allowed: bool): Option<Why> {
    if input.run !in l.runs then Some(UnknownRun)
    else if l.runs[input.run].state != Open then Some(Closed)
    else if !allowed then Some(Fenced)
    else None
  }

  function IdOf(l: Ledger, input: Input): Id
    requires input.run in l.runs
  {
    Id(l.runs[input.run].plan.source, input.key)
  }

  /** A known key is acknowledged only with the very evidence it was imported with. */
  function Match(l: Ledger, id: Id, input: Input): Choice {
    if id !in l.rows then Refuse(NoKey)
    else if l.rows[id].evidence.None? then Refuse(NoEvidence)
    else if l.rows[id].evidence.value != input.evidence then Refuse(Conflict)
    else TryProgress
  }

  /** The chunk at the input's place answers for it: by its request, or by its key and evidence. */
  function Answered(c: Chunk, input: Input, byRequest: bool): Choice {
    if byRequest then if c.request == input.request then Replay(c.inserted) else Refuse(Conflict)
    else if c.key == input.key && c.evidence == input.evidence then Replay(c.inserted)
    else Refuse(Conflict)
  }

  /** The checks both commands begin with. */
  function Admitted(r: Reads, input: Input, allowed: bool): Option<Why> {
    if Barred(r.live, input, allowed).Some? then Barred(r.live, input, allowed)
    else if !ValidSource(input) then Some(BadRow)
    else if input.run in r.live.runs && input.evidence.line in r.live.runs[input.run].plan.excluded
    then Some(ExcludedLine)
    else if !PositionFree(r.position, input) then Some(Conflict)
    else None
  }

  /** What committing a row does next, from what it read: a known key is read a second time. */
  function Decide(r: Reads, input: Input, allowed: bool): Choice {
    if Admitted(r, input, allowed).Some? then Refuse(Admitted(r, input, allowed).value)
    else if PlaceOf(input) in r.prior.chunks then Answered(r.prior.chunks[PlaceOf(input)], input, true)
    else if input.index != r.live.runs[input.run].committed then Refuse(Conflict)
    else if IdOf(r.live, input) !in r.known.rows then TryInsert
    else Match(r.evidence, IdOf(r.live, input), input)
  }

  /** What it does when the inserting batch has failed, `duplicate` on the key of the row. */
  function Recover(r: Reads, input: Input, allowed: bool, duplicate: bool): Choice {
    if Barred(r.live, input, allowed).Some? then Refuse(Barred(r.live, input, allowed).value)
    else if !PositionFree(r.position, input) then Refuse(Conflict)
    else if PlaceOf(input) in r.prior.chunks then Answered(r.prior.chunks[PlaceOf(input)], input, true)
    else if duplicate then Match(r.evidence, IdOf(r.live, input), input)
    else Refuse(Failed)
  }

  /** What acknowledging an imported row does next: its evidence is compared first. */
  function DecideExisting(r: Reads, input: Input, allowed: bool): Choice {
    if Admitted(r, input, allowed).Some? then Refuse(Admitted(r, input, allowed).value)
    else if Match(r.known, IdOf(r.live, input), input).Refuse? then Match(r.known, IdOf(r.live, input), input)
    else if PlaceOf(input) in r.prior.chunks then Answered(r.prior.chunks[PlaceOf(input)], input, false)
    else if input.index != r.live.runs[input.run].committed then Refuse(Conflict)
    else TryProgress
  }

  function RecoverExisting(r: Reads, input: Input, allowed: bool): Choice {
    if Barred(r.live, input, allowed).Some? then Refuse(Barred(r.live, input, allowed).value)
    else if !PositionFree(r.position, input) then Refuse(Conflict)
    else if PlaceOf(input) in r.prior.chunks then Answered(r.prior.chunks[PlaceOf(input)], input, false)
    else Refuse(Failed)
  }

  // ---- events ----------------------------------------------------------------------------

  datatype Event =
    | Insert(input: Input, allowed: bool, entry: int, seconds: int)
    | Acknowledge(input: Input, allowed: bool)
    | Finish(run: int, whole: bool, allowed: bool)
    | SealRun(run: int, plan: Plan)
    | Import(run: int, id: Id, evidence: Option<Evidence>, entry: int, seconds: int)
    | AddEntry(entry: int, seconds: int)
    | SetEntry(entry: int, seconds: int)
    | DropEntry(entry: int)

  /** The guard of the batch: the fence, the run's next position, and the keys of the chunk table. */
  predicate Fits(l: Ledger, input: Input, allowed: bool) {
    && allowed && ValidSource(input) && input.run in l.runs && l.runs[input.run].state == Open
    && input.index == l.runs[input.run].committed < l.runs[input.run].plan.selected
    && PlaceOf(input) !in l.chunks
    && (forall p :: p in l.chunks && p.run == input.run ==> l.chunks[p].key != input.key)
  }

  predicate Enabled(l: Ledger, e: Event) {
    match e
    case Insert(input, allowed, entry, _) =>
      Fits(l, input, allowed) && Id(l.runs[input.run].plan.source, input.key) !in l.rows && entry !in l.entries
    case Acknowledge(input, allowed) =>
      && Fits(l, input, allowed) && Id(l.runs[input.run].plan.source, input.key) in l.rows
      && l.rows[Id(l.runs[input.run].plan.source, input.key)].evidence == Some(input.evidence)
    case Finish(run, whole, allowed) =>
      && allowed && run in l.runs && l.runs[run].state == Open
      && (whole ==> l.runs[run].committed == l.runs[run].plan.selected)
    case SealRun(run, plan) =>
      && run !in l.runs && (forall id :: id in l.rows ==> l.rows[id].run != run)
      && (forall r :: r in l.runs ==> l.runs[r].plan.source != plan.source)
    case Import(run, id, _, entry, _) => run !in l.runs && id !in l.rows && entry !in l.entries
    case AddEntry(entry, _) => entry !in l.entries
    case SetEntry(entry, _) => entry in l.entries
    case DropEntry(entry) => entry in l.entries
  }

  function Committed(l: Ledger, input: Input, inserted: bool): Ledger
    requires input.run in l.runs
  {
    var run := l.runs[input.run];
    l.(runs := l.runs[input.run := run.(committed := run.committed + 1)],
       chunks := l.chunks[PlaceOf(input) := Chunk(input.key, input.evidence, input.request, inserted)])
  }

  /** Deleting a time entry keeps its row and clears the reference. */
  function Cleared(rows: map<Id, Row>, entry: int): map<Id, Row> {
    map id | id in rows :: if rows[id].entry == Some(entry) then rows[id].(entry := None) else rows[id]
  }

  function Step(l: Ledger, e: Event): Ledger {
    if !Enabled(l, e) then l
    else
      match e
      case Insert(input, _, entry, seconds) =>
        var row := Row(input.run, Some(input.evidence), Some(entry));
        Committed(l, input, true).(rows := l.rows[Id(l.runs[input.run].plan.source, input.key) := row],
                                   entries := l.entries[entry := seconds])
      case Acknowledge(input, _) => Committed(l, input, false)
      case Finish(run, whole, _) =>
        l.(runs := l.runs[run := l.runs[run].(state := if whole then Complete else Cancelled)])
      case SealRun(run, plan) => l.(runs := l.runs[run := Run(plan, Open, 0)])
      case Import(run, id, evidence, entry, seconds) =>
        l.(rows := l.rows[id := Row(run, evidence, Some(entry))], entries := l.entries[entry := seconds])
      case AddEntry(entry, seconds) => l.(entries := l.entries[entry := seconds])
      case SetEntry(entry, seconds) => l.(entries := l.entries[entry := seconds])
      case DropEntry(entry) => l.(rows := Cleared(l.rows, entry), entries := l.entries - {entry})
  }

  const EMPTY := Ledger(map[], map[], map[], map[])

  function After(l: Ledger, events: seq<Event>): Ledger
    decreases |events|
  {
    if events == [] then l else After(Step(l, events[0]), events[1..])
  }

  // ---- what every event keeps ------------------------------------------------------------

  function RowOf(l: Ledger, p: Place): Id
    requires p in l.chunks && p.run in l.runs
  {
    Id(l.runs[p.run].plan.source, l.chunks[p].key)
  }

  /** The chunks of a run fill its positions from zero, without gap. */
  predicate Contiguous(l: Ledger) {
    && (forall p :: p in l.chunks ==> p.run in l.runs && 0 <= p.index < l.runs[p.run].committed)
    && (forall r, i {:trigger Place(r, i)} ::
          r in l.runs && 0 <= i < l.runs[r].committed ==> Place(r, i) in l.chunks)
  }

  /** Every chunk stands for a row with the very evidence the chunk names. */
  predicate Backed(l: Ledger)
    requires Contiguous(l)
  {
    forall p :: p in l.chunks ==>
      && RowOf(l, p) in l.rows && l.rows[RowOf(l, p)].evidence == Some(l.chunks[p].evidence)
      && (l.chunks[p].inserted ==> l.rows[RowOf(l, p)].run == p.run)
  }

  predicate KeysOnce(l: Ledger) {
    forall p, q :: p in l.chunks && q in l.chunks && p.run == q.run && l.chunks[p].key == l.chunks[q].key ==> p == q
  }

  predicate Whole(run: Run) {
    run.committed <= run.plan.selected && (run.state == Complete ==> run.committed == run.plan.selected)
  }

  predicate RunsWhole(l: Ledger) {
    && (forall r :: r in l.runs ==> Whole(l.runs[r]))
    && (forall r, q :: r in l.runs && q in l.runs && l.runs[r].plan.source == l.runs[q].plan.source ==> r == q)
  }

  predicate WrittenAt(l: Ledger, p: Place, key: string) {
    p in l.chunks && l.chunks[p].key == key && l.chunks[p].inserted
  }

  /** A row that names a sealed run was written by one of that run's chunks. */
  ghost predicate Written(l: Ledger) {
    forall id :: id in l.rows && l.rows[id].run in l.runs ==>
      && id.source == l.runs[l.rows[id].run].plan.source
      && exists i :: WrittenAt(l, Place(l.rows[id].run, i), id.key)
  }

  predicate EntriesOnce(l: Ledger) {
    && (forall id :: id in l.rows && l.rows[id].entry.Some? ==> l.rows[id].entry.value in l.entries)
    && (forall a, b | a in l.rows && b in l.rows ::
          l.rows[a].entry.Some? && l.rows[a].entry == l.rows[b].entry ==> a == b)
  }

  ghost predicate LedgerOk(l: Ledger) {
    Contiguous(l) && Backed(l) && KeysOnce(l) && RunsWhole(l) && Written(l) && EntriesOnce(l)
  }

  /** What is once in the ledger stays: plans, closed runs, rows with their evidence, chunks. */
  predicate RunGrows(a: Run, b: Run) {
    b.plan == a.plan && a.committed <= b.committed && (a.state != Open ==> b == a)
  }

  predicate RowGrows(a: Row, b: Row) {
    b.run == a.run && b.evidence == a.evidence && (b.entry == a.entry || b.entry == None)
  }

  predicate Grows(l: Ledger, m: Ledger) {
    && (forall r :: r in l.runs ==> r in m.runs && RunGrows(l.runs[r], m.runs[r]))
    && (forall id :: id in l.rows ==> id in m.rows && RowGrows(l.rows[id], m.rows[id]))
    && (forall p :: p in l.chunks ==> p in m.chunks && m.chunks[p] == l.chunks[p])
  }

  /** A batch that commits a chunk: it may add the row of its own key, and a time entry. */
  ghost predicate Commits(l: Ledger, input: Input, inserted: bool, m: Ledger) {
    && Fits(l, input, true)
    && m.runs == Committed(l, input, inserted).runs && m.chunks == Committed(l, input, inserted).chunks
    && (forall id :: id in l.rows ==> id in m.rows && m.rows[id] == l.rows[id])
    && (forall id :: id in m.rows && id !in l.rows ==>
          inserted && id == Id(l.runs[input.run].plan.source, input.key) && m.rows[id].run == input.run)
    && (var id := Id(l.runs[input.run].plan.source, input.key);
        id in m.rows && m.rows[id].evidence == Some(input.evidence) && (inserted ==> m.rows[id].run == input.run))
  }

  lemma CommitKeepsChunks(l: Ledger, input: Input, inserted: bool, m: Ledger)
    requires Contiguous(l) && Backed(l) && KeysOnce(l) && Commits(l, input, inserted, m)
    ensures Contiguous(m) && Backed(m) && KeysOnce(m)
  {
  }

  lemma CommitKeepsWritten(l: Ledger, input: Input, inserted: bool, m: Ledger)
    requires Written(l) && Commits(l, input, inserted, m)
    ensures Written(m)
  {
    forall id | id in m.rows && m.rows[id].run in m.runs
      ensures id.source == m.runs[m.rows[id].run].plan.source
      ensures exists i :: WrittenAt(m, Place(m.rows[id].run, i), id.key)
    {
      if id in l.rows {
        var i :| WrittenAt(l, Place(l.rows[id].run, i), id.key);
        assert WrittenAt(m, Place(m.rows[id].run, i), id.key);
      } else {
        assert WrittenAt(m, Place(m.rows[id].run, input.index), id.key);
      }
    }
  }

  lemma CommitGrows(l: Ledger, input: Input, inserted: bool, m: Ledger)
    requires Contiguous(l) && RunsWhole(l) && Commits(l, input, inserted, m)
    ensures RunsWhole(m) && Grows(l, m)
  {
  }

  lemma CommitKeeps(l: Ledger, input: Input, inserted: bool, m: Ledger)
    requires LedgerOk(l) && Commits(l, input, inserted, m)
    ensures Contiguous(m) && Backed(m) && KeysOnce(m) && RunsWhole(m) && Written(m) && Grows(l, m)
  {
    hide Contiguous, Backed, KeysOnce, RunsWhole, Written, EntriesOnce, Commits, Grows;
    CommitKeepsChunks(l, input, inserted, m);
    CommitKeepsWritten(l, input, inserted, m);
    CommitGrows(l, input, inserted, m);
  }

  /** Events that leave the chunks alone. */
  ghost predicate Leaves(l: Ledger, m: Ledger) {
    && m.chunks == l.chunks
    && (forall r :: r in l.runs ==>
          r in m.runs && RunGrows(l.runs[r], m.runs[r]) && m.runs[r].committed == l.runs[r].committed)
    && (forall r :: r in m.runs && r !in l.runs ==> m.runs[r].committed == 0)
    && (forall id :: id in l.rows ==> id in m.rows && RowGrows(l.rows[id], m.rows[id]))
    && (forall id :: id in m.rows && m.rows[id].run in m.runs ==> id in l.rows && m.rows[id].run in l.runs)
  }

  lemma LeavesChunks(l: Ledger, m: Ledger)
    requires Contiguous(l) && Backed(l) && KeysOnce(l) && Leaves(l, m)
    ensures Contiguous(m) && Backed(m) && KeysOnce(m) && Grows(l, m)
  {
  }

  lemma LeavesWritten(l: Ledger, m: Ledger)
    requires Written(l) && Leaves(l, m)
    ensures Written(m)
  {
    forall id | id in m.rows && m.rows[id].run in m.runs
      ensures id.source == m.runs[m.rows[id].run].plan.source
      ensures exists i :: WrittenAt(m, Place(m.rows[id].run, i), id.key)
    {
      var i :| WrittenAt(l, Place(l.rows[id].run, i), id.key);
      assert WrittenAt(m, Place(m.rows[id].run, i), id.key);
    }
  }

  lemma LeavesKeeps(l: Ledger, m: Ledger)
    requires LedgerOk(l) && Leaves(l, m) && RunsWhole(m) && EntriesOnce(m)
    ensures LedgerOk(m) && Grows(l, m)
  {
    hide Contiguous, Backed, KeysOnce, RunsWhole, Written, EntriesOnce, Leaves, Grows;
    LeavesChunks(l, m);
    LeavesWritten(l, m);
  }

  lemma InsertKeeps(l: Ledger, e: Event)
    requires LedgerOk(l) && e.Insert? && Enabled(l, e)
    ensures LedgerOk(Step(l, e)) && Grows(l, Step(l, e))
  {
    hide Written, KeysOnce, Contiguous, Backed, RunsWhole, Grows;
    CommitKeeps(l, e.input, true, Step(l, e));
  }

  lemma AcknowledgeKeeps(l: Ledger, e: Event)
    requires LedgerOk(l) && e.Acknowledge? && Enabled(l, e)
    ensures LedgerOk(Step(l, e)) && Grows(l, Step(l, e))
  {
    hide Written, KeysOnce, Contiguous, Backed, RunsWhole, Grows;
    CommitKeeps(l, e.input, false, Step(l, e));
  }

  lemma FinishKeeps(l: Ledger, e: Event)
    requires LedgerOk(l) && e.Finish? && Enabled(l, e)
    ensures LedgerOk(Step(l, e)) && Grows(l, Step(l, e))
  {
    hide Contiguous, Backed, KeysOnce, Written, Grows;
    LeavesKeeps(l, Step(l, e));
  }

  lemma SealKeeps(l: Ledger, e: Event)
    requires LedgerOk(l) && e.SealRun? && Enabled(l, e)
    ensures LedgerOk(Step(l, e)) && Grows(l, Step(l, e))
  {
    hide Contiguous, Backed, KeysOnce, Written, Grows;
    LeavesKeeps(l, Step(l, e));
  }

  lemma ImportKeeps(l: Ledger, e: Event)
    requires LedgerOk(l) && e.Import? && Enabled(l, e)
    ensures LedgerOk(Step(l, e)) && Grows(l, Step(l, e))
  {
    hide Contiguous, Backed, KeysOnce, Written, Grows;
    LeavesKeeps(l, Step(l, e));
  }

  lemma DropKeeps(l: Ledger, e: Event)
    requires LedgerOk(l) && e.DropEntry? && Enabled(l, e)
    ensures LedgerOk(Step(l, e)) && Grows(l, Step(l, e))
  {
    hide Contiguous, Backed, KeysOnce, Written, Grows;
    LeavesKeeps(l, Step(l, e));
  }

  lemma EntryKeeps(l: Ledger, e: Event)
    requires LedgerOk(l) && (e.AddEntry? || e.SetEntry?) && Enabled(l, e)
    ensures LedgerOk(Step(l, e)) && Grows(l, Step(l, e))
  {
    hide Contiguous, Backed, KeysOnce, Written, Grows;
    LeavesKeeps(l, Step(l, e));
  }

  lemma StepKeeps(l: Ledger, e: Event)
    requires LedgerOk(l)
    ensures LedgerOk(Step(l, e)) && Grows(l, Step(l, e))
  {
    hide LedgerOk, Grows;
    if !Enabled(l, e) {
      GrowsReflexive(l);
    } else {
      match e
      case Insert(_, _, _, _) => InsertKeeps(l, e);
      case Acknowledge(_, _) => AcknowledgeKeeps(l, e);
      case Finish(_, _, _) => FinishKeeps(l, e);
      case SealRun(_, _) => SealKeeps(l, e);
      case Import(_, _, _, _, _) => ImportKeeps(l, e);
      case AddEntry(_, _) => EntryKeeps(l, e);
      case SetEntry(_, _) => EntryKeeps(l, e);
      case DropEntry(_) => DropKeeps(l, e);
    }
  }

  lemma GrowsOn(l: Ledger, m: Ledger, n: Ledger)
    requires Grows(l, m) && Grows(m, n)
    ensures Grows(l, n)
  {
  }

  /** Whatever happens: the ledger stays consistent and nothing recorded in it is lost or changed. */
  lemma {:induction false} LedgerGrows(l: Ledger, events: seq<Event>)
    requires LedgerOk(l)
    ensures LedgerOk(After(l, events)) && Grows(l, After(l, events))
    decreases |events|
  {
    hide LedgerOk, Grows, Step;
    if events != [] {
      StepKeeps(l, events[0]);
      LedgerGrows(Step(l, events[0]), events[1..]);
      GrowsOn(l, Step(l, events[0]), After(l, events));
    } else {
      GrowsReflexive(l);
    }
  }

  lemma GrowsReflexive(l: Ledger)
    ensures Grows(l, l)
  {
  }

  /** In every reachable ledger the invariant holds. */
  lemma ReachableLedger(events: seq<Event>)
    ensures LedgerOk(After(EMPTY, events))
  {
    LedgerGrows(EMPTY, events);
  }

  // ---- each row once ---------------------------------------------------------------------

  /** The event writes a chunk for this input. */
  predicate Writes(l: Ledger, e: Event, input: Input) {
    Enabled(l, e) && ((e.Insert? && e.input == input) || (e.Acknowledge? && e.input == input))
  }

  /** The chunk of an input is in the ledger, with this outcome. */
  predicate Recorded(l: Ledger, input: Input, inserted: bool) {
    && input.run in l.runs && PlaceOf(input) in l.chunks
    && l.chunks[PlaceOf(input)] == Chunk(input.key, input.evidence, input.request, inserted)
  }

  lemma WritesRecord(l: Ledger, e: Event, input: Input)
    requires LedgerOk(l) && Writes(l, e, input)
    ensures LedgerOk(Step(l, e)) && ValidSource(input) && Recorded(Step(l, e), input, e.Insert?)
  {
    StepKeeps(l, e);
    hide LedgerOk;
  }

  lemma RecordedStays(l: Ledger, events: seq<Event>, input: Input, inserted: bool)
    requires LedgerOk(l) && Recorded(l, input, inserted)
    ensures LedgerOk(After(l, events)) && Recorded(After(l, events), input, inserted)
  {
    LedgerGrows(l, events);
    hide LedgerOk, After;
  }

  /** A recorded input has its position, its place is taken, and its row has its evidence. */
  lemma RecordedIsPlaced(l: Ledger, input: Input, inserted: bool)
    requires LedgerOk(l) && Recorded(l, input, inserted)
    ensures PositionFree(l, input) && !Fits(l, input, true)
    ensures Match(l, IdOf(l, input), input) == TryProgress
  {
    hide Written, EntriesOnce, RunsWhole;
    assert RowOf(l, PlaceOf(input)) == IdOf(l, input);
  }

  /** Some later ledger. */
  ghost predicate Later(l: Ledger, m: Ledger) { exists events :: m == After(l, events) }

  ghost predicate AllLater(l: Ledger, r: Reads) {
    Later(l, r.live) && Later(l, r.position) && Later(l, r.prior) && Later(l, r.known) && Later(l, r.evidence)
  }

  lemma LaterHasIt(l: Ledger, m: Ledger, input: Input, inserted: bool)
    requires LedgerOk(l) && Recorded(l, input, inserted) && Later(l, m)
    ensures LedgerOk(m) && Recorded(m, input, inserted) && m.runs[input.run].plan == l.runs[input.run].plan
  {
    var events :| m == After(l, events);
    RecordedStays(l, events, input, inserted);
    LedgerGrows(l, events);
    hide LedgerOk, After;
  }

  /** The answer of a repetition: the first outcome, or a refusal that has nothing to do with the row. */
  predicate Settled(c: Choice, inserted: bool) {
    c == Replay(inserted) || (c.Refuse? && c.why in {Closed, Fenced, ExcludedLine})
  }

  /**
   * A commit that has been written is never written again. Whatever its reads
   * see, each later than the write and in any order: committing or
   * acknowledging it once more, and recovering from a batch that failed, answer
   * the first outcome or are refused; and a batch for it that was already
   * decided changes nothing any more.
   */
  lemma RepeatedCommitWritesNothing(past: seq<Event>, e: Event, input: Input, r: Reads, allowed: bool, duplicate: bool,
                                    m: Ledger, late: Event)
    requires Writes(After(EMPTY, past), e, input)
    requires AllLater(Step(After(EMPTY, past), e), r) && Later(Step(After(EMPTY, past), e), m)
    ensures Settled(Decide(r, input, allowed), e.Insert?)
    ensures Settled(Recover(r, input, allowed, duplicate), e.Insert?)
    ensures Settled(DecideExisting(r, input, allowed), e.Insert?)
    ensures Settled(RecoverExisting(r, input, allowed), e.Insert?)
    ensures !Writes(m, late, input)
  {
    hide LedgerOk, Step, After, Fits, PositionFree, ValidSource, Later, Writes, Match;
    ReachableLedger(past);
    var l := After(EMPTY, past);
    WritesRecord(l, e, input);
    var w := Step(l, e);
    LaterHasIt(w, r.live, input, e.Insert?);
    LaterHasIt(w, r.position, input, e.Insert?);
    LaterHasIt(w, r.prior, input, e.Insert?);
    LaterHasIt(w, r.known, input, e.Insert?);
    LaterHasIt(w, m, input, e.Insert?);
    RecordedIsPlaced(r.position, input, e.Insert?);
    RecordedIsPlaced(r.known, input, e.Insert?);
    RecordedIsPlaced(m, input, e.Insert?);
    if Writes(m, late, input) {
      OnlyFitting(m, late, input);
    }
  }

  lemma OnlyFitting(l: Ledger, e: Event, input: Input)
    requires Writes(l, e, input)
    ensures Fits(l, input, true)
  {
  }

  /**
   * Where nothing happens in between, the batch a commit or an acknowledgement
   * decides on goes through exactly when the run has a row left to commit.
   */
  lemma DecidedBatchFits(past: seq<Event>, input: Input, allowed: bool, entry: int, seconds: int)
    requires entry !in After(EMPTY, past).entries
    ensures var l := After(EMPTY, past);
      var r := Reads(l, l, l, l, l);
      && (Decide(r, input, allowed) == TryInsert ==>
            (Enabled(l, Insert(input, allowed, entry, seconds)) <==> HasRowLeft(l, input.run)))
      && (Decide(r, input, allowed) == TryProgress || DecideExisting(r, input, allowed) == TryProgress ==>
            (Enabled(l, Acknowledge(input, allowed)) <==> HasRowLeft(l, input.run)))
  {
    ReachableLedger(past);
    hide After, Written, Backed, EntriesOnce, RunsWhole, KeysOnce;
  }

  predicate HasRowLeft(l: Ledger, run: int) {
    run in l.runs && l.runs[run].committed < l.runs[run].plan.selected
  }

  /** The keys of the rows a run wrote, and of the chunks it inserted. */
  ghost function RowsOf(l: Ledger, run: int): set<string> {
    set id | id in l.rows && l.rows[id].run == run :: id.key
  }

  ghost function InsertedBy(l: Ledger, run: int): set<string> {
    set p | p in l.chunks && p.run == run && l.chunks[p].inserted :: l.chunks[p].key
  }

  /** The rows written in a run's name are exactly the rows its chunks inserted, all of its own source. */
  lemma WrittenByChunks(events: seq<Event>, run: int)
    requires run in After(EMPTY, events).runs
    ensures var l := After(EMPTY, events);
      && RowsOf(l, run) == InsertedBy(l, run)
      && (forall id :: id in l.rows && l.rows[id].run == run ==> id.source == l.runs[run].plan.source)
  {
    hide After;
    ReachableLedger(events);
    var l := After(EMPTY, events);
    forall key | key in RowsOf(l, run) ensures key in InsertedBy(l, run) {
      var id :| id in l.rows && l.rows[id].run == run && id.key == key;
      var i :| WrittenAt(l, Place(l.rows[id].run, i), id.key);
      assert l.chunks[Place(run, i)].key in InsertedBy(l, run);
    }
    forall key | key in InsertedBy(l, run) ensures key in RowsOf(l, run) {
      var p :| p in l.chunks && p.run == run && l.chunks[p].inserted && l.chunks[p].key == key;
      assert RowOf(l, p).key in RowsOf(l, run);
    }
  }

  ghost function KeysFrom(l: Ledger, run: int, n: nat): set<string>
    requires forall i :: 0 <= i < n ==> Place(run, i) in l.chunks
  {
    set i | 0 <= i < n :: l.chunks[Place(run, i)].key
  }

  lemma KeysOfOneMore(l: Ledger, run: int, n: nat)
    requires n > 0 && forall i :: 0 <= i < n ==> Place(run, i) in l.chunks
    ensures KeysFrom(l, run, n) == KeysFrom(l, run, n - 1) + {l.chunks[Place(run, n - 1)].key}
  {
    forall key | key in KeysFrom(l, run, n)
      ensures key in KeysFrom(l, run, n - 1) || key == l.chunks[Place(run, n - 1)].key
    {
      var i :| 0 <= i < n && l.chunks[Place(run, i)].key == key;
    }
  }

  lemma LastKeyIsNew(l: Ledger, run: int, n: nat)
    requires KeysOnce(l) && n > 0 && forall i :: 0 <= i < n ==> Place(run, i) in l.chunks
    ensures l.chunks[Place(run, n - 1)].key !in KeysFrom(l, run, n - 1)
  {
    forall i | 0 <= i < n - 1 ensures l.chunks[Place(run, i)].key != l.chunks[Place(run, n - 1)].key {
      assert Place(run, i) != Place(run, n - 1);
    }
  }

  lemma {:induction false} KeysAreCounted(l: Ledger, run: int, n: nat)
    requires KeysOnce(l) && forall i :: 0 <= i < n ==> Place(run, i) in l.chunks
    ensures |KeysFrom(l, run, n)| == n
  {
    if n == 0 {
      assert KeysFrom(l, run, 0) == {};
    } else {
      hide KeysOnce;
      KeysAreCounted(l, run, n - 1);
      var last := l.chunks[Place(run, n - 1)].key;
      KeysOfOneMore(l, run, n);
      hide KeysFrom;
      LastKeyIsNew(l, run, n);
    }
  }

  /**
   * A completed run stays completed, and has committed as many different keys
   * as rows were selected, each with a row of its source and its evidence.
   */
  lemma CompleteIsWhole(past: seq<Event>, events: seq<Event>, run: int)
    requires run in After(EMPTY, past).runs && After(EMPTY, past).runs[run].state == Complete
    ensures var m := After(After(EMPTY, past), events);
      && run in m.runs && m.runs[run] == After(EMPTY, past).runs[run]
      && (forall i :: 0 <= i < m.runs[run].plan.selected ==> Place(run, i) in m.chunks)
      && |KeysFrom(m, run, m.runs[run].plan.selected)| == m.runs[run].plan.selected
      && (forall p :: p in m.chunks && p.run == run ==>
            0 <= p.index < m.runs[run].plan.selected
            && RowOf(m, p) in m.rows && m.rows[RowOf(m, p)].evidence == Some(m.chunks[p].evidence))
  {
    hide After, Written, EntriesOnce;
    ReachableLedger(past);
    LedgerGrows(After(EMPTY, past), events);
    var m := After(After(EMPTY, past), events);
    assert Whole(m.runs[run]);
    KeysAreCounted(m, run, m.runs[run].plan.selected);
  }
}
