/**
 * Resuming a confirmed run: which changes of the import history since the
 * preview are accepted, and what follows for the whole life of a run.
 */
module CsvResume {
  import opened Wrappers
  import opened CsvLedger

  /** One imported row of a source: its key and the rounded seconds of its time entry, if it still exists. */
  datatype Entry = Entry(key: string, seconds: Option<int>)

  function KeysOf(entries: seq<Entry>): set<string> {
    set i | 0 <= i < |entries| :: entries[i].key
  }

  /** A map built from a list of pairs: the last pair of a key wins. */
  function LastOf(entries: seq<Entry>, key: string): Option<Entry> {
    if entries == [] then None
    else if entries[|entries| - 1].key == key then Some(entries[|entries| - 1])
    else LastOf(entries[..|entries| - 1], key)
  }

  /** History rows of one source have distinct keys. */
  predicate Distinct(entries: seq<Entry>) {
    forall i, j :: 0 <= i < j < |entries| ==> entries[i].key != entries[j].key
  }

  lemma {:induction false} LastOfDistinct(entries: seq<Entry>, i: nat)
    requires Distinct(entries) && i < |entries|
    ensures LastOf(entries, entries[i].key) == Some(entries[i])
  {
    if i < |entries| - 1 {
      assert entries[..|entries| - 1][i] == entries[i];
      LastOfDistinct(entries[..|entries| - 1], i);
    }
  }

  lemma {:induction false} LastOfFound(entries: seq<Entry>, key: string)
    ensures LastOf(entries, key).Some? <==> key in KeysOf(entries)
    ensures LastOf(entries, key).Some? ==>
      LastOf(entries, key).value in entries && LastOf(entries, key).value.key == key
  {
    if entries != [] {
      var rest := entries[..|entries| - 1];
      LastOfFound(rest, key);
      if key in KeysOf(rest) {
        var i :| 0 <= i < |rest| && rest[i].key == key;
        assert entries[i].key == key;
      }
      if key in KeysOf(entries) && entries[|entries| - 1].key != key {
        var i :| 0 <= i < |entries| && entries[i].key == key;
        assert rest[i].key == key;
      }
    }
  }

  /** The seconds of a row's time entry, none when that is gone. */
  function SecondsOf(l: Ledger, id: Id): Option<int>
    requires id in l.rows
  {
    match l.rows[id].entry
    case None => None
    case Some(e) => if e in l.entries then Some(l.entries[e]) else None
  }

  /** A history of a source lists each of its rows once, with the present seconds. */
  ghost predicate Lists(l: Ledger, source: string, history: seq<Entry>) {
    && Distinct(history)
    && (forall i :: 0 <= i < |history| ==>
          Id(source, history[i].key) in l.rows && history[i].seconds == SecondsOf(l, Id(source, history[i].key)))
    && (forall id :: id in l.rows && id.source == source ==> id.key in KeysOf(history))
  }

  /** The join of a run's chunks with the rows they stand for. */
  predicate CommittedBy(l: Ledger, run: int, source: string, key: string) {
    exists p :: p in l.chunks && p.run == run && l.chunks[p].key == key
      && Id(source, key) in l.rows && l.rows[Id(source, key)].evidence == Some(l.chunks[p].evidence)
  }

  /** What a resume has besides the histories: the stage, and the plans then and now. */
  datatype Resume = Resume(
    confirmed: bool, native: Option<int>, source: string,
    versionThen: string, versionNow: string, planThen: string, planNow: string)

  /** The guards in front of the comparison of two different histories. */
  predicate Resumable(r: Resume, l: Ledger) {
    && r.confirmed && r.native.Some? && r.native.value in l.runs
    && l.runs[r.native.value].plan.source == r.source
    && l.runs[r.native.value].plan.id == r.planThen == r.planNow
  }

  /** Everything a resume asks of the present history, given the previewed one. */
  predicate Accepts(r: Resume, original: seq<Entry>, current: seq<Entry>, l: Ledger) {
    && r.versionNow == r.versionThen
    && (|| current == original
        || (&& Resumable(r, l)
            && (forall i :: 0 <= i < |original| ==>
                  LastOf(current, original[i].key).Some?
                  && LastOf(current, original[i].key).value.seconds == original[i].seconds)
            && (forall i :: 0 <= i < |current| ==>
                  current[i].key in KeysOf(original)
                  || CommittedBy(l, r.native.value, r.source, current[i].key))))
  }

  /** The checks of a resume, in their order. */
  method AcceptHistory(r: Resume, original: seq<Entry>, current: seq<Entry>, l: Ledger) returns (accepted: bool)
    ensures accepted <==> Accepts(r, original, current, l)
  {
    if r.versionNow != r.versionThen { return false; }
    if current == original { return true; }
    if !r.confirmed || r.native.None? { return false; }
    var run := r.native.value;
    if run !in l.runs || l.runs[run].plan.source != r.source { return false; }
    if l.runs[run].plan.id != r.planThen || l.runs[run].plan.id != r.planNow { return false; }
    var earlier, present := KeysOf(original), KeysOf(current);
    for i := 0 to |original|
      invariant forall k :: 0 <= k < i ==> original[k].key in present
    {
      LastOfFound(current, original[i].key);
      if original[i].key !in present { return false; }
    }
    for i := 0 to |original|
      invariant forall k :: 0 <= k < i ==>
        LastOf(current, original[k].key).Some? && LastOf(current, original[k].key).value.seconds == original[k].seconds
    {
      LastOfFound(current, original[i].key);
      if LastOf(current, original[i].key).value.seconds != original[i].seconds { return false; }
    }
    for i := 0 to |current|
      invariant forall k :: 0 <= k < i ==>
        current[k].key in earlier || CommittedBy(l, run, r.source, current[k].key)
    {
      if current[i].key in earlier { continue; }
      if !CommittedBy(l, run, r.source, current[i].key) { return false; }
    }
    return true;
  }

  // ---- what an accepted history is -------------------------------------------------------

  predicate HasChunk(l: Ledger, run: int, key: string) {
    exists p :: p in l.chunks && p.run == run && l.chunks[p].key == key
  }

  /** In a consistent ledger the comparison of line and seconds in the join never fails. */
  lemma JoinIsTheChunk(l: Ledger, run: int, key: string)
    requires LedgerOk(l) && run in l.runs
    ensures CommittedBy(l, run, l.runs[run].plan.source, key) <==> HasChunk(l, run, key)
  {
    hide Written, KeysOnce, EntriesOnce, RunsWhole;
    if HasChunk(l, run, key) {
      var p :| p in l.chunks && p.run == run && l.chunks[p].key == key;
      assert RowOf(l, p) == Id(l.runs[run].plan.source, key);
    }
  }

  /** The rows of a history by key. */
  lemma ListedRow(l: Ledger, source: string, h: seq<Entry>, key: string)
    requires Lists(l, source, h)
    ensures LastOf(h, key).Some? <==> Id(source, key) in l.rows
    ensures key in KeysOf(h) <==> Id(source, key) in l.rows
    ensures Id(source, key) in l.rows ==> LastOf(h, key).value == Entry(key, SecondsOf(l, Id(source, key)))
  {
    LastOfFound(h, key);
    assert Id(source, key) in l.rows ==> Id(source, key).source == source;
    if key in KeysOf(h) {
      var i :| 0 <= i < |h| && h[i].key == key;
      LastOfDistinct(h, i);
    }
  }

  /**
   * What a resume accepts, for every run of events since the preview: no row
   * shown there has changed its seconds, and each row added since is one this
   * run has committed a chunk for, whoever wrote it.
   */
  ghost predicate OnlyOwnRowsAdded(past: Ledger, now: Ledger, source: string, run: int) {
    && (forall id :: id in past.rows && id.source == source ==>
          id in now.rows && SecondsOf(now, id) == SecondsOf(past, id))
    && (forall id :: id in now.rows && id.source == source && id !in past.rows ==> HasChunk(now, run, id.key))
  }

  lemma AcceptedMeansOwn(r: Resume, l: Ledger, m: Ledger, original: seq<Entry>, current: seq<Entry>)
    requires LedgerOk(m) && Resumable(r, m) && Lists(l, r.source, original) && Lists(m, r.source, current)
    requires Accepts(r, original, current, m)
    ensures OnlyOwnRowsAdded(l, m, r.source, r.native.value)
  {
    hide LedgerOk, Lists, SecondsOf, HasChunk, CommittedBy, KeysOf, LastOf;
    forall id | id in l.rows && id.source == r.source
      ensures id in m.rows && SecondsOf(m, id) == SecondsOf(l, id)
    {
      ListedRow(l, r.source, original, id.key);
      ListedRow(m, r.source, current, id.key);
      assert Id(r.source, id.key) == id;
      if current != original {
        var i := PlaceOfKey(original, id.key);
        ListedSeconds(l, r.source, original, i);
      }
    }
    forall id | id in m.rows && id.source == r.source && id !in l.rows ensures HasChunk(m, r.native.value, id.key) {
      ListedRow(l, r.source, original, id.key);
      ListedRow(m, r.source, current, id.key);
      assert Id(r.source, id.key) == id;
      if current != original {
        var i := PlaceOfKey(current, id.key);
        JoinIsTheChunk(m, r.native.value, id.key);
      }
    }
  }

  lemma PlaceOfKey(h: seq<Entry>, key: string) returns (i: nat)
    requires key in KeysOf(h)
    ensures i < |h| && h[i].key == key
  {
    i :| 0 <= i < |h| && h[i].key == key;
  }

  lemma KeyOfPlace(h: seq<Entry>, i: nat)
    requires i < |h|
    ensures h[i].key in KeysOf(h)
  {
  }

  lemma OwnMeansAccepted(r: Resume, l: Ledger, m: Ledger, original: seq<Entry>, current: seq<Entry>)
    requires LedgerOk(m) && Resumable(r, m) && Lists(l, r.source, original) && Lists(m, r.source, current)
    requires r.versionNow == r.versionThen && OnlyOwnRowsAdded(l, m, r.source, r.native.value)
    ensures Accepts(r, original, current, m)
  {
    hide LedgerOk, Lists, SecondsOf, HasChunk, CommittedBy, KeysOf, LastOf;
    forall i | 0 <= i < |original|
      ensures LastOf(current, original[i].key).Some?
      ensures LastOf(current, original[i].key).value.seconds == original[i].seconds
    {
      KeyOfPlace(original, i);
      ListedRow(l, r.source, original, original[i].key);
      ListedRow(m, r.source, current, original[i].key);
      ListedSeconds(l, r.source, original, i);
    }
    forall i | 0 <= i < |current|
      ensures current[i].key in KeysOf(original) || CommittedBy(m, r.native.value, r.source, current[i].key)
    {
      KeyOfPlace(current, i);
      ListedRow(l, r.source, original, current[i].key);
      ListedRow(m, r.source, current, current[i].key);
      JoinIsTheChunk(m, r.native.value, current[i].key);
    }
  }

  lemma ListedSeconds(l: Ledger, source: string, h: seq<Entry>, i: nat)
    requires Lists(l, source, h) && i < |h|
    ensures Id(source, h[i].key) in l.rows && h[i] == Entry(h[i].key, SecondsOf(l, Id(source, h[i].key)))
  {
  }

  lemma AcceptedExactly(r: Resume, l: Ledger, events: seq<Event>, original: seq<Entry>, current: seq<Entry>)
    requires LedgerOk(l) && Resumable(r, After(l, events)) && r.versionNow == r.versionThen
    requires Lists(l, r.source, original) && Lists(After(l, events), r.source, current)
    ensures Accepts(r, original, current, After(l, events)) <==>
      OnlyOwnRowsAdded(l, After(l, events), r.source, r.native.value)
  {
    hide LedgerOk, Accepts, OnlyOwnRowsAdded, Lists;
    LedgerGrows(l, events);
    if Accepts(r, original, current, After(l, events)) {
      AcceptedMeansOwn(r, l, After(l, events), original, current);
    }
    if OnlyOwnRowsAdded(l, After(l, events), r.source, r.native.value) {
      OwnMeansAccepted(r, l, After(l, events), original, current);
    }
  }

  /**
   * An accepted history only grows: every key accepted once is in every later
   * history, the previewed rows with the same seconds while resumes are
   * accepted, and a row whose seconds differ is one the run itself committed
   * whose time entry somebody has changed since.
   */
  lemma AcceptedOnlyGrows(r: Resume, s: Resume, l: Ledger, first: seq<Event>, more: seq<Event>,
                          original: seq<Entry>, earlier: seq<Entry>, later: seq<Entry>)
    requires LedgerOk(l) && Lists(l, r.source, original) && s.source == r.source && s.native == r.native
    requires Resumable(r, After(l, first)) && Resumable(s, After(After(l, first), more))
    requires Lists(After(l, first), r.source, earlier) && Lists(After(After(l, first), more), r.source, later)
    requires Accepts(r, original, earlier, After(l, first)) && Accepts(s, original, later, After(After(l, first), more))
    ensures KeysOf(original) <= KeysOf(earlier) <= KeysOf(later)
    ensures forall e :: e in original ==> e in earlier && e in later
    ensures forall e :: e in earlier && e !in later ==>
      && e.key !in KeysOf(original)
      && HasChunk(After(l, first), r.native.value, e.key)
      && SecondsOf(After(After(l, first), more), Id(r.source, e.key)) != e.seconds
  {
    hide LedgerOk, Accepts, Lists, SecondsOf, HasChunk, KeysOf, LastOf, Step, Grows;
    var m := After(l, first);
    var n := After(m, more);
    LedgerGrows(l, first);
    LedgerGrows(m, more);
    AcceptedMeansOwn(r, l, m, original, earlier);
    AcceptedMeansOwn(s, l, n, original, later);
    forall key | key in KeysOf(original) ensures key in KeysOf(earlier) {
      ListedRow(l, r.source, original, key);
      ListedRow(m, r.source, earlier, key);
    }
    forall key | key in KeysOf(earlier) ensures key in KeysOf(later) {
      ListedRow(m, r.source, earlier, key);
      ListedRow(n, r.source, later, key);
      RowsStay(m, n, Id(r.source, key));
    }
    forall e | e in original ensures e in earlier && e in later {
      StillListed(l, m, r.source, original, earlier, e);
      StillListed(l, n, r.source, original, later, e);
    }
    forall e | e in earlier && e !in later
      ensures Id(r.source, e.key) in n.rows && e.key !in KeysOf(original) && HasChunk(m, r.native.value, e.key)
      ensures SecondsOf(n, Id(r.source, e.key)) != e.seconds
    {
      var i :| 0 <= i < |earlier| && earlier[i] == e;
      ListedSeconds(m, r.source, earlier, i);
      ListedRow(l, r.source, original, e.key);
      ListedRow(n, r.source, later, e.key);
      RowsStay(m, n, Id(r.source, e.key));
      if SecondsOf(n, Id(r.source, e.key)) == e.seconds || Id(r.source, e.key) in l.rows {
        LastIsListed(later, e.key);
      }
    }
  }

  lemma RowsStay(m: Ledger, n: Ledger, id: Id)
    requires Grows(m, n) && id in m.rows
    ensures id in n.rows
  {
  }

  lemma LastIsListed(h: seq<Entry>, key: string)
    requires LastOf(h, key).Some?
    ensures LastOf(h, key).value in h
  {
    LastOfFound(h, key);
  }

  lemma StillListed(l: Ledger, m: Ledger, source: string, h: seq<Entry>, k: seq<Entry>, e: Entry)
    requires Lists(l, source, h) && Lists(m, source, k) && e in h
    requires forall id :: id in l.rows && id.source == source ==> id in m.rows && SecondsOf(m, id) == SecondsOf(l, id)
    ensures e in k
  {
    hide Lists, SecondsOf, LastOf;
    var i :| 0 <= i < |h| && h[i] == e;
    ListedSeconds(l, source, h, i);
    ListedRow(m, source, k, e.key);
    assert Id(source, e.key).source == source;
    LastIsListed(k, e.key);
  }

  /** Events of the run itself, and new time entries of anybody. */
  predicate OwnEvent(e: Event, run: int) {
    (e.Insert? && e.input.run == run) || (e.Acknowledge? && e.input.run == run) || e.AddEntry?
  }

  lemma OwnStepKeepsSeconds(l: Ledger, e: Event, run: int)
    requires LedgerOk(l) && OwnEvent(e, run)
    ensures forall id :: id in l.rows ==> id in Step(l, e).rows && SecondsOf(Step(l, e), id) == SecondsOf(l, id)
  {
    assert EntriesOnce(l);
    hide LedgerOk, Fits;
  }

  lemma OwnStep(l: Ledger, e: Event, run: int)
    requires LedgerOk(l) && run in l.runs && OwnEvent(e, run)
    ensures OnlyOwnRowsAdded(l, Step(l, e), l.runs[run].plan.source, run)
  {
    var m := Step(l, e);
    var source := l.runs[run].plan.source;
    OwnStepKeepsSeconds(l, e, run);
    hide LedgerOk, Fits, SecondsOf;
    forall id | id in m.rows && id.source == source && id !in l.rows ensures HasChunk(m, run, id.key) {
      assert e.Insert? && m.chunks[PlaceOf(e.input)].key == id.key;
    }
  }

  lemma OwnOn(l: Ledger, m: Ledger, n: Ledger, source: string, run: int)
    requires OnlyOwnRowsAdded(l, m, source, run) && OnlyOwnRowsAdded(m, n, source, run) && Grows(m, n)
    ensures OnlyOwnRowsAdded(l, n, source, run)
  {
    hide SecondsOf, HasChunk;
    forall id | id in n.rows && id.source == source && id !in l.rows ensures HasChunk(n, run, id.key) {
      if id in m.rows {
        ChunkStays(m, n, run, id.key);
      }
    }
  }

  lemma ChunkStays(m: Ledger, n: Ledger, run: int, key: string)
    requires HasChunk(m, run, key) && Grows(m, n)
    ensures HasChunk(n, run, key)
  {
  }

  lemma {:induction false} OwnEvents(l: Ledger, events: seq<Event>, run: int)
    requires LedgerOk(l) && run in l.runs && forall i :: 0 <= i < |events| ==> OwnEvent(events[i], run)
    ensures run in After(l, events).runs && After(l, events).runs[run].plan == l.runs[run].plan
    ensures OnlyOwnRowsAdded(l, After(l, events), l.runs[run].plan.source, run)
    decreases |events|
  {
    LedgerGrows(l, events);
    if events == [] {
      return;
    }
    var m := Step(l, events[0]);
    StepKeeps(l, events[0]);
    hide LedgerOk, Step, OnlyOwnRowsAdded, OwnEvent;
    OwnStep(l, events[0], run);
    OwnEvents(m, events[1..], run);
    LedgerGrows(m, events[1..]);
    OwnOn(l, m, After(m, events[1..]), l.runs[run].plan.source, run);
  }

  /** A run's own progress never stands in the way of resuming it. */
  lemma OwnProgressIsAccepted(r: Resume, l: Ledger, events: seq<Event>, original: seq<Entry>, current: seq<Entry>)
    requires LedgerOk(l) && Resumable(r, l) && r.versionNow == r.versionThen
    requires forall i :: 0 <= i < |events| ==> OwnEvent(events[i], r.native.value)
    requires Lists(l, r.source, original) && Lists(After(l, events), r.source, current)
    ensures Accepts(r, original, current, After(l, events))
  {
    hide LedgerOk, Accepts, OnlyOwnRowsAdded, Lists, Step;
    OwnEvents(l, events, r.native.value);
    LedgerGrows(l, events);
    OwnMeansAccepted(r, l, After(l, events), original, current);
  }
}
