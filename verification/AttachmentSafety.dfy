/** What every interleaving of puts, gets, failures and crashes keeps of the attachment store. */
module AttachmentSafety {
  import opened DiskAttachments

  /** A published name leads to a file whose digest is that name. */
  ghost predicate DiskOk(h: Hasher, d: Disk) {
    && (forall p :: p in d.names ==> d.names[p] < |d.files|)
    && (forall hash :: Target(hash) in d.names ==> h(d.files[d.names[Target(hash)]]) == hash)
  }

  ghost predicate SoleName(d: Disk, p: Path, file: nat) {
    p in d.names && d.names[p] == file && forall q :: q in d.names && d.names[q] == file ==> q == p
  }

  predicate Published(d: Disk, hash: string) { Target(hash) in d.names }

  /** A file still being written has one name only; a file being read is the published one. */
  ghost predicate TaskOk(h: Hasher, d: Disk, t: Task) {
    (HasTemp(t) ==> t.temp.Temp? && t.temp in d.names) && match t
      case Checked(hash, bytes) => h(bytes) == hash
      case Writing(hash, bytes, temp, file, done) =>
        && h(bytes) == hash && SoleName(d, temp, file)
      && done <= |bytes| && file < |d.files| && d.files[file] == bytes[..done]
      case Written(hash, bytes, temp) =>
        h(bytes) == hash && temp in d.names && d.names[temp] < |d.files| && d.files[d.names[temp]] == bytes
      case Collided(hash, _) => Published(d, hash)
      case Comparing(hash, _, file, got) => ReadsPublished(d, hash, file, got)
      case Cleaning(hash, _, good) => good ==> Published(d, hash)
      case Stored(hash) => Published(d, hash)
      case Reading(hash, file, got) => ReadsPublished(d, hash, file, got)
      case Got(hash, got) => h(got) == hash
      case _ => true
  }

  ghost predicate ReadsPublished(d: Disk, hash: string, file: nat, got: Bytes) {
    Published(d, hash) && d.names[Target(hash)] == file && file < |d.files| && got <= d.files[file]
  }

  predicate Apart(t: Task, u: Task) { HasTemp(t) && HasTemp(u) ==> t.temp != u.temp }

  predicate Owns(t: Task, p: Path) { HasTemp(t) && t.temp == p }

  ghost predicate Owned(s: State, p: Path) {
    p in s.lost || exists i :: 0 <= i < |s.tasks| && Owns(s.tasks[i], p)
  }

  ghost predicate Inv(h: Hasher, s: State) {
    && DiskOk(h, s.disk)
    && (forall i :: 0 <= i < |s.tasks| ==> TaskOk(h, s.disk, s.tasks[i]))
    && (forall i, j :: 0 <= i < j < |s.tasks| ==> Apart(s.tasks[i], s.tasks[j]))
    && (forall p :: p in s.disk.names && p.Temp? ==> Owned(s, p))
  }

  // ---- the four changes to the disk ------------------------------------------------------

  /** Names that stay lead to the same files, and published files keep their bytes. */
  ghost predicate Stays(d: Disk, e: Disk) {
    forall hash :: Published(d, hash) ==>
      && Published(e, hash) && e.names[Target(hash)] == d.names[Target(hash)]
      && d.names[Target(hash)] < |d.files| && d.names[Target(hash)] < |e.files|
      && e.files[d.names[Target(hash)]] == d.files[d.names[Target(hash)]]
  }

  lemma CreateKeeps(h: Hasher, d: Disk, p: Path)
    requires DiskOk(h, d) && p !in d.names && p.Temp?
    ensures DiskOk(h, Create(d, p)) && Stays(d, Create(d, p)) && SoleName(Create(d, p), p, |d.files|)
    ensures forall t :: TaskOk(h, d, t) ==> TaskOk(h, Create(d, p), t)
  {
    forall t | TaskOk(h, d, t) ensures TaskOk(h, Create(d, p), t) {
      CreateKeepsTask(h, d, p, t);
    }
  }

  lemma CreateKeepsTask(h: Hasher, d: Disk, p: Path, t: Task)
    requires DiskOk(h, d) && p !in d.names && p.Temp? && TaskOk(h, d, t)
    ensures TaskOk(h, Create(d, p), t)
  {
    if t.Writing? {
      assert SoleName(Create(d, p), t.temp, t.file);
    }
  }

  lemma OverwriteKeeps(h: Hasher, d: Disk, w: Task, upto: nat)
    requires DiskOk(h, d) && w.Writing? && TaskOk(h, d, w) && upto <= |w.bytes|
    ensures var e := Overwrite(d, w.file, w.bytes[..upto]);
      && DiskOk(h, e) && Stays(d, e) && TaskOk(h, e, w.(done := upto))
      && forall t :: TaskOk(h, d, t) && Apart(t, w) ==> TaskOk(h, e, t)
  {
    var e := Overwrite(d, w.file, w.bytes[..upto]);
    forall hash | Published(d, hash) ensures d.names[Target(hash)] != w.file {
    }
    forall t | TaskOk(h, d, t) && Apart(t, w) ensures TaskOk(h, e, t) {
    }
  }

  lemma LinkKeeps(h: Hasher, d: Disk, w: Task)
    requires DiskOk(h, d) && w.Written? && TaskOk(h, d, w) && !Published(d, w.hash)
    ensures var e := Link(d, w.temp, Target(w.hash));
      && DiskOk(h, e) && Stays(d, e) && Published(e, w.hash)
      && forall t :: TaskOk(h, d, t) && Apart(t, w) ==> TaskOk(h, e, t)
  {
    var e := Link(d, w.temp, Target(w.hash));
    forall t | TaskOk(h, d, t) && Apart(t, w) ensures TaskOk(h, e, t) {
      if t.Writing? {
        assert SoleName(e, t.temp, t.file);
      }
    }
  }

  lemma UnlinkKeeps(h: Hasher, d: Disk, p: Path)
    requires DiskOk(h, d) && p.Temp?
    ensures var e := Unlink(d, p);
      && DiskOk(h, e) && Stays(d, e)
      && forall t :: TaskOk(h, d, t) && !Owns(t, p) ==> TaskOk(h, e, t)
  {
    var e := Unlink(d, p);
    forall t | TaskOk(h, d, t) && !Owns(t, p) ensures TaskOk(h, e, t) {
      if t.Writing? {
        assert SoleName(e, t.temp, t.file);
      }
    }
  }

  // ---- one call moves on -----------------------------------------------------------------

  /** The call at a place becomes another one over a disk that is good for every other call. */
  lemma SetKeeps(h: Hasher, s: State, i: nat, t: Task, d: Disk, lost: set<Path>)
    requires Inv(h, s) && i < |s.tasks| && DiskOk(h, d) && TaskOk(h, d, t)
    requires forall j :: 0 <= j < |s.tasks| && j != i ==> TaskOk(h, d, s.tasks[j]) && Apart(t, s.tasks[j])
    requires s.lost <= lost
    requires forall p :: p in d.names && p.Temp? ==>
      Owns(t, p) || p in lost || (p in s.disk.names && !Owns(s.tasks[i], p))
    ensures Inv(h, State(d, s.tasks[i := t], lost))
  {
    hide TaskOk, DiskOk;
    var n := State(d, s.tasks[i := t], lost);
    forall p | p in d.names && p.Temp? ensures Owned(n, p) {
      if Owns(t, p) {
        assert Owns(n.tasks[i], p);
      } else if p !in lost {
        assert Owned(s, p);
        var j :| 0 <= j < |s.tasks| && Owns(s.tasks[j], p);
        assert Owns(n.tasks[j], p);
      }
    }
    forall j, k | 0 <= j < k < |n.tasks| ensures Apart(n.tasks[j], n.tasks[k]) {
      assert j != i && k != i ==> Apart(s.tasks[j], s.tasks[k]);
    }
  }

  lemma OthersApart(h: Hasher, s: State, i: nat)
    requires Inv(h, s) && i < |s.tasks|
    ensures forall j :: 0 <= j < |s.tasks| && j != i ==>
      TaskOk(h, s.disk, s.tasks[j]) && Apart(s.tasks[i], s.tasks[j]) && Apart(s.tasks[j], s.tasks[i])
  {
    hide TaskOk, DiskOk, Owned;
    forall j | 0 <= j < |s.tasks| && j != i ensures Apart(s.tasks[i], s.tasks[j]) {
      assert if i < j then Apart(s.tasks[i], s.tasks[j]) else Apart(s.tasks[j], s.tasks[i]);
    }
  }

  /** A step that leaves the disk alone and keeps or drops the temporary file. */
  lemma QuietStep(h: Hasher, s: State, i: nat, t: Task, lost: set<Path>)
    requires Inv(h, s) && i < |s.tasks| && TaskOk(h, s.disk, t)
    requires HasTemp(s.tasks[i]) ==> (HasTemp(t) && t.temp == s.tasks[i].temp) || s.tasks[i].temp in lost
    requires HasTemp(t) ==> HasTemp(s.tasks[i]) && t.temp == s.tasks[i].temp
    requires s.lost <= lost
    ensures Inv(h, State(s.disk, s.tasks[i := t], lost))
  {
    hide TaskOk, DiskOk, Owned;
    OthersApart(h, s, i);
    SetKeeps(h, s, i, t, s.disk, lost);
  }

  lemma CallKeeps(h: Hasher, s: State, t: Task)
    requires Inv(h, s) && TaskOk(h, s.disk, t) && !HasTemp(t)
    ensures Inv(h, s.(tasks := s.tasks + [t]))
  {
    hide TaskOk, DiskOk;
    var n := s.(tasks := s.tasks + [t]);
    forall p | p in s.disk.names && p.Temp? ensures Owned(n, p) {
      assert Owned(s, p);
      if p !in s.lost {
        var j :| 0 <= j < |s.tasks| && Owns(s.tasks[j], p);
        assert Owns(n.tasks[j], p);
      }
    }
  }

  /** A name opened exclusively is one no call in flight has. */
  lemma OpenedIsFresh(h: Hasher, s: State, p: Path)
    requires Inv(h, s) && p !in s.disk.names
    ensures forall j :: 0 <= j < |s.tasks| ==> !Owns(s.tasks[j], p)
  {
  }

  lemma OpenTempKeeps(h: Hasher, s: State, i: nat, id: nat)
    requires Inv(h, s) && Enabled(s, OpenTemp(i, id))
    ensures Inv(h, Step(h, s, OpenTemp(i, id))) && Stays(s.disk, Step(h, s, OpenTemp(i, id)).disk)
  {
    var t := s.tasks[i];
    var p := Temp(t.hash, id);
    OpenedIsFresh(h, s, p);
    hide TaskOk, DiskOk, Owned, SoleName, Stays;
    OthersApart(h, s, i);
    CreateKeeps(h, s.disk, p);
    OpenedIsOk(h, s.disk, t, p);
    SetKeeps(h, s, i, Writing(t.hash, t.bytes, p, |s.disk.files|, 0), Create(s.disk, p), s.lost);
  }

  lemma OpenedIsOk(h: Hasher, d: Disk, t: Task, p: Path)
    requires t.Checked? && TaskOk(h, d, t) && p.Temp? && SoleName(Create(d, p), p, |d.files|)
    ensures TaskOk(h, Create(d, p), Writing(t.hash, t.bytes, p, |d.files|, 0))
  {
  }

  lemma WriteMoreKeeps(h: Hasher, s: State, i: nat, upto: nat)
    requires Inv(h, s) && Enabled(s, WriteMore(i, upto))
    ensures Inv(h, Step(h, s, WriteMore(i, upto))) && Stays(s.disk, Step(h, s, WriteMore(i, upto)).disk)
  {
    hide TaskOk, DiskOk, Owned, Stays;
    var t := s.tasks[i];
    OthersApart(h, s, i);
    OverwriteKeeps(h, s.disk, t, upto);
    SetKeeps(h, s, i, t.(done := upto), Overwrite(s.disk, t.file, t.bytes[..upto]), s.lost);
  }

  lemma WriteEndsKeeps(h: Hasher, s: State, i: nat)
    requires Inv(h, s) && Enabled(s, WriteEnds(i))
    ensures Inv(h, Step(h, s, WriteEnds(i)))
  {
    var t := s.tasks[i];
    assert TaskOk(h, s.disk, Written(t.hash, t.bytes, t.temp));
    QuietStep(h, s, i, Written(t.hash, t.bytes, t.temp), s.lost);
  }

  lemma LinkTempKeeps(h: Hasher, s: State, i: nat)
    requires Inv(h, s) && Enabled(s, LinkTemp(i))
    ensures Inv(h, LinkStep(s, i)) && Stays(s.disk, LinkStep(s, i).disk)
  {
    var t := s.tasks[i];
    if Published(s.disk, t.hash) {
      assert TaskOk(h, s.disk, Collided(t.hash, t.temp));
      QuietStep(h, s, i, Collided(t.hash, t.temp), s.lost);
      StaysSame(h, s.disk);
    } else {
      LinkPublishes(h, s, i);
    }
  }

  lemma StaysSame(h: Hasher, d: Disk)
    requires DiskOk(h, d)
    ensures Stays(d, d)
  {
  }

  lemma LinkPublishes(h: Hasher, s: State, i: nat)
    requires Inv(h, s) && Enabled(s, LinkTemp(i)) && !Published(s.disk, s.tasks[i].hash)
    ensures Inv(h, LinkStep(s, i)) && Stays(s.disk, LinkStep(s, i).disk)
  {
    hide DiskOk, Owned, Stays;
    var t := s.tasks[i];
    var d, next := Link(s.disk, t.temp, Target(t.hash)), Cleaning(t.hash, t.temp, true);
    OthersApart(h, s, i);
    LinkKeeps(h, s.disk, t);
    assert TaskOk(h, d, next);
    hide TaskOk;
    assert LinkStep(s, i) == State(d, s.tasks[i := next], s.lost);
    SetKeeps(h, s, i, next, d, s.lost);
  }

  lemma UnlinkTempKeeps(h: Hasher, s: State, i: nat)
    requires Inv(h, s) && Enabled(s, UnlinkTemp(i))
    ensures Inv(h, Step(h, s, UnlinkTemp(i))) && Stays(s.disk, Step(h, s, UnlinkTemp(i)).disk)
  {
    hide DiskOk, Owned, Stays;
    var t := s.tasks[i];
    var d, next := Unlink(s.disk, t.temp), if t.good then Stored(t.hash) else Failed;
    OthersApart(h, s, i);
    UnlinkKeeps(h, s.disk, t.temp);
    assert TaskOk(h, s.disk, t);
    assert TaskOk(h, d, next);
    hide TaskOk;
    SetKeeps(h, s, i, next, d, s.lost);
  }

  lemma AbandonKeeps(h: Hasher, s: State, i: nat)
    requires Inv(h, s) && i < |s.tasks| && HasTemp(s.tasks[i])
    ensures Inv(h, Abandon(s, i))
  {
    assert TaskOk(h, s.disk, Failed);
    QuietStep(h, s, i, Failed, s.lost + {s.tasks[i].temp});
  }

  lemma OpenTargetKeeps(h: Hasher, s: State, i: nat)
    requires Inv(h, s) && Enabled(s, OpenTarget(i))
    ensures Inv(h, OpenStep(s, i))
  {
    var t := s.tasks[i];
    var next := OpenStep(s, i).tasks[i];
    assert TaskOk(h, s.disk, t);
    assert TaskOk(h, s.disk, next);
    QuietStep(h, s, i, next, s.lost);
  }

  lemma ReadMoreKeeps(h: Hasher, s: State, i: nat, upto: nat)
    requires Inv(h, s) && Enabled(s, ReadMore(i, upto))
    ensures Inv(h, ReadStep(s, i, upto))
  {
    var t := s.tasks[i];
    var whole := s.disk.files[t.file];
    var next := ReadStep(s, i, upto).tasks[i];
    assert TaskOk(h, s.disk, t);
    assert t.got == whole[..|t.got|] && t.got + whole[|t.got|..upto] == whole[..upto];
    assert TaskOk(h, s.disk, next);
    QuietStep(h, s, i, next, s.lost);
  }

  /** What was read is the whole published file, so its digest is the name. */
  lemma ReadIsWhole(h: Hasher, s: State, i: nat)
    requires Inv(h, s) && Enabled(s, ReadEnds(i))
    ensures var t := s.tasks[i];
      && Published(s.disk, t.hash) && t.got == s.disk.files[s.disk.names[Target(t.hash)]] && h(t.got) == t.hash
  {
    assert TaskOk(h, s.disk, s.tasks[i]);
  }

  lemma ReadEndsKeeps(h: Hasher, s: State, i: nat)
    requires Inv(h, s) && Enabled(s, ReadEnds(i))
    ensures Inv(h, ReadEndStep(h, s, i))
  {
    ReadIsWhole(h, s, i);
    var next := ReadEndStep(h, s, i).tasks[i];
    assert TaskOk(h, s.disk, s.tasks[i]);
    assert TaskOk(h, s.disk, next);
    QuietStep(h, s, i, next, s.lost);
  }

  lemma FailureKeeps(h: Hasher, s: State, i: nat)
    requires Inv(h, s) && i < |s.tasks|
    ensures HasTemp(s.tasks[i]) ==> Inv(h, Set(s, i, Cleaning(s.tasks[i].hash, s.tasks[i].temp, false)))
    ensures !HasTemp(s.tasks[i]) ==> Inv(h, Set(s, i, Failed))
  {
    var t := s.tasks[i];
    assert TaskOk(h, s.disk, t);
    var next := if HasTemp(t) then Cleaning(t.hash, t.temp, false) else Failed;
    assert TaskOk(h, s.disk, next);
    QuietStep(h, s, i, next, s.lost);
  }

  lemma CrashKeeps(h: Hasher, s: State)
    requires Inv(h, s)
    ensures Inv(h, CrashStep(s))
  {
  }

  // ---- every step and every run ------------------------------------------------------------

  lemma NewTasksOk(h: Hasher, d: Disk, key: string, bytes: Bytes)
    ensures TaskOk(h, d, PutTask(h, key, bytes)) && !HasTemp(PutTask(h, key, bytes))
    ensures TaskOk(h, d, GetTask(key)) && !HasTemp(GetTask(key))
  {
  }

  lemma StepKeepsInv(h: Hasher, s: State, e: Event)
    requires Inv(h, s) && Enabled(s, e)
    ensures Inv(h, Step(h, s, e)) && Stays(s.disk, Step(h, s, e).disk)
  {
    StaysSame(h, s.disk);
    hide Inv, Stays, TaskOk, LinkStep, OpenStep, ReadStep, ReadEndStep, CrashStep, Abandon;
    match e
    case PutCall(key, bytes) => NewCallKeeps(h, s, key, bytes);
    case GetCall(key) => NewCallKeeps(h, s, key, []);
    case OpenTemp(i, id) => OpenTempKeeps(h, s, i, id);
    case OpenFails(i) => FailureKeeps(h, s, i);
    case WriteMore(i, upto) => WriteMoreKeeps(h, s, i, upto);
    case WriteEnds(i) => WriteEndsKeeps(h, s, i);
    case WriteFails(i) => FailedStays(h, s, i);
    case LinkTemp(i) => LinkTempKeeps(h, s, i);
    case LinkFails(i) => FailureKeeps(h, s, i);
    case OpenTarget(i) => OpenTargetKeeps(h, s, i); OpenDisk(s, i);
    case ReadMore(i, upto) => ReadMoreKeeps(h, s, i, upto); ReadDisk(h, s, i, upto);
    case ReadEnds(i) => ReadEndsKeeps(h, s, i); ReadEndDisk(h, s, i);
    case ReadFails(i) => FailureKeeps(h, s, i); ReadFailDisk(s, i);
    case UnlinkTemp(i) => UnlinkTempKeeps(h, s, i);
    case UnlinkFails(i) => FailedStays(h, s, i);
    case Crash => CrashKeeps(h, s); CrashDisk(s);
  }

  lemma NewCallKeeps(h: Hasher, s: State, key: string, bytes: Bytes)
    requires Inv(h, s)
    ensures Inv(h, s.(tasks := s.tasks + [PutTask(h, key, bytes)])) && Inv(h, s.(tasks := s.tasks + [GetTask(key)]))
  {
    NewTasksOk(h, s.disk, key, bytes);
    CallKeeps(h, s, PutTask(h, key, bytes));
    CallKeeps(h, s, GetTask(key));
  }

  lemma FailedStays(h: Hasher, s: State, i: nat)
    requires Inv(h, s) && i < |s.tasks| && HasTemp(s.tasks[i])
    ensures Inv(h, Abandon(s, i)) && Abandon(s, i).disk == s.disk
  {
    AbandonKeeps(h, s, i);
  }

  lemma OpenDisk(s: State, i: nat)
    requires Enabled(s, OpenTarget(i))
    ensures OpenStep(s, i).disk == s.disk
  {
  }

  lemma ReadDisk(h: Hasher, s: State, i: nat, upto: nat)
    requires Enabled(s, ReadMore(i, upto))
    ensures ReadStep(s, i, upto).disk == s.disk
  {
  }

  lemma ReadEndDisk(h: Hasher, s: State, i: nat)
    requires Enabled(s, ReadEnds(i))
    ensures ReadEndStep(h, s, i).disk == s.disk
  {
  }

  lemma ReadFailDisk(s: State, i: nat)
    requires Enabled(s, ReadFails(i))
    ensures ReadFailStep(s, i) ==
      if HasTemp(s.tasks[i]) then Set(s, i, Cleaning(s.tasks[i].hash, s.tasks[i].temp, false)) else Set(s, i, Failed)
  {
  }

  lemma CrashDisk(s: State)
    ensures CrashStep(s).disk == s.disk
  {
  }

  lemma StaysTransitive(d: Disk, e: Disk, f: Disk)
    requires Stays(d, e) && Stays(e, f)
    ensures Stays(d, f)
  {
  }

  lemma {:induction false} RunKeepsInv(h: Hasher, s: State, events: seq<Event>, n: State)
    requires Inv(h, s) && Leads(h, s, events, n)
    ensures Inv(h, n) && Stays(s.disk, n.disk)
    decreases |events|
  {
    hide Inv, Stays, Step, Enabled;
    if events == [] {
      InvStays(h, s);
    } else {
      var m := Step(h, s, events[0]);
      StepKeepsInv(h, s, events[0]);
      RunKeepsInv(h, m, events[1..], n);
      StaysTransitive(s.disk, m.disk, n.disk);
    }
  }

  lemma InvStays(h: Hasher, s: State)
    requires Inv(h, s)
    ensures Stays(s.disk, s.disk)
  {
    StaysSame(h, s.disk);
  }

  /**
   * In every reachable state a published name leads to bytes whose digest it
   * is, and from then on it leads to those very bytes whatever happens.
   */
  lemma PublishedNeverChanges(
      h: Hasher, events: seq<Event>, s: State, later: seq<Event>, n: State, hash: string)
    requires Leads(h, START, events, s) && Leads(h, s, later, n) && Published(s.disk, hash)
    ensures s.disk.names[Target(hash)] < |s.disk.files| && h(s.disk.files[s.disk.names[Target(hash)]]) == hash
    ensures Published(n.disk, hash) && n.disk.names[Target(hash)] < |n.disk.files|
    ensures n.disk.files[n.disk.names[Target(hash)]] == s.disk.files[s.disk.names[Target(hash)]]
  {
    RunKeepsInv(h, START, events, s);
    RunKeepsInv(h, s, later, n);
    assert Stays(s.disk, n.disk);
  }

  /** A get that was answered has the whole file: bytes whose digest is the key; it never fails on its content. */
  lemma GetNeverSeesPart(h: Hasher, events: seq<Event>, s: State, i: nat)
    requires Leads(h, START, events, s) && i < |s.tasks|
    ensures s.tasks[i].Got? ==> h(s.tasks[i].got) == s.tasks[i].hash
    ensures Enabled(s, ReadEnds(i)) ==> !Step(h, s, ReadEnds(i)).tasks[i].Failed?
    ensures Enabled(s, ReadEnds(i)) && s.tasks[i].Comparing? ==> Step(h, s, ReadEnds(i)).tasks[i].good
  {
    RunKeepsInv(h, START, events, s);
    assert TaskOk(h, s.disk, s.tasks[i]);
    if Enabled(s, ReadEnds(i)) {
      ReadIsWhole(h, s, i);
    }
  }

  /** A put that succeeded has published its key, for good. */
  lemma StoredIsPublished(h: Hasher, events: seq<Event>, s: State, i: nat, later: seq<Event>, n: State)
    requires Leads(h, START, events, s) && Leads(h, s, later, n)
    requires i < |s.tasks| && s.tasks[i].Stored?
    ensures Published(n.disk, s.tasks[i].hash)
  {
    RunKeepsInv(h, START, events, s);
    RunKeepsInv(h, s, later, n);
    assert TaskOk(h, s.disk, s.tasks[i]);
  }

  /**
   * A temporary file outlives the calls only where a write or a removal failed
   * or the process stopped: with no call in flight every one left is such a file.
   */
  lemma TempOnlyAfterFailure(h: Hasher, events: seq<Event>, s: State, p: Path)
    requires Leads(h, START, events, s) && p in s.disk.names && p.Temp?
    requires forall i :: 0 <= i < |s.tasks| ==> !HasTemp(s.tasks[i])
    ensures p in s.lost
  {
    RunKeepsInv(h, START, events, s);
    assert Owned(s, p);
  }

  predicate Failure(e: Event) { e.WriteFails? || e.UnlinkFails? || e.Crash? }

  /** Without such a failure nothing is ever left behind. */
  lemma {:induction false} NothingLostWithoutFailure(h: Hasher, s: State, events: seq<Event>, n: State)
    requires Leads(h, s, events, n) && forall e :: e in events ==> !Failure(e)
    ensures n.lost == s.lost
    decreases |events|
  {
    if events != [] {
      var e := events[0];
      assert e in events;
      NothingLost(h, s, e);
      assert forall x :: x in events[1..] ==> x in events;
      NothingLostWithoutFailure(h, Step(h, s, e), events[1..], n);
    }
  }

  lemma NothingLost(h: Hasher, s: State, e: Event)
    requires Enabled(s, e) && !Failure(e)
    ensures Step(h, s, e).lost == s.lost
  {
  }
}
