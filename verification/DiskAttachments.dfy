/**
 * The content-addressed attachment store on a disk of names and files. Each
 * put writes a temporary file of its own and publishes it with a hard link;
 * nothing is ever written under a published name.
 */
module DiskAttachments {
  import opened Wrappers
  import opened HexText

  type Bytes = seq<int>

  /** The digest, in lower-case hexadecimal. */
  type Hasher = Bytes -> string

  // ---- keys ------------------------------------------------------------------------------

  const PREFIX := "sha256/"

  /** The hash a key names: `sha256/`, its first two digits, a slash, and all sixty-four. */
  function KeyHash(key: string): Option<string> {
    if |key| != 74 || key[..7] != PREFIX || key[9] != '/' then None
    else if !LowerHex(key[7..9]) || !LowerHex(key[10..]) || key[7..9] != key[10..12] then None
    else Some(key[10..])
  }

  function KeyFor(hash: string): string
    requires |hash| >= 2
  {
    PREFIX + hash[..2] + "/" + hash
  }

  /** A key is accepted exactly when it is the key of some hash, and then it names that hash. */
  lemma KeyNamesItsHash(key: string, hash: string)
    ensures KeyHash(key) == Some(hash) <==> |hash| == 64 && LowerHex(hash) && key == KeyFor(hash)
  {
    if KeyHash(key) == Some(hash) {
      assert key == key[..7] + key[7..9] + [key[9]] + key[10..];
      assert key[10..12] == hash[..2];
    }
    if |hash| == 64 && LowerHex(hash) && key == KeyFor(hash) {
      assert key[..7] == PREFIX && key[7..9] == hash[..2] && key[10..] == hash && key[10..12] == hash[..2];
    }
  }

  // ---- the disk --------------------------------------------------------------------------

  datatype Path = Target(hash: string) | Temp(hash: string, id: nat)

  /** Names lead to files by number; a file keeps its bytes whatever names lead to it. */
  datatype Disk = Disk(names: map<Path, nat>, files: seq<Bytes>)

  function Create(d: Disk, p: Path): Disk { Disk(d.names[p := |d.files|], d.files + [[]]) }

  function Overwrite(d: Disk, file: nat, bytes: Bytes): Disk
    requires file < |d.files|
  {
    d.(files := d.files[file := bytes])
  }

  function Link(d: Disk, old_: Path, new_: Path): Disk
    requires old_ in d.names
  {
    d.(names := d.names[new_ := d.names[old_]])
  }

  function Unlink(d: Disk, p: Path): Disk { d.(names := d.names - {p}) }

  // ---- calls in flight -------------------------------------------------------------------

  datatype Task =
    | Checked(hash: string, bytes: Bytes)
    | Writing(hash: string, bytes: Bytes, temp: Path, file: nat, done: nat)
    | Written(hash: string, bytes: Bytes, temp: Path)
    | Collided(hash: string, temp: Path)
    | Comparing(hash: string, temp: Path, file: nat, got: Bytes)
    | Cleaning(hash: string, temp: Path, good: bool)
    | Stored(hash: string)
    | Asked(hash: string)
    | Reading(hash: string, file: nat, got: Bytes)
    | Got(hash: string, got: Bytes)
    | Absent(hash: string)
    | Failed

  /** `lost` are the temporary files whose removal was prevented by a failure. */
  datatype State = State(disk: Disk, tasks: seq<Task>, lost: set<Path>)

  datatype Event =
    | PutCall(key: string, bytes: Bytes)
    | GetCall(key: string)
    | OpenTemp(i: nat, id: nat)
    | OpenFails(i: nat)
    | WriteMore(i: nat, upto: nat)
    | WriteEnds(i: nat)
    | WriteFails(i: nat)
    | LinkTemp(i: nat)
    | LinkFails(i: nat)
    | OpenTarget(i: nat)
    | ReadMore(i: nat, upto: nat)
    | ReadEnds(i: nat)
    | ReadFails(i: nat)
    | UnlinkTemp(i: nat)
    | UnlinkFails(i: nat)
    | Crash

  const START := State(Disk(map[], []), [], {})

  function Set(s: State, i: nat, t: Task): State
    requires i < |s.tasks|
  {
    s.(tasks := s.tasks[i := t])
  }

  /** put(): the key, then the content against it, before anything is touched. */
  function PutTask(h: Hasher, key: string, bytes: Bytes): Task {
    match KeyHash(key)
    case None => Failed
    case Some(hash) => if h(bytes) == hash then Checked(hash, bytes) else Failed
  }

  function GetTask(key: string): Task {
    match KeyHash(key) case None => Failed case Some(hash) => Asked(hash)
  }

  predicate HasTemp(t: Task) { t.Writing? || t.Written? || t.Collided? || t.Comparing? || t.Cleaning? }

  predicate Enabled(s: State, e: Event) {
    match e
    case PutCall(_, _) => true
    case GetCall(_) => true
    case Crash => true
    case OpenTemp(i, id) => i < |s.tasks| && s.tasks[i].Checked? && Temp(s.tasks[i].hash, id) !in s.disk.names
    case OpenFails(i) => i < |s.tasks| && (s.tasks[i].Checked? || s.tasks[i].Asked?)
    case WriteMore(i, upto) =>
      i < |s.tasks| && s.tasks[i].Writing? && s.tasks[i].file < |s.disk.files|
      && s.tasks[i].done <= upto <= |s.tasks[i].bytes|
    case WriteEnds(i) => i < |s.tasks| && s.tasks[i].Writing? && s.tasks[i].done == |s.tasks[i].bytes|
    case WriteFails(i) => i < |s.tasks| && s.tasks[i].Writing?
    case LinkTemp(i) => i < |s.tasks| && s.tasks[i].Written? && s.tasks[i].temp in s.disk.names
    case LinkFails(i) => i < |s.tasks| && s.tasks[i].Written?
    case OpenTarget(i) => i < |s.tasks| && (s.tasks[i].Asked? || s.tasks[i].Collided?)
    case ReadMore(i, upto) =>
      i < |s.tasks| && (s.tasks[i].Reading? || s.tasks[i].Comparing?) && s.tasks[i].file < |s.disk.files|
      && |s.tasks[i].got| <= upto <= |s.disk.files[s.tasks[i].file]|
    case ReadEnds(i) =>
      i < |s.tasks| && (s.tasks[i].Reading? || s.tasks[i].Comparing?) && s.tasks[i].file < |s.disk.files|
      && |s.tasks[i].got| == |s.disk.files[s.tasks[i].file]|
    case ReadFails(i) => i < |s.tasks| && (s.tasks[i].Reading? || s.tasks[i].Comparing? || s.tasks[i].Collided?)
    case UnlinkTemp(i) => i < |s.tasks| && s.tasks[i].Cleaning?
    case UnlinkFails(i) => i < |s.tasks| && s.tasks[i].Cleaning?
  }

  /** link(): the published name appears at once, or is there already. */
  function LinkStep(s: State, i: nat): State
    requires Enabled(s, LinkTemp(i))
  {
    var t := s.tasks[i];
    if Target(t.hash) in s.disk.names then Set(s, i, Collided(t.hash, t.temp))
    else Set(s, i, Cleaning(t.hash, t.temp, true)).(disk := Link(s.disk, t.temp, Target(t.hash)))
  }

  /** Opening the published name: the file it leads to, or nothing. */
  function OpenStep(s: State, i: nat): State
    requires Enabled(s, OpenTarget(i))
  {
    var t := s.tasks[i];
    if Target(t.hash) !in s.disk.names then
      Set(s, i, if t.Asked? then Absent(t.hash) else Cleaning(t.hash, t.temp, false))
    else
      var file := s.disk.names[Target(t.hash)];
      Set(s, i, if t.Asked? then Reading(t.hash, file, []) else Comparing(t.hash, t.temp, file, []))
  }

  function ReadStep(s: State, i: nat, upto: nat): State
    requires Enabled(s, ReadMore(i, upto))
  {
    var t := s.tasks[i];
    var got := t.got + s.disk.files[t.file][|t.got|..upto];
    Set(s, i, if t.Reading? then Reading(t.hash, t.file, got) else Comparing(t.hash, t.temp, t.file, got))
  }

  /** The whole file was read: its digest decides. */
  function ReadEndStep(h: Hasher, s: State, i: nat): State
    requires Enabled(s, ReadEnds(i))
  {
    var t := s.tasks[i];
    Set(s, i,
      if t.Reading? then if h(t.got) == t.hash then Got(t.hash, t.got) else Failed
      else Cleaning(t.hash, t.temp, h(t.got) == t.hash))
  }

  function ReadFailStep(s: State, i: nat): State
    requires Enabled(s, ReadFails(i))
  {
    var t := s.tasks[i];
    Set(s, i, if t.Reading? then Failed else Cleaning(t.hash, t.temp, false))
  }

  function Abandon(s: State, i: nat): State
    requires i < |s.tasks| && HasTemp(s.tasks[i])
  {
    Set(s, i, Failed).(lost := s.lost + {s.tasks[i].temp})
  }

  /** The process stops: every call is gone and its temporary file stays. */
  function CrashStep(s: State): State {
    State(s.disk, [], s.lost + set p | p in s.disk.names && p.Temp?)
  }

  function Step(h: Hasher, s: State, e: Event): State
    requires Enabled(s, e)
  {
    match e
    case PutCall(key, bytes) => s.(tasks := s.tasks + [PutTask(h, key, bytes)])
    case GetCall(key) => s.(tasks := s.tasks + [GetTask(key)])
    case OpenTemp(i, id) =>
      var t := s.tasks[i];
      Set(s, i, Writing(t.hash, t.bytes, Temp(t.hash, id), |s.disk.files|, 0))
        .(disk := Create(s.disk, Temp(t.hash, id)))
    case OpenFails(i) => Set(s, i, Failed)
    case WriteMore(i, upto) =>
      var t := s.tasks[i];
      Set(s, i, t.(done := upto)).(disk := Overwrite(s.disk, t.file, t.bytes[..upto]))
    case WriteEnds(i) => Set(s, i, Written(s.tasks[i].hash, s.tasks[i].bytes, s.tasks[i].temp))
    case WriteFails(i) => Abandon(s, i)
    case LinkTemp(i) => LinkStep(s, i)
    case LinkFails(i) => Set(s, i, Cleaning(s.tasks[i].hash, s.tasks[i].temp, false))
    case OpenTarget(i) => OpenStep(s, i)
    case ReadMore(i, upto) => ReadStep(s, i, upto)
    case ReadEnds(i) => ReadEndStep(h, s, i)
    case ReadFails(i) => ReadFailStep(s, i)
    case UnlinkTemp(i) =>
      var t := s.tasks[i];
      Set(s, i, if t.good then Stored(t.hash) else Failed).(disk := Unlink(s.disk, t.temp))
    case UnlinkFails(i) => Abandon(s, i)
    case Crash => CrashStep(s)
  }

  ghost predicate Leads(h: Hasher, s: State, events: seq<Event>, n: State)
    decreases |events|
  {
    if events == [] then s == n
    else Enabled(s, events[0]) && Leads(h, Step(h, s, events[0]), events[1..], n)
  }
}
