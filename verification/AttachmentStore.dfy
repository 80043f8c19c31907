/** The attachment store's put and get from beginning to end, with the failures the disk may answer with. */
module AttachmentStore {
  import opened Wrappers
  import opened DiskAttachments
  import opened AttachmentSafety

  datatype Problem = BadKey | Mismatch | NotOpened | NotWritten | NotLinked | NotRead | NotRemoved | NotSynced

  /** What goes wrong: writing or syncing after some bytes, the link, the comparison, the removal, the last sync. */
  datatype Faults = Faults(write: Option<nat>, link: bool, read: bool, unlink: bool, directory: bool)

  function Smaller(a: nat, b: nat): nat { if a < b then a else b }

  /** The answer of a put whose content fits its key and whose temporary was written. */
  function Answer(published: bool, f: Faults): Result<bool, Problem> {
    if f.unlink then Refused(NotRemoved)
    else if f.link then Refused(NotLinked)
    else if published && f.read then Refused(NotRead)
    else if !published && f.directory then Refused(NotSynced)
    else Ok(!published)
  }

  /** Whether the content is the one the key names. */
  predicate Fits(h: Hasher, key: string, bytes: Bytes) { KeyHash(key) == Some(h(bytes)) }

  lemma TempKeeps(h: Hasher, d: Disk, temp: Path, content: Bytes)
    requires DiskOk(h, d) && temp.Temp?
    ensures var e := Disk(d.names[temp := |d.files|], d.files + [content]); DiskOk(h, e) && Stays(d, e)
  {
  }

  lemma PublishKeeps(h: Hasher, d: Disk, temp: Path, hash: string)
    requires DiskOk(h, d) && temp in d.names && h(d.files[d.names[temp]]) == hash && !Published(d, hash)
    ensures DiskOk(h, Link(d, temp, Target(hash))) && Stays(d, Link(d, temp, Target(hash)))
  {
  }

  lemma UnlinkStays(h: Hasher, d: Disk, temp: Path)
    requires DiskOk(h, d) && temp.Temp?
    ensures DiskOk(h, Unlink(d, temp)) && Stays(d, Unlink(d, temp))
  {
    UnlinkKeeps(h, d, temp);
  }

  lemma PublishedReads(h: Hasher, d: Disk, hash: string)
    requires DiskOk(h, d)
    ensures Published(d, hash) ==>
      d.names[Target(hash)] < |d.files| && h(d.files[d.names[Target(hash)]]) == hash
  {
  }

  class DiskStore {
    var names: map<Path, nat>
    var files: seq<Bytes>

    ghost function Contents(): Disk
      reads this
    {
      Disk(names, files)
    }

    constructor ()
      ensures Contents() == Disk(map[], [])
    {
      names, files := map[], [];
    }

    /** A new temporary file with the bytes, or as many of them as were written. */
    method WriteTemp(temp: Path, bytes: Bytes, fault: Option<nat>) returns (ok: bool)
      requires temp !in names
      modifies this
      ensures names == old(names)[temp := |old(files)|]
      ensures ok <==> fault.None?
      ensures files == old(files) + [if ok then bytes else bytes[..Smaller(fault.value, |bytes|)]]
    {
      var file := |files|;
      names := names[temp := file];
      files := files + [[]];
      if fault.Some? {
        files := files[file := bytes[..Smaller(fault.value, |bytes|)]];
        return false;
      }
      files := files[file := bytes];
      return true;
    }

    /** put(): the answer, and what it leaves on the disk. */
    method Put(h: Hasher, key: string, bytes: Bytes, id: nat, faults: Faults) returns (r: Result<bool, Problem>)
      requires DiskOk(h, Contents())
      modifies this
      ensures DiskOk(h, Contents()) && Stays(old(Contents()), Contents())
      ensures !Fits(h, key, bytes) ==> r.Refused? && Contents() == old(Contents())
      ensures Fits(h, key, bytes) && Temp(h(bytes), id) in old(names) ==>
        r == Refused(NotOpened) && Contents() == old(Contents())
      ensures Fits(h, key, bytes) && Temp(h(bytes), id) !in old(names) && faults.write.Some? ==>
        && r == Refused(NotWritten) && names == old(names)[Temp(h(bytes), id) := |old(files)|]
        && files == old(files) + [bytes[..Smaller(faults.write.value, |bytes|)]]
      ensures Fits(h, key, bytes) && Temp(h(bytes), id) !in old(names) && faults.write.None? ==>
        && r == Answer(Target(h(bytes)) in old(names), faults) && files == old(files) + [bytes]
        && (var linked := if faults.link || Target(h(bytes)) in old(names) then old(names)
                          else old(names)[Target(h(bytes)) := |old(files)|];
            names == if faults.unlink then linked[Temp(h(bytes), id) := |old(files)|] else linked)
    {
      ghost var first := Contents();
      StaysSame(h, first);
      hide DiskOk, Stays;
      var parts := KeyHash(key);
      if parts.None? { return Refused(BadKey); }
      var hash := parts.value;
      if h(bytes) != hash { return Refused(Mismatch); }
      var temp, target := Temp(hash, id), Target(hash);
      if temp in names { return Refused(NotOpened); }
      var written := WriteTemp(temp, bytes, faults.write);
      TempKeeps(h, first, temp, files[|files| - 1]);
      assert Contents() == Disk(first.names[temp := |first.files|], first.files + [files[|files| - 1]]);
      if !written { return Refused(NotWritten); }
      var installed, problem := false, None;
      PublishedReads(h, Contents(), hash);
      if faults.link {
        problem := Some(NotLinked);
      } else if target !in names {
        ghost var filled := Contents();
        PublishKeeps(h, filled, temp, hash);
        StaysTransitive(first, filled, Link(filled, temp, target));
        names := names[target := names[temp]];
        installed := true;
      } else if faults.read || h(files[names[target]]) != hash {
        problem := Some(NotRead);
      }
      if faults.unlink { return Refused(NotRemoved); }
      ghost var kept := Contents();
      UnlinkStays(h, kept, temp);
      StaysTransitive(first, kept, Unlink(kept, temp));
      names := names - {temp};
      if problem.Some? { return Refused(problem.value); }
      if installed && faults.directory { return Refused(NotSynced); }
      return Ok(installed);
    }

    /** get(): nothing for a name that is not there, the whole file otherwise. */
    method Get(h: Hasher, key: string) returns (r: Result<Option<Bytes>, Problem>)
      requires DiskOk(h, Contents())
      ensures r.Refused? <==> KeyHash(key).None?
      ensures r.Ok? ==> (r.value.Some? <==> Published(Contents(), KeyHash(key).value))
      ensures r.Ok? && r.value.Some? ==> h(r.value.value) == KeyHash(key).value
    {
      var parts := KeyHash(key);
      if parts.None? { return Refused(BadKey); }
      var target := Target(parts.value);
      if target !in names { return Ok(None); }
      var bytes := files[names[target]];
      if h(bytes) != parts.value { return Refused(Mismatch); }
      return Ok(Some(bytes));
    }
  }
}
