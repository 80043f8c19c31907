/**
 * The private object directory when one call runs at a time: streaming with a
 * byte budget, install by rename, and the orphan sweep.
 */
module CsvDisk {
  import opened Wrappers
  import opened CsvSidecar
  import opened CsvProtocol

  function Concat(chunks: seq<seq<int>>): seq<int> {
    if chunks == [] then [] else chunks[0] + Concat(chunks[1..])
  }

  lemma {:induction false} ConcatSnoc(chunks: seq<seq<int>>, last: seq<int>)
    ensures Concat(chunks + [last]) == Concat(chunks) + last
  {
    if chunks == [] {
      assert chunks + [last] == [last];
    } else {
      assert (chunks + [last])[1..] == chunks[1..] + [last];
      ConcatSnoc(chunks[1..], last);
    }
  }

  lemma {:induction false} ConcatGrows(chunks: seq<seq<int>>, k: nat)
    requires k <= |chunks|
    ensures |Concat(chunks[..k])| <= |Concat(chunks)|
    decreases |chunks|
  {
    if k > 0 {
      assert chunks[..k][1..] == chunks[1..][..k - 1];
      ConcatGrows(chunks[1..], k - 1);
    }
  }

  /**
   * What goes wrong: the stream breaks off, or a write fails, before the chunk of
   * that number; the sync, the close or the rename; the removal of the temporary.
   */
  datatype Faults = Faults(broken: Option<nat>, install: bool, unlink: bool)

  /** The chunks that arrive. */
  function Arrived(chunks: seq<seq<int>>, f: Faults): seq<seq<int>> {
    if f.broken.Some? && f.broken.value <= |chunks| then chunks[..f.broken.value] else chunks
  }

  /** What a stream must satisfy to be installed: the first failing check decides the refusal. */
  function Verdict(h: Digests, chunks: seq<seq<int>>, sha: string, bytes: int, f: Faults): Option<Refusal> {
    var content := Concat(Arrived(chunks, f));
    if |content| > MAX_BYTES then Some(FileTooLarge)
    else if f.broken.Some? && f.broken.value <= |chunks| then Some(UploadAborted)
    else if |content| != bytes then Some(LengthMismatch)
    else if h.content(content) != sha then Some(HashMismatch)
    else if f.install then Some(StorageUnavailable)
    else None
  }

  class StagingDisk {
    var files: map<Name, File>

    constructor ()
      ensures files == map[]
    {
      files := map[];
    }

    /**
     * Streams into the temporary and renames it only when length and digest are
     * the promised ones. Whatever fails, nothing else in the directory changes,
     * and the temporary is left behind only when its own removal fails, which is
     * then the answer.
     */
    method Put(h: Digests, key: string, chunks: seq<seq<int>>, sha: string, bytes: int, now: int, f: Faults)
      returns (refusal: Option<Refusal>)
      requires Part(key) !in files && Object(key) !in files
      modifies this
      ensures refusal.None? <==> Verdict(h, chunks, sha, bytes, f) == None
      ensures refusal.Some? ==>
        refusal == if f.unlink then Some(StorageUnavailable) else Verdict(h, chunks, sha, bytes, f)
      ensures refusal.None? ==>
        && files == old(files)[Object(key) := File(Concat(chunks), now)]
        && |Concat(chunks)| == bytes <= MAX_BYTES && h.content(Concat(chunks)) == sha
      ensures refusal.Some? ==> files - {Part(key)} == old(files) && (Part(key) in files <==> f.unlink)
    {
      files := files[Part(key) := File([], now)];
      var seen := 0;
      refusal := None;
      var i := 0;
      ghost var arrived := Arrived(chunks, f);
      while i < |chunks| && refusal.None?
        invariant 0 <= i <= |arrived|
        invariant refusal in {None, Some(FileTooLarge), Some(UploadAborted)}
        invariant refusal != Some(FileTooLarge) ==> seen == |Concat(chunks[..i])| <= MAX_BYTES
        invariant refusal == None ==> files == old(files)[Part(key) := File(Concat(chunks[..i]), now)]
        invariant refusal == Some(FileTooLarge) ==> |Concat(arrived)| > MAX_BYTES
        invariant refusal == Some(UploadAborted) ==> f.broken == Some(i)
        invariant Part(key) in files && files - {Part(key)} == old(files)
        decreases |chunks| - i, refusal.None?
      {
        if f.broken == Some(i) {
          refusal := Some(UploadAborted);
        } else {
          assert chunks[..i + 1] == chunks[..i] + [chunks[i]];
          assert arrived[..i + 1] == chunks[..i + 1];
          ConcatSnoc(chunks[..i], chunks[i]);
          ConcatGrows(arrived, i + 1);
          if seen + |chunks[i]| > MAX_BYTES {
            refusal := Some(FileTooLarge);
          } else {
            seen := seen + |chunks[i]|;
            files := files[Part(key) := File(files[Part(key)].content + chunks[i], now)];
            i := i + 1;
          }
        }
      }
      assert chunks[..|chunks|] == chunks;
      if refusal.None? {
        if f.broken == Some(|chunks|) {
          refusal := Some(UploadAborted);
        } else if seen != bytes {
          refusal := Some(LengthMismatch);
        } else if h.content(files[Part(key)].content) != sha {
          refusal := Some(HashMismatch);
        } else if f.install {
          refusal := Some(StorageUnavailable);
        }
      }
      assert refusal == Verdict(h, chunks, sha, bytes, f);
      if refusal.None? {
        files := (files - {Part(key)})[Object(key) := files[Part(key)]];
      } else if f.unlink {
        refusal := Some(StorageUnavailable);
      } else {
        files := files - {Part(key)};
      }
    }

    /** Nothing for an absent object; what was put is never too large to be read. */
    method Read(key: string) returns (r: Result<Option<seq<int>>, Refusal>)
      ensures r.Refused? <==> Object(key) in files && |files[Object(key)].content| > MAX_BYTES
      ensures r.Refused? ==> r.error == FileTooLarge
      ensures r.Ok? ==> (r.value.Some? <==> Object(key) in files)
      ensures r.Ok? && r.value.Some? ==> r.value.value == files[Object(key)].content
    {
      if Object(key) !in files { return Ok(None); }
      if |files[Object(key)].content| > MAX_BYTES { return Refused(FileTooLarge); }
      return Ok(Some(files[Object(key)].content));
    }

    /** Deleting an object that is not there is no failure. */
    method Delete(key: string)
      modifies this
      ensures files == old(files) - {Object(key)}
    {
      files := files - {Object(key)};
    }

    /** The calls undo one another: what was installed reads back as sent, and deleting it leaves all as before. */
    method RoundTrip(h: Digests, key: string, chunks: seq<seq<int>>, sha: string, bytes: int, now: int, f: Faults)
      returns (content: Option<seq<int>>)
      requires Part(key) !in files && Object(key) !in files && !f.unlink
      modifies this
      ensures files == old(files)
      ensures content.Some? <==> Verdict(h, chunks, sha, bytes, f) == None
      ensures content.Some? ==> content.value == Concat(chunks) && h.content(content.value) == sha
    {
      content := None;
      var refusal := Put(h, key, chunks, sha, bytes, now, f);
      if refusal.None? {
        var r := Read(key);
        content := r.value;
        Delete(key);
      }
    }

    /** Removes exactly the files older than `before` that are not known objects. */
    method SweepOrphans(known: set<string>, before: int)
      modifies this
      ensures files == map n | n in old(files) && (before < old(files)[n].mtime || (n.Object? && n.key in known))
                             :: old(files)[n]
    {
      ghost var was := files;
      var todo := files.Keys;
      while todo != {}
        invariant todo <= was.Keys
        invariant forall n :: n in files ==> n in was && files[n] == was[n]
        invariant forall n :: n in todo ==> n in files
        invariant forall n :: n in was && n !in todo ==>
          (n in files <==> before < was[n].mtime || (n.Object? && n.key in known))
        decreases |todo|
      {
        var name :| name in todo;
        todo := todo - {name};
        if !(name.Object? && name.key in known) && files[name].mtime <= before {
          files := files - {name};
        }
      }
    }
  }
}
