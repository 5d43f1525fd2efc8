/** The filesystem audio store (internal/storage/filesystem/storage.go) over
    an abstract directory: a map from entry name to entry. Operating-system
    failures are inputs. */
module AudioStore {
  import opened Wrappers
  import opened Text
  import opened Jobs

  /** A directory entry. Subdirectories are opaque; only whether one is empty
      matters (`os.Remove` deletes empty directories only). */
  datatype Entry = File(data: Bytes, mtime: Time) | Subdirectory(mtime: Time, isEmpty: bool)

  datatype FileStore = FileStore(basePath: string, entries: map<string, Entry>)

  /** The two formats the store probes, in probing order. */
  const Mp3 := "mp3"
  const Wav := "wav"

  function FileName(jobId: string, format: string): (name: string)
    ensures |name| == |jobId| + 1 + |format| && name[|jobId|] == '.'
    ensures name[..|jobId|] == jobId && name[|jobId| + 1..] == format
  {
    jobId + "." + format
  }

  /** Different job IDs or formats give different names when formats contain
      no dot (as with mp3 and wav), so entries of distinct jobs never collide. */
  lemma FileNameInjective(id1: string, f1: string, id2: string, f2: string)
    requires '.' !in f1 && '.' !in f2
    ensures FileName(id1, f1) == FileName(id2, f2) ==> id1 == id2 && f1 == f2
  {
    var n1, n2 := FileName(id1, f1), FileName(id2, f2);
    if n1 == n2 {
      if |id1| != |id2| {
        assert false;
      }
      assert id1 == n1[..|id1|] == n2[..|id2|] == id2;
    }
  }

  /** `filepath.Join(basePath, name)`, without the lexical cleaning. */
  function Join(basePath: string, name: string): (path: string)
    ensures name != "" ==> path != ""
    ensures |path| >= |name| && path[|path| - |name|..] == name
  {
    if basePath == "" then name else basePath + "/" + name
  }

  function ContentType(format: string): string {
    if format == Wav then "audio/wav" else "audio/mpeg"
  }

  datatype Stored = Stored(store: FileStore, path: string)

  /** Writes `jobId.format`, replacing any earlier file of that name, with the
      write time as its modification time. `writeError` is the operating
      system refusing the write; a subdirectory of that name also refuses it. */
  function Store(s: FileStore, jobId: string, audio: Bytes, format: string,
                 now: Time, writeError: Option<string>): (r: Result<Stored, string>)
    ensures var name := FileName(jobId, format);
      r.Success? <==> writeError.None? && !(name in s.entries && s.entries[name].Subdirectory?)
    ensures r.Success? ==>
      && r.value.store.entries == s.entries[FileName(jobId, format) := File(audio, now)]
      && r.value.store.basePath == s.basePath
      && r.value.path == Join(s.basePath, FileName(jobId, format))
  {
    var name := FileName(jobId, format);
    var path := Join(s.basePath, name);
    if writeError.Some? then
      Failure("failed to write audio file: " + writeError.value)
    else if name in s.entries && s.entries[name].Subdirectory? then
      Failure("failed to write audio file: open " + path + ": is a directory")
    else
      Success(Stored(s.(entries := s.entries[name := File(audio, now)]), path))
  }

  /** An opened entry and the content type announced for it. */
  datatype Opened = Opened(entry: Entry, contentType: string)

  /** Opens `jobId.mp3`, else `jobId.wav`; no other name is ever tried. */
  function Retrieve(s: FileStore, jobId: string): (r: Result<Opened, string>)
    ensures r.Success? <==> FileName(jobId, Mp3) in s.entries || FileName(jobId, Wav) in s.entries
    ensures FileName(jobId, Mp3) in s.entries ==>
      r == Success(Opened(s.entries[FileName(jobId, Mp3)], "audio/mpeg"))
    ensures FileName(jobId, Mp3) !in s.entries && FileName(jobId, Wav) in s.entries ==>
      r == Success(Opened(s.entries[FileName(jobId, Wav)], "audio/wav"))
  {
    var mp3, wav := FileName(jobId, Mp3), FileName(jobId, Wav);
    if mp3 in s.entries then Success(Opened(s.entries[mp3], ContentType(Mp3)))
    else if wav in s.entries then Success(Opened(s.entries[wav], ContentType(Wav)))
    else Failure("audio file not found for job " + jobId)
  }

  /** Whether `os.Remove` deletes the entry. */
  predicate Removable(e: Entry) {
    e.File? || e.isEmpty
  }

  /** `os.Remove` of one name: the entry goes when it exists, is removable
      and its removal does not fail. */
  function RemoveName(entries: map<string, Entry>, name: string, failing: set<string>): map<string, Entry> {
    if name in entries && Removable(entries[name]) && name !in failing then entries - {name} else entries
  }

  /** Removes the mp3 and the wav entry of a job, ignoring every failure
      (`failing` names the entries whose `os.Remove` fails); no other entry
      changes. */
  function Delete(s: FileStore, jobId: string, failing: set<string>): (r: FileStore)
    ensures r.basePath == s.basePath
    ensures r.entries.Keys <= s.entries.Keys
    ensures forall name :: name in r.entries ==> r.entries[name] == s.entries[name]
    ensures forall name :: name in s.entries && name != FileName(jobId, Mp3) && name != FileName(jobId, Wav)
                           ==> name in r.entries
    ensures FileName(jobId, Mp3) in s.entries ==>
      (FileName(jobId, Mp3) !in r.entries
       <==> Removable(s.entries[FileName(jobId, Mp3)]) && FileName(jobId, Mp3) !in failing)
    ensures FileName(jobId, Wav) in s.entries ==>
      (FileName(jobId, Wav) !in r.entries
       <==> Removable(s.entries[FileName(jobId, Wav)]) && FileName(jobId, Wav) !in failing)
  {
    var mp3, wav := FileName(jobId, Mp3), FileName(jobId, Wav);
    assert mp3 != wav by {
      assert mp3[|jobId| + 1..] == Mp3;
    }
    s.(entries := RemoveName(RemoveName(s.entries, mp3, failing), wav, failing))
  }

  function Exists(s: FileStore, jobId: string): (b: bool)
    ensures b <==> Retrieve(s, jobId).Success?
  {
    FileName(jobId, Mp3) in s.entries || FileName(jobId, Wav) in s.entries
  }

  function GetPath(s: FileStore, jobId: string): (path: string)
    ensures path == "" <==> !Exists(s, jobId)
    ensures FileName(jobId, Mp3) in s.entries ==> path == Join(s.basePath, FileName(jobId, Mp3))
    ensures FileName(jobId, Mp3) !in s.entries && FileName(jobId, Wav) in s.entries
            ==> path == Join(s.basePath, FileName(jobId, Wav))
  {
    if FileName(jobId, Mp3) in s.entries then Join(s.basePath, FileName(jobId, Mp3))
    else if FileName(jobId, Wav) in s.entries then Join(s.basePath, FileName(jobId, Wav))
    else ""
  }

  /** Store then Retrieve gives back the same bytes with the content type of
      the format, provided no mp3 entry shadows a wav one. */
  lemma StoreThenRetrieve(s: FileStore, jobId: string, audio: Bytes, format: string, now: Time)
    requires format == Mp3 || (format == Wav && FileName(jobId, Mp3) !in s.entries)
    requires !(FileName(jobId, format) in s.entries && s.entries[FileName(jobId, format)].Subdirectory?)
    ensures var r := Store(s, jobId, audio, format, now, None);
      && r.Success?
      && Retrieve(r.value.store, jobId) == Success(Opened(File(audio, now), ContentType(format)))
      && GetPath(r.value.store, jobId) == r.value.path
  {
    assert FileName(jobId, Mp3) != FileName(jobId, Wav) by {
      assert FileName(jobId, Mp3)[|jobId| + 1..] == Mp3;
    }
  }

  /** When both entries exist the mp3 one is served; a job with only entries
      in other formats is not found. */
  lemma Mp3Wins(s: FileStore, jobId: string, other: string)
    ensures FileName(jobId, Mp3) in s.entries ==> Retrieve(s, jobId).value.contentType == "audio/mpeg"
    ensures FileName(jobId, Mp3) !in s.entries && FileName(jobId, Wav) !in s.entries ==>
      Retrieve(s, jobId).Failure? && !Exists(s, jobId) && GetPath(s, jobId) == ""
  {
  }

  /** After Delete the job has no audio left, unless one of its names is a
      non-empty subdirectory or its removal failed; deleting again changes
      nothing. */
  lemma DeleteThenExists(s: FileStore, jobId: string, failing: set<string>)
    requires FileName(jobId, Mp3) in s.entries ==> Removable(s.entries[FileName(jobId, Mp3)])
    requires FileName(jobId, Wav) in s.entries ==> Removable(s.entries[FileName(jobId, Wav)])
    requires FileName(jobId, Mp3) !in failing && FileName(jobId, Wav) !in failing
    ensures !Exists(Delete(s, jobId, failing), jobId)
    ensures Delete(Delete(s, jobId, failing), jobId, failing) == Delete(s, jobId, failing)
  {
  }

  /** The modification-time threshold of a sweep at `now`. */
  function Cutoff(now: Time, retentionHours: int): Time {
    now - retentionHours * MillisPerHour
  }

  /** A sweep deletes an entry when it is a file modified strictly before the
      cutoff and the operating system lets it go (`failing` names the
      entries whose `Info` or `Remove` call fails). */
  predicate Sweeps(entries: map<string, Entry>, name: string, cutoff: Time, failing: set<string>)
    requires name in entries
  {
    entries[name].File? && entries[name].mtime < cutoff && name !in failing
  }

  ghost function SweptNames(entries: map<string, Entry>, cutoff: Time, failing: set<string>): set<string> {
    set name | name in entries && Sweeps(entries, name, cutoff, failing)
  }

  datatype Sweep = Sweep(store: FileStore, deleted: nat)

  /** Every visited stale file is gone and counted; everything else is kept. */
  ghost predicate SweptSoFar(s: FileStore, cutoff: Time, failing: set<string>,
                             visited: set<string>, kept: map<string, Entry>, deleted: nat)
  {
    && kept.Keys <= s.entries.Keys
    && (forall name :: name in kept ==> kept[name] == s.entries[name])
    && (forall name :: name in s.entries ==>
          (name in kept <==> !(name in visited && Sweeps(s.entries, name, cutoff, failing))))
    && deleted == |SweptNames(s.entries, cutoff, failing) * visited|
  }

  lemma SweepStep(s: FileStore, cutoff: Time, failing: set<string>, visited: set<string>,
                  kept: map<string, Entry>, deleted: nat, name: string)
    requires name in s.entries && name !in visited
    requires SweptSoFar(s, cutoff, failing, visited, kept, deleted)
    ensures Sweeps(s.entries, name, cutoff, failing) ==>
      SweptSoFar(s, cutoff, failing, visited + {name}, kept - {name}, deleted + 1)
    ensures !Sweeps(s.entries, name, cutoff, failing) ==>
      SweptSoFar(s, cutoff, failing, visited + {name}, kept, deleted)
  {
    var doomed := SweptNames(s.entries, cutoff, failing);
    if Sweeps(s.entries, name, cutoff, failing) {
      assert doomed * (visited + {name}) == doomed * visited + {name};
    } else {
      assert doomed * (visited + {name}) == doomed * visited;
    }
  }

  /** `CleanupExpired` at `now`: removes exactly the stale files, whatever
      their names, and reports how many went. A directory that cannot be
      listed fails the sweep without removing anything. */
  method CleanupExpired(s: FileStore, retentionHours: int, now: Time,
                        readDirError: Option<string>, failing: set<string>)
    returns (r: Result<Sweep, string>)
    ensures readDirError.Some? <==> r.Failure?
    ensures r.Success? ==>
      && r.value.store.basePath == s.basePath
      && r.value.store.entries.Keys <= s.entries.Keys
      && (forall name :: name in r.value.store.entries ==> r.value.store.entries[name] == s.entries[name])
      && (forall name :: name in s.entries ==>
            (name !in r.value.store.entries <==> Sweeps(s.entries, name, Cutoff(now, retentionHours), failing)))
      && r.value.deleted == |SweptNames(s.entries, Cutoff(now, retentionHours), failing)|
  {
    if readDirError.Some? {
      return Failure("failed to read storage directory: " + readDirError.value);
    }
    var cutoff := Cutoff(now, retentionHours);
    var kept := s.entries;
    var deleted := 0;
    ghost var visited: set<string> := {};
    var remaining := s.entries.Keys;
    while remaining != {}
      invariant remaining <= s.entries.Keys && visited <= s.entries.Keys
      invariant forall name :: name in s.entries ==> (name in visited <==> name !in remaining)
      invariant SweptSoFar(s, cutoff, failing, visited, kept, deleted)
      decreases remaining
    {
      var name :| name in remaining;
      SweepStep(s, cutoff, failing, visited, kept, deleted, name);
      var e := s.entries[name];
      if !e.Subdirectory? && e.mtime < cutoff && name !in failing {
        kept, deleted := kept - {name}, deleted + 1;
      }
      visited := visited + {name};
      remaining := remaining - {name};
    }
    assert visited == s.entries.Keys;
    assert SweptNames(s.entries, cutoff, failing) * visited == SweptNames(s.entries, cutoff, failing);
    return Success(Sweep(s.(entries := kept), deleted));
  }

  /** Files modified at or after the cutoff, and subdirectories, survive any sweep. */
  lemma FreshEntriesSurvive(entries: map<string, Entry>, name: string, cutoff: Time, failing: set<string>)
    requires name in entries && (entries[name].Subdirectory? || entries[name].mtime >= cutoff)
    ensures !Sweeps(entries, name, cutoff, failing)
  {
  }
}
