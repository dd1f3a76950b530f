/** The download cache: sets in memory in front of a best-effort index file. */
module DownloadCaches {
  import opened Basics
  import opened DedupeSpec
  import IndexFile

  /** The index file. Other processes may append to it between two calls. */
  class IndexStore {
    var present: bool
    var text: string

    ghost predicate Valid()
      reads this
    {
      !present ==> text == ""
    }
  }

  class DownloadCache {
    var completed: set<Key>
    var inFlight: map<Key, JobId>
    const index: IndexStore?
    var diskEnabled: bool

    ghost function State(): CacheState
      reads this, index
    {
      CacheState(completed, inFlight, if index == null then {} else IndexFile.Keys(index.text),
                 index != null, diskEnabled)
    }

    ghost predicate Valid()
      reads this, index
    {
      State().Valid() && (index != null ==> index.Valid())
    }

    constructor (index: IndexStore?)
      requires index != null ==> index.Valid()
      ensures Valid()
      ensures State() == NewCache(index != null, if index == null then {} else IndexFile.Keys(index.text))
      ensures this.index == index
    {
      completed, inFlight, this.index, diskEnabled := {}, map[], index, index != null;
    }

    /** The line scanner. */
    method KeyOnDiskIndex(key: Key) returns (found: bool)
      requires Valid() && index != null
      ensures found == (key in State().index)
    {
      if !index.present {
        assert IndexFile.Lines("") == [];
        return false;
      }
      var lines := IndexFile.Lines(index.text);
      for i := 0 to |lines|
        invariant key in IndexFile.KeysOf(lines) <==> key in IndexFile.KeysOf(lines[i..])
      {
        if key in IndexFile.LineKeys(lines[i]) {
          return true;
        }
        assert lines[i..][1..] == lines[i + 1..];
      }
      assert lines[|lines|..] == [];
      return false;
    }

    /** The disk half of a duplicate check; `readFails` stands for an OSError from the file system. */
    method LookUpDisk(key: Key, readFails: bool) returns (hit: bool)
      requires Valid() && key !in completed && key !in inFlight
      modifies this`completed, this`diskEnabled
      ensures Valid() && (State(), hit) == LookUp(old(State()), key, readFails)
    {
      hit := false;
      if index != null && diskEnabled {
        if readFails {
          diskEnabled := false;
        } else {
          hit := KeyOnDiskIndex(key);
          if hit {
            completed := completed + {key};
          }
        }
      }
    }

    method IsDuplicate(key: Key, readFails: bool) returns (dup: bool)
      requires Valid()
      modifies this`completed, this`diskEnabled
      ensures Valid() && (State(), dup) == DedupeSpec.IsDuplicate(old(State()), key, readFails)
    {
      if key in completed || key in inFlight {
        return true;
      }
      dup := LookUpDisk(key, readFails);
    }

    method TryReserve(key: Key, job: JobId, readFails: bool) returns (granted: bool)
      requires Valid()
      modifies this
      ensures Valid() && (State(), granted) == DedupeSpec.TryReserve(old(State()), key, job, readFails)
    {
      if key in completed {
        return false;
      }
      if key in inFlight {
        return inFlight[key] == job;
      }
      var hit := LookUpDisk(key, readFails);
      if hit {
        return false;
      }
      inFlight := inFlight[key := job];
      granted := true;
    }

    /** `landed` says how many characters of the record reach the file when the write fails. */
    method Commit(key: Key, writeFails: bool, landed: nat)
      requires Valid() && landed <= |IndexFile.Record(key)|
      modifies this, index
      ensures Valid()
      ensures completed == old(completed) + {key} && inFlight == old(inFlight) - {key}
      ensures diskEnabled == (old(diskEnabled) && (index != null ==> !writeFails))
      ensures index != null && old(diskEnabled) ==>
        var n := if writeFails then landed else |IndexFile.Record(key)|;
        && index.text == old(index.text) + IndexFile.Record(key)[..n]
        && State().index == IndexFile.KeysAfter(old(index.text), key, n)
      ensures index != null && !old(diskEnabled) ==> index.text == old(index.text)
      ensures IndexFile.OneLine(key) && (index == null || IndexFile.Terminated(old(index.text))) ==>
        State() == DedupeSpec.Commit(old(State()), key,
          if !writeFails then Appended
          else if landed < |IndexFile.Encode(key)| then FailedBefore else FailedAfter)
    {
      inFlight := inFlight - {key};
      completed := completed + {key};
      if index != null && diskEnabled {
        var n := if writeFails then landed else |IndexFile.Record(key)|;
        IndexFile.AppendEffect(index.text, key, n);
        IndexFile.CleanTail(index.text);
        index.present := true;
        index.text := index.text + IndexFile.Record(key)[..n];
        diskEnabled := !writeFails;
      }
    }

    method Abort(key: Key)
      requires Valid()
      modifies this`inFlight
      ensures Valid() && State() == DedupeSpec.Abort(old(State()), key)
    {
      inFlight := inFlight - {key};
    }

    method ResetMemory()
      requires Valid()
      modifies this`completed, this`inFlight
      ensures Valid() && State() == DedupeSpec.ResetMemory(old(State()))
    {
      completed, inFlight := {}, map[];
    }
  }
}
