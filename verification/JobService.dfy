/** The job repository, the terminal waiter and the job service on top of them. */
module JobServices {
  import opened Basics
  import opened Futures
  import opened JobSpec
  import opened OrderedDict

  class Repository {
    var byId: Repo

    ghost predicate Valid()
      reads this
    {
      byId.Valid() && forall k :: k in byId.keys ==> byId.vals[k].jobId == k
    }

    constructor ()
      ensures Valid() && byId == Empty()
    {
      byId := Empty();
    }

    method Save(record: JobRecord)
      requires Valid()
      modifies this
      ensures Valid() && byId == old(byId).Put(record.jobId, record)
    {
      byId := byId.Put(record.jobId, record);
    }

    /** What is found is the record of that job, and saving it again changes nothing. */
    method Get(id: JobId) returns (r: Option<JobRecord>)
      requires Valid()
      ensures r.Some? <==> id in byId.keys
      ensures r.Some? ==> r.value.jobId == id && byId.Put(r.value.jobId, r.value) == byId
    {
      r := if id in byId.vals then Some(byId.vals[id]) else None;
    }

    method FindActiveByDedupe(key: string) returns (r: Option<JobRecord>)
      requires Valid()
      ensures r == FindActive(byId.keys, byId.vals, key)
    {
      for i := 0 to |byId.keys|
        invariant FindActive(byId.keys, byId.vals, key) == FindActive(byId.keys[i..], byId.vals, key)
      {
        var rec := byId.vals[byId.keys[i]];
        if rec.key == key && (rec.status.Queued? || rec.status.RunningNow?) {
          return Some(rec);
        }
        assert byId.keys[i..][1..] == byId.keys[i + 1..];
      }
      assert byId.keys[|byId.keys|..] == [];
      r := None;
    }
  }

  class TerminalWaiter {
    var futures: map<JobId, Future<JobRecord>>
    var terminal: Dict<JobId, JobRecord>
    const max: int
    ghost var log: seq<JobId>   // every insertion into `terminal`, in order

    /** The memory is the window of the last `max` insertions. */
    ghost predicate Windowed()
      reads this`terminal, this`log
    {
      terminal.Valid() && (max >= 0 ==> terminal.keys == Last(log, max))
    }

    ghost predicate Valid()
      reads this
    {
      Windowed() && forall k :: k in terminal.keys ==> k !in futures
    }

    constructor (max: int)
      ensures Valid() && this.max == max && futures == map[] && terminal == Empty() && log == []
    {
      futures, terminal, this.max, log := map[], Empty(), max, [];
    }

    method TrimTerminal() returns (ok: bool)
      requires terminal.Valid()
      modifies this`terminal
      ensures terminal.Valid() && (terminal, ok) == Trim(old(terminal), max)
    {
      while |terminal.keys| > max
        invariant terminal.Valid() && Trim(old(terminal), max) == Trim(terminal, max)
        decreases |terminal.keys|
      {
        if terminal.keys == [] {
          return false;
        }
        terminal.PopSize(terminal.keys[0]);
        terminal := terminal.Pop(terminal.keys[0]);
      }
      ok := true;
    }

    method Subscribe(id: JobId, snapshot: Option<JobRecord>) returns (fut: Future<JobRecord>)
      requires Valid()
      modifies this`futures
      ensures Valid()
      ensures snapshot.Some? && Terminal(snapshot.value.status) ==>
        fresh(fut) && fut.state == Value(snapshot.value) && futures == old(futures)
      ensures !(snapshot.Some? && Terminal(snapshot.value.status)) && id in terminal.vals ==>
        fresh(fut) && fut.state == Value(terminal.vals[id]) && futures == old(futures)
      ensures !(snapshot.Some? && Terminal(snapshot.value.status)) && id !in terminal.vals ==>
        && futures == old(futures)[id := fut]
        && (id in old(futures) ==> fut == old(futures)[id])
        && (id !in old(futures) ==> fresh(fut) && fut.state == Waiting)
    {
      if snapshot.Some? && Terminal(snapshot.value.status) {
        fut := new Future<JobRecord>();
        fut.state := Value(snapshot.value);
        return;
      }
      if id in terminal.vals {
        fut := new Future<JobRecord>();
        fut.state := Value(terminal.vals[id]);
        return;
      }
      if id in futures {
        fut := futures[id];
      } else {
        fut := new Future<JobRecord>();
        futures := futures[id := fut];
      }
    }

    method RememberRecord(record: JobRecord) returns (ok: bool)
      requires Windowed()
      modifies this`terminal, this`log
      ensures Windowed() && (terminal, ok) == Remember(old(terminal), record, max)
      ensures log == Logged(old(log), old(terminal), record.jobId)
    {
      if max >= 0 {
        RememberKeys(terminal, log, record, max);
      }
      log := Logged(log, terminal, record.jobId);
      terminal := terminal.Put(record.jobId, record);
      ok := TrimTerminal();
    }

    /** False when the trim loop raises, which happens exactly for a negative bound. */
    method PublishTerminal(record: JobRecord) returns (ok: bool)
      requires Valid()
      modifies this, if record.jobId in futures then {futures[record.jobId]} else {}
      ensures Valid()
      ensures !Terminal(record.status) ==>
        ok && terminal == old(terminal) && futures == old(futures)
      ensures Terminal(record.status) ==>
        && (terminal, ok) == Remember(old(terminal), record, max)
        && ok == (max >= 0)
        && futures == if ok then old(futures) - {record.jobId} else old(futures)
      ensures record.jobId in old(futures) ==>
        var fut := old(futures)[record.jobId];
        fut.state == if Terminal(record.status) && ok then Settle(old(fut.state), record) else old(fut.state)
    {
      if !Terminal(record.status) {
        return true;
      }
      RememberShrinks(terminal, record, max);
      ok := RememberRecord(record);
      if !ok {
        return;
      }
      if record.jobId in futures {
        var fut := futures[record.jobId];
        futures := futures - {record.jobId};
        if fut.state.Waiting? {
          fut.state := Value(record);
        }
      }
    }
  }

  class JobService {
    const repo: Repository
    const waiter: TerminalWaiter?

    ghost predicate Valid()
      reads this, repo, waiter
    {
      repo.Valid() && (waiter != null ==> waiter.Valid())
    }

    constructor (repo: Repository, waiter: TerminalWaiter?)
      requires repo.Valid() && (waiter != null ==> waiter.Valid())
      ensures this.repo == repo && this.waiter == waiter
    {
      this.repo, this.waiter := repo, waiter;
    }

    /** `freshId` is the new id the service would draw. */
    method SubmitDownload(key: string, freshId: JobId) returns (rec: JobRecord, created: bool)
      requires Valid()
      modifies repo
      ensures Valid() && (repo.byId, rec, created) == Submit(old(repo.byId), key, freshId)
    {
      if key != "" {
        var active := repo.FindActiveByDedupe(key);
        if active.Some? {
          return active.value, false;
        }
      }
      rec := JobRecord(freshId, key, Queued, "");
      repo.Save(rec);
      created := true;
    }

    method MarkRunning(id: JobId)
      requires Valid()
      modifies repo
      ensures Valid() && repo.byId == Save(old(repo.byId), id, RunningNow, "")
    {
      var row := repo.Get(id);
      if row.Some? {
        repo.Save(Mark(row.value, RunningNow, ""));
      }
    }

    /** mark_succeeded, mark_failed and mark_canceled: save the record, then publish it to the waiter, if
        there is one. False when publishing raises; the record is saved all the same. */
    method MarkTerminal(id: JobId, status: Status, code: string) returns (ok: bool)
      requires Valid() && Terminal(status)
      modifies repo, waiter, if waiter != null && id in waiter.futures then {waiter.futures[id]} else {}
      ensures Valid() && repo.byId == Save(old(repo.byId), id, status, code)
      ensures ok == (waiter == null || id !in old(repo.byId).vals || waiter.max >= 0)
      ensures waiter != null && id !in old(repo.byId).vals ==>
        waiter.terminal == old(waiter.terminal) && waiter.futures == old(waiter.futures)
      ensures waiter != null && id in old(repo.byId).vals ==>
        && waiter.terminal == Remember(old(waiter.terminal), repo.byId.vals[id], waiter.max).0
        && waiter.futures == if ok then old(waiter.futures) - {id} else old(waiter.futures)
      ensures waiter != null && id in old(waiter.futures) ==>
        var fut := old(waiter.futures)[id];
        fut.state ==
          if ok && id in old(repo.byId).vals then Settle(old(fut.state), repo.byId.vals[id]) else old(fut.state)
    {
      ok := true;
      var row := repo.Get(id);
      if row.Some? {
        var rec := Mark(row.value, status, code);
        repo.Save(rec);
        if waiter != null {
          ok := waiter.PublishTerminal(rec);
        }
      }
    }
  }
}
