/** Download jobs as records in a repository, and the bounded memory of finished ones. */
module JobSpec {
  import opened Basics
  import opened OrderedDict

  datatype Status = Queued | RunningNow | Succeeded | Failed | Canceled

  predicate Terminal(s: Status) {
    s.Succeeded? || s.Failed? || s.Canceled?
  }

  datatype JobRecord = JobRecord(jobId: JobId, key: string, status: Status, errorCode: string)

  type Repo = Dict<JobId, JobRecord>

  predicate ActiveFor(r: JobRecord, key: string) {
    r.key == key && !Terminal(r.status)
  }

  /** The first active record with this dedupe key, in the order the records were first saved. */
  function FindActive(keys: seq<JobId>, vals: map<JobId, JobRecord>, key: string): (r: Option<JobRecord>)
    requires forall k :: k in keys ==> k in vals
    ensures r.Some? ==> ActiveFor(r.value, key) && exists k :: k in keys && vals[k] == r.value
    ensures r.None? ==> forall k :: k in keys ==> !ActiveFor(vals[k], key)
  {
    if keys == [] then None
    else if ActiveFor(vals[keys[0]], key) then Some(vals[keys[0]])
    else FindActive(keys[1..], vals, key)
  }

  /** Position `i` holds `r`, which is queued or running for this key, and no earlier position does. */
  predicate FirstAt(keys: seq<JobId>, vals: map<JobId, JobRecord>, key: string, i: nat, r: JobRecord)
    requires forall k :: k in keys ==> k in vals
  {
    && i < |keys| && vals[keys[i]] == r && r.key == key && r.status in {Queued, RunningNow}
    && forall k :: 0 <= k < i && vals[keys[k]].key == key ==> vals[keys[k]].status !in {Queued, RunningNow}
  }

  /** What is found is the first queued or running record of the key; nothing is found if there is none. */
  lemma {:induction false} FindsTheFirst(keys: seq<JobId>, vals: map<JobId, JobRecord>, key: string)
    requires forall k :: k in keys ==> k in vals
    ensures var r := FindActive(keys, vals, key);
      && (r.Some? ==> exists i: nat :: FirstAt(keys, vals, key, i, r.value))
      && (r.None? ==> forall k :: k in keys && vals[k].key == key ==> vals[k].status !in {Queued, RunningNow})
  {
    if keys == [] {
    } else if ActiveFor(vals[keys[0]], key) {
      assert FirstAt(keys, vals, key, 0, vals[keys[0]]);
    } else {
      var rest := keys[1..];
      FindsTheFirst(rest, vals, key);
      assert forall i :: 0 < i < |keys| ==> keys[i] == rest[i - 1];
      if FindActive(rest, vals, key).Some? {
        var r := FindActive(rest, vals, key).value;
        var i: nat :| FirstAt(rest, vals, key, i, r);
        assert FirstAt(keys, vals, key, i + 1, r);
      }
    }
  }

  /** The record a submit answers with, and whether it is new. */
  function Submit(repo: Repo, key: string, newId: JobId): (Repo, JobRecord, bool)
    requires repo.Valid()
  {
    var active := if key == "" then None else FindActive(repo.keys, repo.vals, key);
    if active.Some? then (repo, active.value, false)
    else
      var rec := JobRecord(newId, key, Queued, "");
      (repo.Put(newId, rec), rec, true)
  }

  /** Requests without a key share nothing: each gets a new record. */
  lemma NoKeyNoSharing(repo: Repo, newId: JobId)
    requires repo.Valid() && newId !in repo.vals
    ensures var rec := JobRecord(newId, "", Queued, "");
      Submit(repo, "", newId) == (repo.Put(newId, rec), rec, true)
  {
  }

  function Mark(rec: JobRecord, status: Status, code: string): JobRecord {
    rec.(status := status, errorCode := if status == Failed then code else rec.errorCode)
  }

  /** A mark_* on the repository: unknown jobs are left alone. */
  function Save(repo: Repo, job: JobId, status: Status, code: string): Repo {
    if job in repo.vals then repo.Put(job, Mark(repo.vals[job], status, code)) else repo
  }

  // ---- The memory of terminal records ----

  /** The trim loop; the flag is false when it runs out of entries, which raises. */
  function Trim(d: Dict<JobId, JobRecord>, max: int): (Dict<JobId, JobRecord>, bool)
    requires d.Valid()
    decreases |d.keys|
  {
    if |d.keys| <= max then (d, true)
    else if d.keys == [] then (d, false)
    else
      d.PopSize(d.keys[0]);
      Trim(d.Pop(d.keys[0]), max)
  }

  function Remember(d: Dict<JobId, JobRecord>, rec: JobRecord, max: int): (Dict<JobId, JobRecord>, bool)
    requires d.Valid()
  {
    Trim(d.Put(rec.jobId, rec), max)
  }

  function Last<T>(s: seq<T>, n: int): seq<T> {
    if n <= 0 then [] else if |s| <= n then s else s[|s| - n..]
  }

  lemma PopFirst(d: Dict<JobId, JobRecord>)
    requires d.Valid() && d.keys != []
    ensures d.Pop(d.keys[0]).keys == d.keys[1..]
  {
    WithoutNothing(d.keys[1..], {d.keys[0]});
  }

  /** Trimming keeps exactly the newest entries and the values they had. */
  lemma {:induction false} TrimKeepsLast(d: Dict<JobId, JobRecord>, max: int)
    requires d.Valid()
    ensures var (d', ok) := Trim(d, max);
      && d'.Valid()
      && d'.keys == Last(d.keys, max)
      && (forall k :: k in d'.keys ==> d'.vals[k] == d.vals[k])
      && (ok <==> max >= 0)
    decreases |d.keys|
  {
    if |d.keys| > max && d.keys != [] {
      PopFirst(d);
      TrimKeepsLast(d.Pop(d.keys[0]), max);
    }
  }

  /** The insertion log of the memory: a job is inserted when it is published while not remembered. */
  function Logged(log: seq<JobId>, d: Dict<JobId, JobRecord>, job: JobId): seq<JobId> {
    if job in d.vals then log else log + [job]
  }

  lemma RememberKeys(d: Dict<JobId, JobRecord>, log: seq<JobId>, rec: JobRecord, max: int)
    requires d.Valid() && max >= 0 && d.keys == Last(log, max)
    ensures var (d', ok) := Remember(d, rec, max);
      && ok && d'.Valid()
      && d'.keys == Last(Logged(log, d, rec.jobId), max)
      && (rec.jobId in d.keys ==> d'.keys == d.keys)
  {
    var put := d.Put(rec.jobId, rec);
    TrimKeepsLast(put, max);
    if rec.jobId in d.vals {
      assert put.keys == d.keys && |d.keys| <= max;
      LastOfShort(put.keys, max);
    } else {
      assert put.keys == Last(log, max) + [rec.jobId];
      LastSnoc(log, rec.jobId, max);
    }
  }

  /** The memory is the window of the last `max` insertions, and a publish moves the window on by at
      most one; republishing a remembered job changes its value and nothing else. */
  lemma RememberSlides(d: Dict<JobId, JobRecord>, log: seq<JobId>, rec: JobRecord, max: int)
    requires d.Valid() && max >= 0 && d.keys == Last(log, max)
    ensures var (d', ok) := Remember(d, rec, max);
      && ok && d'.Valid()
      && d'.keys == Last(Logged(log, d, rec.jobId), max)
      && (rec.jobId in d.keys ==> d'.keys == d.keys)
      && (max > 0 ==> rec.jobId in d'.keys)
      && (forall k :: k in d'.keys ==>
            if k == rec.jobId then d'.vals[k] == rec else k in d.keys && d'.vals[k] == d.vals[k])
  {
    RememberKeys(d, log, rec, max);
    RememberValues(d, rec, max);
  }

  lemma RememberValues(d: Dict<JobId, JobRecord>, rec: JobRecord, max: int)
    requires d.Valid() && max >= 0 && |d.keys| <= max
    ensures var d' := Remember(d, rec, max).0;
      && d'.Valid()
      && (max > 0 ==> rec.jobId in d'.keys)
      && (forall k :: k in d'.keys ==>
            if k == rec.jobId then d'.vals[k] == rec else k in d.keys && d'.vals[k] == d.vals[k])
  {
    var put := d.Put(rec.jobId, rec);
    TrimKeepsLast(put, max);
    LastOfShort(put.keys, max);
    if rec.jobId !in d.vals {
      assert put.keys[|put.keys| - 1] == rec.jobId;
    }
  }

  lemma LastOfShort(s: seq<JobId>, max: int)
    requires max >= 0
    ensures |s| <= max ==> Last(s, max) == s
    ensures forall x :: x in Last(s, max) ==> x in s
    ensures max > 0 && s != [] ==> s[|s| - 1] in Last(s, max)
  {
  }

  lemma LastSnoc(log: seq<JobId>, job: JobId, max: int)
    requires max >= 0
    ensures Last(Last(log, max) + [job], max) == Last(log + [job], max)
  {
  }

  /** Whatever the bound, a publish leaves nothing remembered but what was, and the new record. */
  lemma RememberShrinks(d: Dict<JobId, JobRecord>, rec: JobRecord, max: int)
    requires d.Valid()
    ensures var (d', ok) := Remember(d, rec, max);
      && d'.Valid() && (ok <==> max >= 0)
      && (!ok ==> d'.keys == [])
      && (forall k :: k in d'.keys ==> k == rec.jobId || k in d.keys)
  {
    var put := d.Put(rec.jobId, rec);
    TrimKeepsLast(put, max);
    if max >= 0 {
      LastOfShort(put.keys, max);
    }
  }

  /** The memory after publishing `recs` one after the other, with its insertion log. */
  function Publishes(recs: seq<JobRecord>, max: int): (r: (Dict<JobId, JobRecord>, seq<JobId>))
    ensures r.0.Valid()
  {
    if recs == [] then (Empty(), [])
    else
      var (d, log) := Publishes(recs[..|recs| - 1], max);
      var rec := recs[|recs| - 1];
      TrimKeepsLast(d.Put(rec.jobId, rec), max);
      (Remember(d, rec, max).0, Logged(log, d, rec.jobId))
  }

  /** An exact window: after any publishes a job is remembered exactly when fewer than `max` new
      insertions followed one of its own. */
  lemma {:induction false} RememberedWindow(recs: seq<JobRecord>, max: int, job: JobId)
    requires max >= 0
    ensures var (d, log) := Publishes(recs, max);
      && d.keys == Last(log, max)
      && (job in d.keys <==> exists i :: 0 <= i < |log| && log[i] == job && |log| - 1 - i < max)
    decreases |recs|
  {
    var (d, log) := Publishes(recs, max);
    if recs != [] {
      var (before, log0) := Publishes(recs[..|recs| - 1], max);
      RememberedWindow(recs[..|recs| - 1], max, job);
      RememberSlides(before, log0, recs[|recs| - 1], max);
    }
    LastMembers(log, max, job);
  }

  lemma LastMembers(log: seq<JobId>, max: int, job: JobId)
    requires max >= 0
    ensures job in Last(log, max) <==> exists i :: 0 <= i < |log| && log[i] == job && |log| - 1 - i < max
  {
  }
}
