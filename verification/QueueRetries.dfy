/** The bound on retries is reached: every attempt a job has is used. */
module QueueRetries {
  import opened Basics
  import opened OrderedDict
  import opened QueueSpec
  import opened QueueRuns

  /** So many times: the job is taken, and its attempt fails. */
  function Rounds(job: JobId, n: nat): seq<QueueOp> {
    if n == 0 then [] else [OpGet(0.0), OpRetry(job)] + Rounds(job, n - 1)
  }

  ghost predicate OnlyPending(l: Ledger, job: JobId) {
    l.q == QueueState(l.q.maxsize, false, [job], 1, Empty())
  }

  /** The only pending job is taken. */
  lemma TakeOnly(l: Ledger, info: JobId -> JobInfo, job: JobId)
    requires OnlyPending(l, job)
    ensures var mid := Get(l, 0.0);
      && mid.q.pending == [] && mid.q.unfinished == 1 && !mid.q.closed && mid.q.maxsize == l.q.maxsize
      && mid.q.flights == Dict([job], map[job := Flight(job, 0.0)])
      && mid.gets == l.gets + [job] && mid.attempts == l.attempts
      && mid.entered == l.entered && mid.recovered == l.recovered
  {
  }

  lemma FailOnly(l: Ledger, info: JobId -> JobInfo, job: JobId)
    requires l.q.pending == [] && l.q.unfinished == 1 && !l.q.closed
    requires l.q.flights == Dict([job], map[job := Flight(job, 0.0)]) && info(job).Plain?
    ensures var end := Retry(l, info, job).0;
      && end.gets == l.gets && end.entered == l.entered && end.recovered == l.recovered
      && Attempts(end, info, job) == Attempts(l, info, job) + 1
      && (Attempts(l, info, job) + 1 < info(job).limit ==> OnlyPending(end, job))
      && (Attempts(l, info, job) + 1 >= info(job).limit ==> end.q.pending == [])
  {
    assert Retry(l, info, job).0.q.flights == Empty();
    assert [] + [job] == [job];
  }

  lemma TwoMore(l: Ledger, info: JobId -> JobInfo, a: QueueOp, b: QueueOp, rest: seq<QueueOp>, end: Ledger)
    requires l.q.flights.Valid() && CanPerform(l, a) && Perform(l, info, a).q.flights.Valid()
    requires CanPerform(Perform(l, info, a), b)
    requires Performs(Perform(Perform(l, info, a), info, b), info, rest, end)
    ensures Performs(l, info, [a, b] + rest, end)
  {
    hide Perform;
    hide CanPerform;
    var ops := [a, b] + rest;
    assert ops[1..][1..] == rest && ops[1..] != [] && ops[1..][0] == b;
    assert Performs(Perform(l, info, a), info, ops[1..], end);
  }

  lemma {:induction false} RoundsRun(l: Ledger, info: JobId -> JobInfo, job: JobId, n: nat) returns (end: Ledger)
    requires OnlyPending(l, job) && info(job).Plain?
    requires n == Max(1, info(job).limit - Attempts(l, info, job))
    ensures Performs(l, info, Rounds(job, n), end)
    ensures end.q.pending == [] && end.gets == l.gets + seq(n, i => job)
    ensures end.entered == l.entered && end.recovered == l.recovered
    decreases n
  {
    var mid := Get(l, 0.0);
    var next := Retry(mid, info, job).0;
    TakeOnly(l, info, job);
    FailOnly(mid, info, job);
    end := next;
    if Attempts(l, info, job) + 1 < info(job).limit {
      end := RoundsRun(next, info, job, n - 1);
    }
    hide Get;
    hide Retry;
    assert end.gets == l.gets + seq(n, i => job);
    TwoMore(l, info, OpGet(0.0), OpRetry(job), Rounds(job, n - 1), end);
  }

  lemma {:induction false} CopiesCount(job: JobId, n: nat)
    ensures multiset(seq(n, i => job))[job] == n
  {
    if n > 0 {
      assert seq(n, i => job) == seq(n - 1, i => job) + [job];
      CopiesCount(job, n - 1);
    }
  }

  /** Every attempt is used: a retrying job that keeps failing on an open queue, alone, is handed out exactly
      as often as the bound on retries allows, whatever the capacity. */
  lemma EveryAttemptIsUsed(maxsize: int, info: JobId -> JobInfo, job: JobId) returns (ops: seq<QueueOp>, end: Ledger)
    requires info(job).Plain?
    ensures Performs(NewLedger(maxsize), info, ops, end)
    ensures end.entered[job] == 1 && end.recovered[job] == 0 && end.q.pending == []
    ensures multiset(end.gets)[job] == Max(1, info(job).limit - info(job).attempts0)
  {
    var entered := Enter(NewLedger(maxsize), job).0;
    var n: nat := Max(1, info(job).limit - info(job).attempts0);
    assert [] + [job] == [job];
    end := RoundsRun(entered, info, job, n);
    ops := [OpEnter(job)] + Rounds(job, n);
    assert ops[1..] == Rounds(job, n);
    assert end.gets == seq(n, i => job);
    CopiesCount(job, n);
  }
}
