/** How long a job may be in flight: what a recovery does with it in time and too late, in terms of when
    it was taken. */
module QueueTimes {
  import opened Basics
  import opened OrderedDict
  import opened QueueSpec
  import opened QueueRuns

  /** The job is in flight, and was taken at `at`. */
  ghost predicate TakenAt(q: QueueState<JobId>, job: JobId, at: real) {
    job in q.flights.keys && job in q.flights.vals && q.flights.vals[job] == Flight(job, at)
  }

  lemma TakingStarts(q: QueueState<JobId>, now: real)
    requires q.Valid() && q.pending != []
    ensures TakenAt(Dequeue(q, q.pending[0], now), q.pending[0], now)
  {
  }

  /** The flights of `after` are flights of `q` under the start they had, or, for one of `stale`, under
      `later`. */
  ghost predicate Times(q: QueueState<JobId>, after: QueueState<JobId>, stale: seq<JobId>, later: real) {
    forall k :: k in after.flights.keys ==>
      && k in q.flights.keys && k in q.flights.vals
      && TakenAt(after, k, if k in stale then later else q.flights.vals[k].started)
  }

  lemma SweptTimes(q: QueueState<JobId>, after: QueueState<JobId>, stale: seq<JobId>, later: real)
    requires q.Valid() && OwnIds(q) && after.flights == q.flights.Minus(Ids(stale))
    ensures Times(q, after, stale, later)
  {
  }

  lemma RefiledTimes(q: QueueState<JobId>, after: QueueState<JobId>, stale: seq<JobId>, id: JobId, later: real)
    requires q.Valid() && OwnIds(q) && id in stale && id in q.flights.keys
    requires after.flights == q.flights.Minus(Ids(stale)).Put(id, Flight(id, later))
    ensures Times(q, after, stale, later)
  {
  }

  lemma QuietRecovery(q: QueueState<JobId>, now: real, later: real, staleAfter: real)
    requires q.Valid()
    requires q.closed || q.unfinished == 0 || StaleIds(q.flights.keys, q.flights.vals, now, staleAfter) == []
    ensures var stale := StaleIds(q.flights.keys, q.flights.vals, now, staleAfter);
      QueueSpec.Recover(q, now, later, staleAfter).0.flights == q.flights.Minus(Ids(stale))
  {
    hide StaleIds;
  }

  /** After a recovery every flight has the start it had, but for one that was refiled. */
  lemma RecoverTimes(q: QueueState<JobId>, now: real, later: real, staleAfter: real)
    requires q.Valid() && OwnIds(q)
    ensures Times(q, QueueSpec.Recover(q, now, later, staleAfter).0,
                  StaleIds(q.flights.keys, q.flights.vals, now, staleAfter), later)
  {
    var stale := StaleIds(q.flights.keys, q.flights.vals, now, staleAfter);
    var after := QueueSpec.Recover(q, now, later, staleAfter).0;
    var n := |stale|;
    hide StaleIds;
    hide Times;
    if q.closed || q.unfinished == 0 || n == 0 {
      QuietRecovery(q, now, later, staleAfter);
      SweptTimes(q, after, stale, later);
    } else if Room(q, n) == n {
      RecoverFits(q, now, later, staleAfter);
      hide QueueSpec.Recover;
      SweptTimes(q, after, stale, later);
    } else {
      RecoverOverflows(q, now, later, staleAfter);
      hide QueueSpec.Recover;
      RefiledTimes(q, after, stale, stale[Room(q, n)], later);
    }
  }

  /** What a recovery does with a job taken at `at`. At most `staleAfter` later it is left alone, under its
      own start. After that it is pending again and no longer in flight, if the queue is open, the counter
      not exhausted and the queue has room for all that is in flight. */
  lemma RecoverByAge(q: QueueState<JobId>, job: JobId, at: real, now: real, later: real, staleAfter: real)
    requires q.Valid() && OwnIds(q) && TakenAt(q, job, at)
    ensures var q' := QueueSpec.Recover(q, now, later, staleAfter).0;
      && (now - at <= staleAfter ==> TakenAt(q', job, at) && (job in q'.pending <==> job in q.pending))
      && (now - at > staleAfter && !q.closed && q.unfinished > 0
          && (q.maxsize <= 0 || |q.pending| + |q.flights.keys| <= q.maxsize) ==>
            job in q'.pending && job !in q'.flights.keys)
  {
    var stale := StaleIds(q.flights.keys, q.flights.vals, now, staleAfter);
    RecoverFates(q, now, later, staleAfter, job);
    RecoverTimes(q, now, later, staleAfter);
    SweepEffect(q, now, later, staleAfter);
    SweepSize(q, now, staleAfter);
    var back := GivenBack(q, now, later, staleAfter);
    assert QueueSpec.Recover(q, now, later, staleAfter).0.pending == q.pending + back;
  }

  /** A flight that was too old and is still there after a recovery counts its age from the moment the
      recovery failed on it. */
  lemma RefiledStartsAnew(q: QueueState<JobId>, job: JobId, at: real, now: real, later: real, staleAfter: real)
    requires q.Valid() && OwnIds(q) && TakenAt(q, job, at) && now - at > staleAfter
    requires job in QueueSpec.Recover(q, now, later, staleAfter).0.flights.keys
    ensures TakenAt(QueueSpec.Recover(q, now, later, staleAfter).0, job, later)
  {
    RecoverTimes(q, now, later, staleAfter);
  }

  /** A step that does not settle or submit the job again, and is no recovery that finds it too old. */
  predicate LeavesAlone(op: QueueOp, job: JobId, at: real) {
    match op
    case OpEnter(other) => other != job
    case OpAck(other) => other != job
    case OpRetry(other) => other != job
    case OpSweep(now, _, staleAfter) => now - at <= staleAfter
    case _ => true
  }

  ghost predicate Alone(l: Ledger, job: JobId, at: real) {
    TakenAt(l.q, job, at) && job !in l.q.pending
  }

  lemma SettleLeavesAlone(l: Ledger, info: JobId -> JobInfo, other: JobId, job: JobId, at: real)
    requires l.q.Valid() && Alone(l, job, at) && other != job
    ensures Alone(Ack(l, other).0, job, at) && Alone(Retry(l, info, other).0, job, at)
    ensures Ack(l, other).0.gets == l.gets && Retry(l, info, other).0.gets == l.gets
  {
  }

  lemma PerformLeavesAlone(l: Ledger, info: JobId -> JobInfo, op: QueueOp, job: JobId, at: real)
    requires QueueRuns.Inv(l, info) && CanPerform(l, op) && LeavesAlone(op, job, at) && Alone(l, job, at)
    ensures var l' := Perform(l, info, op);
      Alone(l', job, at) && multiset(l'.gets)[job] == multiset(l.gets)[job]
  {
    match op
    case OpSweep(now, later, staleAfter) => RecoverByAge(l.q, job, at, now, later, staleAfter);
    case OpAck(other) => SettleLeavesAlone(l, info, other, job, at);
    case OpRetry(other) => SettleLeavesAlone(l, info, other, job, at);
    case OpGet(now) => assert l.q.pending[0] in l.q.pending;
    case _ =>
  }

  lemma {:induction false} AloneRun(l: Ledger, info: JobId -> JobInfo, ops: seq<QueueOp>, end: Ledger, job: JobId,
                                    at: real)
    requires QueueRuns.Inv(l, info) && Performs(l, info, ops, end) && Alone(l, job, at)
    requires forall i :: 0 <= i < |ops| ==> LeavesAlone(ops[i], job, at)
    ensures Alone(end, job, at) && multiset(end.gets)[job] == multiset(l.gets)[job]
    decreases |ops|
  {
    if ops != [] {
      PerformLeavesAlone(l, info, ops[0], job, at);
      PerformKeeps(l, info, ops[0]);
      AloneRun(Perform(l, info, ops[0]), info, ops[1..], end, job, at);
    }
  }

  /** Whoever settles a job in time has it alone: in every run, from taking a job that is pending once, as
      long as the job is neither settled nor submitted again and no recovery finds it older than its bound,
      it is in flight under that start, not pending, and handed out to nobody else. */
  lemma TimelyWorkersKeepTheirJobs(maxsize: int, info: JobId -> JobInfo, before: seq<QueueOp>, mid: Ledger, at: real,
                                   after: seq<QueueOp>, end: Ledger)
    requires Performs(NewLedger(maxsize), info, before, mid)
    requires mid.q.pending != [] && mid.q.pending[0] !in mid.q.pending[1..]
    requires Performs(Get(mid, at), info, after, end)
    requires forall i :: 0 <= i < |after| ==> LeavesAlone(after[i], mid.q.pending[0], at)
    ensures var job := mid.q.pending[0];
      TakenAt(end.q, job, at) && job !in end.q.pending && multiset(end.gets)[job] == multiset(mid.gets)[job] + 1
  {
    EveryRun(maxsize, info, before, mid);
    GetKeeps(mid, info, at);
    TakingStarts(mid.q, at);
    AloneRun(Get(mid, at), info, after, end, mid.q.pending[0], at);
  }
}
