/** Arbitrary runs of queue operations. Nothing is assumed about who calls what: any job may be
    enqueued, acknowledged or nacked at any time, and recovery may strike a live worker's job. */
module QueueRuns {
  import opened Basics
  import opened OrderedDict
  import opened QueueSpec

  /** The immutable fields of a job. Jobs of the download pipeline are built with retry_on_failure
      off and the default counters; other callers choose. */
  datatype JobInfo = Pipeline(key: string) | Plain(attempts0: int, limit: int, retry: bool)
  {
    function Attempts0(): int {
      if Pipeline? then 0 else attempts0
    }

    function MaxAttempts(): int {
      if Pipeline? then 3 else limit
    }

    predicate Retries() {
      Plain? && retry
    }
  }

  /** The queue together with the history of what was accepted and done. */
  datatype Ledger = Ledger(
    q: QueueState<JobId>,
    attempts: map<JobId, int>,
    puts: seq<JobId>,
    gets: seq<JobId>,
    entered: multiset<JobId>,
    retried: multiset<JobId>,
    recovered: multiset<JobId>,
    acks: nat,
    nacks: nat,
    overflows: nat)

  function NewLedger(maxsize: int): Ledger {
    Ledger(NewQueue(maxsize), map[], [], [], multiset{}, multiset{}, multiset{}, 0, 0, 0)
  }

  function Attempts(l: Ledger, info: JobId -> JobInfo, job: JobId): int {
    if job in l.attempts then l.attempts[job] else info(job).Attempts0()
  }

  function Enter(l: Ledger, job: JobId): (Ledger, PutOutcome) {
    var (q, r) := Enqueue(l.q, job);
    if r != Accepted then (l, r)
    else (l.(q := q, puts := l.puts + [job], entered := l.entered + multiset{job}), r)
  }

  function Get(l: Ledger, now: real): Ledger
    requires l.q.pending != []
  {
    var job := l.q.pending[0];
    l.(q := Dequeue(l.q, job, now), gets := l.gets + [job])
  }

  function Ack(l: Ledger, job: JobId): (Ledger, bool) {
    var (q, ok) := Acknowledge(l.q, job);
    (l.(q := q, acks := l.acks + if ok then 1 else 0), ok)
  }

  function Retry(l: Ledger, info: JobId -> JobInfo, job: JobId): (Ledger, NackOutcome) {
    var before := Attempts(l, info, job);
    var (q, r) := Nack(l.q, job, job, before, info(job).MaxAttempts());
    (l.(q := q,
        attempts := l.attempts[job := BumpedAttempts(before, r)],
        nacks := l.nacks + (if r == NackUnderflow then 0 else 1),
        puts := if r == Requeued then l.puts + [job] else l.puts,
        retried := if r == Requeued then l.retried + multiset{job} else l.retried),
     r)
  }

  function Sweep(l: Ledger, now: real, later: real, staleAfter: real): (Ledger, RecoverOutcome)
    requires l.q.flights.Valid()
  {
    var (q, r) := Recover(l.q, now, later, staleAfter);
    var back := GivenBack(l.q, now, later, staleAfter);
    (l.(q := q,
        puts := l.puts + back,
        recovered := l.recovered + multiset(back),
        overflows := l.overflows + if r.RecoverFull? then 1 else 0),
     r)
  }

  function Shut(l: Ledger): Ledger {
    l.(q := l.q.(closed := true))
  }

  /** Exactly when a job is accepted, and that it then waits at the end of the queue: an open queue takes it
      unless a positive capacity is used up. */
  lemma AcceptedExactly(l: Ledger, job: JobId)
    ensures var (l', r) := Enter(l, job);
      && (r == RefusedClosed <==> l.q.closed)
      && (r == RefusedFull <==> !l.q.closed && 0 < l.q.maxsize <= |l.q.pending|)
      && (r != Accepted ==> l' == l)
      && (r == Accepted ==>
            && l'.q == l.q.(pending := l.q.pending + [job], unfinished := l.q.unfinished + 1)
            && l'.puts == l.puts + [job])
  {
  }

  // ---- What every run keeps ----

  ghost predicate RetryBound(l: Ledger, info: JobId -> JobInfo) {
    forall j :: j in l.retried ==>
      && l.retried[j] <= Attempts(l, info, j) - info(j).Attempts0()
      && l.retried[j] <= info(j).MaxAttempts() - 1 - info(j).Attempts0()
  }

  ghost predicate AttemptsGrow(l: Ledger, info: JobId -> JobInfo) {
    forall j :: j in l.attempts ==> l.attempts[j] >= info(j).Attempts0()
  }

  ghost predicate Balanced(l: Ledger) {
    l.q.unfinished == |l.q.pending| + |l.gets| - l.acks - l.nacks - |l.recovered| - l.overflows
  }

  ghost predicate Inv(l: Ledger, info: JobId -> JobInfo) {
    && l.q.Valid()
    && OwnIds(l.q)
    && l.gets + l.q.pending == l.puts
    && multiset(l.puts) == l.entered + l.retried + l.recovered
    && Balanced(l)
    && AttemptsGrow(l, info)
    && RetryBound(l, info)
  }

  lemma NewLedgerInv(maxsize: int, info: JobId -> JobInfo)
    ensures Inv(NewLedger(maxsize), info)
  {
  }

  lemma LogGrows(gets: seq<JobId>, pending: seq<JobId>, puts: seq<JobId>, more: seq<JobId>)
    requires gets + pending == puts
    ensures gets + (pending + more) == puts + more
    ensures multiset(puts + more) == multiset(puts) + multiset(more)
  {
  }

  lemma EnterKeeps(l: Ledger, info: JobId -> JobInfo, job: JobId)
    requires Inv(l, info)
    ensures Inv(Enter(l, job).0, info)
  {
    LogGrows(l.gets, l.q.pending, l.puts, [job]);
  }

  lemma GetKeeps(l: Ledger, info: JobId -> JobInfo, now: real)
    requires Inv(l, info) && l.q.pending != []
    ensures Inv(Get(l, now), info)
  {
  }

  lemma AckKeeps(l: Ledger, info: JobId -> JobInfo, job: JobId)
    requires Inv(l, info)
    ensures Inv(Ack(l, job).0, info)
  {
  }

  lemma RetryBounds(l: Ledger, info: JobId -> JobInfo, job: JobId)
    requires AttemptsGrow(l, info) && RetryBound(l, info)
    ensures var l' := Retry(l, info, job).0; AttemptsGrow(l', info) && RetryBound(l', info)
  {
  }

  lemma RetryMoves(l: Ledger, info: JobId -> JobInfo, job: JobId)
    ensures var (l', r) := Retry(l, info, job);
      && l'.gets == l.gets && l'.entered == l.entered && l'.recovered == l.recovered
      && l'.acks == l.acks && l'.overflows == l.overflows
      && (r == Requeued ==>
            && l'.puts == l.puts + [job] && l'.q.pending == l.q.pending + [job]
            && l'.retried == l.retried + multiset{job})
      && (r != Requeued ==> l'.puts == l.puts && l'.q.pending == l.q.pending && l'.retried == l.retried)
  {
  }

  lemma RetryQueue(l: Ledger, info: JobId -> JobInfo, job: JobId)
    requires l.q.Valid() && OwnIds(l.q) && Balanced(l)
    ensures var l' := Retry(l, info, job).0; l'.q.Valid() && OwnIds(l'.q) && Balanced(l')
  {
  }

  lemma RetryKeeps(l: Ledger, info: JobId -> JobInfo, job: JobId)
    requires Inv(l, info)
    ensures Inv(Retry(l, info, job).0, info)
  {
    RetryMoves(l, info, job);
    RetryQueue(l, info, job);
    RetryBounds(l, info, job);
    LogGrows(l.gets, l.q.pending, l.puts, [job]);
  }

  lemma JobsAreIds(ids: seq<JobId>, vals: map<JobId, Flight<JobId>>)
    requires forall k :: k in ids ==> k in vals && vals[k].job == k
    ensures Jobs(ids, vals) == ids
  {
  }

  ghost predicate OwnIds(q: QueueState<JobId>) {
    forall k :: k in q.flights.keys ==> k in q.flights.vals && q.flights.vals[k].job == k
  }

  /** `q'` is `q` after a recovery that swept `stale`, gave the first `k` of them back, and refiled
      the next one if `refiled`. */
  ghost predicate Swept(q: QueueState<JobId>, q': QueueState<JobId>, stale: seq<JobId>, k: nat, refiled: bool) {
    && k <= |stale|
    && (refiled ==> k < |stale| && q.unfinished > 0)
    && q'.maxsize == q.maxsize && q'.closed == q.closed
    && q'.pending == q.pending + stale[..k]
    && q'.unfinished == q.unfinished - (if refiled then 1 else 0)
    && (forall id :: id in q'.flights.keys <==> (id in q.flights.keys && id !in stale) || (refiled && id == stale[k]))
    && (k > 0 ==> !q.closed)
  }

  lemma SweepClean(q: QueueState<JobId>, now: real, later: real, staleAfter: real)
    requires q.Valid() && OwnIds(q)
    requires var n := |StaleIds(q.flights.keys, q.flights.vals, now, staleAfter)|;
      q.closed || q.unfinished == 0 || n == 0 || Room(q, n) == n
    ensures var stale := StaleIds(q.flights.keys, q.flights.vals, now, staleAfter);
      var (q', r) := Recover(q, now, later, staleAfter);
      && q'.Valid() && OwnIds(q') && !r.RecoverFull?
      && Swept(q, q', stale, if q.closed || q.unfinished == 0 then 0 else |stale|, false)
  {
    var stale := StaleIds(q.flights.keys, q.flights.vals, now, staleAfter);
    JobsAreIds(stale, q.flights.vals);
    assert stale[..|stale|] == stale;
    if !q.closed && q.unfinished > 0 && stale != [] {
      RecoverFits(q, now, later, staleAfter);
    }
  }

  lemma Refiles(q: QueueState<JobId>, stale: seq<JobId>, k: nat, later: real)
    requires q.Valid() && OwnIds(q) && !q.closed && q.unfinished > 0
    requires k < |stale| && forall id :: id in stale ==> id in q.flights.keys
    requires q.maxsize > 0 ==> |q.pending| + k <= q.maxsize
    ensures var q' := Overflowed(SweptTable(q, stale), stale, q.flights.vals, k, later).0;
      q'.Valid() && OwnIds(q') && Swept(q, q', stale, k, true)
  {
  }

  lemma SweepFull(q: QueueState<JobId>, now: real, later: real, staleAfter: real)
    requires q.Valid() && OwnIds(q)
    requires var n := |StaleIds(q.flights.keys, q.flights.vals, now, staleAfter)|;
      !q.closed && q.unfinished > 0 && Room(q, n) < n
    ensures var stale := StaleIds(q.flights.keys, q.flights.vals, now, staleAfter);
      var (q', r) := Recover(q, now, later, staleAfter);
      q'.Valid() && OwnIds(q') && r.RecoverFull? && Swept(q, q', stale, Room(q, |stale|), true)
  {
    var stale := StaleIds(q.flights.keys, q.flights.vals, now, staleAfter);
    var k := Room(q, |stale|);
    Refiles(q, stale, k, later);
    RecoverOverflows(q, now, later, staleAfter);
  }

  /** A recovery takes the stale ids out of the table, gives a prefix of them back, and refiles at
      most the next one. */
  lemma SweepEffect(q: QueueState<JobId>, now: real, later: real, staleAfter: real)
    requires q.Valid() && OwnIds(q)
    ensures var stale := StaleIds(q.flights.keys, q.flights.vals, now, staleAfter);
      var (q', r) := Recover(q, now, later, staleAfter);
      var back := GivenBack(q, now, later, staleAfter);
      && q'.Valid() && OwnIds(q')
      && Swept(q, q', stale, |back|, r.RecoverFull?)
      && back == stale[..|back|]
  {
    var stale := StaleIds(q.flights.keys, q.flights.vals, now, staleAfter);
    var n := |stale|;
    if q.closed || q.unfinished == 0 || n == 0 || Room(q, n) == n {
      SweepClean(q, now, later, staleAfter);
    } else {
      SweepFull(q, now, later, staleAfter);
    }
  }

  lemma {:induction false} IndexOfDistinct(ids: seq<JobId>, i: nat)
    requires Distinct(ids) && i < |ids|
    ensures IndexOf(ids, ids[i]) == i
  {
    if i > 0 {
      assert ids[1..][i - 1] == ids[i];
      IndexOfDistinct(ids[1..], i - 1);
    }
  }

  /** How many flights a recovery gives back, and whether it refiles one. */
  lemma SweepCounts(q: QueueState<JobId>, now: real, later: real, staleAfter: real)
    requires q.Valid() && OwnIds(q)
    ensures var n := |StaleIds(q.flights.keys, q.flights.vals, now, staleAfter)|;
      var able := !q.closed && q.unfinished > 0;
      && |GivenBack(q, now, later, staleAfter)| == (if able then Room(q, n) else 0)
      && (Recover(q, now, later, staleAfter).1.RecoverFull? <==> able && Room(q, n) < n)
  {
    RecoverLosesAll(q, now, later, staleAfter);
    if !q.closed && q.unfinished > 0 {
      RecoverDrift(q, now, later, staleAfter);
    }
  }

  /** The fate told beforehand is the one that comes true: the stale flights before the room runs out go
      back, the next one is refiled, and the ones after it are lost; all are lost on a closed queue or
      an exhausted counter. */
  lemma RecoverFates(q: QueueState<JobId>, now: real, later: real, staleAfter: real, id: JobId)
    requires q.Valid() && OwnIds(q)
    ensures var fate := FateOf(q, now, staleAfter, id);
      var q' := Recover(q, now, later, staleAfter).0;
      && (id in GivenBack(q, now, later, staleAfter) <==> fate == GoesBack)
      && (id in q'.flights.keys <==> id in q.flights.keys && (fate == Untouched || fate == Refiled))
      && (fate != Untouched ==> id in q.flights.keys)
  {
    var stale := StaleIds(q.flights.keys, q.flights.vals, now, staleAfter);
    var k := |GivenBack(q, now, later, staleAfter)|;
    SweepEffect(q, now, later, staleAfter);
    SweepCounts(q, now, later, staleAfter);
    var i := IndexOf(stale, id);
    if id in stale {
      assert id in stale[..k] <==> i < k by {
        if i < k {
          assert stale[..k][i] == id;
        }
        if id in stale[..k] {
          var m :| 0 <= m < k && stale[m] == id;
          IndexOfDistinct(stale, m);
        }
      }
      assert k < |stale| ==> (id == stale[k] <==> i == k) by {
        if k < |stale| {
          IndexOfDistinct(stale, k);
        }
      }
    } else {
      assert forall x :: x in stale[..k] ==> x in stale;
    }
  }

  lemma SweepKeeps(l: Ledger, info: JobId -> JobInfo, now: real, later: real, staleAfter: real)
    requires Inv(l, info)
    ensures Inv(Sweep(l, now, later, staleAfter).0, info)
  {
    SweepEffect(l.q, now, later, staleAfter);
    LogGrows(l.gets, l.q.pending, l.puts, GivenBack(l.q, now, later, staleAfter));
  }

  // ---- Runs ----

  datatype QueueOp =
    | OpEnter(job: JobId)
    | OpGet(now: real)
    | OpAck(job: JobId)
    | OpRetry(job: JobId)
    | OpSweep(now: real, later: real, staleAfter: real)
    | OpClose

  predicate CanPerform(l: Ledger, op: QueueOp) {
    op.OpGet? ==> l.q.pending != []
  }

  ghost function Perform(l: Ledger, info: JobId -> JobInfo, op: QueueOp): Ledger
    requires l.q.flights.Valid() && CanPerform(l, op)
  {
    match op
    case OpEnter(job) => Enter(l, job).0
    case OpGet(now) => Get(l, now)
    case OpAck(job) => Ack(l, job).0
    case OpRetry(job) => Retry(l, info, job).0
    case OpSweep(now, later, staleAfter) => Sweep(l, now, later, staleAfter).0
    case OpClose => Shut(l)
  }

  lemma PerformKeeps(l: Ledger, info: JobId -> JobInfo, op: QueueOp)
    requires Inv(l, info) && CanPerform(l, op)
    ensures Inv(Perform(l, info, op), info)
  {
    match op
    case OpEnter(job) => EnterKeeps(l, info, job);
    case OpGet(now) => GetKeeps(l, info, now);
    case OpAck(job) => AckKeeps(l, info, job);
    case OpRetry(job) => RetryKeeps(l, info, job);
    case OpSweep(now, later, staleAfter) => SweepKeeps(l, info, now, later, staleAfter);
    case OpClose =>
  }

  /** The ledgers a run can pass through. */
  ghost predicate Performs(l: Ledger, info: JobId -> JobInfo, ops: seq<QueueOp>, end: Ledger)
    decreases |ops|
  {
    if ops == [] then l == end
    else l.q.flights.Valid() && CanPerform(l, ops[0]) && Performs(Perform(l, info, ops[0]), info, ops[1..], end)
  }

  lemma {:induction false} RunKeeps(l: Ledger, info: JobId -> JobInfo, ops: seq<QueueOp>, end: Ledger)
    requires Inv(l, info) && Performs(l, info, ops, end)
    ensures Inv(end, info)
    decreases |ops|
  {
    if ops != [] {
      PerformKeeps(l, info, ops[0]);
      RunKeeps(Perform(l, info, ops[0]), info, ops[1..], end);
    }
  }

  /** FIFO, capacity and the counter identity, in every run of a new queue. */
  lemma EveryRun(maxsize: int, info: JobId -> JobInfo, ops: seq<QueueOp>, end: Ledger)
    requires Performs(NewLedger(maxsize), info, ops, end)
    ensures end.gets + end.q.pending == end.puts
    ensures end.q.maxsize > 0 ==> |end.q.pending| <= end.q.maxsize
    ensures end.q.unfinished
         == |end.q.pending| + |end.gets| - end.acks - end.nacks - |end.recovered| - end.overflows
    ensures Inv(end, info)
  {
    NewLedgerInv(maxsize, info);
    RunKeeps(NewLedger(maxsize), info, ops, end);
  }

  /** Exactly when an acknowledge finds the counter at zero. */
  lemma LateAcknowledge(maxsize: int, info: JobId -> JobInfo, ops: seq<QueueOp>, end: Ledger, job: JobId)
    requires Performs(NewLedger(maxsize), info, ops, end)
    ensures !Ack(end, job).1 <==>
      |end.q.pending| + |end.gets| == end.acks + end.nacks + |end.recovered| + end.overflows
  {
    EveryRun(maxsize, info, ops, end);
  }

  function Max(a: int, b: int): int {
    if a >= b then a else b
  }

  /** A job accepted once is handed out at most max(1, max_attempts - attempts) times, plus once for
      each recovery that gave it back, in every run. */
  lemma BoundedRetries(maxsize: int, info: JobId -> JobInfo, ops: seq<QueueOp>, end: Ledger, job: JobId)
    requires Performs(NewLedger(maxsize), info, ops, end)
    ensures multiset(end.gets)[job] <= end.entered[job]
      + Max(0, info(job).MaxAttempts() - 1 - info(job).Attempts0()) + end.recovered[job]
    ensures end.entered[job] <= 1 ==>
      multiset(end.gets)[job] <= Max(1, info(job).MaxAttempts() - info(job).Attempts0()) + end.recovered[job]
    ensures end.entered[job] <= 1 && info(job).Pipeline? ==> multiset(end.gets)[job] <= 3 + end.recovered[job]
  {
    EveryRun(maxsize, info, ops, end);
    assert multiset(end.puts) == multiset(end.gets) + multiset(end.q.pending);
    assert multiset(end.puts)[job] == end.entered[job] + end.retried[job] + end.recovered[job];
  }

  /** What is left to do on a closed queue. */
  function Remaining(l: Ledger): int {
    2 * |l.q.pending| + |l.q.flights.keys|
  }

  lemma SettleDrains(l: Ledger, info: JobId -> JobInfo, job: JobId)
    requires l.q.Valid() && l.q.closed
    ensures var l' := Ack(l, job).0;
      l'.puts == l.puts && l'.q.closed && Remaining(l') == Remaining(l) - if job in l.q.flights.keys then 1 else 0
    ensures var l' := Retry(l, info, job).0;
      l'.puts == l.puts && l'.q.closed && Remaining(l') == Remaining(l) - if job in l.q.flights.keys then 1 else 0
  {
    l.q.flights.PopSize(job);
  }

  lemma SweepDrains(l: Ledger, now: real, later: real, staleAfter: real)
    requires l.q.Valid() && OwnIds(l.q) && l.q.closed
    ensures var l' := Sweep(l, now, later, staleAfter).0;
      l'.puts == l.puts && l'.q.closed && Remaining(l') <= Remaining(l)
  {
    RecoverLosesAll(l.q, now, later, staleAfter);
    SweepEffect(l.q, now, later, staleAfter);
    SweepSize(l.q, now, staleAfter);
  }

  /** After close nothing is accepted any more, and each dequeue and each settled flight brings the
      queue closer to empty. */
  lemma ClosedDrains(l: Ledger, info: JobId -> JobInfo, op: QueueOp)
    requires Inv(l, info) && CanPerform(l, op) && l.q.closed
    ensures var l' := Perform(l, info, op);
      && l'.puts == l.puts && l'.q.closed
      && Remaining(l') <= Remaining(l)
      && (op.OpGet? ==> Remaining(l') < Remaining(l))
      && ((op.OpAck? || op.OpRetry?) && op.job in l.q.flights.keys ==> Remaining(l') < Remaining(l))
  {
    match op
    case OpAck(job) => SettleDrains(l, info, job);
    case OpRetry(job) => SettleDrains(l, info, job);
    case OpSweep(now, later, staleAfter) => SweepDrains(l, now, later, staleAfter);
    case _ =>
  }
}
