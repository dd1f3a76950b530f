/** The worker pool as a step machine. Submitters, workers, the recovery loop and other processes
    share one queue, one reservation cache and one table of result waiters. A step is the code
    between two real suspension points: waiting for the queue, for a processor, or for a result. */
module Pool {
  import opened Basics
  import opened Futures
  import opened OrderedDict
  import opened QueueSpec
  import opened QueueRuns
  import opened Results
  import DedupeSpec

  type Cache = DedupeSpec.CacheState

  datatype Hand = Free | Busy(job: JobId) | Gone

  datatype State = State(
    ledger: Ledger,
    cache: Cache,
    hands: seq<Hand>,                                   // one per worker task ever started
    known: set<JobId>,                                  // ids some caller already used
    futures: map<JobId, FutureState<TaskResult>>,       // the future each waiting caller made
    table: set<JobId>,                                  // the ids in the waiter table
    published: map<JobId, seq<TaskResult>>,             // every result published, per job
    // Acknowledged, or out of retries. An acknowledge that raises on an exhausted counter has removed
    // the flight of a processed job and counts here; a nack that raises there has lost a job that was
    // still to be retried and counts as dropped.
    finished: set<JobId>,
    dropped: set<JobId>)                                // lost by a failing nack or recovery
  {
    function Q(): QueueState<JobId> { ledger.q }

    predicate InFlight(job: JobId) { job in Q().flights.keys }

    predicate Live(job: JobId) { job in Q().pending || InFlight(job) }

    predicate Held(job: JobId) { Busy(job) in hands }
  }

  function Init(maxsize: int, cache: Cache): State {
    State(NewLedger(maxsize), cache, [], {}, map[], {}, map[], {}, {})
  }

  datatype Step =
    | Submit(job: JobId, readFails: bool)       // submit_download with the shared cache
    | Request(job: JobId)                       // enqueue_and_wait of any other job
    | Take(worker: nat, now: real)
    | Finish(worker: nat, outcome: Outcome, append: DedupeSpec.AppendOutcome)
    | Cancel(worker: nat)                       // the worker task is cancelled
    | Recover(now: real, later: real, staleAfter: real)
    | Close
    | Start(workers: nat)
    | Expire(job: JobId)                        // the wait times out or its caller is cancelled
    | Abandon(job: JobId)
    | EndWait(job: JobId)                       // the waiting caller resumes and cleans up
    | Probe(key: string, readFails: bool)       // is_duplicate
    | Foreign(index: set<string>)               // other processes write to the index file

  ghost predicate Enabled(s: State, info: JobId -> JobInfo, step: Step) {
    match step
    case Submit(job, _) => job !in s.known && info(job).Pipeline?
    case Request(job) => job !in s.known && info(job).Plain?
    case Take(i, _) => i < |s.hands| && s.hands[i] == Free && s.Q().pending != []
    case Finish(i, _, _) => i < |s.hands| && s.hands[i].Busy?
    case Cancel(i) => i < |s.hands|
    case Recover(_, _, _) => s.Q().flights.Valid()
    case Expire(job) => job in s.futures
    case EndWait(job) => job in s.futures && !s.futures[job].Waiting?
    case _ => true
  }

  /** enqueue_and_wait up to its wait. A refused caller raises and drops its future. */
  function EnqueueAndWait(s: State, job: JobId): (State, PutOutcome) {
    var (l, r) := Enter(s.ledger, job);
    (s.(ledger := l, known := s.known + {job},
        futures := s.futures[job := if r == Accepted then Waiting else Cancelled],
        table := if r == Accepted then s.table + {job} else s.table - {job}),
     r)
  }

  function DoSubmit(s: State, job: JobId, key: string, readFails: bool): State {
    var (c, granted) := DedupeSpec.TryReserve(s.cache, key, job, readFails);
    if !granted then s.(cache := c, known := s.known + {job})
    else
      var (s', r) := EnqueueAndWait(s.(cache := c), job);
      if r == RefusedFull then s'.(cache := DedupeSpec.Abort(c, key)) else s'
  }

  function DoTake(s: State, i: nat, now: real): State
    requires i < |s.hands| && s.Q().pending != []
  {
    s.(ledger := Get(s.ledger, now), hands := s.hands[i := Busy(s.Q().pending[0])])
  }

  /** commit on success and abort otherwise, by the download processor, when it returns at all. */
  function Settle(c: Cache, info: JobInfo, outcome: Outcome, append: DedupeSpec.AppendOutcome): Cache {
    if info.Plain? || !outcome.Returned? then c
    else if outcome.status == COMPLETED then DedupeSpec.Commit(c, info.key, append)
    else DedupeSpec.Abort(c, info.key)
  }

  function Publish(s: State, r: TaskResult): State {
    s.(published := s.published[r.jobId := (if r.jobId in s.published then s.published[r.jobId] else []) + [r]],
       futures := if r.jobId in s.table && r.jobId in s.futures
                  then s.futures[r.jobId := Futures.Settle(s.futures[r.jobId], r)] else s.futures,
       table := s.table - {r.jobId})
  }

  function DoAck(s: State, i: nat, job: JobId): State
    requires i < |s.hands|
  {
    var (l, ok) := Ack(s.ledger, job);
    s.(ledger := l, hands := s.hands[i := if ok then Free else Gone], finished := s.finished + {job})
  }

  function DoRetry(s: State, info: JobId -> JobInfo, i: nat, job: JobId): State
    requires i < |s.hands|
  {
    var (l, r) := Retry(s.ledger, info, job);
    s.(ledger := l,
       hands := s.hands[i := if r == Requeued || r == GaveUp then Free else Gone],
       finished := if r == GaveUp then s.finished + {job} else s.finished,
       dropped := if r == NackFull || r == NackUnderflow then s.dropped + {job} else s.dropped)
  }

  function DoFinish(s: State, info: JobId -> JobInfo, i: nat, outcome: Outcome, append: DedupeSpec.AppendOutcome): State
    requires i < |s.hands| && s.hands[i].Busy?
  {
    var job := s.hands[i].job;
    var r := ResultFor(job, outcome);
    var s' := Publish(s.(cache := Settle(s.cache, info(job), outcome, append)), r);
    if Settled(r.status) || !info(job).Retries() then DoAck(s', i, job) else DoRetry(s', info, i, job)
  }

  function Stales(s: State, now: real, staleAfter: real): seq<JobId>
    requires s.Q().flights.Valid()
  {
    StaleIds(s.Q().flights.keys, s.Q().flights.vals, now, staleAfter)
  }

  /** What a recovery is going to do with a job, told from the state before it. */
  function FateIn(s: State, now: real, staleAfter: real, job: JobId): Fate
    requires s.Q().flights.Valid()
  {
    FateOf(s.Q(), now, staleAfter, job)
  }

  /** The stale jobs a recovery loses. */
  function Lost(s: State, now: real, staleAfter: real): set<JobId>
    requires s.Q().flights.Valid()
  {
    set id | id in Stales(s, now, staleAfter) && FateIn(s, now, staleAfter, id) == IsLost
  }

  function DoRecover(s: State, now: real, later: real, staleAfter: real): State
    requires s.Q().flights.Valid()
  {
    s.(ledger := Sweep(s.ledger, now, later, staleAfter).0, dropped := s.dropped + Lost(s, now, staleAfter))
  }

  ghost function Apply(s: State, info: JobId -> JobInfo, step: Step): State
    requires Enabled(s, info, step)
  {
    match step
    case Submit(job, readFails) => DoSubmit(s, job, info(job).key, readFails)
    case Request(job) => EnqueueAndWait(s, job).0
    case Take(i, now) => DoTake(s, i, now)
    case Finish(i, outcome, append) => DoFinish(s, info, i, outcome, append)
    case Cancel(i) => s.(hands := s.hands[i := Gone])
    case Recover(now, later, staleAfter) => DoRecover(s, now, later, staleAfter)
    case Close => s.(ledger := Shut(s.ledger))
    case Start(n) => s.(hands := s.hands + seq(n, i => Free))
    case Expire(job) => s.(futures := s.futures[job := Futures.Cancel(s.futures[job])])
    case Abandon(job) =>
      s.(futures := if job in s.table && job in s.futures
                    then s.futures[job := Futures.Cancel(s.futures[job])] else s.futures,
         table := s.table - {job})
    case EndWait(job) => s.(table := s.table - {job})
    case Probe(key, readFails) => s.(cache := DedupeSpec.IsDuplicate(s.cache, key, readFails).0)
    case Foreign(index) => s.(cache := s.cache.(index := index))
  }

  /** A recovery that leaves every flight a worker holds in the table: untouched, or refiled as the one
      that met a full queue. */
  ghost predicate SparesHeld(s: State, now: real, staleAfter: real)
    requires s.Q().flights.Valid()
  {
    forall i :: 0 <= i < |s.hands| && s.hands[i].Busy? ==>
      var fate := FateIn(s, now, staleAfter, s.hands[i].job);
      fate == Untouched || fate == Refiled
  }

  /** A recovery that gives no download back while a worker still holds it, so that no second copy of
      it is queued. */
  ghost predicate CopiesNothing(s: State, info: JobId -> JobInfo, now: real, staleAfter: real)
    requires s.Q().flights.Valid()
  {
    forall i :: 0 <= i < |s.hands| && s.hands[i].Busy? && info(s.hands[i].job).Pipeline? ==>
      FateIn(s, now, staleAfter, s.hands[i].job) != GoesBack
  }

  /** What a run assumes of its recoveries, each rule asking more than the one before. The queue does
      not know whether the worker of a stale flight is dead; the recovery loop is meant for crashed
      workers. */
  datatype Rule = Anything | NoCopies | SparingHeld | SparingHeldInStep | SparingHeldWithRoom

  predicate Sparing(rule: Rule) {
    rule == SparingHeld || Counting(rule)
  }

  /** The rules under which the task counter stays in step. */
  predicate Counting(rule: Rule) {
    rule == SparingHeldInStep || rule == SparingHeldWithRoom
  }

  /** Nothing is stale, or all stale flights fit, or all but two of them: then one is refiled and one
      lost, and the counter goes down by one. */
  predicate CountFits(q: QueueState<JobId>, stale: nat) {
    stale == 0 || (!q.closed && (Room(q, stale) == stale || Room(q, stale) == stale - 2))
  }

  ghost predicate Allowed(s: State, info: JobId -> JobInfo, step: Step, rule: Rule) {
    && Enabled(s, info, step)
    && (step.Recover? && rule == NoCopies ==> CopiesNothing(s, info, step.now, step.staleAfter))
    && (step.Recover? && Sparing(rule) ==> SparesHeld(s, step.now, step.staleAfter))
    && (step.Recover? && rule == SparingHeldInStep ==> CountFits(s.Q(), |Stales(s, step.now, step.staleAfter)|))
    && (step.Recover? && rule == SparingHeldWithRoom ==>
          var n := |Stales(s, step.now, step.staleAfter)|;
          n == 0 || (!s.Q().closed && Room(s.Q(), n) == n))
  }

  lemma WeakestRule(s: State, info: JobId -> JobInfo, step: Step, rule: Rule)
    requires Allowed(s, info, step, rule) && rule != Anything
    ensures Allowed(s, info, step, NoCopies)
  {
  }

  lemma SparingRule(s: State, info: JobId -> JobInfo, step: Step, rule: Rule)
    requires Allowed(s, info, step, rule) && Sparing(rule)
    ensures Allowed(s, info, step, SparingHeld)
    ensures Counting(rule) ==> Allowed(s, info, step, SparingHeldInStep)
  {
  }

  /** The states a run passes through. */
  ghost predicate Passes(states: seq<State>, info: JobId -> JobInfo, steps: seq<Step>, rule: Rule) {
    && |states| == |steps| + 1
    && forall i {:trigger steps[i]} :: 0 <= i < |steps| ==>
         Allowed(states[i], info, steps[i], rule) && states[i + 1] == Apply(states[i], info, steps[i])
  }

  /** These steps lead from `s` to `end`. */
  ghost predicate Reaches(s: State, info: JobId -> JobInfo, steps: seq<Step>, rule: Rule, end: State) {
    exists states :: Passes(states, info, steps, rule) && states[0] == s && states[|steps|] == end
  }

  lemma RunFirst(s: State, info: JobId -> JobInfo, steps: seq<Step>, rule: Rule, end: State)
    requires Reaches(s, info, steps, rule, end) && steps != []
    ensures Allowed(s, info, steps[0], rule)
    ensures Reaches(Apply(s, info, steps[0]), info, steps[1..], rule, end)
  {
    hide Apply;
    hide Enabled;
    hide SparesHeld;
    hide CopiesNothing;
    var states :| Passes(states, info, steps, rule) && states[0] == s && states[|steps|] == end;
    assert steps[0] == steps[0];
    forall i {:trigger steps[1..][i]} | 0 <= i < |steps| - 1
      ensures Allowed(states[1..][i], info, steps[1..][i], rule)
      ensures states[1..][i + 1] == Apply(states[1..][i], info, steps[1..][i])
    {
      assert steps[1..][i] == steps[i + 1];
    }
    assert Passes(states[1..], info, steps[1..], rule);
  }

  lemma RunNowhere(s: State, info: JobId -> JobInfo, rule: Rule, end: State)
    ensures Reaches(s, info, [], rule, end) <==> s == end
  {
    if s == end {
      assert Passes([s], info, [], rule);
    }
  }

  lemma RecoverFlights(s: State, now: real, later: real, staleAfter: real, job: JobId)
    requires s.Q().Valid() && OwnIds(s.Q())
    ensures var fate := FateIn(s, now, staleAfter, job);
      && (job in GivenBack(s.Q(), now, later, staleAfter) <==> fate == GoesBack)
      && (DoRecover(s, now, later, staleAfter).InFlight(job) <==>
            s.InFlight(job) && (fate == Untouched || fate == Refiled))
      && (fate != Untouched ==> s.InFlight(job))
  {
    RecoverFates(s.Q(), now, later, staleAfter, job);
  }

  /** What a recovery appends to the pending queue. */
  lemma RecoverAppends(s: State, now: real, later: real, staleAfter: real)
    requires s.Q().Valid() && OwnIds(s.Q())
    ensures var back := GivenBack(s.Q(), now, later, staleAfter);
      var s' := DoRecover(s, now, later, staleAfter);
      s'.Q().pending == s.Q().pending + back && s'.ledger.puts == s.ledger.puts + back && Distinct(back)
  {
    SweepEffect(s.Q(), now, later, staleAfter);
    var stale, back := Stales(s, now, staleAfter), GivenBack(s.Q(), now, later, staleAfter);
    assert forall i :: 0 <= i < |back| ==> back[i] == stale[i];
  }

  /** Where each job is after a recovery, in terms of the fate told before it. */
  lemma RecoverMoves(s: State, now: real, later: real, staleAfter: real)
    requires s.Q().Valid() && OwnIds(s.Q())
    ensures var s' := DoRecover(s, now, later, staleAfter);
      && (forall j :: j in s'.Q().pending <==> j in s.Q().pending || FateIn(s, now, staleAfter, j) == GoesBack)
      && (forall j :: j in s'.Q().flights.keys <==>
            j in s.Q().flights.keys
            && (FateIn(s, now, staleAfter, j) == Untouched || FateIn(s, now, staleAfter, j) == Refiled))
      && (forall j :: j in s'.dropped <==> j in s.dropped || FateIn(s, now, staleAfter, j) == IsLost)
      && (forall j :: FateIn(s, now, staleAfter, j) != Untouched ==> j in s.Q().flights.keys)
  {
    RecoverAppends(s, now, later, staleAfter);
    forall j
      ensures j in GivenBack(s.Q(), now, later, staleAfter) <==> FateIn(s, now, staleAfter, j) == GoesBack
      ensures DoRecover(s, now, later, staleAfter).InFlight(j) <==>
        s.InFlight(j)
        && (FateIn(s, now, staleAfter, j) == Untouched || FateIn(s, now, staleAfter, j) == Refiled)
      ensures FateIn(s, now, staleAfter, j) != Untouched ==> j in s.Q().flights.keys
    {
      RecoverFlights(s, now, later, staleAfter, j);
    }
  }

  /** Steps that move no job. */
  predicate Quiet(step: Step) {
    || step.Cancel? || step.Close? || step.Start?
    || step.Expire? || step.Abandon? || step.EndWait?
    || step.Probe? || step.Foreign?
  }

  /** From `s` to `s'` no job moved and no reservation changed; at most workers came or went, waits
      ended, the queue was closed, and a disk hit was copied into memory. */
  ghost predicate Framed(s: State, s': State) {
    && s'.ledger == s.ledger.(q := s.ledger.q.(closed := s'.Q().closed))
    && s'.known == s.known && s'.finished == s.finished && s'.dropped == s.dropped
    && (forall i :: 0 <= i < |s'.hands| && s'.hands[i].Busy? ==> i < |s.hands| && s.hands[i] == s'.hands[i])
    && s'.cache.reserved == s.cache.reserved
    && s.cache.completed <= s'.cache.completed
    && (s.cache.Valid() ==> s'.cache.Valid())
  }

  lemma CacheFrames(s: State, info: JobId -> JobInfo, step: Step)
    requires Enabled(s, info, step) && (step.Probe? || step.Foreign?)
    ensures Framed(s, Apply(s, info, step))
  {
    if step.Probe? {
      DedupeSpec.AnswersAsOneSet(s.cache, step.key, step.readFails);
    }
  }

  lemma HandFrames(s: State, info: JobId -> JobInfo, step: Step)
    requires Enabled(s, info, step) && (step.Cancel? || step.Start? || step.Close?)
    ensures Framed(s, Apply(s, info, step))
  {
  }

  lemma WaitFrames(s: State, info: JobId -> JobInfo, step: Step)
    requires Enabled(s, info, step) && (step.Expire? || step.Abandon? || step.EndWait?)
    ensures Framed(s, Apply(s, info, step))
  {
  }

  lemma QuietFrames(s: State, info: JobId -> JobInfo, step: Step)
    requires Enabled(s, info, step) && Quiet(step)
    ensures Framed(s, Apply(s, info, step))
  {
    hide Apply;
    hide Enabled;
    hide Framed;
    if step.Probe? || step.Foreign? {
      CacheFrames(s, info, step);
    } else if step.Cancel? || step.Start? || step.Close? {
      HandFrames(s, info, step);
    } else {
      WaitFrames(s, info, step);
    }
  }

  lemma RunSnoc(s: State, info: JobId -> JobInfo, steps: seq<Step>, rule: Rule, mid: State, step: Step)
    requires Reaches(s, info, steps, rule, mid) && Allowed(mid, info, step, rule)
    ensures Reaches(s, info, steps + [step], rule, Apply(mid, info, step))
  {
    hide Apply;
    hide Enabled;
    hide SparesHeld;
    hide CopiesNothing;
    var states :| Passes(states, info, steps, rule) && states[0] == s && states[|steps|] == mid;
    var more, longer := steps + [step], states + [Apply(mid, info, step)];
    forall i {:trigger more[i]} | 0 <= i < |more|
      ensures Allowed(longer[i], info, more[i], rule) && longer[i + 1] == Apply(longer[i], info, more[i])
    {
      if i < |steps| {
        assert more[i] == steps[i];
      }
    }
    assert Passes(longer, info, more, rule);
  }

  lemma SubmitKeepsLedger(s: State, info: JobId -> JobInfo, job: JobId, key: string, readFails: bool)
    requires QueueRuns.Inv(s.ledger, info)
    ensures QueueRuns.Inv(DoSubmit(s, job, key, readFails).ledger, info)
  {
    EnterKeeps(s.ledger, info, job);
  }

  lemma FinishKeepsLedger(s: State, info: JobId -> JobInfo, i: nat, outcome: Outcome, append: DedupeSpec.AppendOutcome)
    requires i < |s.hands| && s.hands[i].Busy?
    requires QueueRuns.Inv(s.ledger, info)
    ensures QueueRuns.Inv(DoFinish(s, info, i, outcome, append).ledger, info)
  {
    AckKeeps(s.ledger, info, s.hands[i].job);
    RetryKeeps(s.ledger, info, s.hands[i].job);
  }

  lemma QuietKeepsLedger(s: State, info: JobId -> JobInfo, step: Step)
    requires Enabled(s, info, step) && Quiet(step) && QueueRuns.Inv(s.ledger, info)
    ensures QueueRuns.Inv(Apply(s, info, step).ledger, info)
  {
    QuietFrames(s, info, step);
    ClosedKeeps(s.ledger, Apply(s, info, step).ledger, info);
  }

  lemma ClosedKeeps(l: Ledger, l': Ledger, info: JobId -> JobInfo)
    requires QueueRuns.Inv(l, info) && l' == l.(q := l.q.(closed := l'.q.closed))
    ensures QueueRuns.Inv(l', info)
  {
  }

  lemma SubmitLedger(s: State, info: JobId -> JobInfo, step: Step)
    requires Enabled(s, info, step) && step.Submit? && QueueRuns.Inv(s.ledger, info)
    ensures QueueRuns.Inv(Apply(s, info, step).ledger, info)
  {
    SubmitKeepsLedger(s, info, step.job, info(step.job).key, step.readFails);
  }

  lemma RequestLedger(s: State, info: JobId -> JobInfo, step: Step)
    requires Enabled(s, info, step) && step.Request? && QueueRuns.Inv(s.ledger, info)
    ensures QueueRuns.Inv(Apply(s, info, step).ledger, info)
  {
    EnterKeeps(s.ledger, info, step.job);
  }

  lemma TakeLedger(s: State, info: JobId -> JobInfo, step: Step)
    requires Enabled(s, info, step) && step.Take? && QueueRuns.Inv(s.ledger, info)
    ensures QueueRuns.Inv(Apply(s, info, step).ledger, info)
  {
    GetKeeps(s.ledger, info, step.now);
  }

  lemma FinishLedger(s: State, info: JobId -> JobInfo, step: Step)
    requires Enabled(s, info, step) && step.Finish? && QueueRuns.Inv(s.ledger, info)
    ensures QueueRuns.Inv(Apply(s, info, step).ledger, info)
  {
    FinishKeepsLedger(s, info, step.worker, step.outcome, step.append);
  }

  lemma RecoverLedger(s: State, info: JobId -> JobInfo, step: Step)
    requires Enabled(s, info, step) && step.Recover? && QueueRuns.Inv(s.ledger, info)
    ensures QueueRuns.Inv(Apply(s, info, step).ledger, info)
  {
    SweepKeeps(s.ledger, info, step.now, step.later, step.staleAfter);
  }

  lemma QuietCases(step: Step)
    ensures Quiet(step) ||
      step.Submit? || step.Request? || step.Take? || step.Finish? || step.Recover?
  {
  }

  lemma ApplyKeepsLedger(s: State, info: JobId -> JobInfo, step: Step)
    requires Enabled(s, info, step) && QueueRuns.Inv(s.ledger, info)
    ensures QueueRuns.Inv(Apply(s, info, step).ledger, info)
  {
    hide *;
    QuietCases(step);
    match step
    case Submit(_, _) => SubmitLedger(s, info, step);
    case Request(_) => RequestLedger(s, info, step);
    case Take(_, _) => TakeLedger(s, info, step);
    case Finish(_, _, _) => FinishLedger(s, info, step);
    case Recover(_, _, _) => RecoverLedger(s, info, step);
    case _ => QuietKeepsLedger(s, info, step);
  }
}
