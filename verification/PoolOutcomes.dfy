/** What a finished attempt publishes, where its job goes, and what a waiter finally holds, in terms of what
    the processor did. */
module PoolOutcomes {
  import opened Basics
  import opened Futures
  import opened QueueSpec
  import opened QueueRuns
  import opened Results
  import opened Pool
  import DedupeSpec
  import PoolWaiters

  /** The status that is published for `job` when its processor ends this way: the one it returned for that
      very job, and FAILED when it raised, was missing, or answered for another job. */
  predicate Reports(outcome: Outcome, job: JobId, status: JobStatus) {
    match outcome
    case Returned(id, returned) => status == if id == job then returned else FAILED
    case Raised => status == FAILED
    case Unrouted => status == FAILED
  }

  /** The newest result published for a job. */
  function Newest(s: State, job: JobId): TaskResult
    requires job in s.published && s.published[job] != []
  {
    s.published[job][|s.published[job]| - 1]
  }

  lemma PublishAppends(s: State, r: TaskResult)
    ensures var s' := Publish(s, r);
      && r.jobId in s'.published
      && s'.published[r.jobId] == (if r.jobId in s.published then s.published[r.jobId] else []) + [r]
      && s'.ledger == s.ledger && s'.hands == s.hands && s'.finished == s.finished && s'.dropped == s.dropped
      && (forall j :: j != r.jobId ==>
            (j in s'.published <==> j in s.published) && (j in s.published ==> s'.published[j] == s.published[j]))
  {
  }

  lemma SettlePublishesNothing(s: State, info: JobId -> JobInfo, i: nat, job: JobId)
    requires i < |s.hands|
    ensures DoAck(s, i, job).published == s.published && DoRetry(s, info, i, job).published == s.published
  {
  }

  /** A finished attempt publishes exactly one result, for its own job: FAILED when the processor raised, was
      missing, or answered for another job, and otherwise the status it returned for this one. */
  lemma FinishReports(s: State, info: JobId -> JobInfo, step: Step)
    requires Enabled(s, info, step) && step.Finish?
    ensures var job, s' := s.hands[step.worker].job, Apply(s, info, step);
      && job in s'.published && s'.published[job] != []
      && s'.published[job] == (if job in s.published then s.published[job] else []) + [Newest(s', job)]
      && Newest(s', job).jobId == job
      && Reports(step.outcome, job, Newest(s', job).status)
      && (forall j :: j != job ==>
            (j in s'.published <==> j in s.published) && (j in s.published ==> s'.published[j] == s.published[j]))
  {
    var job := s.hands[step.worker].job;
    var settled := s.(cache := Pool.Settle(s.cache, info(job), step.outcome, step.append));
    PublishAppends(settled, ResultFor(job, step.outcome));
    SettlePublishesNothing(Publish(settled, ResultFor(job, step.outcome)), info, step.worker, job);
  }

  // ---- What a submit does ----

  /** The cache refuses the reservation: the key is completed, reserved by another job, or, while the disk
      can be read, in the index. */
  predicate Refuses(c: Cache, key: string, job: JobId, readFails: bool) {
    || key in c.completed
    || (key in c.reserved && c.reserved[key] != job)
    || (key !in c.reserved && c.hasIndex && c.diskEnabled && !readFails && key in c.index)
  }

  /** Where a submitted download goes. A duplicate leaves queue and waiters alone. Any other holds the
      reservation of its key, waits at the end of the queue and has a waiter, if the queue is open and not
      full; on a full queue it gives the reservation back; on a closed one it does not. */
  lemma SubmitGoes(s: State, info: JobId -> JobInfo, step: Step)
    requires Enabled(s, info, step) && step.Submit?
    ensures var job, s' := step.job, Apply(s, info, step);
      var key := info(job).key;
      var room := s.Q().maxsize <= 0 || |s.Q().pending| < s.Q().maxsize;
      && (forall k :: k != key ==>
            (k in s'.cache.reserved <==> k in s.cache.reserved)
            && (k in s.cache.reserved ==> s'.cache.reserved[k] == s.cache.reserved[k]))
      && s'.Q().flights == s.Q().flights && s'.published == s.published && s'.hands == s.hands
      && if Refuses(s.cache, key, job, step.readFails) then
           s'.ledger == s.ledger && s'.futures == s.futures && s'.table == s.table
           && s'.cache.reserved == s.cache.reserved
         else if s.Q().closed then
           s'.ledger == s.ledger && job !in s'.table && Reserves(s'.cache, key, job)
         else if room then
           && s'.Q().pending == s.Q().pending + [job] && s'.Q().unfinished == s.Q().unfinished + 1
           && job in s'.table && job in s'.futures && s'.futures[job] == Waiting && Reserves(s'.cache, key, job)
         else
           s'.ledger == s.ledger && job !in s'.table && key !in s'.cache.reserved
  {
    AcceptedExactly(s.ledger, step.job);
    ReservedExactly(s.cache, info(step.job).key, step.job, step.readFails);
    hide Enter;
    hide DedupeSpec.TryReserve;
  }

  predicate Reserves(c: Cache, key: string, job: JobId) {
    key in c.reserved && c.reserved[key] == job
  }

  lemma ReservedExactly(c: Cache, key: string, job: JobId, readFails: bool)
    ensures var (c', granted) := DedupeSpec.TryReserve(c, key, job, readFails);
      && granted == !Refuses(c, key, job, readFails)
      && c'.reserved == if granted then c.reserved[key := job] else c.reserved
  {
    if key in c.reserved {
      assert c.reserved[key] == job ==> c.reserved[key := job] == c.reserved;
    }
  }

  /** What another process has committed is refused to every job; and once somebody has asked for it, also
      when the disk can no longer be read. */
  lemma ForeignKeysAreRefused(s: State, info: JobId -> JobInfo, index: set<string>, key: string, job: JobId)
    requires s.cache.OnDisk() && key !in s.cache.reserved && key in index
    ensures var s' := Apply(s, info, Foreign(index));
      && Refuses(s'.cache, key, job, false)
      && Refuses(Apply(s', info, Probe(key, false)).cache, key, job, true)
  {
  }

  // ---- What a recovery may not touch ----

  /** A recovery takes no job from a worker that got it at most `staleAfter` ago. */
  lemma TimelyHandsAreSpared(s: State, now: real, later: real, staleAfter: real, i: nat)
    requires s.Q().Valid() && OwnIds(s.Q()) && i < |s.hands| && s.hands[i].Busy? && s.InFlight(s.hands[i].job)
    requires now - s.Q().flights.vals[s.hands[i].job].started <= staleAfter
    ensures FateIn(s, now, staleAfter, s.hands[i].job) == Untouched
    ensures var job, s' := s.hands[i].job, DoRecover(s, now, later, staleAfter);
      s'.InFlight(job) && s'.hands == s.hands && (job in s'.dropped <==> job in s.dropped)
  {
    RecoverFates(s.Q(), now, later, staleAfter, s.hands[i].job);
  }

  // ---- Where the job goes ----

  /** After an attempt of `job` with this status it is to be tried again. */
  predicate TriesAgain(s: State, info: JobId -> JobInfo, job: JobId, status: JobStatus) {
    && status !in {COMPLETED, REJECTED_DUPLICATE, SKIPPED}
    && info(job).Plain? && info(job).retry
    && Attempts(s.ledger, info, job) + 1 < info(job).limit
    && !s.Q().closed
  }

  /** A nack in terms of the state it meets, while the counter is above zero. */
  lemma RetryGoes(s: State, info: JobId -> JobInfo, i: nat, job: JobId)
    requires i < |s.hands| && s.Q().unfinished > 0
    ensures var s' := DoRetry(s, info, i, job);
      var again := Attempts(s.ledger, info, job) + 1 < info(job).MaxAttempts() && !s.Q().closed;
      var room := s.Q().maxsize <= 0 || |s.Q().pending| < s.Q().maxsize;
      && Attempts(s'.ledger, info, job) == Attempts(s.ledger, info, job) + 1
      && s'.Q().unfinished == s.Q().unfinished - (if again && room then 0 else 1)
      && s'.Q().pending == (if again && room then s.Q().pending + [job] else s.Q().pending)
      && !s'.InFlight(job)
      && s'.finished == (if again then s.finished else s.finished + {job})
      && s'.dropped == (if again && !room then s.dropped + {job} else s.dropped)
      && s'.hands == s.hands[i := if again && !room then Gone else Free]
  {
  }

  lemma AckGoes(s: State, i: nat, job: JobId)
    requires i < |s.hands| && s.Q().unfinished > 0
    ensures var s' := DoAck(s, i, job);
      && s'.ledger.attempts == s.ledger.attempts
      && s'.Q().unfinished == s.Q().unfinished - 1 && s'.Q().pending == s.Q().pending && !s'.InFlight(job)
      && s'.finished == s.finished + {job} && s'.dropped == s.dropped
      && s'.hands == s.hands[i := Free]
  {
  }

  /** With an exhausted counter every finished attempt ends its worker and takes the job out of the table,
      and nothing is put or counted: a job that a nack was meant to return is dropped, any other finished. */
  lemma ExhaustedCounter(s: State, info: JobId -> JobInfo, step: Step)
    requires Enabled(s, info, step) && step.Finish? && s.Q().unfinished == 0
    ensures var job, s' := s.hands[step.worker].job, Apply(s, info, step);
      && job in s'.published && s'.published[job] != []
      && var nacks := Newest(s', job).status !in {COMPLETED, REJECTED_DUPLICATE, SKIPPED}
                      && info(job).Plain? && info(job).retry;
      && !s'.InFlight(job) && s'.Q().pending == s.Q().pending && s'.Q().unfinished == 0
      && Attempts(s'.ledger, info, job) == Attempts(s.ledger, info, job)
      && s'.hands == s.hands[step.worker := Gone]
      && s'.finished == (if nacks then s.finished else s.finished + {job})
      && s'.dropped == (if nacks then s.dropped + {job} else s.dropped)
  {
    var job := s.hands[step.worker].job;
    var settled := s.(cache := Pool.Settle(s.cache, info(job), step.outcome, step.append));
    var r := ResultFor(job, step.outcome);
    var published := Publish(settled, r);
    PublishAppends(settled, r);
    FailsAtZero(published, info, step.worker, job);
    FinishIs(s, info, step, published, job, r);
    hide DoAck;
    hide DoRetry;
    hide Publish;
    hide Apply;
  }

  lemma FailsAtZero(s: State, info: JobId -> JobInfo, i: nat, job: JobId)
    requires i < |s.hands| && s.Q().unfinished == 0
    ensures forall s' :: s' in {DoAck(s, i, job), DoRetry(s, info, i, job)} ==>
      && !s'.InFlight(job) && s'.Q().pending == s.Q().pending && s'.Q().unfinished == 0
      && Attempts(s'.ledger, info, job) == Attempts(s.ledger, info, job)
      && s'.hands == s.hands[i := Gone]
    ensures DoAck(s, i, job).finished == s.finished + {job} && DoAck(s, i, job).dropped == s.dropped
    ensures var s' := DoRetry(s, info, i, job); s'.finished == s.finished && s'.dropped == s.dropped + {job}
  {
  }

  /** Where a finished attempt leaves its job, while the counter is above zero. A job that is to be tried
      again goes to the end of the pending queue if there is room, with one more attempt counted and its
      worker free; if there is none it is dropped, and the worker ends. Any other is finished: its status
      settles it, it does not retry, it has no attempt left, or the queue is closed. */
  lemma FinishedAttempt(s: State, info: JobId -> JobInfo, step: Step)
    requires Enabled(s, info, step) && step.Finish? && s.Q().unfinished > 0
    ensures var job, s' := s.hands[step.worker].job, Apply(s, info, step);
      && job in s'.published && s'.published[job] != []
      && var again := TriesAgain(s, info, job, Newest(s', job).status);
      var room := s.Q().maxsize <= 0 || |s.Q().pending| < s.Q().maxsize;
      && !s'.InFlight(job)
      && s'.Q().pending == (if again && room then s.Q().pending + [job] else s.Q().pending)
      && s'.Q().unfinished == s.Q().unfinished - (if again && room then 0 else 1)
      && s'.finished == (if again then s.finished else s.finished + {job})
      && s'.dropped == (if again && !room then s.dropped + {job} else s.dropped)
      && s'.hands == s.hands[step.worker := if again && !room then Gone else Free]
      && (again ==> Attempts(s'.ledger, info, job) == Attempts(s.ledger, info, job) + 1)
  {
    var job := s.hands[step.worker].job;
    var settled := s.(cache := Pool.Settle(s.cache, info(job), step.outcome, step.append));
    var r := ResultFor(job, step.outcome);
    var published := Publish(settled, r);
    FinishReports(s, info, step);
    PublishAppends(settled, r);
    AckGoes(published, step.worker, job);
    RetryGoes(published, info, step.worker, job);
    FinishIs(s, info, step, published, job, r);
    hide DoAck;
    hide DoRetry;
    hide Publish;
    hide Apply;
  }

  lemma FinishIs(s: State, info: JobId -> JobInfo, step: Step, published: State, job: JobId, r: TaskResult)
    requires Enabled(s, info, step) && step.Finish? && job == s.hands[step.worker].job
    requires r == ResultFor(job, step.outcome)
    requires published == Publish(s.(cache := Pool.Settle(s.cache, info(job), step.outcome, step.append)), r)
    ensures var s' := Apply(s, info, step);
      && job in s'.published && s'.published[job] != [] && Newest(s', job) == r
      && published.hands == s.hands
      && s' == if r.status in {COMPLETED, REJECTED_DUPLICATE, SKIPPED} || !(info(job).Plain? && info(job).retry)
               then DoAck(published, step.worker, job) else DoRetry(published, info, step.worker, job)
  {
    SettlePublishesNothing(published, info, step.worker, job);
  }

  // ---- What a waiter holds ----

  /** Step `k` of the run finishes an attempt of `job`. */
  ghost predicate Ends(states: seq<State>, steps: seq<Step>, k: nat, job: JobId) {
    && k < |steps| && k < |states| && steps[k].Finish?
    && steps[k].worker < |states[k].hands| && states[k].hands[steps[k].worker] == Busy(job)
  }

  /** Step `k` is the first of the run that does. */
  ghost predicate EndsFirst(states: seq<State>, steps: seq<Step>, k: nat, job: JobId) {
    Ends(states, steps, k, job) && forall m :: 0 <= m < k ==> !Ends(states, steps, m, job)
  }

  lemma OthersPublishNothing(s: State, info: JobId -> JobInfo, step: Step)
    requires Enabled(s, info, step) && !step.Finish?
    ensures Apply(s, info, step).published == s.published
  {
  }

  /** Step `k` is the first to finish an attempt of `job`, and its processor reported `r`. */
  ghost predicate FirstReport(states: seq<State>, steps: seq<Step>, k: nat, job: JobId, r: TaskResult) {
    && EndsFirst(states, steps, k, job)
    && r.jobId == job && Reports(steps[k].outcome, job, r.status)
    && (r.status != FAILED ==> steps[k].outcome == Returned(job, r.status))
  }

  lemma FinishEnds(states: seq<State>, info: JobId -> JobInfo, steps: seq<Step>, rule: Rule, k: nat, job: JobId)
    requires Passes(states, info, steps, rule) && k < |steps| && Ends(states, steps, k, job)
    ensures var s, s' := states[k], states[k + 1];
      && job in s'.published && s'.published[job] != []
      && (job in s.published && s.published[job] != [] ==> s'.published[job][0] == s.published[job][0])
      && (job !in s.published ==>
            && s'.published[job][0].jobId == job && Reports(steps[k].outcome, job, s'.published[job][0].status))
  {
    assert Allowed(states[k], info, steps[k], rule) && states[k + 1] == Apply(states[k], info, steps[k]);
    FinishReports(states[k], info, steps[k]);
  }

  lemma NoEndPublishesNothing(states: seq<State>, info: JobId -> JobInfo, steps: seq<Step>, rule: Rule, k: nat,
                              job: JobId)
    requires Passes(states, info, steps, rule) && k < |steps| && !Ends(states, steps, k, job)
    ensures var s, s' := states[k], states[k + 1];
      (job in s'.published <==> job in s.published) && (job in s.published ==> s'.published[job] == s.published[job])
  {
    assert Allowed(states[k], info, steps[k], rule) && states[k + 1] == Apply(states[k], info, steps[k]);
    if steps[k].Finish? {
      FinishReports(states[k], info, steps[k]);
    } else {
      OthersPublishNothing(states[k], info, steps[k]);
    }
  }

  /** After `n` steps: a result was published for the job if an attempt of it ended, and the first one is what
      the processor's first call reported. */
  ghost predicate FirstComes(states: seq<State>, steps: seq<Step>, n: nat, job: JobId)
    requires n < |states|
  {
    if job in states[n].published then
      && states[n].published[job] != []
      && exists k: nat :: k < n && FirstReport(states, steps, k, job, states[n].published[job][0])
    else
      forall k: nat :: k < n ==> !Ends(states, steps, k, job)
  }

  lemma EndComes(states: seq<State>, info: JobId -> JobInfo, steps: seq<Step>, rule: Rule, k: nat, n: nat, job: JobId)
    requires Passes(states, info, steps, rule) && k < |steps| && n == k + 1
    requires FirstComes(states, steps, k, job) && Ends(states, steps, k, job)
    ensures n < |states| && FirstComes(states, steps, n, job)
  {
    FinishEnds(states, info, steps, rule, k, job);
    assert |states| == |steps| + 1;
    hide *;
    if job in states[k].published {
      StaysFirst(states, steps, k, n, job);
    } else {
      FirstOfAll(states, steps, k, n, job);
    }
  }

  lemma StaysFirst(states: seq<State>, steps: seq<Step>, k: nat, n: nat, job: JobId)
    requires n == k + 1 < |states| && FirstComes(states, steps, k, job)
    requires job in states[k].published && job in states[n].published && states[n].published[job] != []
    requires states[k].published[job] != [] ==> states[n].published[job][0] == states[k].published[job][0]
    ensures FirstComes(states, steps, n, job)
  {
    hide FirstReport;
    hide Ends;
    var i: nat :| i < k && FirstReport(states, steps, i, job, states[k].published[job][0]);
    assert i < n && FirstReport(states, steps, i, job, states[n].published[job][0]);
  }

  lemma FirstOfAll(states: seq<State>, steps: seq<Step>, k: nat, n: nat, job: JobId)
    requires n == k + 1 < |states| && FirstComes(states, steps, k, job) && Ends(states, steps, k, job)
    requires job !in states[k].published && job in states[n].published && states[n].published[job] != []
    requires var r := states[n].published[job][0]; r.jobId == job && Reports(steps[k].outcome, job, r.status)
    ensures FirstComes(states, steps, n, job)
  {
    hide Ends;
    assert EndsFirst(states, steps, k, job);
    hide EndsFirst;
    assert FirstReport(states, steps, k, job, states[n].published[job][0]);
  }

  lemma OtherComes(states: seq<State>, info: JobId -> JobInfo, steps: seq<Step>, rule: Rule, k: nat, n: nat, job: JobId)
    requires Passes(states, info, steps, rule) && k < |steps| && n == k + 1
    requires FirstComes(states, steps, k, job) && !Ends(states, steps, k, job)
    ensures n < |states| && FirstComes(states, steps, n, job)
  {
    NoEndPublishesNothing(states, info, steps, rule, k, job);
    assert |states| == |steps| + 1;
    hide *;
    StaysAsItWas(states, steps, k, n, job);
  }

  lemma StaysAsItWas(states: seq<State>, steps: seq<Step>, k: nat, n: nat, job: JobId)
    requires n == k + 1 < |states| && FirstComes(states, steps, k, job) && !Ends(states, steps, k, job)
    requires job in states[n].published <==> job in states[k].published
    requires job in states[k].published ==> states[n].published[job] == states[k].published[job]
    ensures FirstComes(states, steps, n, job)
  {
    hide FirstReport;
    hide Ends;
  }

  /** In every run the first result published for a job is what the processor's first call reported, and
      one is published as soon as an attempt of it ended. */
  lemma {:induction false} FirstPublished(states: seq<State>, info: JobId -> JobInfo, steps: seq<Step>, rule: Rule,
                                          n: nat, job: JobId)
    requires Passes(states, info, steps, rule) && n <= |steps| && states[0].published == map[]
    ensures n < |states| && FirstComes(states, steps, n, job)
    decreases n
  {
    assert |states| == |steps| + 1;
    if n > 0 {
      hide *;
      var k: nat := n - 1;
      FirstPublished(states, info, steps, rule, k, job);
      if Ends(states, steps, k, job) {
        EndComes(states, info, steps, rule, k, n, job);
      } else {
        OtherComes(states, info, steps, rule, k, n, job);
      }
    }
  }

  /** What a waiter holds is what the processor's first call that ended for its job reported: COMPLETED, or
      any status but FAILED, only if that call returned it for this very job. */
  lemma WaitersHoldTheFirstReport(maxsize: int, cache: Cache, info: JobId -> JobInfo, states: seq<State>,
                                  steps: seq<Step>, rule: Rule, job: JobId)
    requires Passes(states, info, steps, rule) && states[0] == Init(maxsize, cache)
    requires var end := states[|steps|]; job in end.futures && end.futures[job].Value?
    ensures exists k: nat :: k < |steps| && FirstReport(states, steps, k, job, states[|steps|].futures[job].value)
  {
    var end := states[|steps|];
    assert Reaches(Init(maxsize, cache), info, steps, rule, end);
    PoolWaiters.EveryWaiterGetsTheFirstResult(maxsize, cache, info, steps, rule, end, job);
    FirstPublished(states, info, steps, rule, |steps|, job);
  }
}
