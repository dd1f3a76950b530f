/** Result delivery to waiting callers, in every run of the pool whatever recovery does. */
module PoolWaiters {
  import opened Basics
  import opened Futures
  import opened QueueRuns
  import opened Results
  import opened Pool

  /** Only ids some caller used are anywhere in the system. */
  ghost predicate Grounded(s: State) {
    && (forall j :: j in s.ledger.q.pending ==> j in s.known)
    && (forall j :: j in s.ledger.q.flights.keys ==> j in s.known)
    && (forall i :: 0 <= i < |s.hands| && s.hands[i].Busy? ==> s.hands[i].job in s.known)
    && (forall j :: j in s.futures ==> j in s.known)
    && (forall j :: j in s.published ==> j in s.known)
    && (forall j :: j in s.table ==> j in s.futures)
    && (forall j :: j in s.ledger.entered ==> j in s.known)
  }

  /** A waiting future is still in the table and nothing was published for it yet; a future with a
      value holds the first result published for its own job. */
  ghost predicate Delivery(s: State) {
    && (forall j :: j in s.published ==> s.published[j] != [] && s.published[j][0].jobId == j)
    && (forall j :: j in s.futures && s.futures[j].Waiting? ==> j in s.table && j !in s.published)
    && (forall j :: j in s.futures && s.futures[j].Value? ==>
          j in s.published && s.futures[j].value == s.published[j][0])
  }

  ghost predicate Inv(s: State, info: JobId -> JobInfo) {
    QueueRuns.Inv(s.ledger, info) && Grounded(s) && Delivery(s)
  }

  lemma PublishDelivers(s: State, r: TaskResult)
    requires Grounded(s) && Delivery(s) && r.jobId in s.known
    ensures Grounded(Publish(s, r)) && Delivery(Publish(s, r))
  {
  }

  lemma AckKeepsGround(s: State, i: nat, job: JobId)
    requires Grounded(s) && i < |s.hands|
    ensures Grounded(DoAck(s, i, job))
  {
  }

  lemma RetryKeepsGround(s: State, info: JobId -> JobInfo, i: nat, job: JobId)
    requires Grounded(s) && i < |s.hands| && job in s.known
    ensures Grounded(DoRetry(s, info, i, job))
  {
  }

  lemma FinishKeeps(s: State, info: JobId -> JobInfo, i: nat, outcome: Outcome, append: Pool.DedupeSpec.AppendOutcome)
    requires Grounded(s) && Delivery(s) && i < |s.hands| && s.hands[i].Busy?
    ensures var s' := DoFinish(s, info, i, outcome, append); Grounded(s') && Delivery(s')
  {
    var job := s.hands[i].job;
    var r := ResultFor(job, outcome);
    var settled := s.(cache := Pool.Settle(s.cache, info(job), outcome, append));
    assert Grounded(settled) && Delivery(settled);
    PublishDelivers(settled, r);
    AckKeepsGround(Publish(settled, r), i, job);
    RetryKeepsGround(Publish(settled, r), info, i, job);
  }

  lemma WaitKeeps(s: State, job: JobId)
    requires Grounded(s) && Delivery(s) && job !in s.known
    ensures var s' := EnqueueAndWait(s, job).0; Grounded(s') && Delivery(s')
  {
  }

  lemma SubmitKeeps(s: State, job: JobId, key: string, readFails: bool)
    requires Grounded(s) && Delivery(s) && job !in s.known
    ensures var s' := DoSubmit(s, job, key, readFails); Grounded(s') && Delivery(s')
  {
    var (c, granted) := Pool.DedupeSpec.TryReserve(s.cache, key, job, readFails);
    var reserved := s.(cache := c);
    assert Grounded(reserved) && Delivery(reserved);
    WaitKeeps(reserved, job);
  }

  lemma TakeKeeps(s: State, i: nat, now: real)
    requires Grounded(s) && Delivery(s) && i < |s.hands| && s.Q().pending != []
    ensures var s' := DoTake(s, i, now); Grounded(s') && Delivery(s')
  {
  }

  lemma StartKeeps(s: State, n: nat)
    requires Grounded(s) && Delivery(s)
    ensures var s' := s.(hands := s.hands + seq(n, i => Free)); Grounded(s') && Delivery(s')
  {
  }

  lemma RecoverKeeps(s: State, info: JobId -> JobInfo, now: real, later: real, staleAfter: real)
    requires Inv(s, info)
    ensures var s' := DoRecover(s, now, later, staleAfter); Grounded(s') && Delivery(s')
  {
    SweepEffect(s.Q(), now, later, staleAfter);
  }

  /** What every step keeps. */
  ghost predicate Delivers(s: State) {
    Grounded(s) && Delivery(s)
  }

  lemma SubmitDelivers(s: State, info: JobId -> JobInfo, step: Step)
    requires Inv(s, info) && Enabled(s, info, step) && step.Submit?
    ensures Delivers(Apply(s, info, step))
  {
    SubmitKeeps(s, step.job, info(step.job).key, step.readFails);
  }

  lemma RequestDelivers(s: State, info: JobId -> JobInfo, step: Step)
    requires Inv(s, info) && Enabled(s, info, step) && step.Request?
    ensures Delivers(Apply(s, info, step))
  {
    WaitKeeps(s, step.job);
  }

  lemma TakeDelivers(s: State, info: JobId -> JobInfo, step: Step)
    requires Inv(s, info) && Enabled(s, info, step) && step.Take?
    ensures Delivers(Apply(s, info, step))
  {
    TakeKeeps(s, step.worker, step.now);
  }

  lemma FinishDelivers(s: State, info: JobId -> JobInfo, step: Step)
    requires Inv(s, info) && Enabled(s, info, step) && step.Finish?
    ensures Delivers(Apply(s, info, step))
  {
    FinishKeeps(s, info, step.worker, step.outcome, step.append);
  }

  lemma RecoverDelivers(s: State, info: JobId -> JobInfo, step: Step)
    requires Inv(s, info) && Enabled(s, info, step) && step.Recover?
    ensures Delivers(Apply(s, info, step))
  {
    RecoverKeeps(s, info, step.now, step.later, step.staleAfter);
  }

  lemma StartDelivers(s: State, info: JobId -> JobInfo, step: Step)
    requires Inv(s, info) && Enabled(s, info, step) && step.Start?
    ensures Delivers(Apply(s, info, step))
  {
    StartKeeps(s, step.workers);
  }

  lemma GiveUpDelivers(s: State, info: JobId -> JobInfo, step: Step)
    requires Inv(s, info) && Enabled(s, info, step) && (step.Expire? || step.Abandon? || step.EndWait?)
    ensures Delivers(Apply(s, info, step))
  {
  }

  lemma RestDelivers(s: State, info: JobId -> JobInfo, step: Step)
    requires Inv(s, info) && Enabled(s, info, step)
    requires step.Cancel? || step.Close? || step.Probe? || step.Foreign?
    ensures Delivers(Apply(s, info, step))
  {
  }

  lemma StepDelivers(s: State, info: JobId -> JobInfo, step: Step)
    requires Inv(s, info) && Enabled(s, info, step)
    ensures Delivers(Apply(s, info, step))
  {
    hide *;
    match step
    case Submit(_, _) => SubmitDelivers(s, info, step);
    case Request(_) => RequestDelivers(s, info, step);
    case Take(_, _) => TakeDelivers(s, info, step);
    case Finish(_, _, _) => FinishDelivers(s, info, step);
    case Recover(_, _, _) => RecoverDelivers(s, info, step);
    case Start(_) => StartDelivers(s, info, step);
    case Expire(_) => GiveUpDelivers(s, info, step);
    case Abandon(_) => GiveUpDelivers(s, info, step);
    case EndWait(_) => GiveUpDelivers(s, info, step);
    case _ => RestDelivers(s, info, step);
  }

  lemma StepKeeps(s: State, info: JobId -> JobInfo, step: Step)
    requires Inv(s, info) && Enabled(s, info, step)
    ensures Inv(Apply(s, info, step), info)
  {
    ApplyKeepsLedger(s, info, step);
    StepDelivers(s, info, step);
  }

  lemma {:induction false} RunKeeps(s: State, info: JobId -> JobInfo, steps: seq<Step>, rule: Rule, end: State)
    requires Inv(s, info) && Reaches(s, info, steps, rule, end)
    ensures Inv(end, info)
    decreases |steps|
  {
    if steps == [] {
      RunNowhere(s, info, rule, end);
    } else {
      RunFirst(s, info, steps, rule, end);
      StepKeeps(s, info, steps[0]);
      RunKeeps(Apply(s, info, steps[0]), info, steps[1..], rule, end);
    }
  }

  /** No result is lost and none is misdelivered: once something was published for a job, its waiter
      has exactly the first such result, unless the wait had already been given up. */
  lemma EveryWaiterGetsTheFirstResult(maxsize: int, cache: Cache, info: JobId -> JobInfo, steps: seq<Step>,
                                      rule: Rule, end: State, job: JobId)
    requires Reaches(Init(maxsize, cache), info, steps, rule, end)
    requires job in end.futures
    ensures job in end.published ==> end.published[job] != []
    ensures job in end.published ==>
      end.futures[job] == Cancelled || end.futures[job] == Value(end.published[job][0])
    ensures job !in end.published ==> !end.futures[job].Value?
    ensures end.futures[job].Value? ==> end.futures[job].value.jobId == job
    ensures end.futures[job].Waiting? ==> job in end.table
  {
    NewLedgerInv(maxsize, info);
    assert Inv(Init(maxsize, cache), info);
    RunKeeps(Init(maxsize, cache), info, steps, rule, end);
  }

  /** From `s` to `s'` the waiting future of `job` was cancelled exactly if `cancels`, and set exactly if
      `sets`; a done one stays. */
  ghost predicate ChangesOnce(s: State, s': State, job: JobId, cancels: bool, sets: bool) {
    && job in s.futures && job in s'.futures
    && (!s.futures[job].Waiting? ==> s'.futures[job] == s.futures[job])
    && (s.futures[job].Waiting? ==> (s'.futures[job].Cancelled? <==> cancels) && (s'.futures[job].Value? <==> sets))
  }

  lemma FinishSets(s: State, info: JobId -> JobInfo, step: Step, job: JobId)
    requires Delivery(s) && Enabled(s, info, step) && step.Finish? && job in s.futures
    ensures ChangesOnce(s, Apply(s, info, step), job, false, s.hands[step.worker] == Busy(job))
  {
  }

  lemma EnterSets(s: State, info: JobId -> JobInfo, step: Step, job: JobId)
    requires Grounded(s) && Enabled(s, info, step) && (step.Submit? || step.Request?) && job in s.futures
    ensures ChangesOnce(s, Apply(s, info, step), job, false, false)
  {
  }

  lemma GiveUpSets(s: State, info: JobId -> JobInfo, step: Step, job: JobId)
    requires Delivery(s) && Enabled(s, info, step) && (step.Expire? || step.Abandon?) && job in s.futures
    ensures ChangesOnce(s, Apply(s, info, step), job, step.job == job, false)
  {
  }

  lemma RestSets(s: State, info: JobId -> JobInfo, step: Step, job: JobId)
    requires Enabled(s, info, step) && job in s.futures
    requires !step.Finish? && !step.Submit? && !step.Request? && !step.Expire? && !step.Abandon?
    ensures ChangesOnce(s, Apply(s, info, step), job, false, false)
  {
  }

  /** A future changes at most once: a waiting one is cancelled exactly by a step that gives the wait for its
      job up, and set exactly when the worker that holds its job finishes. */
  lemma SetAtMostOnce(s: State, info: JobId -> JobInfo, step: Step, job: JobId)
    requires Inv(s, info) && Enabled(s, info, step) && job in s.futures
    ensures ChangesOnce(s, Apply(s, info, step), job,
      (step.Expire? || step.Abandon?) && step.job == job, step.Finish? && s.hands[step.worker] == Busy(job))
  {
    if step.Finish? {
      FinishSets(s, info, step, job);
    } else if step.Submit? || step.Request? {
      EnterSets(s, info, step, job);
    } else if step.Expire? || step.Abandon? {
      GiveUpSets(s, info, step, job);
    } else {
      RestSets(s, info, step, job);
    }
  }

  // ---- The waiter table ----

  /** The step puts `job` into the queue for a caller who waits for its result. */
  ghost predicate Joins(s: State, s': State, step: Step, job: JobId) {
    (step.Submit? || step.Request?) && step.job == job && s'.Q().pending == s.Q().pending + [job]
  }

  /** The step finishes an attempt of `job`, abandons the wait for it, or is its caller going on. */
  ghost predicate LetsGo(s: State, step: Step, job: JobId) {
    || (step.Finish? && step.worker < |s.hands| && s.hands[step.worker] == Busy(job))
    || ((step.Abandon? || step.EndWait?) && step.job == job)
  }

  lemma EnterTable(s: State, info: JobId -> JobInfo, step: Step, job: JobId)
    requires Grounded(s) && Enabled(s, info, step) && (step.Submit? || step.Request?)
    ensures var s' := Apply(s, info, step);
      job in s'.table <==> Joins(s, s', step, job) || job in s.table
  {
    AcceptedExactly(s.ledger, step.job);
    hide Enter;
  }

  lemma FinishTable(s: State, info: JobId -> JobInfo, step: Step, job: JobId)
    requires Enabled(s, info, step) && step.Finish?
    ensures job in Apply(s, info, step).table <==> job in s.table && s.hands[step.worker] != Busy(job)
  {
  }

  lemma RestTable(s: State, info: JobId -> JobInfo, step: Step, job: JobId)
    requires Enabled(s, info, step) && !step.Finish? && !step.Submit? && !step.Request?
    ensures job in Apply(s, info, step).table <==> job in s.table && !LetsGo(s, step, job)
  {
  }

  lemma TableStep(s: State, info: JobId -> JobInfo, step: Step, job: JobId)
    requires Inv(s, info) && Enabled(s, info, step)
    ensures var s' := Apply(s, info, step);
      job in s'.table <==> Joins(s, s', step, job) || (job in s.table && !LetsGo(s, step, job))
  {
    if step.Finish? {
      FinishTable(s, info, step, job);
    } else if step.Submit? || step.Request? {
      EnterTable(s, info, step, job);
    } else {
      RestTable(s, info, step, job);
    }
  }

  /** A caller joined the queue with `job` in step `k`, and no step since has ended the wait. */
  ghost predicate StillWaits(states: seq<State>, steps: seq<Step>, n: nat, k: nat, job: JobId)
    requires n <= |steps| < |states|
  {
    && k < n && Joins(states[k], states[k + 1], steps[k], job)
    && forall m {:trigger steps[m]} :: k < m < n ==> !LetsGo(states[m], steps[m], job)
  }

  lemma OneMoreStep(states: seq<State>, steps: seq<Step>, m: nat, n: nat, job: JobId, before: bool)
    requires m < |steps| < |states| && n == m + 1
    requires before <==> exists k: nat :: StillWaits(states, steps, m, k, job)
    ensures Joins(states[m], states[m + 1], steps[m], job) || (before && !LetsGo(states[m], steps[m], job))
      <==> exists k: nat :: StillWaits(states, steps, n, k, job)
  {
    hide Joins;
    hide LetsGo;
    forall k: nat | StillWaits(states, steps, n, k, job)
      ensures k == m || (StillWaits(states, steps, m, k, job) && !LetsGo(states[m], steps[m], job))
    {
    }
    if Joins(states[m], states[m + 1], steps[m], job) {
      assert StillWaits(states, steps, n, m, job);
    } else if before && !LetsGo(states[m], steps[m], job) {
      var k: nat :| StillWaits(states, steps, m, k, job);
      assert StillWaits(states, steps, n, k, job);
    }
  }

  /** The waiter table in every run: it names exactly the jobs whose caller joined the queue and whose wait
      has not ended since. */
  lemma {:induction false} TableExactly(maxsize: int, cache: Cache, info: JobId -> JobInfo, states: seq<State>,
                                        steps: seq<Step>, rule: Rule, n: nat, job: JobId)
    requires Passes(states, info, steps, rule) && states[0] == Init(maxsize, cache) && n <= |steps|
    ensures Inv(states[n], info)
    ensures job in states[n].table <==> exists k: nat :: StillWaits(states, steps, n, k, job)
    decreases n
  {
    if n == 0 {
      NewLedgerInv(maxsize, info);
    } else {
      var m: nat := n - 1;
      assert Allowed(states[m], info, steps[m], rule) && states[n] == Apply(states[m], info, steps[m]);
      assert Enabled(states[m], info, steps[m]);
      hide *;
      TableExactly(maxsize, cache, info, states, steps, rule, m, job);
      StepKeeps(states[m], info, steps[m]);
      TableStep(states[m], info, steps[m], job);
      OneMoreStep(states, steps, m, n, job, job in states[m].table);
    }
  }
}
