/** Why the pool comes to rest: a measure over the attempts left to the jobs in the queue and in the
    workers' hands, which every worker step brings down. */
module PoolProgress {
  import opened Basics
  import opened QueueSpec
  import opened QueueRuns
  import opened Results
  import opened Pool

  /** Attempts still left to a job. */
  function Left(l: Ledger, info: JobId -> JobInfo, job: JobId): int {
    Max(0, info(job).MaxAttempts() - Attempts(l, info, job))
  }

  function PendingWork(l: Ledger, info: JobId -> JobInfo, pending: seq<JobId>): nat {
    if pending == [] then 0 else 2 * Left(l, info, pending[0]) + 2 + PendingWork(l, info, pending[1..])
  }

  function HandWork(l: Ledger, info: JobId -> JobInfo, hand: Hand): nat {
    if hand.Busy? then 2 * Left(l, info, hand.job) + 1 else 0
  }

  function HandsWork(l: Ledger, info: JobId -> JobInfo, hands: seq<Hand>): nat {
    if hands == [] then 0 else HandWork(l, info, hands[0]) + HandsWork(l, info, hands[1..])
  }

  function Measure(s: State, info: JobId -> JobInfo): nat {
    PendingWork(s.ledger, info, s.Q().pending) + HandsWork(s.ledger, info, s.hands)
  }

  lemma {:induction false} PendingSnoc(l: Ledger, info: JobId -> JobInfo, pending: seq<JobId>, job: JobId)
    ensures PendingWork(l, info, pending + [job]) == PendingWork(l, info, pending) + 2 * Left(l, info, job) + 2
  {
    if pending != [] {
      assert (pending + [job])[1..] == pending[1..] + [job];
      PendingSnoc(l, info, pending[1..], job);
    }
  }

  lemma {:induction false} HandsUpdate(l: Ledger, info: JobId -> JobInfo, hands: seq<Hand>, i: nat, hand: Hand)
    requires i < |hands|
    ensures HandsWork(l, info, hands[i := hand])
         == HandsWork(l, info, hands) - HandWork(l, info, hands[i]) + HandWork(l, info, hand)
  {
    if i > 0 {
      HandsUpdate(l, info, hands[1..], i - 1, hand);
      assert hands[i := hand][1..] == hands[1..][i - 1 := hand];
    } else {
      assert hands[i := hand][1..] == hands[1..];
    }
  }

  lemma {:induction false} FreeHands(l: Ledger, info: JobId -> JobInfo, hands: seq<Hand>, n: nat)
    ensures HandsWork(l, info, hands + seq(n, i => Free)) == HandsWork(l, info, hands)
    decreases |hands|, n
  {
    var more := hands + seq(n, i => Free);
    if hands != [] {
      assert more[1..] == hands[1..] + seq(n, i => Free);
      FreeHands(l, info, hands[1..], n);
    } else if n > 0 {
      assert more[1..] == [] + seq(n - 1, i => Free);
      FreeHands(l, info, [], n - 1);
    }
  }

  /** A counted failure takes work away from every copy of the job, and adds none anywhere. */
  lemma {:induction false} PendingShrinks(l: Ledger, l': Ledger, info: JobId -> JobInfo, pending: seq<JobId>)
    requires forall j :: Left(l', info, j) <= Left(l, info, j)
    ensures PendingWork(l', info, pending) <= PendingWork(l, info, pending)
  {
    if pending != [] {
      PendingShrinks(l, l', info, pending[1..]);
    }
  }

  lemma {:induction false} HandsShrink(l: Ledger, l': Ledger, info: JobId -> JobInfo, hands: seq<Hand>)
    requires forall j :: Left(l', info, j) <= Left(l, info, j)
    ensures HandsWork(l', info, hands) <= HandsWork(l, info, hands)
  {
    if hands != [] {
      HandsShrink(l, l', info, hands[1..]);
    }
  }

  lemma TakeProgress(s: State, info: JobId -> JobInfo, i: nat, now: real)
    requires i < |s.hands| && s.hands[i] == Free && s.Q().pending != []
    ensures Measure(DoTake(s, i, now), info) == Measure(s, info) - 1
  {
    var s' := DoTake(s, i, now);
    SameAttempts(s.ledger, s'.ledger, info, s'.Q().pending, s'.hands);
    HandsUpdate(s.ledger, info, s.hands, i, Busy(s.Q().pending[0]));
  }

  lemma {:induction false} SameAttempts(l: Ledger, l': Ledger, info: JobId -> JobInfo, pending: seq<JobId>,
                                        hands: seq<Hand>)
    requires l.attempts == l'.attempts
    ensures PendingWork(l', info, pending) == PendingWork(l, info, pending)
    ensures HandsWork(l', info, hands) == HandsWork(l, info, hands)
    decreases |pending| + |hands|
  {
    if pending != [] {
      SameAttempts(l, l', info, pending[1..], hands);
    } else if hands != [] {
      SameAttempts(l, l', info, pending, hands[1..]);
    }
  }

  lemma AckProgress(s: State, info: JobId -> JobInfo, i: nat)
    requires i < |s.hands| && s.hands[i].Busy?
    ensures Measure(DoAck(s, i, s.hands[i].job), info) < Measure(s, info)
  {
    var s' := DoAck(s, i, s.hands[i].job);
    SameAttempts(s.ledger, s'.ledger, info, s'.Q().pending, s'.hands);
    HandsUpdate(s.ledger, info, s.hands, i, s'.hands[i]);
  }

  lemma RetryProgress(s: State, info: JobId -> JobInfo, i: nat)
    requires i < |s.hands| && s.hands[i].Busy?
    ensures Measure(DoRetry(s, info, i, s.hands[i].job), info) < Measure(s, info)
  {
    var job := s.hands[i].job;
    var s' := DoRetry(s, info, i, job);
    assert forall j :: Left(s'.ledger, info, j) <= Left(s.ledger, info, j);
    HandsUpdate(s.ledger, info, s.hands, i, s'.hands[i]);
    HandsShrink(s.ledger, s'.ledger, info, s'.hands);
    PendingShrinks(s.ledger, s'.ledger, info, s.Q().pending);
    if Retry(s.ledger, info, job).1 == Requeued {
      PendingSnoc(s'.ledger, info, s.Q().pending, job);
    }
  }

  lemma FinishProgress(s: State, info: JobId -> JobInfo, i: nat, outcome: Outcome,
                       append: Pool.DedupeSpec.AppendOutcome)
    requires i < |s.hands| && s.hands[i].Busy?
    ensures Measure(DoFinish(s, info, i, outcome, append), info) < Measure(s, info)
  {
    var job := s.hands[i].job;
    var published := Publish(s.(cache := Pool.Settle(s.cache, info(job), outcome, append)), ResultFor(job, outcome));
    assert Measure(published, info) == Measure(s, info);
    AckProgress(published, info, i);
    RetryProgress(published, info, i);
  }

  predicate WorkerStep(step: Step) {
    step.Take? || step.Finish?
  }

  /** Steps that bring in no work: everything but new jobs and recoveries. */
  predicate Closed(step: Step) {
    !step.Submit? && !step.Request? && !step.Recover?
  }

  lemma StepProgress(s: State, info: JobId -> JobInfo, step: Step)
    requires Enabled(s, info, step) && Closed(step)
    ensures Measure(Apply(s, info, step), info) + (if WorkerStep(step) then 1 else 0) <= Measure(s, info)
  {
    match step
    case Take(i, now) => TakeProgress(s, info, i, now);
    case Finish(i, outcome, append) => FinishProgress(s, info, i, outcome, append);
    case Cancel(i) => HandsUpdate(s.ledger, info, s.hands, i, Gone);
    case Start(n) => FreeHands(s.ledger, info, s.hands, n);
    case Close => SameAttempts(s.ledger, Shut(s.ledger), info, s.Q().pending, s.hands);
    case _ =>
  }

  function WorkerSteps(steps: seq<Step>): nat {
    if steps == [] then 0 else (if WorkerStep(steps[0]) then 1 else 0) + WorkerSteps(steps[1..])
  }

  /** Without new jobs and recoveries the workers take at most Measure steps, however the rest of the
      system interleaves with them: retrying always ends. */
  lemma {:induction false} WorkersComeToRest(s: State, info: JobId -> JobInfo, steps: seq<Step>, rule: Rule, end: State)
    requires Reaches(s, info, steps, rule, end)
    requires forall step :: step in steps ==> Closed(step)
    ensures WorkerSteps(steps) + Measure(end, info) <= Measure(s, info)
    decreases |steps|
  {
    if steps == [] {
      RunNowhere(s, info, rule, end);
    } else {
      RunFirst(s, info, steps, rule, end);
      StepProgress(s, info, steps[0]);
      WorkersComeToRest(Apply(s, info, steps[0]), info, steps[1..], rule, end);
    }
  }
}
