/** What becomes of reservations: committed keys, and reservations that nobody will settle. Recoveries
    give no held download back. */
module PoolReservations {
  import opened Basics
  import opened QueueSpec
  import opened QueueRuns
  import opened Results
  import opened Pool
  import opened PoolOwnership

  lemma SweepMoves(s: State, now: real, later: real, staleAfter: real, job: JobId)
    requires s.Q().Valid() && OwnIds(s.Q()) && !s.InFlight(job)
    ensures multiset(DoRecover(s, now, later, staleAfter).ledger.puts)[job] == multiset(s.ledger.puts)[job]
  {
    SweepEffect(s.Q(), now, later, staleAfter);
    var stale := Stales(s, now, staleAfter);
    var back := GivenBack(s.Q(), now, later, staleAfter);
    assert job !in back by {
      assert forall j :: j in back ==> j in stale;
    }
  }

  lemma CompletedIsDead(s: State, info: JobId -> JobInfo, job: JobId)
    requires Exclusive(s, info) && info(job).Pipeline? && info(job).key in s.cache.completed
    ensures !Current(s, job) && info(job).key !in s.cache.reserved
  {
    if Current(s, job) {
      CurrentOwns(s, info, job);
    }
  }

  lemma SubmitCompleted(s: State, info: JobId -> JobInfo, other: JobId, readFails: bool, job: JobId)
    requires info(other).Pipeline? && info(job).Pipeline? && info(job).key in s.cache.completed
    ensures var s' := DoSubmit(s, other, info(other).key, readFails);
      && info(job).key in s'.cache.completed
      && multiset(s'.ledger.puts)[job] == multiset(s.ledger.puts)[job]
  {
    SubmitMoves(s, other, info(other).key, readFails);
  }

  lemma FinishCompleted(s: State, info: JobId -> JobInfo, i: nat, outcome: Outcome, append: D.AppendOutcome, job: JobId)
    requires s.cache.Valid() && i < |s.hands| && s.hands[i].Busy? && s.hands[i].job != job
    requires info(job).Pipeline? && info(job).key in s.cache.completed
    ensures var s' := DoFinish(s, info, i, outcome, append);
      && info(job).key in s'.cache.completed
      && multiset(s'.ledger.puts)[job] == multiset(s.ledger.puts)[job]
  {
  }

  /** The key of `job` is committed, stays so, and the job is not put into the queue. */
  ghost predicate StaysDone(s: State, s': State, info: JobId -> JobInfo, job: JobId) {
    && info(job).Pipeline? && info(job).key in s.cache.completed && info(job).key in s'.cache.completed
    && multiset(s'.ledger.puts)[job] == multiset(s.ledger.puts)[job]
  }

  ghost predicate Completed(s: State, info: JobId -> JobInfo, step: Step, job: JobId) {
    && PoolOwnership.Inv(s, info) && Allowed(s, info, step, NoCopies)
    && info(job).Pipeline? && info(job).key in s.cache.completed
  }

  lemma SubmitStaysDone(s: State, info: JobId -> JobInfo, step: Step, job: JobId)
    requires Completed(s, info, step, job) && step.Submit?
    ensures StaysDone(s, Apply(s, info, step), info, job)
  {
    SubmitCompleted(s, info, step.job, step.readFails, job);
  }

  lemma RequestStaysDone(s: State, info: JobId -> JobInfo, step: Step, job: JobId)
    requires Completed(s, info, step, job) && (step.Request? || step.Take?)
    ensures StaysDone(s, Apply(s, info, step), info, job)
  {
  }

  lemma FinishStaysDone(s: State, info: JobId -> JobInfo, step: Step, job: JobId)
    requires Completed(s, info, step, job) && step.Finish?
    ensures StaysDone(s, Apply(s, info, step), info, job)
  {
    CompletedIsDead(s, info, job);
    assert s.Held(s.hands[step.worker].job);
    FinishCompleted(s, info, step.worker, step.outcome, step.append, job);
  }

  lemma RecoverStaysDone(s: State, info: JobId -> JobInfo, step: Step, job: JobId)
    requires Completed(s, info, step, job) && step.Recover?
    ensures StaysDone(s, Apply(s, info, step), info, job)
  {
    CompletedIsDead(s, info, job);
    SweepMoves(s, step.now, step.later, step.staleAfter, job);
  }

  lemma RestStaysDone(s: State, info: JobId -> JobInfo, step: Step, job: JobId)
    requires Completed(s, info, step, job) && Quiet(step)
    ensures StaysDone(s, Apply(s, info, step), info, job)
  {
    QuietFrames(s, info, step);
  }

  lemma CompletedStep(s: State, info: JobId -> JobInfo, step: Step, job: JobId)
    requires Completed(s, info, step, job)
    ensures StaysDone(s, Apply(s, info, step), info, job)
  {
    hide *;
    QuietCases(step);
    match step
    case Submit(_, _) => SubmitStaysDone(s, info, step, job);
    case Request(_) => RequestStaysDone(s, info, step, job);
    case Take(_, _) => RequestStaysDone(s, info, step, job);
    case Finish(_, _, _) => FinishStaysDone(s, info, step, job);
    case Recover(_, _, _) => RecoverStaysDone(s, info, step, job);
    case _ => RestStaysDone(s, info, step, job);
  }

  lemma {:induction false} CompletedRun(s: State, info: JobId -> JobInfo, steps: seq<Step>, rule: Rule, end: State,
                                        job: JobId)
    requires PoolOwnership.Inv(s, info) && Reaches(s, info, steps, rule, end) && rule != Anything
    requires info(job).Pipeline? && info(job).key in s.cache.completed
    ensures info(job).key in end.cache.completed
    ensures multiset(end.ledger.puts)[job] == multiset(s.ledger.puts)[job]
    decreases |steps|
  {
    if steps == [] {
      RunNowhere(s, info, rule, end);
    } else {
      RunFirst(s, info, steps, rule, end);
      WeakestRule(s, info, steps[0], rule);
      CompletedStep(s, info, steps[0], job);
      StepKeeps(s, info, steps[0]);
      CompletedRun(Apply(s, info, steps[0]), info, steps[1..], rule, end, job);
    }
  }

  /** Once a reachable state has a key committed, it stays committed and no job of it enters the queue
      again. */
  lemma CommittedNeverQueued(maxsize: int, hasIndex: bool, index: set<string>, info: JobId -> JobInfo,
                             before: seq<Step>, mid: State,
                             after: seq<Step>, rule: Rule, end: State, job: JobId)
    requires Reaches(Init(maxsize, D.NewCache(hasIndex, index)), info, before, rule, mid) && rule != Anything
    requires info(job).Pipeline? && info(job).key in mid.cache.completed
    requires Reaches(mid, info, after, rule, end)
    ensures info(job).key in end.cache.completed
    ensures multiset(end.ledger.puts)[job] == multiset(mid.ledger.puts)[job]
  {
    RunFromStart(maxsize, hasIndex, index, info, before, rule, mid);
    CompletedRun(mid, info, after, rule, end, job);
  }

  // ---- Reservations nobody will settle ----

  /** A key reserved for a job that is neither queued nor in flight nor in the hands of a worker. */
  ghost predicate Orphan(s: State, key: string) {
    key in s.cache.reserved && !Current(s, s.cache.reserved[key])
  }

  /** The ways a key can be left reserved without a job, as they show before the step: the processor
      raises, or none is registered for the job's kind; the submit meets a closed queue; a recovery
      meets the stale flight of a job nobody holds on a closed queue, or with an exhausted counter, or
      behind the flight that no longer fits; a worker is cancelled whose flight was lost before. */
  ghost predicate Orphans(s: State, info: JobId -> JobInfo, step: Step, key: string)
    requires Enabled(s, info, step)
  {
    match step
    case Finish(i, outcome, _) => info(s.hands[i].job) == Pipeline(key) && !outcome.Returned?
    case Submit(job, readFails) =>
      info(job).key == key && s.Q().closed && D.TryReserve(s.cache, key, job, readFails).1
    case Recover(now, later, staleAfter) =>
      key in s.cache.reserved
      && FateIn(s, now, staleAfter, s.cache.reserved[key]) == IsLost && !s.Held(s.cache.reserved[key])
    case Cancel(i) =>
      key in s.cache.reserved && s.hands[i] == Busy(s.cache.reserved[key]) && !s.Live(s.cache.reserved[key])
    case _ => false
  }

  /** Leaving `key` an orphan is what the causes say, and nothing else. */
  ghost predicate OrphansExactly(s: State, info: JobId -> JobInfo, step: Step, key: string) {
    Enabled(s, info, step) && (Orphan(Apply(s, info, step), key) <==> Orphans(s, info, step, key))
  }

  ghost predicate NotYet(s: State, info: JobId -> JobInfo, step: Step, key: string) {
    PoolOwnership.Inv(s, info) && Allowed(s, info, step, NoCopies) && !Orphan(s, key)
  }

  lemma NewcomerIsNowhere(s: State, info: JobId -> JobInfo, job: JobId)
    requires PoolOwnership.Inv(s, info) && job !in s.known
    ensures !Current(s, job)
  {
  }

  lemma SubmitOrphans(s: State, info: JobId -> JobInfo, job: JobId, readFails: bool, key: string)
    requires Owned(s, info) && job !in s.known && info(job).Pipeline? && !Orphan(s, key) && !Current(s, job)
    ensures Orphan(DoSubmit(s, job, info(job).key, readFails), key) <==>
      (info(job).key == key && s.Q().closed && D.TryReserve(s.cache, key, job, readFails).1)
  {
    SubmitMoves(s, job, info(job).key, readFails);
    D.ReserveVersusDuplicate(s.cache, info(job).key, job, readFails);
  }

  lemma SubmitCause(s: State, info: JobId -> JobInfo, step: Step, key: string)
    requires NotYet(s, info, step, key) && step.Submit?
    ensures OrphansExactly(s, info, step, key)
  {
    NewcomerIsNowhere(s, info, step.job);
    SubmitOrphans(s, info, step.job, step.readFails, key);
  }

  lemma RequestCause(s: State, info: JobId -> JobInfo, step: Step, key: string)
    requires NotYet(s, info, step, key) && step.Request?
    ensures OrphansExactly(s, info, step, key)
  {
    RequestMoves(s, step.job);
  }

  lemma TakeCause(s: State, info: JobId -> JobInfo, step: Step, key: string)
    requires NotYet(s, info, step, key) && step.Take?
    ensures OrphansExactly(s, info, step, key)
  {
    TakeKeepsCurrent(s, step.worker, step.now);
  }

  lemma TakeKeepsCurrent(s: State, i: nat, now: real)
    requires s.Q().Valid() && i < |s.hands| && s.hands[i] == Free && s.Q().pending != []
    ensures forall job :: Current(DoTake(s, i, now), job) <==> Current(s, job)
  {
    TakeMoves(s, i, now);
    var s' := DoTake(s, i, now);
    forall job
      ensures Current(s', job) <==> Current(s, job)
    {
      if s.Held(job) {
        var k :| 0 <= k < |s.hands| && s.hands[k] == Busy(job);
        assert s'.hands[k] == Busy(job);
      }
      assert job in s.Q().pending <==> job == s.Q().pending[0] || job in s.Q().pending[1..];
    }
  }

  /** Who is current after worker `i` put its job down. */
  lemma FinishCurrent(s: State, info: JobId -> JobInfo, i: nat, outcome: Outcome, append: D.AppendOutcome, job: JobId)
    requires Single(s, info) && i < |s.hands| && s.hands[i].Busy? && info(job).Pipeline?
    ensures Current(DoFinish(s, info, i, outcome, append), job) <==> Current(s, job) && job != s.hands[i].job
  {
    FinishMoves(s, info, i, outcome, append);
    var s' := DoFinish(s, info, i, outcome, append);
    if s.Held(job) && job != s.hands[i].job {
      var k :| 0 <= k < |s.hands| && s.hands[k] == Busy(job);
      assert s'.hands[k] == Busy(job);
    }
  }

  lemma FinishOrphans(s: State, info: JobId -> JobInfo, i: nat, outcome: Outcome, append: D.AppendOutcome, key: string)
    requires Exclusive(s, info) && i < |s.hands| && s.hands[i].Busy? && !Orphan(s, key)
    ensures Orphan(DoFinish(s, info, i, outcome, append), key) <==>
      (info(s.hands[i].job) == Pipeline(key) && !outcome.Returned?)
  {
    var job, s' := s.hands[i].job, DoFinish(s, info, i, outcome, append);
    FinishMoves(s, info, i, outcome, append);
    SettleEffect(s.cache, info(job), outcome, append);
    assert info(job).Pipeline? ==> Owns(s, info, s.hands[i].job);
    if key in s.cache.reserved {
      FinishCurrent(s, info, i, outcome, append, s.cache.reserved[key]);
    }
  }

  lemma FinishCause(s: State, info: JobId -> JobInfo, step: Step, key: string)
    requires NotYet(s, info, step, key) && step.Finish?
    ensures OrphansExactly(s, info, step, key)
  {
    FinishOrphans(s, info, step.worker, step.outcome, step.append, key);
  }

  lemma RecoverOrphans(s: State, info: JobId -> JobInfo, now: real, later: real, staleAfter: real, key: string)
    requires s.Q().Valid() && OwnIds(s.Q()) && Exclusive(s, info) && !Orphan(s, key)
    ensures Orphan(DoRecover(s, now, later, staleAfter), key) <==>
      && key in s.cache.reserved
      && FateIn(s, now, staleAfter, s.cache.reserved[key]) == IsLost && !s.Held(s.cache.reserved[key])
  {
    RecoverMoves(s, now, later, staleAfter);
  }

  lemma RecoverCause(s: State, info: JobId -> JobInfo, step: Step, key: string)
    requires NotYet(s, info, step, key) && step.Recover?
    ensures OrphansExactly(s, info, step, key)
  {
    RecoverOrphans(s, info, step.now, step.later, step.staleAfter, key);
  }

  lemma CancelCause(s: State, info: JobId -> JobInfo, step: Step, key: string)
    requires NotYet(s, info, step, key) && step.Cancel?
    ensures OrphansExactly(s, info, step, key)
  {
    var i, s' := step.worker, Apply(s, info, step);
    if key in s.cache.reserved {
      var job := s.cache.reserved[key];
      if s.Held(job) && s.hands[i] != Busy(job) {
        var k :| 0 <= k < |s.hands| && s.hands[k] == Busy(job);
        assert s'.hands[k] == Busy(job);
      }
    }
  }

  lemma RestKeepsCurrent(s: State, info: JobId -> JobInfo, step: Step, job: JobId)
    requires Enabled(s, info, step) && Quiet(step) && !step.Cancel?
    ensures Current(Apply(s, info, step), job) <==> Current(s, job)
  {
    QuietFrames(s, info, step);
    if s.Held(job) {
      var k :| 0 <= k < |s.hands| && s.hands[k] == Busy(job);
      assert Apply(s, info, step).hands[k] == Busy(job);
    }
  }

  lemma RestCause(s: State, info: JobId -> JobInfo, step: Step, key: string)
    requires NotYet(s, info, step, key) && Quiet(step) && !step.Cancel?
    ensures OrphansExactly(s, info, step, key)
  {
    QuietFrames(s, info, step);
    if key in s.cache.reserved {
      RestKeepsCurrent(s, info, step, s.cache.reserved[key]);
    }
  }

  lemma StepOrphans(s: State, info: JobId -> JobInfo, step: Step, key: string)
    requires NotYet(s, info, step, key)
    ensures OrphansExactly(s, info, step, key)
  {
    hide *;
    QuietCases(step);
    match step
    case Submit(_, _) => SubmitCause(s, info, step, key);
    case Request(_) => RequestCause(s, info, step, key);
    case Take(_, _) => TakeCause(s, info, step, key);
    case Finish(_, _, _) => FinishCause(s, info, step, key);
    case Recover(_, _, _) => RecoverCause(s, info, step, key);
    case Cancel(_) => CancelCause(s, info, step, key);
    case _ => RestCause(s, info, step, key);
  }

  /** Exactly when a step from a reachable state leaves a key reserved with no job to settle it. */
  lemma OrphanCauses(maxsize: int, hasIndex: bool, index: set<string>, info: JobId -> JobInfo, steps: seq<Step>,
                     rule: Rule, s: State,
                     step: Step, key: string)
    requires Reaches(Init(maxsize, D.NewCache(hasIndex, index)), info, steps, rule, s) && rule != Anything
    requires Allowed(s, info, step, rule) && !Orphan(s, key)
    ensures Orphan(Apply(s, info, step), key) <==> Orphans(s, info, step, key)
  {
    RunFromStart(maxsize, hasIndex, index, info, steps, rule, s);
    WeakestRule(s, info, step, rule);
    StepOrphans(s, info, step, key);
  }

  /** An orphan before and after, of the same job. */
  ghost predicate StaysOrphan(s: State, s': State, key: string) {
    Orphan(s, key) && Orphan(s', key) && s'.cache.reserved[key] == s.cache.reserved[key]
  }

  ghost predicate Already(s: State, info: JobId -> JobInfo, step: Step, key: string) {
    PoolOwnership.Inv(s, info) && Allowed(s, info, step, NoCopies) && Orphan(s, key)
  }

  lemma SubmitKeepsOrphan(s: State, info: JobId -> JobInfo, job: JobId, readFails: bool, key: string)
    requires Owned(s, info) && job !in s.known && info(job).Pipeline? && Orphan(s, key)
    ensures StaysOrphan(s, DoSubmit(s, job, info(job).key, readFails), key)
  {
    SubmitMoves(s, job, info(job).key, readFails);
    D.ReserveVersusDuplicate(s.cache, info(job).key, job, readFails);
  }

  lemma SubmitStaysOrphan(s: State, info: JobId -> JobInfo, step: Step, key: string)
    requires Already(s, info, step, key) && step.Submit?
    ensures StaysOrphan(s, Apply(s, info, step), key)
  {
    SubmitKeepsOrphan(s, info, step.job, step.readFails, key);
  }

  lemma RequestStaysOrphan(s: State, info: JobId -> JobInfo, step: Step, key: string)
    requires Already(s, info, step, key) && step.Request?
    ensures StaysOrphan(s, Apply(s, info, step), key)
  {
    RequestMoves(s, step.job);
  }

  lemma TakeStaysOrphan(s: State, info: JobId -> JobInfo, step: Step, key: string)
    requires Already(s, info, step, key) && step.Take?
    ensures StaysOrphan(s, Apply(s, info, step), key)
  {
    TakeKeepsCurrent(s, step.worker, step.now);
  }

  lemma FinishStaysOrphan(s: State, info: JobId -> JobInfo, step: Step, key: string)
    requires Already(s, info, step, key) && step.Finish?
    ensures StaysOrphan(s, Apply(s, info, step), key)
  {
    var job := s.hands[step.worker].job;
    assert s.Held(job);
    FinishMoves(s, info, step.worker, step.outcome, step.append);
    SettleEffect(s.cache, info(job), step.outcome, step.append);
    FinishCurrent(s, info, step.worker, step.outcome, step.append, s.cache.reserved[key]);
  }

  lemma RecoverStaysOrphan(s: State, info: JobId -> JobInfo, step: Step, key: string)
    requires Already(s, info, step, key) && step.Recover?
    ensures StaysOrphan(s, Apply(s, info, step), key)
  {
    RecoverMoves(s, step.now, step.later, step.staleAfter);
  }

  lemma RestStaysOrphan(s: State, info: JobId -> JobInfo, step: Step, key: string)
    requires Already(s, info, step, key) && Quiet(step)
    ensures StaysOrphan(s, Apply(s, info, step), key)
  {
    QuietFrames(s, info, step);
  }

  lemma OrphanStep(s: State, info: JobId -> JobInfo, step: Step, key: string)
    requires Already(s, info, step, key)
    ensures StaysOrphan(s, Apply(s, info, step), key)
  {
    hide *;
    QuietCases(step);
    match step
    case Submit(_, _) => SubmitStaysOrphan(s, info, step, key);
    case Request(_) => RequestStaysOrphan(s, info, step, key);
    case Take(_, _) => TakeStaysOrphan(s, info, step, key);
    case Finish(_, _, _) => FinishStaysOrphan(s, info, step, key);
    case Recover(_, _, _) => RecoverStaysOrphan(s, info, step, key);
    case _ => RestStaysOrphan(s, info, step, key);
  }

  lemma {:induction false} OrphanRun(s: State, info: JobId -> JobInfo, steps: seq<Step>, rule: Rule, end: State,
                                     key: string)
    requires PoolOwnership.Inv(s, info) && Reaches(s, info, steps, rule, end) && rule != Anything && Orphan(s, key)
    ensures Orphan(end, key) && end.cache.reserved[key] == s.cache.reserved[key]
    decreases |steps|
  {
    if steps == [] {
      RunNowhere(s, info, rule, end);
    } else {
      RunFirst(s, info, steps, rule, end);
      WeakestRule(s, info, steps[0], rule);
      OrphanStep(s, info, steps[0], key);
      StepKeeps(s, info, steps[0]);
      OrphanRun(Apply(s, info, steps[0]), info, steps[1..], rule, end, key);
    }
  }

  /** An orphaned key stays blocked: in every later state it is still an orphan, and every job but the
      lost one is refused. */
  lemma OrphansAreForever(maxsize: int, hasIndex: bool, index: set<string>, info: JobId -> JobInfo, before: seq<Step>,
                          mid: State,
                          after: seq<Step>, rule: Rule, end: State, key: string, job: JobId, readFails: bool)
    requires Reaches(Init(maxsize, D.NewCache(hasIndex, index)), info, before, rule, mid) && rule != Anything
    requires Orphan(mid, key) && Reaches(mid, info, after, rule, end)
    ensures Orphan(end, key)
    ensures D.TryReserve(end.cache, key, job, readFails).1 ==> job == mid.cache.reserved[key]
  {
    RunFromStart(maxsize, hasIndex, index, info, before, rule, mid);
    OrphanRun(mid, info, after, rule, end, key);
  }
}
