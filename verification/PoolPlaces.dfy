/** Where jobs are. When recoveries spare the flights that workers hold, every accepted job is in exactly
    one place; when they also fit the count, the task counter is exact. */
module PoolPlaces {
  import opened Basics
  import opened OrderedDict
  import opened QueueSpec
  import opened QueueRuns
  import opened Results
  import opened Pool
  import PoolWaiters

  ghost predicate HandsHoldFlights(s: State) {
    && (forall i :: 0 <= i < |s.hands| && s.hands[i].Busy? ==> s.InFlight(s.hands[i].job))
    && (forall i, k :: 0 <= i < k < |s.hands| && s.hands[i].Busy? ==> s.hands[i] != s.hands[k])
  }

  ghost predicate OnePlace(s: State) {
    && Distinct(s.ledger.q.pending)
    && (forall j :: j in s.ledger.q.pending ==> j !in s.ledger.q.flights.keys && j !in s.finished && j !in s.dropped)
    && (forall j :: j in s.ledger.q.flights.keys ==> j !in s.finished && j !in s.dropped)
    && s.finished !! s.dropped
  }

  /** The accepted jobs are the jobs that are somewhere, each accepted once. */
  ghost predicate Accounted(s: State) {
    && (forall j :: j in s.ledger.entered ==> s.ledger.entered[j] == 1)
    && (forall j :: j in s.ledger.entered ==>
          j in s.ledger.q.pending || j in s.ledger.q.flights.keys || j in s.finished || j in s.dropped)
    && (forall j :: j in s.ledger.q.pending ==> j in s.ledger.entered)
    && (forall j :: j in s.ledger.q.flights.keys ==> j in s.ledger.entered)
    && (forall j :: j in s.finished || j in s.dropped ==> j in s.ledger.entered)
  }

  ghost predicate Placed(s: State) {
    HandsHoldFlights(s) && OnePlace(s) && Accounted(s)
  }

  ghost predicate Inv(s: State, info: JobId -> JobInfo) {
    PoolWaiters.Inv(s, info) && Placed(s)
  }

  lemma NewcomerIsNowhere(s: State, job: JobId)
    requires PoolWaiters.Grounded(s) && Accounted(s) && job !in s.known
    ensures job !in s.ledger.entered && job !in s.finished && job !in s.dropped
    ensures job !in s.Q().pending && job !in s.Q().flights.keys
  {
  }

  lemma EnterMoves(s: State, job: JobId)
    ensures var s' := EnqueueAndWait(s, job).0;
      && s'.hands == s.hands && s'.Q().flights == s.Q().flights
      && s'.finished == s.finished && s'.dropped == s.dropped
      && ((s'.Q().pending == s.Q().pending && s'.ledger.entered == s.ledger.entered)
          || (s'.Q().pending == s.Q().pending + [job] && s'.ledger.entered == s.ledger.entered + multiset{job}))
  {
  }

  lemma EnterKeepsPlaces(s: State, job: JobId)
    requires PoolWaiters.Grounded(s) && Placed(s) && job !in s.known
    ensures Placed(EnqueueAndWait(s, job).0)
  {
    NewcomerIsNowhere(s, job);
    EnterMoves(s, job);
    hide EnqueueAndWait;
    hide PoolWaiters.Grounded;
  }

  lemma TakeMoves(s: State, i: nat, now: real)
    requires s.Q().Valid() && OnePlace(s) && i < |s.hands| && s.Q().pending != []
    ensures var s' := DoTake(s, i, now);
      var job := s.Q().pending[0];
      && (forall j :: j in s'.Q().flights.keys <==> j == job || j in s.Q().flights.keys)
      && (forall j :: j in s'.Q().pending <==> j != job && j in s.Q().pending)
      && Distinct(s'.Q().pending)
  {
  }

  lemma TakeKeepsPlaces(s: State, i: nat, now: real)
    requires s.Q().Valid() && Placed(s)
    requires i < |s.hands| && s.hands[i] == Free && s.Q().pending != []
    ensures Placed(DoTake(s, i, now))
  {
    TakeMoves(s, i, now);
    var s' := DoTake(s, i, now);
    assert s.Q().pending[0] in s.Q().pending;
    assert OnePlace(s');
    assert Accounted(s');
  }

  /** A job leaves its worker: into the queue again, finished, or dropped. */
  lemma SettledPlaces(s: State, s': State, i: nat, job: JobId)
    requires Placed(s) && i < |s.hands| && s.hands[i] == Busy(job)
    requires |s'.hands| == |s.hands| && s'.hands == s.hands[i := s'.hands[i]] && !s'.hands[i].Busy?
    requires s'.ledger.entered == s.ledger.entered
    requires forall j :: j in s'.Q().flights.keys <==> j != job && j in s.Q().flights.keys
    requires
      || (s'.Q().pending == s.Q().pending + [job] && s'.finished == s.finished && s'.dropped == s.dropped)
      || (s'.Q().pending == s.Q().pending && s'.finished == s.finished + {job} && s'.dropped == s.dropped)
      || (s'.Q().pending == s.Q().pending && s'.finished == s.finished && s'.dropped == s.dropped + {job})
    ensures Placed(s')
  {
  }

  lemma AckKeepsPlaces(s: State, i: nat)
    requires Placed(s) && i < |s.hands| && s.hands[i].Busy?
    ensures Placed(DoAck(s, i, s.hands[i].job))
  {
    SettledPlaces(s, DoAck(s, i, s.hands[i].job), i, s.hands[i].job);
  }

  lemma RetryKeepsPlaces(s: State, info: JobId -> JobInfo, i: nat)
    requires Placed(s) && i < |s.hands| && s.hands[i].Busy?
    ensures Placed(DoRetry(s, info, i, s.hands[i].job))
  {
    SettledPlaces(s, DoRetry(s, info, i, s.hands[i].job), i, s.hands[i].job);
  }

  lemma DistinctAppend(a: seq<JobId>, b: seq<JobId>)
    requires Distinct(a) && Distinct(b)
    requires forall j :: j in a ==> j !in b
    ensures Distinct(a + b)
  {
    forall i, j | 0 <= i < j < |a + b|
      ensures (a + b)[i] != (a + b)[j]
    {
      if i < |a| <= j {
        assert a[i] in a && b[j - |a|] in b;
      }
    }
  }

  lemma RecoverDistinct(s: State, now: real, later: real, staleAfter: real)
    requires s.Q().Valid() && OwnIds(s.Q()) && OnePlace(s)
    ensures Distinct(DoRecover(s, now, later, staleAfter).Q().pending)
  {
    var back := GivenBack(s.Q(), now, later, staleAfter);
    RecoverAppends(s, now, later, staleAfter);
    forall j | j in s.Q().pending
      ensures j !in back
    {
      RecoverFlights(s, now, later, staleAfter, j);
    }
    DistinctAppend(s.Q().pending, back);
  }

  /** A job moved by a recovery. */
  lemma MovedPlaces(s: State, s': State, now: real, staleAfter: real)
    requires s.Q().flights.Valid() && OnePlace(s) && Accounted(s)
    requires s'.ledger.entered == s.ledger.entered && s'.finished == s.finished && Distinct(s'.Q().pending)
    requires forall j :: j in s'.Q().pending <==> j in s.Q().pending || FateIn(s, now, staleAfter, j) == GoesBack
    requires forall j :: j in s'.Q().flights.keys <==>
      j in s.Q().flights.keys
      && (FateIn(s, now, staleAfter, j) == Untouched || FateIn(s, now, staleAfter, j) == Refiled)
    requires forall j :: j in s'.dropped <==> j in s.dropped || FateIn(s, now, staleAfter, j) == IsLost
    requires forall j :: FateIn(s, now, staleAfter, j) != Untouched ==> j in s.Q().flights.keys
    ensures OnePlace(s') && Accounted(s')
  {
    hide FateIn;
  }

  /** Exactly when a recovery leaves every flight that a worker holds in the table: the held ones are not
      stale, or the one that met the full queue and was refiled. */
  lemma HeldStayExactly(s: State, now: real, later: real, staleAfter: real)
    requires s.Q().Valid() && OwnIds(s.Q()) && Placed(s)
    ensures SparesHeld(s, now, staleAfter) <==> HandsHoldFlights(DoRecover(s, now, later, staleAfter))
  {
    RecoverMoves(s, now, later, staleAfter);
    var s' := DoRecover(s, now, later, staleAfter);
    assert forall i :: 0 <= i < |s.hands| && s.hands[i].Busy? ==> s.InFlight(s.hands[i].job);
    if HandsHoldFlights(s') {
      forall i | 0 <= i < |s.hands| && s.hands[i].Busy?
        ensures var fate := FateIn(s, now, staleAfter, s.hands[i].job); fate == Untouched || fate == Refiled
      {
        assert s'.InFlight(s'.hands[i].job);
      }
    }
  }

  lemma RecoverKeepsPlaces(s: State, now: real, later: real, staleAfter: real)
    requires s.Q().Valid() && OwnIds(s.Q()) && Placed(s) && SparesHeld(s, now, staleAfter)
    ensures Placed(DoRecover(s, now, later, staleAfter))
  {
    RecoverDistinct(s, now, later, staleAfter);
    RecoverMoves(s, now, later, staleAfter);
    HeldStayExactly(s, now, later, staleAfter);
    MovedPlaces(s, DoRecover(s, now, later, staleAfter), now, staleAfter);
  }

  lemma SubmitKeepsPlaces(s: State, job: JobId, key: string, readFails: bool)
    requires PoolWaiters.Grounded(s) && Placed(s) && job !in s.known
    ensures Placed(DoSubmit(s, job, key, readFails))
  {
    var (c, granted) := Pool.DedupeSpec.TryReserve(s.cache, key, job, readFails);
    var reserved := s.(cache := c);
    assert PoolWaiters.Grounded(reserved) && Placed(reserved);
    EnterKeepsPlaces(reserved, job);
  }

  lemma FinishKeepsPlaces(s: State, info: JobId -> JobInfo, i: nat, outcome: Outcome,
                          append: Pool.DedupeSpec.AppendOutcome)
    requires Placed(s) && i < |s.hands| && s.hands[i].Busy?
    ensures Placed(DoFinish(s, info, i, outcome, append))
  {
    var job := s.hands[i].job;
    var published := Publish(s.(cache := Pool.Settle(s.cache, info(job), outcome, append)), ResultFor(job, outcome));
    assert Placed(published);
    AckKeepsPlaces(published, i);
    RetryKeepsPlaces(published, info, i);
  }

  lemma FramedPlaces(s: State, s': State)
    requires Placed(s) && Framed(s, s')
    ensures Placed(s') && s'.Q().Drift() == s.Q().Drift()
  {
  }

  lemma QuietPlaces(s: State, info: JobId -> JobInfo, step: Step)
    requires Placed(s) && Enabled(s, info, step) && Quiet(step)
    ensures Placed(Apply(s, info, step)) && Apply(s, info, step).Q().Drift() == s.Q().Drift()
  {
    QuietFrames(s, info, step);
    FramedPlaces(s, Apply(s, info, step));
  }

  lemma SubmitPlaces(s: State, info: JobId -> JobInfo, step: Step)
    requires Inv(s, info) && Allowed(s, info, step, SparingHeld) && step.Submit?
    ensures Placed(Apply(s, info, step))
  {
    SubmitKeepsPlaces(s, step.job, info(step.job).key, step.readFails);
  }

  lemma RequestPlaces(s: State, info: JobId -> JobInfo, step: Step)
    requires Inv(s, info) && Allowed(s, info, step, SparingHeld) && step.Request?
    ensures Placed(Apply(s, info, step))
  {
    EnterKeepsPlaces(s, step.job);
  }

  lemma TakePlaces(s: State, info: JobId -> JobInfo, step: Step)
    requires Inv(s, info) && Allowed(s, info, step, SparingHeld) && step.Take?
    ensures Placed(Apply(s, info, step))
  {
    TakeKeepsPlaces(s, step.worker, step.now);
  }

  lemma FinishPlaces(s: State, info: JobId -> JobInfo, step: Step)
    requires Inv(s, info) && Allowed(s, info, step, SparingHeld) && step.Finish?
    ensures Placed(Apply(s, info, step))
  {
    FinishKeepsPlaces(s, info, step.worker, step.outcome, step.append);
  }

  lemma RecoverPlaces(s: State, info: JobId -> JobInfo, step: Step)
    requires Inv(s, info) && Allowed(s, info, step, SparingHeld) && step.Recover?
    ensures Placed(Apply(s, info, step))
  {
    RecoverKeepsPlaces(s, step.now, step.later, step.staleAfter);
  }

  lemma RestPlaces(s: State, info: JobId -> JobInfo, step: Step)
    requires Inv(s, info) && Allowed(s, info, step, SparingHeld) && Quiet(step)
    ensures Placed(Apply(s, info, step))
  {
    QuietPlaces(s, info, step);
  }

  lemma StepPlaces(s: State, info: JobId -> JobInfo, step: Step)
    requires Inv(s, info) && Allowed(s, info, step, SparingHeld)
    ensures Placed(Apply(s, info, step))
  {
    hide *;
    QuietCases(step);
    match step
    case Submit(_, _) => SubmitPlaces(s, info, step);
    case Request(_) => RequestPlaces(s, info, step);
    case Take(_, _) => TakePlaces(s, info, step);
    case Finish(_, _, _) => FinishPlaces(s, info, step);
    case Recover(_, _, _) => RecoverPlaces(s, info, step);
    case _ => RestPlaces(s, info, step);
  }

  lemma StepKeeps(s: State, info: JobId -> JobInfo, step: Step)
    requires Inv(s, info) && Allowed(s, info, step, SparingHeld)
    ensures Inv(Apply(s, info, step), info)
  {
    PoolWaiters.StepKeeps(s, info, step);
    StepPlaces(s, info, step);
  }

  lemma {:induction false} RunKeeps(s: State, info: JobId -> JobInfo, steps: seq<Step>, rule: Rule, end: State)
    requires Inv(s, info) && Reaches(s, info, steps, rule, end) && Sparing(rule)
    ensures Inv(end, info)
    decreases |steps|
  {
    if steps == [] {
      RunNowhere(s, info, rule, end);
    } else {
      RunFirst(s, info, steps, rule, end);
      StepKeeps(s, info, steps[0]);
      RunKeeps(Apply(s, info, steps[0]), info, steps[1..], rule, end);
    }
  }

  lemma InitInv(maxsize: int, cache: Cache, info: JobId -> JobInfo)
    ensures Inv(Init(maxsize, cache), info)
    ensures Init(maxsize, cache).Q().Drift() == 0
  {
  }

  lemma FlightStays(s: State, now: real, later: real, staleAfter: real, job: JobId)
    requires s.Q().Valid() && OwnIds(s.Q()) && s.InFlight(job)
    ensures var stale := Stales(s, now, staleAfter);
      DoRecover(s, now, later, staleAfter).InFlight(job) <==>
        (job in stale ==>
           !s.Q().closed && s.Q().unfinished > 0 && IndexOf(stale, job) == Room(s.Q(), |stale|))
  {
    RecoverFates(s.Q(), now, later, staleAfter, job);
  }

  lemma HeldIsInFlight(s: State, job: JobId)
    requires HandsHoldFlights(s)
    ensures s.Held(job) ==> s.InFlight(job)
  {
  }

  /** What keeps held jobs in the table, exactly: from a state reached with such recoveries every job
      that a worker holds is still in flight after another one if and only if its flight is not stale,
      or is the one that met the full queue of an open manager whose counter is not exhausted, and was
      refiled. */
  lemma SparingExactly(maxsize: int, cache: Cache, info: JobId -> JobInfo, steps: seq<Step>, rule: Rule, s: State,
                       now: real, later: real, staleAfter: real)
    requires Reaches(Init(maxsize, cache), info, steps, rule, s) && Sparing(rule)
    ensures s.Q().flights.Valid()
    ensures (forall job :: s.Held(job) ==> DoRecover(s, now, later, staleAfter).InFlight(job)) <==>
      forall i :: 0 <= i < |Stales(s, now, staleAfter)| && s.Held(Stales(s, now, staleAfter)[i]) ==>
        !s.Q().closed && s.Q().unfinished > 0 && i == Room(s.Q(), |Stales(s, now, staleAfter)|)
  {
    InitInv(maxsize, cache, info);
    RunKeeps(Init(maxsize, cache), info, steps, rule, s);
    var stale := Stales(s, now, staleAfter);
    forall i | 0 <= i < |stale|
      ensures IndexOf(stale, stale[i]) == i
    {
      IndexOfDistinct(stale, i);
    }
    forall job | s.Held(job)
      ensures DoRecover(s, now, later, staleAfter).InFlight(job) <==>
        (job in stale ==>
           !s.Q().closed && s.Q().unfinished > 0 && IndexOf(stale, job) == Room(s.Q(), |stale|))
    {
      HeldIsInFlight(s, job);
      FlightStays(s, now, later, staleAfter, job);
    }
  }

  // ---- The task counter ----

  lemma FinishDrift(s: State, info: JobId -> JobInfo, i: nat, outcome: Outcome, append: Pool.DedupeSpec.AppendOutcome)
    requires Inv(s, info) && i < |s.hands| && s.hands[i].Busy?
    ensures DoFinish(s, info, i, outcome, append).Q().Drift() == s.Q().Drift() + if s.Q().unfinished == 0 then 1 else 0
  {
    var job := s.hands[i].job;
    assert s.InFlight(job);
    SettleDrift(s.Q(), job, job, Attempts(s.ledger, info, job), info(job).MaxAttempts());
  }

  lemma SomeFlight(q: QueueState<JobId>, id: JobId)
    requires id in q.flights.keys
    ensures |q.flights.keys| > 0
  {
  }

  ghost predicate InStep(s: State, info: JobId -> JobInfo, step: Step) {
    Inv(s, info) && s.Q().Drift() == 0 && Allowed(s, info, step, SparingHeldInStep)
  }

  lemma StaleCounted(s: State, now: real, staleAfter: real)
    requires s.Q().Valid() && s.Q().Drift() == 0 && Stales(s, now, staleAfter) != []
    ensures s.Q().unfinished > 0
  {
    SomeFlight(s.Q(), Stales(s, now, staleAfter)[0]);
  }

  /** Exactly when a recovery keeps a counter in step that is. */
  lemma CountKeptExactly(s: State, now: real, later: real, staleAfter: real)
    requires s.Q().Valid() && s.Q().Drift() == 0
    ensures CountFits(s.Q(), |Stales(s, now, staleAfter)|) <==> DoRecover(s, now, later, staleAfter).Q().Drift() == 0
  {
    DriftKeptExactly(s.Q(), now, later, staleAfter);
    if Stales(s, now, staleAfter) != [] {
      StaleCounted(s, now, staleAfter);
    }
  }

  lemma RecoverConserves(s: State, info: JobId -> JobInfo, step: Step)
    requires InStep(s, info, step) && step.Recover?
    ensures Apply(s, info, step).Q().Drift() == 0
  {
    CountKeptExactly(s, step.now, step.later, step.staleAfter);
  }

  lemma TakeConserves(s: State, info: JobId -> JobInfo, step: Step)
    requires InStep(s, info, step) && step.Take?
    ensures Apply(s, info, step).Q().Drift() == 0
  {
    assert s.Q().pending[0] in s.Q().pending;
  }

  lemma FinishConserves(s: State, info: JobId -> JobInfo, step: Step)
    requires InStep(s, info, step) && step.Finish?
    ensures Apply(s, info, step).Q().Drift() == 0
  {
    FinishDrift(s, info, step.worker, step.outcome, step.append);
    SomeFlight(s.Q(), s.hands[step.worker].job);
  }

  lemma EnterConserves(s: State, info: JobId -> JobInfo, step: Step)
    requires InStep(s, info, step) && (step.Submit? || step.Request?)
    ensures Apply(s, info, step).Q().Drift() == 0
  {
  }

  lemma RestConserves(s: State, info: JobId -> JobInfo, step: Step)
    requires InStep(s, info, step) && Quiet(step)
    ensures Apply(s, info, step).Q().Drift() == 0
  {
    QuietPlaces(s, info, step);
  }

  lemma StepConserves(s: State, info: JobId -> JobInfo, step: Step)
    requires InStep(s, info, step)
    ensures Apply(s, info, step).Q().Drift() == 0
  {
    hide *;
    QuietCases(step);
    match step
    case Submit(_, _) => EnterConserves(s, info, step);
    case Request(_) => EnterConserves(s, info, step);
    case Take(_, _) => TakeConserves(s, info, step);
    case Finish(_, _, _) => FinishConserves(s, info, step);
    case Recover(_, _, _) => RecoverConserves(s, info, step);
    case _ => RestConserves(s, info, step);
  }

  lemma {:induction false} RunConserves(s: State, info: JobId -> JobInfo, steps: seq<Step>, rule: Rule, end: State)
    requires Inv(s, info) && s.Q().Drift() == 0
    requires Reaches(s, info, steps, rule, end) && Counting(rule)
    ensures Inv(end, info) && end.Q().Drift() == 0
    decreases |steps|
  {
    if steps == [] {
      RunNowhere(s, info, rule, end);
    } else {
      RunFirst(s, info, steps, rule, end);
      SparingRule(s, info, steps[0], rule);
      hide Allowed;
      hide Inv;
      StepKeeps(s, info, steps[0]);
      StepConserves(s, info, steps[0]);
      RunConserves(Apply(s, info, steps[0]), info, steps[1..], rule, end);
    }
  }

  /** The counter is exactly the jobs pending or in flight, no acknowledge or nack of a worker finds it
      at zero, and joining the queue returns exactly when nothing is left. */
  ghost predicate Conserved(s: State) {
    && s.Q().unfinished == |s.Q().pending| + |s.Q().flights.keys|
    && (forall i :: 0 <= i < |s.hands| && s.hands[i].Busy? ==> Ack(s.ledger, s.hands[i].job).1)
    && (s.Q().unfinished == 0 <==> s.Q().pending == [] && s.Q().flights.keys == [])
  }

  lemma InStepConserves(s: State)
    requires HandsHoldFlights(s) && s.Q().Drift() == 0
    ensures Conserved(s)
  {
    forall i | 0 <= i < |s.hands| && s.hands[i].Busy?
      ensures Ack(s.ledger, s.hands[i].job).1
    {
      assert s.InFlight(s.hands[i].job);
    }
  }

  /** Conservation, in every run whose recoveries spare held flights and fit the count. */
  lemma Conservation(maxsize: int, cache: Cache, info: JobId -> JobInfo, steps: seq<Step>, rule: Rule, end: State)
    requires Reaches(Init(maxsize, cache), info, steps, rule, end) && Counting(rule)
    ensures end.Q().unfinished == |end.Q().pending| + |end.Q().flights.keys|
    ensures forall i :: 0 <= i < |end.hands| && end.hands[i].Busy? ==> Ack(end.ledger, end.hands[i].job).1
    ensures end.Q().unfinished == 0 <==> end.Q().pending == [] && end.Q().flights.keys == []
  {
    InitInv(maxsize, cache, info);
    RunConserves(Init(maxsize, cache), info, steps, rule, end);
    InStepConserves(end);
  }

  lemma KeepsConserving(s: State, info: JobId -> JobInfo, now: real, later: real, staleAfter: real, more: seq<Step>,
                        end: State)
    requires Inv(s, info) && s.Q().Drift() == 0
    requires SparesHeld(s, now, staleAfter) && CountFits(s.Q(), |Stales(s, now, staleAfter)|)
    requires Reaches(DoRecover(s, now, later, staleAfter), info, more, SparingHeldInStep, end)
    ensures Conserved(end)
  {
    StepKeeps(s, info, Recover(now, later, staleAfter));
    CountKeptExactly(s, now, later, staleAfter);
    RunConserves(DoRecover(s, now, later, staleAfter), info, more, SparingHeldInStep, end);
    InStepConserves(end);
  }

  /** The completion of a job by worker `i`. */
  function Completion(i: nat, job: JobId): Step {
    Finish(i, Returned(job, COMPLETED), Pool.DedupeSpec.Appended)
  }

  lemma OneStep(s: State, info: JobId -> JobInfo, i: nat, job: JobId, rule: Rule)
    requires i < |s.hands| && s.hands[i] == Busy(job)
    ensures Reaches(s, info, [Completion(i, job)], rule, Apply(s, info, Completion(i, job)))
  {
    RunNowhere(s, info, rule, s);
    RunSnoc(s, info, [], rule, s, Completion(i, job));
    assert [] + [Completion(i, job)] == [Completion(i, job)];
  }

  /** The holder of a job without a flight takes one off the counter and no job from the queue. */
  lemma CompletionDrifts(s: State, info: JobId -> JobInfo, i: nat, job: JobId)
    requires s.Q().Valid() && s.Q().unfinished > 0 && s.Q().Drift() == 0
    requires i < |s.hands| && s.hands[i] == Busy(job) && !s.InFlight(job)
    ensures Apply(s, info, Completion(i, job)).Q().Drift() == -1
  {
    s.Q().flights.PopSize(job);
  }

  lemma TakenFlight(s: State, now: real, later: real, staleAfter: real, i: nat)
    requires s.Q().Valid() && OwnIds(s.Q()) && i < |s.hands| && s.hands[i].Busy?
    requires var fate := FateIn(s, now, staleAfter, s.hands[i].job); fate != Untouched && fate != Refiled
    ensures var s', job := DoRecover(s, now, later, staleAfter), s.hands[i].job;
      s'.hands == s.hands && !s'.InFlight(job) && (job in s'.Q().pending || job in s'.dropped)
  {
    RecoverMoves(s, now, later, staleAfter);
  }

  lemma RecoverValid(s: State, now: real, later: real, staleAfter: real)
    requires s.Q().Valid() && OwnIds(s.Q())
    ensures DoRecover(s, now, later, staleAfter).Q().Valid()
  {
    SweepEffect(s.Q(), now, later, staleAfter);
  }

  /** After a recovery that does not fit the count, or took a held flight out of the table, the counter is
      out of step at once or as soon as the holder completes. */
  lemma SomeRunDrifts(s: State, info: JobId -> JobInfo, now: real, later: real, staleAfter: real)
    returns (more: seq<Step>, end: State)
    requires Inv(s, info) && s.Q().Drift() == 0
    requires !(SparesHeld(s, now, staleAfter) && CountFits(s.Q(), |Stales(s, now, staleAfter)|))
    ensures Reaches(DoRecover(s, now, later, staleAfter), info, more, SparingHeldInStep, end) && !Conserved(end)
  {
    var s' := DoRecover(s, now, later, staleAfter);
    CountKeptExactly(s, now, later, staleAfter);
    RunNowhere(s', info, SparingHeldInStep, s');
    more, end := [], s';
    if s'.Q().Drift() == 0 {
      var i: nat :| i < |s.hands| && s.hands[i].Busy?
        && FateIn(s, now, staleAfter, s.hands[i].job) != Untouched
        && FateIn(s, now, staleAfter, s.hands[i].job) != Refiled;
      TakenFlight(s, now, later, staleAfter, i);
      assert s'.hands[i] == Busy(s.hands[i].job);
      if s'.Q().unfinished > 0 {
        RecoverValid(s, now, later, staleAfter);
        CompletionDrifts(s', info, i, s.hands[i].job);
        OneStep(s', info, i, s.hands[i].job, SparingHeldInStep);
        more, end := [Completion(i, s.hands[i].job)], Apply(s', info, Completion(i, s.hands[i].job));
      } else {
        assert !Ack(s'.ledger, s'.hands[i].job).1;
      }
    }
  }

  /** What conservation asks of a recovery, exactly. From a state reached by recoveries that keep held
      flights in the table and fit the count, another one does both if and only if every run that goes on
      from it, again with such recoveries, conserves. */
  lemma ConservationExactly(maxsize: int, cache: Cache, info: JobId -> JobInfo, steps: seq<Step>, rule: Rule, s: State,
                            now: real, later: real, staleAfter: real)
    requires Reaches(Init(maxsize, cache), info, steps, rule, s) && Counting(rule)
    ensures s.Q().flights.Valid()
    ensures SparesHeld(s, now, staleAfter) && CountFits(s.Q(), |Stales(s, now, staleAfter)|) <==>
      forall more, end :: Reaches(DoRecover(s, now, later, staleAfter), info, more, SparingHeldInStep, end) ==>
        Conserved(end)
  {
    InitInv(maxsize, cache, info);
    RunConserves(Init(maxsize, cache), info, steps, rule, s);
    assert s.Q().flights.Valid();
    if SparesHeld(s, now, staleAfter) && CountFits(s.Q(), |Stales(s, now, staleAfter)|) {
      forall more, end | Reaches(DoRecover(s, now, later, staleAfter), info, more, SparingHeldInStep, end)
        ensures Conserved(end)
      {
        KeepsConserving(s, info, now, later, staleAfter, more, end);
      }
    } else {
      var more, end := SomeRunDrifts(s, info, now, later, staleAfter);
    }
  }

  /** In how many of the four places a job is. */
  function Places(s: State, job: JobId): nat {
    (if job in s.Q().pending then 1 else 0) + (if s.InFlight(job) then 1 else 0)
      + (if job in s.finished then 1 else 0) + (if job in s.dropped then 1 else 0)
  }

  lemma PlacedOnce(s: State, job: JobId)
    requires Placed(s)
    ensures Places(s, job) == s.ledger.entered[job] <= 1
  {
  }

  /** The ledger: every accepted job is in exactly one of pending, in flight, finished and dropped, and
      no other job is in any, even when recoveries fail, as long as they spare held flights. */
  lemma LedgerOfJobs(maxsize: int, cache: Cache, info: JobId -> JobInfo, steps: seq<Step>, rule: Rule, end: State,
                     job: JobId)
    requires Reaches(Init(maxsize, cache), info, steps, rule, end) && Sparing(rule)
    ensures Places(end, job) == end.ledger.entered[job] <= 1
  {
    InitInv(maxsize, cache, info);
    RunKeeps(Init(maxsize, cache), info, steps, rule, end);
    PlacedOnce(end, job);
  }

  ghost predicate OnePlaceEach(s: State) {
    forall job :: Places(s, job) == s.ledger.entered[job] <= 1
  }

  lemma KeepsOnePlaceEach(s: State, info: JobId -> JobInfo, now: real, later: real, staleAfter: real, more: seq<Step>,
                          end: State)
    requires Inv(s, info) && SparesHeld(s, now, staleAfter)
    requires Reaches(DoRecover(s, now, later, staleAfter), info, more, SparingHeld, end)
    ensures OnePlaceEach(end)
  {
    StepKeeps(s, info, Recover(now, later, staleAfter));
    RunKeeps(DoRecover(s, now, later, staleAfter), info, more, SparingHeld, end);
    forall job
      ensures Places(end, job) == end.ledger.entered[job] <= 1
    {
      PlacedOnce(end, job);
    }
  }

  lemma CompletionStays(s: State, info: JobId -> JobInfo, i: nat, job: JobId)
    requires i < |s.hands| && s.hands[i] == Busy(job) && (job in s.Q().pending || job in s.dropped)
    ensures Places(Apply(s, info, Completion(i, job)), job) >= 2
  {
  }

  lemma CompletionBreaks(s: State, info: JobId -> JobInfo, i: nat) returns (end: State)
    requires i < |s.hands| && s.hands[i].Busy? && (s.hands[i].job in s.Q().pending || s.hands[i].job in s.dropped)
    ensures Reaches(s, info, [Completion(i, s.hands[i].job)], SparingHeld, end) && Places(end, s.hands[i].job) >= 2
  {
    CompletionStays(s, info, i, s.hands[i].job);
    OneStep(s, info, i, s.hands[i].job, SparingHeld);
    end := Apply(s, info, Completion(i, s.hands[i].job));
  }

  /** A recovery that takes a held flight out of the table puts its job into two places as soon as the
      holder completes. */
  lemma TakenFlightBreaks(s: State, info: JobId -> JobInfo, now: real, later: real, staleAfter: real, i: nat)
    returns (more: seq<Step>, end: State)
    requires s.Q().Valid() && OwnIds(s.Q()) && i < |s.hands| && s.hands[i].Busy?
    requires var fate := FateIn(s, now, staleAfter, s.hands[i].job); fate != Untouched && fate != Refiled
    ensures Reaches(DoRecover(s, now, later, staleAfter), info, more, SparingHeld, end)
    ensures Places(end, s.hands[i].job) >= 2
  {
    TakenFlight(s, now, later, staleAfter, i);
    more := [Completion(i, s.hands[i].job)];
    end := CompletionBreaks(DoRecover(s, now, later, staleAfter), info, i);
  }

  lemma SomeFlightBreaks(s: State, info: JobId -> JobInfo, now: real, later: real, staleAfter: real)
    returns (more: seq<Step>, end: State)
    requires Inv(s, info) && !SparesHeld(s, now, staleAfter)
    ensures Reaches(DoRecover(s, now, later, staleAfter), info, more, SparingHeld, end) && !OnePlaceEach(end)
  {
    var i: nat :| i < |s.hands| && s.hands[i].Busy?
      && FateIn(s, now, staleAfter, s.hands[i].job) != Untouched
      && FateIn(s, now, staleAfter, s.hands[i].job) != Refiled;
    more, end := TakenFlightBreaks(s, info, now, later, staleAfter, i);
  }

  /** What the ledger asks of a recovery, exactly: from a state reached by recoveries that keep held
      flights in the table, another one keeps them there if and only if every run that goes on from it,
      again with such recoveries, has every accepted job in exactly one place and no other in any. */
  lemma LedgerExactly(maxsize: int, cache: Cache, info: JobId -> JobInfo, steps: seq<Step>, rule: Rule, s: State,
                      now: real, later: real, staleAfter: real)
    requires Reaches(Init(maxsize, cache), info, steps, rule, s) && Sparing(rule)
    ensures s.Q().flights.Valid()
    ensures SparesHeld(s, now, staleAfter) <==>
      forall more, end :: Reaches(DoRecover(s, now, later, staleAfter), info, more, SparingHeld, end) ==>
        OnePlaceEach(end)
  {
    InitInv(maxsize, cache, info);
    RunKeeps(Init(maxsize, cache), info, steps, rule, s);
    if SparesHeld(s, now, staleAfter) {
      forall more, end | Reaches(DoRecover(s, now, later, staleAfter), info, more, SparingHeld, end)
        ensures OnePlaceEach(end)
      {
        KeepsOnePlaceEach(s, info, now, later, staleAfter, more, end);
      }
    } else {
      var more, end := SomeFlightBreaks(s, info, now, later, staleAfter);
    }
  }

  // ---- What is dropped ----

  /** Exactly when finishing an attempt drops the job: its nack meets a full queue that is open. */
  ghost predicate Overflows(s: State, info: JobId -> JobInfo, step: Step, job: JobId)
    requires step.Finish? && step.worker < |s.hands|
  {
    && s.hands[step.worker] == Busy(job)
    && info(job).Retries() && !Settled(ResultFor(job, step.outcome).status)
    && Attempts(s.ledger, info, job) + 1 < info(job).MaxAttempts()
    && !s.Q().closed && s.Q().Full()
  }

  lemma FinishDrops(s: State, info: JobId -> JobInfo, step: Step, job: JobId)
    requires Enabled(s, info, step) && step.Finish? && s.Q().unfinished > 0 && job !in s.dropped
    ensures job in Apply(s, info, step).dropped <==> Overflows(s, info, step, job)
  {
  }

  lemma FittingLosesNothing(q: QueueState<JobId>, now: real, staleAfter: real, id: JobId)
    requires q.flights.Valid() && !q.closed && q.unfinished > 0
    requires var n := |StaleIds(q.flights.keys, q.flights.vals, now, staleAfter)|; Room(q, n) == n
    ensures FateOf(q, now, staleAfter, id) != IsLost
  {
  }

  /** A step of a run whose recoveries find room. */
  ghost predicate WithRoom(s: State, info: JobId -> JobInfo, step: Step) {
    Inv(s, info) && s.Q().Drift() == 0 && Allowed(s, info, step, SparingHeldWithRoom)
  }

  lemma NotLost(s: State, info: JobId -> JobInfo, step: Step, id: JobId)
    requires WithRoom(s, info, step) && step.Recover? && Stales(s, step.now, step.staleAfter) != []
    requires s.Q().unfinished > 0
    ensures FateIn(s, step.now, step.staleAfter, id) != IsLost
  {
    FittingLosesNothing(s.Q(), step.now, step.staleAfter, id);
  }

  lemma RecoverDrops(s: State, info: JobId -> JobInfo, step: Step)
    requires WithRoom(s, info, step) && step.Recover?
    ensures Apply(s, info, step).dropped == s.dropped
  {
    hide FateIn;
    if Stales(s, step.now, step.staleAfter) != [] {
      StaleCounted(s, step.now, step.staleAfter);
      forall id
        ensures FateIn(s, step.now, step.staleAfter, id) != IsLost
      {
        NotLost(s, info, step, id);
      }
    }
    assert Lost(s, step.now, step.staleAfter) == {};
  }

  lemma RestDrops(s: State, info: JobId -> JobInfo, step: Step)
    requires Enabled(s, info, step) && !step.Finish? && !step.Recover?
    ensures Apply(s, info, step).dropped == s.dropped
  {
  }

  /** When recoveries spare held flights and find room, a job is dropped exactly by a worker whose nack
      meets a full queue. */
  lemma DroppedOnlyByOverflow(maxsize: int, cache: Cache, info: JobId -> JobInfo, steps: seq<Step>, s: State,
                              step: Step, job: JobId)
    requires Reaches(Init(maxsize, cache), info, steps, SparingHeldWithRoom, s)
    requires Allowed(s, info, step, SparingHeldWithRoom) && job !in s.dropped
    ensures job in Apply(s, info, step).dropped <==> step.Finish? && Overflows(s, info, step, job)
  {
    InitInv(maxsize, cache, info);
    RunConserves(Init(maxsize, cache), info, steps, SparingHeldWithRoom, s);
    if step.Finish? {
      assert s.InFlight(s.hands[step.worker].job);
      SomeFlight(s.Q(), s.hands[step.worker].job);
      FinishDrops(s, info, step, job);
    } else if step.Recover? {
      RecoverDrops(s, info, step);
    } else {
      RestDrops(s, info, step);
    }
  }
}
