/** No lost wake-up: whose future is still pending is in time for the end of the job. A wait can also end
    without it, when another caller who shares the future times out. */
module LifecycleWaits {
  import opened Basics
  import opened Futures
  import opened JobSpec
  import opened Handler
  import opened Lifecycle
  import opened LifecycleSafety

  /** The memory is the window of the last `max` insertions. */
  ghost predicate Windowed(s: State) {
    && s.memory.Valid() && s.memory.keys == Last(s.log, s.max)
    && (forall j :: j in s.memory.keys ==> s.memory.vals[j].jobId == j)
  }

  /** A registered future stands for its own job, and that job is not remembered. */
  ghost predicate Registered(s: State) {
    && (forall j :: j in s.futures ==> s.futures[j] < |s.cells| && s.cells[s.futures[j]].job == j)
    && (forall j :: j in s.futures ==> j !in s.memory.keys)
  }

  predicate HoldsCell(sub: Submitter, cells: seq<Cell>) {
    match sub
    case ToNotify(job, _, c) => c < |cells| && cells[c].job == job
    case ToEnqueue(job, c) => c < |cells| && cells[c].job == job
    case Putting(job, c) => c < |cells| && cells[c].job == job
    case Waits(job, c) => c < |cells| && cells[c].job == job
    case _ => true
  }

  ghost predicate Held(s: State) {
    forall i :: 0 <= i < |s.submitters| ==> HoldsCell(s.submitters[i], s.cells)
  }

  /** A future nobody has settled is the registered one of its job. */
  ghost predicate PendingRegistered(s: State) {
    forall c :: 0 <= c < |s.cells| && s.cells[c].state.Waiting? ==>
      s.cells[c].job in s.futures && s.futures[s.cells[c].job] == c
  }

  /** A registered job is unfinished, or about to be published, or was finished and forgotten when
      its waiter came. */
  ghost predicate InTime(s: State) {
    forall j :: j in s.futures ==> !s.Finished(j) || s.BeingPublished(j) || j in s.late
  }

  /** Every finished job was published, unless it is about to be. */
  ghost predicate FinishedPublished(s: State) {
    forall j :: s.Finished(j) ==> j in s.log || s.BeingPublished(j)
  }

  ghost predicate Cells(s: State) {
    Registered(s) && Held(s) && PendingRegistered(s)
  }

  ghost predicate Times(s: State) {
    InTime(s) && FinishedPublished(s)
  }

  ghost predicate Inv(s: State) {
    Sound(s) && Windowed(s) && Cells(s) && Times(s)
  }

  lemma ArriveWaits(s: State, key: string, freshId: JobId)
    requires Filed(s.repo) && OneActivePerKey(s.repo) && Enabled(s, Arrive(key, freshId))
    requires Cells(s) && Times(s)
    ensures var s' := DoArrive(s, key, freshId); Cells(s') && Times(s')
  {
  }

  lemma SubscribeHolds(s: State, i: nat)
    requires Registered(s) && Held(s) && Enabled(s, Subscribe(i))
    ensures Held(DoSubscribe(s, i))
  {
  }

  lemma SubscribeCells(s: State, i: nat)
    requires s.memory.Valid() && Cells(s) && Enabled(s, Subscribe(i))
    ensures Cells(DoSubscribe(s, i))
  {
    SubscribeHolds(s, i);
    var s' := DoSubscribe(s, i);
    var job := s.submitters[i].job;
    if job in s.memory.vals {
      assert s'.cells == s.cells + [Cell(job, Value(s.memory.vals[job]))];
    } else if job !in s.futures {
      assert s'.cells == s.cells + [Cell(job, Waiting)];
      assert s'.futures == s.futures[job := |s.cells|];
    }
    assert Registered(s');
    assert PendingRegistered(s');
  }

  lemma SubscribeTimes(s: State, i: nat)
    requires Times(s) && Enabled(s, Subscribe(i))
    ensures Times(DoSubscribe(s, i))
  {
  }

  /** Steps that only move a submitter or a message. */
  lemma MoveWaits(s: State, s': State)
    requires Cells(s) && Times(s)
    requires s'.repo == s.repo && s'.memory == s.memory && s'.log == s.log && s'.max == s.max
    requires s'.futures == s.futures && s'.cells == s.cells && s'.late == s.late
    requires forall j :: s'.BeingPublished(j) <==> s.BeingPublished(j)
    requires forall i :: 0 <= i < |s'.submitters| ==> HoldsCell(s'.submitters[i], s.cells)
    ensures Cells(s') && Times(s')
  {
  }

  lemma TimeOutWaits(s: State, i: nat)
    requires Cells(s) && Times(s) && Enabled(s, TimeOut(i))
    ensures var s' := Apply(s, TimeOut(i)); Cells(s') && Times(s')
  {
  }

  /** Publishing settles every waiting future of the job, and no other. */
  lemma PublishReachesAll(s: State, job: JobId)
    requires s.memory.Valid() && Cells(s) && job in s.repo.vals
    ensures var s' := DoPublish(s, job);
      && |s'.cells| == |s.cells|
      && (forall c :: 0 <= c < |s.cells| ==>
            s'.cells[c] == if s.cells[c].job == job && s.cells[c].state.Waiting?
                           then Cell(job, Value(s.repo.vals[job])) else s.cells[c])
  {
  }

  lemma PublishWindows(s: State, job: JobId)
    requires Filed(s.repo) && Windowed(s) && job in s.repo.vals
    ensures var s' := DoPublish(s, job);
      && Windowed(s')
      && job in s'.log
      && (forall j :: j in s.log ==> j in s'.log)
      && (forall j :: j in s'.memory.keys ==> j == job || j in s.memory.keys)
  {
    RememberSlides(s.memory, s.log, s.repo.vals[job], s.max);
    LoggedHas(s, job);
  }

  lemma LoggedHas(s: State, job: JobId)
    requires Windowed(s)
    ensures job in Logged(s.log, s.memory, job)
    ensures forall j :: j in s.log ==> j in Logged(s.log, s.memory, job)
  {
  }

  lemma PublishCells(s: State, job: JobId)
    requires Filed(s.repo) && Windowed(s) && Cells(s) && job in s.repo.vals
    ensures Cells(DoPublish(s, job))
  {
    PublishReachesAll(s, job);
    PublishWindows(s, job);
    var s' := DoPublish(s, job);
    assert forall i :: 0 <= i < |s.submitters| ==> HoldsCell(s.submitters[i], s.cells);
  }

  lemma PublishWaits(s: State)
    requires Inv(s) && Enabled(s, Handle(Published))
    ensures var s' := DoHandle(s, Published); Windowed(s') && Cells(s') && Times(s')
  {
    NextPlaces(s.consumer.pc, Published);
    var job := s.consumer.job;
    PublishCells(s, job);
    PublishWindows(s, job);
    var p := DoPublish(s, job);
    var s' := DoHandle(s, Published);
    assert s' == p.(consumer := s'.consumer, cutOff := s'.cutOff);
    assert Cells(s') && Windowed(s');
    assert forall j :: s.BeingPublished(j) <==> j == job;
    assert forall j :: s'.Finished(j) <==> s.Finished(j);
    assert p.futures == s.futures - {job};
  }

  lemma WriteTimes(s: State, s': State, job: JobId)
    requires Times(s) && s'.futures == s.futures && s'.late == s.late && s'.log == s.log
    requires forall j :: !s.BeingPublished(j)
    requires forall j :: j != job ==> (s'.Finished(j) <==> s.Finished(j))
    requires s'.Finished(job) ==> s'.BeingPublished(job)
    ensures Times(s')
  {
  }

  lemma WriteWaits(s: State, ev: Event)
    requires Inv(s) && Enabled(s, Handle(ev)) && ev.Wrote?
    ensures var s' := DoHandle(s, ev); Windowed(s') && Cells(s') && Times(s')
  {
    NextPlaces(s.consumer.pc, ev);
    var job := s.consumer.job;
    SaveFiles(s.repo, job, ev.status, ev.code);
    var s' := DoHandle(s, ev);
    assert s' == s.(repo := s'.repo, consumer := s'.consumer, cutOff := s'.cutOff);
    assert Windowed(s') && Cells(s');
    WriteTimes(s, s', job);
  }

  lemma OtherEventWaits(s: State, ev: Event)
    requires Inv(s) && Enabled(s, Handle(ev)) && !ev.Wrote? && !ev.Published?
    ensures var s' := DoHandle(s, ev); Windowed(s') && Cells(s') && Times(s')
  {
    NextPlaces(s.consumer.pc, ev);
    var s' := DoHandle(s, ev);
    assert s' == s.(consumer := s'.consumer, cutOff := s'.cutOff);
    assert Windowed(s') && Cells(s');
    assert forall j :: !s.BeingPublished(j) && !s'.BeingPublished(j);
    assert forall j :: s'.Finished(j) <==> s.Finished(j);
  }

  /** A submitter that moves on keeps holding the future it holds. */
  lemma SubmitterWaits(s: State, s': State, i: nat)
    requires Cells(s) && Times(s) && i < |s.submitters|
    requires |s'.submitters| == |s.submitters| && s'.submitters == s.submitters[i := s'.submitters[i]]
    requires HoldsCell(s.submitters[i], s.cells) ==> HoldsCell(s'.submitters[i], s.cells)
    requires s'.repo == s.repo && s'.memory == s.memory && s'.log == s.log && s'.max == s.max
    requires s'.futures == s.futures && s'.cells == s.cells && s'.late == s.late && s'.consumer == s.consumer
    ensures Cells(s') && Times(s')
  {
  }

  lemma ArrivalWaits(s: State, key: string, freshId: JobId)
    requires Inv(s) && Enabled(s, Arrive(key, freshId))
    ensures var s' := Apply(s, Arrive(key, freshId)); Windowed(s') && Cells(s') && Times(s')
  {
    ArriveWaits(s, key, freshId);
  }

  lemma SubscribeWaits(s: State, i: nat)
    requires Inv(s) && Enabled(s, Subscribe(i))
    ensures var s' := Apply(s, Subscribe(i)); Windowed(s') && Cells(s') && Times(s')
  {
    SubscribeCells(s, i);
    SubscribeTimes(s, i);
  }

  lemma NotifyWaits(s: State, i: nat, ok: bool)
    requires Inv(s) && Enabled(s, Notify(i, ok))
    ensures var s' := Apply(s, Notify(i, ok)); Windowed(s') && Cells(s') && Times(s')
  {
    SubmitterWaits(s, DoNotify(s, i, ok), i);
  }

  lemma PutWaits(s: State, i: nat)
    requires Inv(s) && Enabled(s, Put(i))
    ensures var s' := Apply(s, Put(i)); Windowed(s') && Cells(s') && Times(s')
  {
    SubmitterWaits(s, DoPut(s, i), i);
  }

  lemma EnterWaits(s: State, i: nat)
    requires Inv(s) && Enabled(s, Enter(i))
    ensures var s' := Apply(s, Enter(i)); Windowed(s') && Cells(s') && Times(s')
  {
    SubmitterWaits(s, Apply(s, Enter(i)), i);
  }

  lemma LeaverWaits(s: State, step: Step)
    requires Inv(s) && Enabled(s, step) && (step.PutRaises? || step.Wake?)
    ensures var s' := Apply(s, step); Windowed(s') && Cells(s') && Times(s')
  {
    SubmitterWaits(s, Apply(s, step), step.who);
  }

  lemma ExpiryWaits(s: State, i: nat)
    requires Inv(s) && Enabled(s, TimeOut(i))
    ensures var s' := Apply(s, TimeOut(i)); Windowed(s') && Cells(s') && Times(s')
  {
    TimeOutWaits(s, i);
  }

  lemma HandleWaits(s: State, ev: Event)
    requires Inv(s) && Enabled(s, Handle(ev))
    ensures var s' := Apply(s, Handle(ev)); Windowed(s') && Cells(s') && Times(s')
  {
    if ev.Wrote? {
      WriteWaits(s, ev);
    } else if ev.Published? {
      PublishWaits(s);
    } else {
      OtherEventWaits(s, ev);
    }
  }

  lemma RestWaits(s: State, step: Step)
    requires Inv(s) && Enabled(s, step)
    requires step.Take? || step.Stop? || step.CloseProducer? || step.Redeliver?
    ensures var s' := Apply(s, step); Windowed(s') && Cells(s') && Times(s')
  {
    MoveWaits(s, Apply(s, step));
  }

  lemma StepTimes(s: State, step: Step)
    requires Inv(s) && Enabled(s, step)
    ensures var s' := Apply(s, step); Windowed(s') && Cells(s') && Times(s')
  {
    hide *;
    match step
    case Arrive(key, freshId) => ArrivalWaits(s, key, freshId);
    case Subscribe(i) => SubscribeWaits(s, i);
    case Notify(i, ok) => NotifyWaits(s, i, ok);
    case Enter(i) => EnterWaits(s, i);
    case Put(i) => PutWaits(s, i);
    case PutRaises(i) => LeaverWaits(s, step);
    case Wake(i) => LeaverWaits(s, step);
    case TimeOut(i) => ExpiryWaits(s, i);
    case Handle(ev) => HandleWaits(s, ev);
    case _ => RestWaits(s, step);
  }

  lemma StepWaits(s: State, step: Step)
    requires Inv(s) && Enabled(s, step)
    ensures Inv(Apply(s, step))
  {
    StepSound(s, step);
    StepTimes(s, step);
  }

  lemma {:induction false} RunWaits(s: State, steps: seq<Step>, end: State)
    requires Inv(s) && Reaches(s, steps, end)
    ensures Inv(end)
    decreases |steps|
  {
    if steps == [] {
      RunNowhere(s, end);
    } else {
      RunFirst(s, steps, end);
      StepWaits(s, steps[0]);
      RunWaits(Apply(s, steps[0]), steps[1..], end);
    }
  }

  /** No lost wake-up: a submitter whose future is still pending holds the registered one, which the
      next publish of its job settles with the job's record; and until then the job is unfinished,
      or saved and about to be published, or had been finished and forgotten when it subscribed. */
  lemma NoLostWakeUp(max: nat, bound: int, steps: seq<Step>, end: State, who: nat)
    requires Reaches(Init(max, bound), steps, end)
    requires who < |end.submitters| && end.submitters[who].Waits?
    ensures end.submitters[who].cell < |end.cells| && end.memory.Valid()
    ensures var sub := end.submitters[who];
      end.cells[sub.cell].state.Waiting? ==>
        && sub.job in end.futures && end.futures[sub.job] == sub.cell
        && (!end.Finished(sub.job) || end.BeingPublished(sub.job) || sub.job in end.late)
        && sub.job in end.repo.vals
        && DoPublish(end, sub.job).cells[sub.cell].state == Value(end.repo.vals[sub.job])
  {
    RunWaits(Init(max, bound), steps, end);
    var sub := end.submitters[who];
    assert HoldsCell(sub, end.cells);
    assert Names(sub, end.repo);
    PublishReachesAll(end, sub.job);
  }

  lemma LateStep(s: State, step: Step, job: JobId)
    requires Enabled(s, step) && job in Apply(s, step).late && job !in s.late
    ensures step.Subscribe? && s.submitters[step.who].job == job
    ensures job !in s.memory.vals && s.Finished(job) && !s.BeingPublished(job)
  {
  }

  /** When a waiter comes too late: the job was published before, and at least `max` new insertions
      have followed each of its own. */
  lemma LateMeansForgotten(max: nat, bound: int, steps: seq<Step>, s: State, step: Step, job: JobId)
    requires Reaches(Init(max, bound), steps, s) && Enabled(s, step)
    requires job in Apply(s, step).late && job !in s.late
    ensures job in s.log
    ensures forall i :: 0 <= i < |s.log| && s.log[i] == job ==> |s.log| - 1 - i >= s.max
  {
    RunWaits(Init(max, bound), steps, s);
    LateStep(s, step, job);
    LastMembers(s.log, s.max, job);
  }

  /** If nobody comes too late, nobody waits for a job that is over and published. */
  lemma PromptSubscribersAreWoken(max: nat, bound: int, steps: seq<Step>, end: State, who: nat)
    requires Reaches(Init(max, bound), steps, end) && end.late == {}
    requires who < |end.submitters| && end.submitters[who].Waits?
    requires end.Finished(end.submitters[who].job) && !end.BeingPublished(end.submitters[who].job)
    ensures end.submitters[who].cell < |end.cells|
    ensures !end.cells[end.submitters[who].cell].state.Waiting?
  {
    NoLostWakeUp(max, bound, steps, end, who);
  }

  // ---- Waits that end without the job ----

  lemma TimeOutCancels(s: State, i: nat, c: nat)
    requires Enabled(s, TimeOut(i)) && c < |s.cells| && s.cells[c].state.Waiting?
    ensures var s' := Apply(s, TimeOut(i));
      |s'.cells| == |s.cells| && (s'.cells[c].state.Cancelled? <==> s.submitters[i].cell == c)
  {
  }

  lemma HandleCancelsNone(s: State, ev: Event, c: nat)
    requires Enabled(s, Handle(ev)) && c < |s.cells| && s.cells[c].state.Waiting?
    ensures var s' := Apply(s, Handle(ev)); |s'.cells| == |s.cells| && !s'.cells[c].state.Cancelled?
  {
  }

  lemma RestCancelsNone(s: State, step: Step, c: nat)
    requires Enabled(s, step) && c < |s.cells| && s.cells[c].state.Waiting? && !step.TimeOut? && !step.Handle?
    ensures var s' := Apply(s, step); |s'.cells| >= |s.cells| && !s'.cells[c].state.Cancelled?
  {
  }

  /** The exact cause: a pending future is cancelled by a time-out of one who waits on that very future,
      and by nothing else. */
  lemma CancelledExactly(s: State, step: Step, c: nat)
    requires Enabled(s, step) && c < |s.cells| && s.cells[c].state.Waiting?
    ensures c < |Apply(s, step).cells|
    ensures Apply(s, step).cells[c].state.Cancelled? <==> step.TimeOut? && s.submitters[step.who].cell == c
  {
    match step
    case TimeOut(i) => TimeOutCancels(s, i, c);
    case Handle(ev) => HandleCancelsNone(s, ev, c);
    case _ => RestCancelsNone(s, step, c);
  }

  /** Callers for one job share one pending future, so the time-out of one ends the wait of all. */
  lemma TimeOutCancelsAll(max: nat, bound: int, steps: seq<Step>, s: State, a: nat, b: nat)
    requires Reaches(Init(max, bound), steps, s)
    requires Enabled(s, TimeOut(a)) && b < |s.submitters| && s.submitters[b].Waits?
    requires s.submitters[b].job == s.submitters[a].job
    requires s.cells[s.submitters[a].cell].state.Waiting?
    ensures s.submitters[b].cell < |s.cells|
    ensures s.cells[s.submitters[b].cell].state.Waiting? ==>
      Apply(s, TimeOut(a)).cells[s.submitters[b].cell].state.Cancelled?
  {
    RunWaits(Init(max, bound), steps, s);
    assert HoldsCell(s.submitters[a], s.cells) && HoldsCell(s.submitters[b], s.cells);
  }

  /** The cancelled future stays registered until the job is published: who subscribes in between gets a
      future that is cancelled already. */
  lemma LaterSubscribersInherit(max: nat, bound: int, steps: seq<Step>, s: State, i: nat)
    requires Reaches(Init(max, bound), steps, s) && Enabled(s, Subscribe(i))
    requires var job := s.submitters[i].job;
      job in s.futures && s.futures[job] < |s.cells| && s.cells[s.futures[job]].state.Cancelled?
    ensures var s' := Apply(s, Subscribe(i));
      && s'.submitters[i].ToNotify?
      && s'.submitters[i].cell < |s'.cells| && s'.cells[s'.submitters[i].cell].state.Cancelled?
  {
    RunWaits(Init(max, bound), steps, s);
  }

  // ---- Submitters that are never late ----

  /** Every arrival is followed at once by its own subscription, as in `enqueue_download_job`, where
      nothing suspends between the two; `arrived` submitters came before. */
  predicate AtOnce(arrived: nat, steps: seq<Step>)
    decreases |steps|
  {
    if steps == [] then true
    else if steps[0].Arrive? then |steps| > 1 && steps[1] == Subscribe(arrived) && AtOnce(arrived + 1, steps[2..])
    else AtOnce(arrived, steps[1..])
  }

  /** Nobody is between arriving and subscribing, and nobody came too late. */
  ghost predicate Settled(s: State, arrived: nat) {
    && |s.submitters| == arrived && s.late == {}
    && forall i :: 0 <= i < arrived ==> !s.submitters[i].ToSubscribe?
  }

  lemma HandleSettles(s: State, ev: Event, arrived: nat)
    requires Settled(s, arrived) && Enabled(s, Handle(ev))
    ensures Settled(Apply(s, Handle(ev)), arrived)
  {
  }

  lemma OtherSettles(s: State, step: Step, arrived: nat)
    requires Settled(s, arrived) && Enabled(s, step) && !step.Arrive? && !step.Handle?
    ensures Settled(Apply(s, step), arrived)
  {
  }

  /** The record a submit answers with is active, so its subscriber is in time. */
  lemma ArrivalSettles(s: State, key: string, freshId: JobId)
    requires Inv(s) && Enabled(s, Arrive(key, freshId)) && Settled(s, |s.submitters|)
    ensures var s' := Apply(s, Arrive(key, freshId));
      && |s'.submitters| == |s.submitters| + 1 && s'.late == {}
      && (forall i :: 0 <= i < |s.submitters| ==> !s'.submitters[i].ToSubscribe?)
      && !s'.Finished(s'.submitters[|s.submitters|].job)
  {
    SubmitFiles(s.repo, key, freshId);
  }

  lemma SubscriptionSettles(s: State, arrived: nat)
    requires |s.submitters| == arrived + 1 && s.late == {} && Enabled(s, Subscribe(arrived))
    requires forall i :: 0 <= i < arrived ==> !s.submitters[i].ToSubscribe?
    requires !s.Finished(s.submitters[arrived].job)
    ensures Settled(Apply(s, Subscribe(arrived)), arrived + 1)
  {
  }

  lemma {:induction false} NobodyIsLate(s: State, steps: seq<Step>, end: State, arrived: nat)
    requires Inv(s) && Reaches(s, steps, end) && AtOnce(arrived, steps) && Settled(s, arrived)
    ensures end.late == {}
    decreases |steps|
  {
    hide Apply;
    hide Enabled;
    if steps == [] {
      RunNowhere(s, end);
    } else {
      RunFirst(s, steps, end);
      var next, rest := Apply(s, steps[0]), steps[1..];
      StepWaits(s, steps[0]);
      match steps[0]
      case Arrive(key, freshId) =>
        RunFirst(next, rest, end);
        assert rest[1..] == steps[2..];
        StepWaits(next, rest[0]);
        ArrivalSettles(s, key, freshId);
        SubscriptionSettles(next, arrived);
        NobodyIsLate(Apply(next, rest[0]), steps[2..], end, arrived + 1);
      case Handle(ev) =>
        HandleSettles(s, ev, arrived);
        NobodyIsLate(next, rest, end, arrived);
      case _ =>
        OtherSettles(s, steps[0], arrived);
        NobodyIsLate(next, rest, end, arrived);
    }
  }

  /** No lost wake-up as the bot runs: a pending future means an unfinished job, or one that is saved and
      about to be published, and the publish settles it. */
  lemma NoLostWakeUpAtOnce(max: nat, bound: int, steps: seq<Step>, end: State, who: nat)
    requires Reaches(Init(max, bound), steps, end) && AtOnce(0, steps)
    requires who < |end.submitters| && end.submitters[who].Waits?
    ensures end.late == {} && end.submitters[who].cell < |end.cells| && end.memory.Valid()
    ensures var sub := end.submitters[who];
      end.cells[sub.cell].state.Waiting? ==>
        && (!end.Finished(sub.job) || end.BeingPublished(sub.job))
        && sub.job in end.repo.vals
        && DoPublish(end, sub.job).cells[sub.cell].state == Value(end.repo.vals[sub.job])
  {
    NobodyIsLate(Init(max, bound), steps, end, 0);
    NoLostWakeUp(max, bound, steps, end, who);
  }
}
