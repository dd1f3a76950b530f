/** Where the lifecycle comes to rest, and what the consumer finds when every message comes once. */
module LifecycleRest {
  import opened Basics
  import opened Handler
  import opened JobSpec
  import opened Lifecycle
  import opened LifecycleQueued
  import opened LifecycleSafety
  import opened OrderedDict
  import LifecycleWaits

  predicate IsRunning(repo: Repo, job: JobId) {
    job in repo.vals && repo.vals[job].status == RunningNow
  }

  /** A running record is being handled, or its handler was cut off. */
  ghost predicate RunningAtWork(s: State) {
    forall j :: IsRunning(s.repo, j) ==> HandlingJob(s, j) || j in s.cutOff
  }

  ghost predicate Inv(s: State) {
    LifecycleQueued.Inv(s) && RunningAtWork(s)
  }

  /** A handler that goes idle leaves a terminal record behind. */
  lemma IdleMeansFinished(s: State, ev: Event)
    requires Sound(s) && Enabled(s, Handle(ev)) && DoHandle(s, ev).consumer.Idle?
    ensures DoHandle(s, ev).Finished(s.consumer.job)
  {
    HandleFrame(s, ev);
    NextPlaces(s.consumer.pc, ev);
  }

  lemma HandleTouchesItsOwn(s: State, ev: Event, job: JobId)
    requires Sound(s) && Enabled(s, Handle(ev)) && job != s.consumer.job
    ensures IsRunning(DoHandle(s, ev).repo, job) <==> IsRunning(s.repo, job)
  {
    HandleFrame(s, ev);
  }

  lemma HandleRunning(s: State, ev: Event)
    requires Inv(s) && Enabled(s, Handle(ev))
    ensures RunningAtWork(Apply(s, Handle(ev)))
  {
    var s', job := DoHandle(s, ev), s.consumer.job;
    assert s' == Apply(s, Handle(ev)) && Sound(s);
    HandleFrame(s, ev);
    if s'.consumer.Idle? {
      IdleMeansFinished(s, ev);
    }
    forall j | j != job
      ensures IsRunning(s'.repo, j) <==> IsRunning(s.repo, j)
    {
      HandleTouchesItsOwn(s, ev, j);
    }
    hide DoHandle;
    hide Apply;
    hide Enabled;
    hide LifecycleQueued.Inv;
  }

  lemma ArriveRunning(s: State, key: string, freshId: JobId)
    requires Inv(s) && Enabled(s, Arrive(key, freshId))
    ensures RunningAtWork(Apply(s, Arrive(key, freshId)))
  {
    SubmitFiles(s.repo, key, freshId);
    assert forall j :: IsRunning(DoArrive(s, key, freshId).repo, j) ==> IsRunning(s.repo, j);
  }

  lemma RestRunning(s: State, step: Step)
    requires Inv(s) && Enabled(s, step) && !step.Handle? && !step.Arrive?
    ensures RunningAtWork(Apply(s, step))
  {
    RestFrame(s, step);
  }

  /** No other step touches a record, cuts a handler off, or takes a job from the consumer. */
  lemma RestFrame(s: State, step: Step)
    requires Enabled(s, step) && !step.Handle? && !step.Arrive?
    ensures var s' := Apply(s, step);
      s'.repo == s.repo && s'.cutOff == s.cutOff && (s.consumer.Handling? ==> s'.consumer == s.consumer)
  {
  }

  lemma StepRest(s: State, step: Step)
    requires Inv(s) && Enabled(s, step)
    ensures Inv(Apply(s, step))
  {
    StepQueued(s, step);
    assert LifecycleQueued.Inv(Apply(s, step));
    hide *;
    match step
    case Handle(ev) => HandleRunning(s, ev);
    case Arrive(key, freshId) => ArriveRunning(s, key, freshId);
    case _ => RestRunning(s, step);
  }

  lemma {:induction false} RunRest(s: State, steps: seq<Step>, end: State)
    requires Inv(s) && Reaches(s, steps, end)
    ensures Inv(end)
    decreases |steps|
  {
    if steps == [] {
      RunNowhere(s, end);
    } else {
      RunFirst(s, steps, end);
      StepRest(s, steps[0]);
      RunRest(Apply(s, steps[0]), steps[1..], end);
    }
  }

  /** Every running record is being handled, or its handler was cancelled or died. */
  lemma NoRunningRecordForgotten(max: nat, bound: int, steps: seq<Step>, end: State, job: JobId)
    requires Reaches(Init(max, bound), steps, end) && IsRunning(end.repo, job)
    ensures HandlingJob(end, job) || job in end.cutOff
  {
    RunRest(Init(max, bound), steps, end);
  }

  /** Nothing is left to do: no message, no handler at work, every submitter waiting or gone. */
  ghost predicate AtRest(s: State) {
    && !s.consumer.Handling? && s.queue == []
    && forall i :: 0 <= i < |s.submitters| ==> s.submitters[i].Waits? || s.submitters[i].Left?
  }

  /** Whatever happened on the way, when the system is at rest every record that was neither cut off nor
      stranded is terminal, and every waiter of such a job who did not come too late was woken. */
  lemma AllOverAtRest(max: nat, bound: int, steps: seq<Step>, end: State)
    requires Reaches(Init(max, bound), steps, end) && AtRest(end)
    ensures forall j :: j in end.repo.vals && j !in end.cutOff && j !in end.stranded ==> end.Finished(j)
    ensures forall i :: 0 <= i < |end.submitters| && end.submitters[i].Waits? ==>
      var sub := end.submitters[i];
      && sub.job in end.repo.vals && sub.cell < |end.cells|
      && (end.cells[sub.cell].state.Waiting? ==>
            sub.job in end.cutOff || sub.job in end.stranded || sub.job in end.late)
  {
    RunRest(Init(max, bound), steps, end);
    forall j | j in end.repo.vals && j !in end.cutOff && j !in end.stranded
      ensures end.Finished(j)
    {
      assert !IsQueued(end.repo, j) && !IsRunning(end.repo, j);
    }
    forall i: nat | i < |end.submitters| && end.submitters[i].Waits?
      ensures var sub := end.submitters[i];
        && sub.job in end.repo.vals && sub.cell < |end.cells|
        && (end.cells[sub.cell].state.Waiting? ==>
              sub.job in end.cutOff || sub.job in end.stranded || sub.job in end.late)
    {
      assert Names(end.submitters[i], end.repo);
      LifecycleWaits.NoLostWakeUp(max, bound, steps, end, i);
    }
  }

  /** In particular, when no handler was cut off, no submitter raised and nobody came too late, every
      record is terminal and nobody waits for a future that is still pending. */
  lemma NothingIsLeftOver(max: nat, bound: int, steps: seq<Step>, end: State)
    requires Reaches(Init(max, bound), steps, end) && AtRest(end)
    requires end.cutOff == {} && end.stranded == {}
    ensures forall j :: j in end.repo.vals ==> end.Finished(j)
    ensures end.late == {} ==>
      forall i :: 0 <= i < |end.submitters| && end.submitters[i].Waits? ==>
        end.submitters[i].cell < |end.cells| && !end.cells[end.submitters[i].cell].state.Waiting?
  {
    AllOverAtRest(max, bound, steps, end);
  }

  // ---- Messages that come once ----

  ghost predicate NoRedelivery(steps: seq<Step>) {
    forall i :: 0 <= i < |steps| ==> !steps[i].Redeliver?
  }

  /** Every message in the queue is the only one for its job, whose record is queued and not handled. */
  ghost predicate ComesOnce(s: State) {
    && Distinct(s.queue)
    && forall j :: j in s.queue ==> IsQueued(s.repo, j) && !HandlingJob(s, j)
  }

  ghost predicate OnceInv(s: State) {
    LifecycleQueued.Inv(s) && ComesOnce(s)
  }

  lemma PutOnce(s: State, i: nat)
    requires OnceInv(s) && Enabled(s, Put(i))
    ensures ComesOnce(Apply(s, Put(i)))
  {
    assert s.submitters[i].Owes(s.submitters[i].job);
    assert s.submitters[i].job !in s.queue;
  }

  lemma TakeOnce(s: State)
    requires OnceInv(s) && Enabled(s, Take)
    ensures ComesOnce(Apply(s, Take))
  {
  }

  lemma HandleOnce(s: State, ev: Event)
    requires OnceInv(s) && Enabled(s, Handle(ev))
    ensures ComesOnce(Apply(s, Handle(ev)))
  {
    HandleFrame(s, ev);
    NextPlaces(s.consumer.pc, ev);
    if ev.Wrote? {
      SaveFiles(s.repo, s.consumer.job, ev.status, ev.code);
    }
  }

  lemma ArriveOnce(s: State, key: string, freshId: JobId)
    requires OnceInv(s) && Enabled(s, Arrive(key, freshId))
    ensures ComesOnce(Apply(s, Arrive(key, freshId)))
  {
    SubmitFiles(s.repo, key, freshId);
  }

  lemma RestOnce(s: State, step: Step)
    requires OnceInv(s) && Enabled(s, step)
    requires !step.Put? && !step.Take? && !step.Handle? && !step.Arrive? && !step.Redeliver?
    ensures ComesOnce(Apply(s, step))
  {
    RestFrame(s, step);
    QueueFrame(s, step);
  }

  lemma QueueFrame(s: State, step: Step)
    requires Enabled(s, step)
    requires !step.Put? && !step.Take? && !step.Handle? && !step.Arrive? && !step.Redeliver?
    ensures Apply(s, step).queue == s.queue
    ensures Apply(s, step).consumer == s.consumer || Apply(s, step).consumer.Stopped?
  {
  }

  lemma StepOnce(s: State, step: Step)
    requires OnceInv(s) && Enabled(s, step) && !step.Redeliver?
    ensures OnceInv(Apply(s, step))
  {
    StepQueued(s, step);
    assert LifecycleQueued.Inv(Apply(s, step));
    hide *;
    match step
    case Put(i) => PutOnce(s, i);
    case Take => TakeOnce(s);
    case Handle(ev) => HandleOnce(s, ev);
    case Arrive(key, freshId) => ArriveOnce(s, key, freshId);
    case _ => RestOnce(s, step);
  }

  lemma {:induction false} RunOnce(s: State, steps: seq<Step>, end: State)
    requires OnceInv(s) && Reaches(s, steps, end) && NoRedelivery(steps)
    ensures OnceInv(end)
    decreases |steps|
  {
    if steps == [] {
      RunNowhere(s, end);
    } else {
      RunFirst(s, steps, end);
      StepOnce(s, steps[0]);
      RunOnce(Apply(s, steps[0]), steps[1..], end);
    }
  }

  /** When no message is delivered twice, a message that is taken finds its record queued, so the guard
      for finished jobs never ends a handler. */
  lemma GuardNeverFires(max: nat, bound: int, steps: seq<Step>, s: State, ev: Event)
    requires Reaches(Init(max, bound), steps, s) && NoRedelivery(steps)
    requires Enabled(s, Take) && Enabled(Apply(s, Take), Handle(ev))
    ensures IsQueued(s.repo, s.queue[0]) && s.queue[0] !in s.queue[1..]
    ensures ev == Seen(Queued) && Next(Start, ev) == Some(Checking)
  {
    RunOnce(Init(max, bound), steps, s);
  }
}
