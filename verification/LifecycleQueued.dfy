/** No queued record is forgotten, and what a submitter that raises leaves behind. */
module LifecycleQueued {
  import opened Basics
  import opened JobSpec
  import opened Handler
  import opened Lifecycle
  import opened LifecycleSafety

  predicate IsQueued(repo: Repo, job: JobId) {
    job in repo.vals && repo.vals[job].status == Queued
  }

  predicate HandlingJob(s: State, job: JobId) {
    s.consumer.Handling? && s.consumer.job == job
  }

  ghost predicate Owed(s: State, job: JobId) {
    exists i :: 0 <= i < |s.submitters| && s.submitters[i].Owes(job)
  }

  /** Who answers for a queued record. */
  ghost predicate Accounted(s: State) {
    forall j :: IsQueued(s.repo, j) ==>
      j in s.queue || HandlingJob(s, j) || Owed(s, j) || j in s.cutOff || j in s.stranded
  }

  /** What a submitter owes is queued and nowhere else yet. */
  ghost predicate DebtsOpen(s: State) {
    forall i, j :: 0 <= i < |s.submitters| && s.submitters[i].Owes(j) ==>
      IsQueued(s.repo, j) && j !in s.enqueued && j !in s.stranded
  }

  /** Only the submitter that created a record owes it. */
  ghost predicate OneDebtor(s: State) {
    forall i, k, j :: 0 <= i < k < |s.submitters| && s.submitters[i].Owes(j) ==> !s.submitters[k].Owes(j)
  }

  ghost predicate Debts(s: State) {
    && DebtsOpen(s)
    && OneDebtor(s)
    && (forall j :: j in s.queue ==> j in s.enqueued)
    && (s.consumer.Handling? ==> s.consumer.job in s.enqueued)
    && (forall j :: j in s.stranded ==> IsQueued(s.repo, j) && j !in s.enqueued)
  }

  ghost predicate Inv(s: State) {
    Sound(s) && Debts(s) && Accounted(s)
  }

  /** Who owes what after an arrival. */
  lemma ArriveOwes(s: State, key: string, freshId: JobId, i: nat, job: JobId)
    requires Sound(s) && Enabled(s, Arrive(key, freshId)) && i <= |s.submitters|
    ensures var s' := DoArrive(s, key, freshId);
      && |s'.submitters| == |s.submitters| + 1
      && (s'.submitters[i].Owes(job) <==>
            if i < |s.submitters| then s.submitters[i].Owes(job) else job == freshId && freshId in s'.repo.vals)
  {
  }

  lemma ArriveOpens(s: State, key: string, freshId: JobId)
    requires Sound(s) && Debts(s) && Enabled(s, Arrive(key, freshId))
    ensures DebtsOpen(DoArrive(s, key, freshId))
  {
    SubmitFiles(s.repo, key, freshId);
    var s' := DoArrive(s, key, freshId);
    forall i, j | 0 <= i < |s'.submitters| && s'.submitters[i].Owes(j)
      ensures IsQueued(s'.repo, j) && j !in s'.enqueued && j !in s'.stranded
    {
      ArriveOwes(s, key, freshId, i, j);
      if i < |s.submitters| {
        assert IsQueued(s.repo, j);
      }
    }
  }

  lemma ArriveAlone(s: State, key: string, freshId: JobId)
    requires Sound(s) && Debts(s) && Enabled(s, Arrive(key, freshId))
    ensures OneDebtor(DoArrive(s, key, freshId))
  {
  }

  lemma ArriveDebts(s: State, key: string, freshId: JobId)
    requires Sound(s) && Debts(s) && Enabled(s, Arrive(key, freshId))
    ensures Debts(DoArrive(s, key, freshId))
  {
    SubmitFiles(s.repo, key, freshId);
    ArriveOpens(s, key, freshId);
    ArriveAlone(s, key, freshId);
  }

  lemma ArriveAccounted(s: State, key: string, freshId: JobId)
    requires Sound(s) && Accounted(s) && Enabled(s, Arrive(key, freshId))
    ensures Accounted(DoArrive(s, key, freshId))
  {
    SubmitFiles(s.repo, key, freshId);
    var s' := DoArrive(s, key, freshId);
    var n := |s.submitters|;
    assert forall i :: 0 <= i < n ==> s'.submitters[i] == s.submitters[i];
    forall j | IsQueued(s'.repo, j)
      ensures j in s'.queue || HandlingJob(s', j) || Owed(s', j) || j in s'.cutOff || j in s'.stranded
    {
      if j in s.repo.vals {
        assert IsQueued(s.repo, j);
        if i :| 0 <= i < n && s.submitters[i].Owes(j) {
          assert s'.submitters[i].Owes(j);
        }
      } else {
        assert s'.submitters[n].Owes(j);
      }
    }
  }

  /** A submitter that moves on without paying or passing on a debt. */
  lemma MovesQueued(s: State, s': State, i: nat)
    requires Inv(s) && i < |s.submitters| == |s'.submitters|
    requires s'.submitters == s.submitters[i := s'.submitters[i]]
    requires forall j :: s'.submitters[i].Owes(j) <==> s.submitters[i].Owes(j)
    requires s'.repo == s.repo && s'.queue == s.queue && s'.consumer == s.consumer && s'.enqueued == s.enqueued
    requires s'.stranded == s.stranded && s'.cutOff == s.cutOff
    ensures Debts(s') && Accounted(s')
  {
    assert forall k, j :: 0 <= k < |s.submitters| ==> (s'.submitters[k].Owes(j) <==> s.submitters[k].Owes(j));
    forall j | IsQueued(s'.repo, j)
      ensures j in s'.queue || HandlingJob(s', j) || Owed(s', j) || j in s'.cutOff || j in s'.stranded
    {
      assert IsQueued(s.repo, j);
      if k :| 0 <= k < |s.submitters| && s.submitters[k].Owes(j) {
        assert s'.submitters[k].Owes(j);
      }
    }
  }

  /** A submitter that owed `job` and settles it: into the queue, or by being stranded. */
  lemma SettlesQueued(s: State, s': State, i: nat, job: JobId)
    requires Inv(s) && i < |s.submitters| && s.submitters[i].Owes(job)
    requires |s'.submitters| == |s.submitters| && s'.submitters == s.submitters[i := s'.submitters[i]]
    requires forall j :: !s'.submitters[i].Owes(j)
    requires s'.repo == s.repo && s'.consumer == s.consumer && s'.cutOff == s.cutOff
    requires
      || (s'.queue == s.queue + [job] && s'.enqueued == s.enqueued + {job} && s'.stranded == s.stranded)
      || (s'.queue == s.queue && s'.enqueued == s.enqueued && s'.stranded == s.stranded + {job})
    ensures Debts(s') && Accounted(s')
  {
    assert forall j :: s.submitters[i].Owes(j) ==> j == job;
    forall k, j | 0 <= k < |s.submitters| && s'.submitters[k].Owes(j)
      ensures k != i && s.submitters[k].Owes(j) && j != job
    {
    }
    forall j | IsQueued(s'.repo, j)
      ensures j in s'.queue || HandlingJob(s', j) || Owed(s', j) || j in s'.cutOff || j in s'.stranded
    {
      assert IsQueued(s.repo, j);
      if k :| 0 <= k < |s.submitters| && s.submitters[k].Owes(j) {
        assert j != job ==> s'.submitters[k].Owes(j);
      }
    }
  }

  /** The submitters and what they owe do not change. */
  lemma OthersQueued(s: State, s': State)
    requires Inv(s) && Debts(s')
    requires s'.submitters == s.submitters
    requires forall j :: IsQueued(s'.repo, j) ==> IsQueued(s.repo, j)
    requires forall j :: IsQueued(s'.repo, j) && (j in s.queue || HandlingJob(s, j)) ==>
      j in s'.queue || HandlingJob(s', j) || j in s'.cutOff
    requires s.cutOff <= s'.cutOff && s.stranded <= s'.stranded
    ensures Accounted(s')
  {
  }

  lemma TakeQueued(s: State)
    requires Inv(s) && Enabled(s, Take)
    ensures var s' := Apply(s, Take); Debts(s') && Accounted(s')
  {
  }

  lemma HandleQueued(s: State, ev: Event)
    requires Inv(s) && Enabled(s, Handle(ev))
    ensures var s' := Apply(s, Handle(ev)); Debts(s') && Accounted(s')
  {
    var s' := DoHandle(s, ev);
    var job := s.consumer.job;
    HandleFrame(s, ev);
    NextPlaces(s.consumer.pc, ev);
    if ev.Wrote? {
      SaveFiles(s.repo, job, ev.status, ev.code);
      assert !IsQueued(s'.repo, job) || ev.status == Queued;
      WritesAreNotQueued(s.consumer.pc, ev);
    }
    assert forall j :: j != job ==> (IsQueued(s'.repo, j) <==> IsQueued(s.repo, j));
    OthersQueued(s, s');
  }

  lemma WritesAreNotQueued(pc: Pc, ev: Event)
    requires WellPlaced(pc) && ev.Wrote? && Next(pc, ev).Some?
    ensures ev.status != Queued
  {
  }

  lemma NotifyQueued(s: State, i: nat, ok: bool)
    requires Inv(s) && Enabled(s, Notify(i, ok))
    ensures var s' := Apply(s, Notify(i, ok)); Debts(s') && Accounted(s')
  {
    if ok || !s.submitters[i].created {
      MovesQueued(s, DoNotify(s, i, ok), i);
    } else {
      SettlesQueued(s, DoNotify(s, i, ok), i, s.submitters[i].job);
    }
  }

  lemma ArriveQueued(s: State, key: string, freshId: JobId)
    requires Inv(s) && Enabled(s, Arrive(key, freshId))
    ensures var s' := Apply(s, Arrive(key, freshId)); Debts(s') && Accounted(s')
  {
    ArriveDebts(s, key, freshId);
    ArriveAccounted(s, key, freshId);
  }

  lemma SubscribeQueued(s: State, i: nat)
    requires Inv(s) && Enabled(s, Subscribe(i))
    ensures var s' := Apply(s, Subscribe(i)); Debts(s') && Accounted(s')
  {
    MovesQueued(s, DoSubscribe(s, i), i);
  }

  lemma EnterQueued(s: State, i: nat)
    requires Inv(s) && Enabled(s, Enter(i))
    ensures var s' := Apply(s, Enter(i)); Debts(s') && Accounted(s')
  {
    MovesQueued(s, Apply(s, Enter(i)), i);
  }

  lemma PutQueued(s: State, i: nat)
    requires Inv(s) && Enabled(s, Put(i))
    ensures var s' := Apply(s, Put(i)); Debts(s') && Accounted(s')
  {
    SettlesQueued(s, DoPut(s, i), i, s.submitters[i].job);
  }

  lemma PutRaisesQueued(s: State, i: nat)
    requires Inv(s) && Enabled(s, PutRaises(i))
    ensures var s' := Apply(s, PutRaises(i)); Debts(s') && Accounted(s')
  {
    SettlesQueued(s, Apply(s, PutRaises(i)), i, s.submitters[i].job);
  }

  lemma LeaveQueued(s: State, step: Step)
    requires Inv(s) && Enabled(s, step) && (step.Wake? || step.TimeOut?)
    ensures var s' := Apply(s, step); Debts(s') && Accounted(s')
  {
    MovesQueued(s, Apply(s, step), step.who);
  }

  lemma QuietQueued(s: State, step: Step)
    requires Inv(s) && Enabled(s, step) && (step.Stop? || step.CloseProducer?)
    ensures var s' := Apply(s, step); Debts(s') && Accounted(s')
  {
    OthersQueued(s, Apply(s, step));
  }

  lemma RedeliverQueued(s: State, job: JobId)
    requires Inv(s) && Enabled(s, Redeliver(job))
    ensures var s' := Apply(s, Redeliver(job)); Debts(s') && Accounted(s')
  {
    OthersQueued(s, Apply(s, Redeliver(job)));
  }

  lemma StepAccounted(s: State, step: Step)
    requires Inv(s) && Enabled(s, step)
    ensures var s' := Apply(s, step); Debts(s') && Accounted(s')
  {
    hide *;
    match step
    case Arrive(key, freshId) => ArriveQueued(s, key, freshId);
    case Subscribe(i) => SubscribeQueued(s, i);
    case Notify(i, ok) => NotifyQueued(s, i, ok);
    case Enter(i) => EnterQueued(s, i);
    case Put(i) => PutQueued(s, i);
    case PutRaises(i) => PutRaisesQueued(s, i);
    case Wake(i) => LeaveQueued(s, step);
    case TimeOut(i) => LeaveQueued(s, step);
    case Take => TakeQueued(s);
    case Handle(ev) => HandleQueued(s, ev);
    case Redeliver(job) => RedeliverQueued(s, job);
    case _ => QuietQueued(s, step);
  }

  lemma StepQueued(s: State, step: Step)
    requires Inv(s) && Enabled(s, step)
    ensures Inv(Apply(s, step))
  {
    StepSound(s, step);
    StepAccounted(s, step);
  }

  lemma {:induction false} RunQueued(s: State, steps: seq<Step>, end: State)
    requires Inv(s) && Reaches(s, steps, end)
    ensures Inv(end)
    decreases |steps|
  {
    if steps == [] {
      RunNowhere(s, end);
    } else {
      RunFirst(s, steps, end);
      StepQueued(s, steps[0]);
      RunQueued(Apply(s, steps[0]), steps[1..], end);
    }
  }

  /** Every queued record has its message in the queue, is being handled, has its submitter on the way
      to the queue, lost its handler, or was stranded by a submitter that raised. */
  lemma NoQueuedRecordForgotten(max: nat, bound: int, steps: seq<Step>, end: State, job: JobId)
    requires Reaches(Init(max, bound), steps, end) && IsQueued(end.repo, job)
    ensures job in end.queue || HandlingJob(end, job) || Owed(end, job) || job in end.cutOff || job in end.stranded
    ensures job in end.stranded ==> job !in end.queue && !HandlingJob(end, job) && !Owed(end, job)
  {
    RunQueued(Init(max, bound), steps, end);
  }

  /** From `s` to `s'` a stranded job stays stranded and its record stays as it is. */
  ghost predicate StaysStranded(s: State, s': State, job: JobId) {
    && job in s'.stranded && job in s.repo.vals && job in s'.repo.vals
    && s'.repo.vals[job] == s.repo.vals[job]
  }

  lemma ArriveStrands(s: State, key: string, freshId: JobId, job: JobId)
    requires Inv(s) && Enabled(s, Arrive(key, freshId)) && job in s.stranded
    ensures StaysStranded(s, Apply(s, Arrive(key, freshId)), job)
  {
    assert IsQueued(s.repo, job);
    SubmitFiles(s.repo, key, freshId);
  }

  lemma HandleStrands(s: State, ev: Event, job: JobId)
    requires Inv(s) && Enabled(s, Handle(ev)) && job in s.stranded
    ensures StaysStranded(s, Apply(s, Handle(ev)), job)
  {
    assert IsQueued(s.repo, job);
    HandleFrame(s, ev);
    NextPlaces(s.consumer.pc, ev);
    if ev.Wrote? {
      SaveFiles(s.repo, s.consumer.job, ev.status, ev.code);
    }
  }

  lemma RestStrands(s: State, step: Step, job: JobId)
    requires Inv(s) && Enabled(s, step) && job in s.stranded && !step.Arrive? && !step.Handle?
    ensures StaysStranded(s, Apply(s, step), job)
  {
    assert IsQueued(s.repo, job);
  }

  lemma StrandedStep(s: State, step: Step, job: JobId)
    requires Inv(s) && Enabled(s, step) && job in s.stranded
    ensures StaysStranded(s, Apply(s, step), job)
  {
    hide *;
    match step
    case Arrive(key, freshId) => ArriveStrands(s, key, freshId, job);
    case Handle(ev) => HandleStrands(s, ev, job);
    case _ => RestStrands(s, step, job);
  }

  /** A submit for the key of an active record answers with it and changes nothing. */
  lemma ActiveAnswers(repo: Repo, job: JobId, freshId: JobId)
    requires Filed(repo) && OneActivePerKey(repo) && Active(repo, job)
    ensures Submit(repo, repo.vals[job].key, freshId) == (repo, repo.vals[job], false)
  {
    var active := FindActive(repo.keys, repo.vals, repo.vals[job].key);
    assert job in repo.keys;
    assert active.Some? ==> Active(repo, active.value.jobId);
  }

  lemma {:induction false} StrandedRun(s: State, steps: seq<Step>, end: State, job: JobId, freshId: JobId)
    requires Inv(s) && Reaches(s, steps, end) && job in s.stranded
    ensures job in end.stranded && IsQueued(end.repo, job) && end.repo.Valid()
    ensures end.repo.vals[job] == s.repo.vals[job]
    ensures freshId !in end.repo.vals ==>
      Submit(end.repo, s.repo.vals[job].key, freshId) == (end.repo, end.repo.vals[job], false)
    decreases |steps|
  {
    if steps == [] {
      RunNowhere(s, end);
      ActiveAnswers(s.repo, job, freshId);
    } else {
      RunFirst(s, steps, end);
      StrandedStep(s, steps[0], job);
      StepQueued(s, steps[0]);
      StrandedRun(Apply(s, steps[0]), steps[1..], end, job, freshId);
    }
  }

  /** A stranded job blocks its key for good: in every later state its record is still queued, and a
      submit for the key answers with it and enqueues nothing. */
  lemma StrandedBlocksItsKey(max: nat, bound: int, before: seq<Step>, mid: State, after: seq<Step>, end: State,
                             job: JobId, freshId: JobId)
    requires Reaches(Init(max, bound), before, mid) && job in mid.stranded && Reaches(mid, after, end)
    ensures job in end.stranded && IsQueued(end.repo, job) && end.repo.Valid()
    ensures freshId !in end.repo.vals ==>
      Submit(end.repo, end.repo.vals[job].key, freshId) == (end.repo, end.repo.vals[job], false)
  {
    RunQueued(Init(max, bound), before, mid);
    StrandedRun(mid, after, end, job, freshId);
  }

  // ---- After the consumer has stopped ----

  /** From `s` to `s'` nothing that is waited for happened: the consumer stays stopped, the records stay as
      they are, and the futures do but for those that a time-out cancels. */
  ghost predicate StaysStopped(s: State, s': State) {
    && s'.consumer.Stopped?
    && (forall j :: j in s.repo.vals ==> j in s'.repo.vals && s'.repo.vals[j] == s.repo.vals[j])
    && |s.cells| <= |s'.cells|
    && (forall c :: 0 <= c < |s.cells| ==>
          s'.cells[c] == s.cells[c] || (s.cells[c].state.Waiting? && s'.cells[c].state.Cancelled?))
  }

  lemma StoppedStep(s: State, step: Step)
    requires Sound(s) && Enabled(s, step) && s.consumer.Stopped?
    ensures StaysStopped(s, Apply(s, step))
  {
    if step.Arrive? {
      SubmitFiles(s.repo, step.key, step.freshId);
    }
  }

  lemma {:induction false} StoppedRun(s: State, steps: seq<Step>, end: State)
    requires Sound(s) && Reaches(s, steps, end) && s.consumer.Stopped?
    ensures Sound(end) && StaysStopped(s, end)
    decreases |steps|
  {
    if steps == [] {
      RunNowhere(s, end);
    } else {
      RunFirst(s, steps, end);
      StoppedStep(s, steps[0]);
      StepSound(s, steps[0]);
      StoppedRun(Apply(s, steps[0]), steps[1..], end);
    }
  }

  /** Once the consumer has stopped, every active record blocks its key for good: in every later state it
      is unchanged and a submit for its key answers with it and enqueues nothing. A wait that is pending
      then, for whatever job, ends by a time-out or not at all. */
  lemma StoppedConsumerBlocks(max: nat, bound: int, before: seq<Step>, mid: State, after: seq<Step>, end: State,
                              job: JobId, freshId: JobId)
    requires Reaches(Init(max, bound), before, mid) && mid.consumer.Stopped? && Reaches(mid, after, end)
    requires Active(mid.repo, job)
    ensures end.consumer.Stopped? && end.repo.Valid()
    ensures Active(end.repo, job) && end.repo.vals[job] == mid.repo.vals[job]
    ensures Submit(end.repo, end.repo.vals[job].key, freshId) == (end.repo, end.repo.vals[job], false)
    ensures forall c :: 0 <= c < |mid.cells| && mid.cells[c].state.Waiting? ==>
      c < |end.cells| && !end.cells[c].state.Value?
  {
    RunSound(Init(max, bound), before, mid);
    StoppedRun(mid, after, end);
    ActiveAnswers(end.repo, job, freshId);
  }

  // ---- The order of messages ----

  /** Messages keep their order: the one that came first is handled first, and new ones go to the end. A
      consumer that was stopped takes none. */
  lemma FirstComeFirstHandled(s: State, step: Step)
    requires Enabled(s, step)
    ensures var s' := Apply(s, step);
      && (step.Take? ==> s.queue == [s.queue[0]] + s'.queue && HandlingJob(s', s.queue[0]))
      && (!step.Take? ==> s.queue <= s'.queue)
      && (step.Put? ==> s'.queue == s.queue + [s.submitters[step.who].job])
      && (step.Stop? || s.consumer.Stopped? ==> s'.consumer.Stopped? && !step.Take?)
  {
  }
}
