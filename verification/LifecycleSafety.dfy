/** Safety of the records over every run: at most one active job per key, and what the handler, a submit
    and a message delivered again may do to them. */
module LifecycleSafety {
  import opened Basics
  import opened JobSpec
  import opened Handler
  import opened Lifecycle

  // ---- Records and the handler at work ----

  /** Control states in which the handled job is still unfinished: the terminal guard has passed and
      its own terminal write is to come. */
  predicate Unfinished(pc: Pc) {
    match pc
    case Checking => true
    case Looking => true
    case HitRunning => true
    case MissRunning => true
    case Making => true
    case Fetching(_) => true
    case Storing => true
    case Marking(_, _, scope) => scope != Outer
    case _ => false
  }

  /** Control states that a handler reaches only with the record written terminal. */
  predicate Written(pc: Pc) {
    pc.Publishing? || pc.Notifying? || pc == Cleaning(ToDone)
  }

  /** The handler only plans terminal writes and never sits in a final state. */
  ghost predicate WellPlaced(pc: Pc) {
    Proper(pc) && !Over(pc)
  }

  /** What one event does to these groups of states. */
  lemma NextPlaces(pc: Pc, ev: Event)
    requires WellPlaced(pc) && Next(pc, ev).Some?
    ensures var next := Next(pc, ev).value;
      && Proper(next)
      && (ev.Wrote? && Terminal(ev.status) ==> next.Publishing? && !Unfinished(next))
      && (ev.Wrote? && !Terminal(ev.status) ==> Unfinished(pc) && Unfinished(next) && !Written(next))
      && (!ev.Wrote? ==>
            && (Unfinished(next) ==> Unfinished(pc) || (ev.Seen? && !Terminal(ev.status)))
            && (Written(next) ==> Written(pc))
            && !next.Publishing?)
      && (ev.Published? <==> pc.Publishing?)
      && (next.Done? ==> Written(pc) || ev.Unknown? || (ev.Seen? && Terminal(ev.status)))
  {
  }

  ghost predicate Filed(repo: Repo) {
    repo.Valid() && forall k :: k in repo.keys ==> repo.vals[k].jobId == k && repo.vals[k].key != ""
  }

  predicate Active(repo: Repo, job: JobId) {
    job in repo.vals && !Terminal(repo.vals[job].status)
  }

  /** At most one record per dedupe key is queued or running. */
  ghost predicate OneActivePerKey(repo: Repo) {
    forall a, b :: Active(repo, a) && Active(repo, b) && repo.vals[a].key == repo.vals[b].key ==> a == b
  }

  ghost predicate AtWork(s: State) {
    s.consumer.Handling? ==>
      && s.consumer.job in s.repo.vals
      && WellPlaced(s.consumer.pc)
      && (Unfinished(s.consumer.pc) ==> !s.Finished(s.consumer.job))
      && (Written(s.consumer.pc) ==> s.Finished(s.consumer.job))
  }

  predicate Names(sub: Submitter, repo: Repo) {
    sub.Left? || sub.job in repo.vals
  }

  /** Every job id anywhere in the system is the id of a record. */
  ghost predicate Pointed(s: State) {
    && (forall j :: j in s.queue ==> j in s.repo.vals)
    && (forall i :: 0 <= i < |s.submitters| ==> Names(s.submitters[i], s.repo))
    && (forall j :: j in s.enqueued ==> j in s.repo.vals)
    && (forall j :: j in s.futures ==> j in s.repo.vals)
  }

  ghost predicate Sound(s: State) {
    Filed(s.repo) && s.memory.Valid() && OneActivePerKey(s.repo) && AtWork(s) && Pointed(s)
  }

  lemma SubmitFiles(repo: Repo, key: string, freshId: JobId)
    requires Filed(repo) && OneActivePerKey(repo) && key != "" && freshId !in repo.vals
    ensures var (repo', rec, created) := Submit(repo, key, freshId);
      && Filed(repo') && OneActivePerKey(repo')
      && rec.jobId in repo'.vals && Active(repo', rec.jobId) && repo'.vals[rec.jobId] == rec && rec.key == key
      && (created ==> rec.jobId == freshId && rec.status == Queued && repo' == repo.Put(freshId, rec))
      && (!created ==> repo' == repo)
      && (created <==> forall k :: k in repo.vals && repo.vals[k].key == key ==>
            repo.vals[k].status !in {Queued, RunningNow})
      && (forall k :: k in repo.vals ==> k in repo'.vals && repo'.vals[k] == repo.vals[k])
      && (forall k :: k in repo'.vals ==> k in repo.vals || (created && k == freshId))
  {
    var active := FindActive(repo.keys, repo.vals, key);
    if active.None? {
      var repo' := Submit(repo, key, freshId).0;
      forall a, b | Active(repo', a) && Active(repo', b) && repo'.vals[a].key == repo'.vals[b].key
        ensures a == b
      {
        assert a != freshId ==> a in repo.keys && Active(repo, a);
        assert b != freshId ==> b in repo.keys && Active(repo, b);
      }
    }
  }

  lemma SaveFiles(repo: Repo, job: JobId, status: Status, code: string)
    requires Filed(repo) && OneActivePerKey(repo) && job in repo.vals
    requires !Terminal(status) ==> Active(repo, job)
    ensures var repo' := Save(repo, job, status, code);
      && Filed(repo') && OneActivePerKey(repo')
      && repo'.vals.Keys == repo.vals.Keys
      && repo'.vals[job].status == status
      && (forall k :: k in repo.vals && k != job ==> repo'.vals[k] == repo.vals[k])
  {
  }

  lemma PublishFrame(s: State, job: JobId)
    requires s.memory.Valid()
    ensures var s' := DoPublish(s, job);
      && s'.memory.Valid()
      && s' == s.(memory := s'.memory, log := s'.log, futures := s'.futures, cells := s'.cells)
      && (forall j :: j in s'.futures ==> j in s.futures)
  {
    if job in s.repo.vals {
      RememberShrinks(s.memory, s.repo.vals[job], s.max);
    }
  }

  /** The parts of the state an event of the handler leaves alone. */
  lemma HandleFrame(s: State, ev: Event)
    requires Enabled(s, Handle(ev))
    ensures var s' := DoHandle(s, ev);
      && s'.memory.Valid()
      && s'.repo == (if ev.Wrote? then Save(s.repo, s.consumer.job, ev.status, ev.code) else s.repo)
      && s'.queue == s.queue && s'.submitters == s.submitters && s'.enqueued == s.enqueued && s'.stranded == s.stranded
      && (forall j :: j in s'.futures ==> j in s.futures)
      && s'.cutOff >= s.cutOff
      && (s'.consumer.Handling? ==> s'.consumer == Handling(s.consumer.job, Next(s.consumer.pc, ev).value))
      && (s'.consumer.Handling? ==> !Over(s'.consumer.pc))
      && (s'.consumer.Idle? ==> Next(s.consumer.pc, ev).value.Done?)
      && (s'.consumer.Stopped? ==> s.consumer.job in s'.cutOff)
  {
    PublishFrame(s, s.consumer.job);
  }

  lemma HandleSound(s: State, ev: Event)
    requires Sound(s) && Enabled(s, Handle(ev))
    ensures Sound(Apply(s, Handle(ev)))
  {
    var s' := DoHandle(s, ev);
    var job := s.consumer.job;
    HandleFrame(s, ev);
    NextPlaces(s.consumer.pc, ev);
    if ev.Wrote? {
      SaveFiles(s.repo, job, ev.status, ev.code);
    }
    assert forall j :: j in s.repo.vals ==> j in s'.repo.vals;
    assert forall i :: 0 <= i < |s'.submitters| ==> Names(s.submitters[i], s.repo);
  }

  lemma ArriveSound(s: State, key: string, freshId: JobId)
    requires Sound(s) && Enabled(s, Arrive(key, freshId))
    ensures Sound(Apply(s, Arrive(key, freshId)))
  {
    SubmitFiles(s.repo, key, freshId);
    var s' := DoArrive(s, key, freshId);
    forall i | 0 <= i < |s'.submitters|
      ensures Names(s'.submitters[i], s'.repo)
    {
      assert i < |s.submitters| ==> Names(s.submitters[i], s.repo);
    }
  }

  /** Steps that leave the records, the memory and the consumer alone. */
  lemma SameRecords(s: State, s': State)
    requires Sound(s) && Pointed(s')
    requires s'.repo == s.repo && s'.memory == s.memory && s'.consumer == s.consumer
    ensures Sound(s')
  {
  }

  lemma SubscribePoints(s: State, i: nat)
    requires Pointed(s) && Enabled(s, Subscribe(i))
    ensures Pointed(DoSubscribe(s, i))
  {
  }

  lemma NotifyPoints(s: State, i: nat, ok: bool)
    requires Pointed(s) && Enabled(s, Notify(i, ok))
    ensures Pointed(DoNotify(s, i, ok))
  {
  }

  lemma PutPoints(s: State, i: nat)
    requires Pointed(s) && Enabled(s, Put(i))
    ensures Pointed(DoPut(s, i))
  {
  }

  lemma SubmitterSound(s: State, step: Step)
    requires Sound(s) && Enabled(s, step) && (step.Subscribe? || step.Notify? || step.Put?)
    ensures Sound(Apply(s, step))
  {
    match step
    case Subscribe(i) =>
      SubscribePoints(s, i);
      SameRecords(s, DoSubscribe(s, i));
    case Notify(i, ok) =>
      NotifyPoints(s, i, ok);
      SameRecords(s, DoNotify(s, i, ok));
    case Put(i) =>
      PutPoints(s, i);
      SameRecords(s, DoPut(s, i));
  }

  lemma TakeSound(s: State)
    requires Sound(s) && Enabled(s, Take)
    ensures Sound(Apply(s, Take))
  {
    assert s.queue[0] in s.queue;
  }

  lemma EnterSound(s: State, i: nat)
    requires Sound(s) && Enabled(s, Enter(i))
    ensures Sound(Apply(s, Enter(i)))
  {
    assert Names(s.submitters[i], s.repo);
  }

  lemma LeaverSound(s: State, step: Step)
    requires Sound(s) && Enabled(s, step) && (step.PutRaises? || step.Wake? || step.TimeOut?)
    ensures Sound(Apply(s, step))
  {
  }

  lemma QuietSound(s: State, step: Step)
    requires Sound(s) && Enabled(s, step) && (step.Stop? || step.CloseProducer? || step.Redeliver?)
    ensures Sound(Apply(s, step))
  {
  }

  lemma StepSound(s: State, step: Step)
    requires Sound(s) && Enabled(s, step)
    ensures Sound(Apply(s, step))
  {
    hide *;
    match step
    case Arrive(key, freshId) => ArriveSound(s, key, freshId);
    case Subscribe(i) => SubmitterSound(s, step);
    case Notify(i, ok) => SubmitterSound(s, step);
    case Enter(i) => EnterSound(s, i);
    case Put(i) => SubmitterSound(s, step);
    case Take => TakeSound(s);
    case Handle(ev) => HandleSound(s, ev);
    case PutRaises(i) => LeaverSound(s, step);
    case Wake(i) => LeaverSound(s, step);
    case TimeOut(i) => LeaverSound(s, step);
    case _ => QuietSound(s, step);
  }

  lemma {:induction false} RunSound(s: State, steps: seq<Step>, end: State)
    requires Sound(s) && Reaches(s, steps, end)
    ensures Sound(end)
    decreases |steps|
  {
    if steps == [] {
      RunNowhere(s, end);
    } else {
      RunFirst(s, steps, end);
      StepSound(s, steps[0]);
      RunSound(Apply(s, steps[0]), steps[1..], end);
    }
  }

  /** One active job per key, in every reachable state. */
  lemma OneActiveJob(max: nat, bound: int, steps: seq<Step>, end: State, a: JobId, b: JobId)
    requires Reaches(Init(max, bound), steps, end)
    requires a in end.repo.vals && end.repo.vals[a].status in {Queued, RunningNow}
    requires b in end.repo.vals && end.repo.vals[b].status in {Queued, RunningNow}
    requires end.repo.vals[a].key == end.repo.vals[b].key
    ensures a == b
  {
    RunSound(Init(max, bound), steps, end);
  }

  /** Exactly when mark_running, which asks for no status, keeps one active job per key: the job is
      unknown, or active already, or its key has no active job. The handler calls it behind its
      terminal guard only. */
  lemma MarkRunningKeeps(repo: Repo, job: JobId)
    requires Filed(repo) && OneActivePerKey(repo)
    ensures OneActivePerKey(Save(repo, job, RunningNow, "")) <==>
      || job !in repo.vals
      || Active(repo, job)
      || forall a :: Active(repo, a) ==> repo.vals[a].key != repo.vals[job].key
  {
    var repo' := Save(repo, job, RunningNow, "");
    if job in repo.vals && !Active(repo, job) {
      assert forall a :: Active(repo', a) <==> Active(repo, a) || a == job;
      if a :| Active(repo, a) && repo.vals[a].key == repo.vals[job].key {
        assert Active(repo', a) && Active(repo', job) && a != job;
      }
    } else if job in repo.vals {
      assert forall a :: Active(repo', a) <==> Active(repo, a);
    }
  }

  /** A message delivered again for a job that is already finished leaves nothing behind but its absence
      from the queue. */
  lemma RedeliveryChangesNothing(max: nat, bound: int, steps: seq<Step>, s: State, ev: Event)
    requires Reaches(Init(max, bound), steps, s)
    requires Enabled(s, Take) && s.Finished(s.queue[0])
    requires Enabled(Apply(s, Take), Handle(ev))
    ensures Apply(Apply(s, Take), Handle(ev)) == s.(queue := s.queue[1..])
  {
    var job := s.queue[0];
    assert Next(Start, ev) == Some(Done);
  }
}
