/** The life of download jobs as a step machine: many submitters and one sequential consumer share the
    repository, the terminal waiter and the message queue. Saving a record and publishing it are
    separate steps here, and so are submitting and subscribing, so the results hold for finer
    interleavings than the event loop allows. */
module Lifecycle {
  import opened Basics
  import opened Futures
  import opened OrderedDict
  import opened JobSpec
  import opened Handler

  datatype Submitter =
    | ToSubscribe(job: JobId, created: bool)
    | ToNotify(job: JobId, created: bool, cell: nat)
    | ToEnqueue(job: JobId, cell: nat)
    | Putting(job: JobId, cell: nat)   // past the closed check, perhaps waiting at a full queue
    | Waits(job: JobId, cell: nat)
    | Left
  {
    /** Between creating a record and putting its message into the queue. */
    predicate Owes(id: JobId) {
      match this
      case ToSubscribe(job, created) => created && job == id
      case ToNotify(job, created, _) => created && job == id
      case ToEnqueue(job, _) => job == id
      case Putting(job, _) => job == id
      case _ => false
    }
  }

  datatype Consumer = Idle | Handling(job: JobId, pc: Pc) | Stopped

  /** A future object: whose outcome it stands for, and its state. */
  datatype Cell = Cell(job: JobId, state: FutureState<JobRecord>)

  datatype State = State(
    repo: Repo,
    memory: Dict<JobId, JobRecord>,
    max: nat,                        // how many finished jobs are remembered
    futures: map<JobId, nat>,        // the registered future of a job, as an index into cells
    cells: seq<Cell>,
    queue: seq<JobId>,
    bound: int,                      // capacity of the message queue
    closed: bool,
    submitters: seq<Submitter>,
    consumer: Consumer,
    log: seq<JobId>,                 // insertions into the memory, in order
    enqueued: set<JobId>,            // jobs whose message entered the queue at least once
    stranded: set<JobId>,            // jobs whose submitter raised before enqueueing
    cutOff: set<JobId>,              // jobs whose handler was cancelled or died
    late: set<JobId>)                // jobs subscribed to when already finished and forgotten
  {
    predicate Finished(job: JobId) {
      job in repo.vals && Terminal(repo.vals[job].status)
    }

    /** A mark_* has saved the record and not yet published it. */
    predicate BeingPublished(job: JobId) {
      consumer.Handling? && consumer.job == job && consumer.pc.Publishing?
    }
  }

  function Init(max: nat, bound: int): State {
    State(Empty(), Empty(), max, map[], [], [], bound, false, [], Idle, [], {}, {}, {}, {})
  }

  datatype Step =
    | Arrive(key: string, freshId: JobId)
    | Subscribe(who: nat)
    | Notify(who: nat, ok: bool)       // the notice to the user before enqueueing
    | Enter(who: nat)                  // the producer is not closed
    | Put(who: nat)
    | PutRaises(who: nat)              // a closed producer, or a caller cancelled at a full queue
    | Wake(who: nat)                   // the future is done
    | TimeOut(who: nat)                // wait_for cancels the future
    | Take
    | Handle(ev: Event)
    | Stop                             // the idle consumer is cancelled
    | CloseProducer
    | Redeliver(job: JobId)            // an at-least-once queue delivers a message again

  ghost predicate Enabled(s: State, step: Step) {
    match step
    case Arrive(key, freshId) => key != "" && s.repo.Valid() && freshId !in s.repo.vals
    case Subscribe(i) => i < |s.submitters| && s.submitters[i].ToSubscribe?
    case Notify(i, _) => i < |s.submitters| && s.submitters[i].ToNotify?
    case Enter(i) => i < |s.submitters| && s.submitters[i].ToEnqueue? && !s.closed
    case Put(i) => i < |s.submitters| && s.submitters[i].Putting? && (s.bound <= 0 || |s.queue| < s.bound)
    case PutRaises(i) => i < |s.submitters| && (s.submitters[i].Putting? || (s.submitters[i].ToEnqueue? && s.closed))
    case Wake(i) => i < |s.submitters| && s.submitters[i].Waits? && s.submitters[i].cell < |s.cells|
      && !s.cells[s.submitters[i].cell].state.Waiting?
    case TimeOut(i) => i < |s.submitters| && s.submitters[i].Waits? && s.submitters[i].cell < |s.cells|
    case Take => s.consumer.Idle? && s.queue != []
    case Handle(ev) =>
      && s.consumer.Handling?
      && s.memory.Valid()
      && Next(s.consumer.pc, ev).Some?
      && (ev.Unknown? ==> s.consumer.job !in s.repo.vals)
      && (ev.Seen? ==> s.consumer.job in s.repo.vals && s.repo.vals[s.consumer.job].status == ev.status)
    case Stop => s.consumer.Idle?
    case CloseProducer => true
    case Redeliver(job) => job in s.enqueued
  }

  function Move(s: State, i: nat, next: Submitter): State
    requires i < |s.submitters|
  {
    s.(submitters := s.submitters[i := next])
  }

  function DoArrive(s: State, key: string, freshId: JobId): State
    requires s.repo.Valid()
  {
    var (repo, rec, created) := Submit(s.repo, key, freshId);
    s.(repo := repo, submitters := s.submitters + [ToSubscribe(rec.jobId, created)])
  }

  /** The snapshot a submit hands over is never terminal, so only the memory can answer at once. */
  function DoSubscribe(s: State, i: nat): State
    requires i < |s.submitters| && s.submitters[i].ToSubscribe?
  {
    var job := s.submitters[i].job;
    var cell := if job !in s.memory.vals && job in s.futures then s.futures[job] else |s.cells|;
    var s' := Move(s, i, ToNotify(job, s.submitters[i].created, cell));
    if job in s.memory.vals then s'.(cells := s.cells + [Cell(job, Value(s.memory.vals[job]))])
    else
      var late := if s.Finished(job) && !s.BeingPublished(job) then {job} else {};
      if job in s.futures then s'.(late := s.late + late)
      else s'.(futures := s.futures[job := |s.cells|], cells := s.cells + [Cell(job, Waiting)], late := s.late + late)
  }

  function DoNotify(s: State, i: nat, ok: bool): State
    requires i < |s.submitters| && s.submitters[i].ToNotify?
  {
    var sub := s.submitters[i];
    if !ok then Move(s, i, Left).(stranded := if sub.created then s.stranded + {sub.job} else s.stranded)
    else if sub.created then Move(s, i, ToEnqueue(sub.job, sub.cell))
    else Move(s, i, Waits(sub.job, sub.cell))
  }

  function DoPut(s: State, i: nat): State
    requires i < |s.submitters| && s.submitters[i].Putting?
  {
    var job := s.submitters[i].job;
    Move(s, i, Waits(job, s.submitters[i].cell)).(queue := s.queue + [job], enqueued := s.enqueued + {job})
  }

  /** publish_terminal: remember the record, then settle and drop the registered future. */
  function DoPublish(s: State, job: JobId): State
    requires s.memory.Valid()
  {
    if job !in s.repo.vals then s
    else
      s.(memory := Remember(s.memory, s.repo.vals[job], s.max).0,
         log := Logged(s.log, s.memory, job),
         futures := s.futures - {job},
         cells := if job in s.futures && s.futures[job] < |s.cells|
                  then s.cells[s.futures[job] := Cell(job, Settle(s.cells[s.futures[job]].state, s.repo.vals[job]))]
                  else s.cells)
  }

  /** One event of the message handler. */
  function DoHandle(s: State, ev: Event): State
    requires s.consumer.Handling? && s.memory.Valid() && Next(s.consumer.pc, ev).Some?
  {
    var job := s.consumer.job;
    var next := Next(s.consumer.pc, ev).value;
    var s' := match ev
      case Wrote(status, code) => s.(repo := Save(s.repo, job, status, code))
      case Published => DoPublish(s, job)
      case _ => s;
    s'.(consumer := if next.Done? then Idle else if next.Dead? then Stopped else Handling(job, next),
        cutOff := if next.Dead? then s.cutOff + {job} else s.cutOff)
  }

  ghost function Apply(s: State, step: Step): State
    requires Enabled(s, step)
  {
    match step
    case Arrive(key, freshId) => DoArrive(s, key, freshId)
    case Subscribe(i) => DoSubscribe(s, i)
    case Notify(i, ok) => DoNotify(s, i, ok)
    case Enter(i) => Move(s, i, Putting(s.submitters[i].job, s.submitters[i].cell))
    case Put(i) => DoPut(s, i)
    case PutRaises(i) => Move(s, i, Left).(stranded := s.stranded + {s.submitters[i].job})
    case Wake(i) => Move(s, i, Left)
    case TimeOut(i) =>
      var c := s.submitters[i].cell;
      Move(s, i, Left).(cells := s.cells[c := Cell(s.cells[c].job, Futures.Cancel(s.cells[c].state))])
    case Take => s.(queue := s.queue[1..], consumer := Handling(s.queue[0], Start))
    case Handle(ev) => DoHandle(s, ev)
    case Stop => s.(consumer := Stopped)
    case CloseProducer => s.(closed := true)
    case Redeliver(job) => s.(queue := s.queue + [job])
  }

  /** The states a run passes through. */
  ghost predicate Passes(states: seq<State>, steps: seq<Step>) {
    && |states| == |steps| + 1
    && forall i {:trigger steps[i]} :: 0 <= i < |steps| ==>
         Enabled(states[i], steps[i]) && states[i + 1] == Apply(states[i], steps[i])
  }

  /** These steps lead from `s` to `end`. */
  ghost predicate Reaches(s: State, steps: seq<Step>, end: State) {
    exists states :: Passes(states, steps) && states[0] == s && states[|steps|] == end
  }

  lemma RunFirst(s: State, steps: seq<Step>, end: State)
    requires Reaches(s, steps, end) && steps != []
    ensures Enabled(s, steps[0]) && Reaches(Apply(s, steps[0]), steps[1..], end)
  {
    hide Apply;
    hide Enabled;
    var states :| Passes(states, steps) && states[0] == s && states[|steps|] == end;
    assert steps[0] == steps[0];
    forall i {:trigger steps[1..][i]} | 0 <= i < |steps| - 1
      ensures Enabled(states[1..][i], steps[1..][i]) && states[1..][i + 1] == Apply(states[1..][i], steps[1..][i])
    {
      assert steps[1..][i] == steps[i + 1];
    }
    assert Passes(states[1..], steps[1..]);
  }

  lemma RunNowhere(s: State, end: State)
    ensures Reaches(s, [], end) <==> s == end
  {
    if s == end {
      assert Passes([s], []);
    }
  }

  lemma RunSnoc(s: State, steps: seq<Step>, mid: State, step: Step)
    requires Reaches(s, steps, mid) && Enabled(mid, step)
    ensures Reaches(s, steps + [step], Apply(mid, step))
  {
    hide Apply;
    hide Enabled;
    var states :| Passes(states, steps) && states[0] == s && states[|steps|] == mid;
    var more, longer := steps + [step], states + [Apply(mid, step)];
    forall i {:trigger more[i]} | 0 <= i < |more|
      ensures Enabled(longer[i], more[i]) && longer[i + 1] == Apply(longer[i], more[i])
    {
      if i < |steps| {
        assert more[i] == steps[i];
      }
    }
    assert Passes(longer, more);
  }
}
