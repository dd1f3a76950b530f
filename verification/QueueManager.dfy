/** The in-process job queue with its in-flight table and result waiters. */
module QueueManager {
  import opened Basics
  import opened Futures
  import opened OrderedDict
  import opened QueueSpec
  import opened Results

  /** A unit of work. Only a nack changes it: it counts the failed attempt. */
  class Job {
    const id: JobId
    const key: string
    const maxAttempts: int
    const retryOnFailure: bool
    var attempts: int

    constructor (id: JobId, key: string, attempts: int, maxAttempts: int, retryOnFailure: bool)
      ensures this.id == id && this.key == key && this.maxAttempts == maxAttempts
      ensures this.retryOnFailure == retryOnFailure && this.attempts == attempts
    {
      this.id, this.key := id, key;
      this.attempts, this.maxAttempts, this.retryOnFailure := attempts, maxAttempts, retryOnFailure;
    }
  }

  class JobQueueManager {
    const maxsize: int
    const staleAfter: real
    var queue: seq<Job>
    var unfinished: nat
    var closed: bool
    var inFlight: Dict<JobId, Flight<Job>>
    var waiters: map<JobId, Future<TaskResult>>

    ghost function State(): QueueState<Job>
      reads this
    {
      QueueState(maxsize, closed, queue, unfinished, inFlight)
    }

    ghost predicate Valid()
      reads this
    {
      && State().Valid()
      && forall k :: k in inFlight.keys ==> inFlight.vals[k].job.id == k
    }

    constructor (maxsize: int, staleAfter: real)
      ensures Valid() && State() == NewQueue(maxsize) && waiters == map[] && this.staleAfter == staleAfter
    {
      this.maxsize, this.staleAfter := maxsize, staleAfter;
      queue, unfinished, closed, inFlight, waiters := [], 0, false, Empty(), map[];
    }

    /** asyncio.Queue.put_nowait: false stands for QueueFull. */
    method PutNowait(job: Job) returns (ok: bool)
      requires Valid()
      modifies this`queue, this`unfinished
      ensures Valid() && ok == !old(State().Full())
      ensures State() == if ok then old(State()).Put(job) else old(State())
    {
      ok := maxsize <= 0 || |queue| < maxsize;
      if ok {
        queue, unfinished := queue + [job], unfinished + 1;
      }
    }

    /** asyncio.Queue.task_done: false stands for ValueError. */
    method TaskDone() returns (ok: bool)
      requires Valid()
      modifies this`unfinished
      ensures Valid() && ok == (old(unfinished) > 0)
      ensures State() == if ok then old(State()).(unfinished := old(unfinished) - 1) else old(State())
    {
      ok := unfinished > 0;
      if ok {
        unfinished := unfinished - 1;
      }
    }

    method Enqueue(job: Job) returns (r: PutOutcome)
      requires Valid()
      modifies this`queue, this`unfinished
      ensures Valid() && (State(), r) == QueueSpec.Enqueue(old(State()), job)
    {
      if closed {
        return RefusedClosed;
      }
      var ok := PutNowait(job);
      r := if ok then Accepted else RefusedFull;
    }

    /** The code after `await self._queue.get()` has a job to take. */
    method Dequeue(now: real) returns (job: Job)
      requires Valid() && queue != []
      modifies this`queue, this`inFlight
      ensures Valid() && job == old(queue)[0]
      ensures State() == QueueSpec.Dequeue(old(State()), job.id, now)
    {
      job, queue := queue[0], queue[1..];
      inFlight := inFlight.Put(job.id, Flight(job, now));
    }

    method Acknowledge(job: Job) returns (ok: bool)
      requires Valid()
      modifies this`unfinished, this`inFlight
      ensures Valid() && (State(), ok) == QueueSpec.Acknowledge(old(State()), job.id)
    {
      inFlight := inFlight.Pop(job.id);
      ok := TaskDone();
    }

    method Nack(job: Job) returns (r: NackOutcome)
      requires Valid()
      modifies this`queue, this`unfinished, this`inFlight, job`attempts
      ensures Valid()
      ensures (State(), r) == QueueSpec.Nack(old(State()), job, job.id, old(job.attempts), job.maxAttempts)
      ensures job.attempts == BumpedAttempts(old(job.attempts), r)
    {
      inFlight := inFlight.Pop(job.id);
      var ok := TaskDone();
      if !ok {
        return NackUnderflow;
      }
      job.attempts := job.attempts + 1;
      if job.attempts >= job.maxAttempts || closed {
        return GaveUp;
      }
      ok := PutNowait(job);
      r := if ok then Requeued else NackFull;
    }

    /** The first loop of a recovery: sweep the stale flights out of the table. */
    method SweepStale(now: real) returns (stale: seq<JobId>)
      requires Valid()
      modifies this`inFlight
      ensures Valid()
      ensures stale == StaleIds(old(inFlight).keys, old(inFlight).vals, now, staleAfter)
      ensures inFlight == old(inFlight).Minus(Ids(stale))
    {
      var items := inFlight;
      stale := [];
      SweptNothing(items, now, staleAfter);
      for i := 0 to |items.keys|
        invariant (stale, inFlight) == SweptAfter(items, i, now, staleAfter)
      {
        var jid := items.keys[i];
        SweptNext(items, i, now, staleAfter);
        if now - items.vals[jid].started > staleAfter {
          inFlight := inFlight.Pop(jid);
          stale := stale + [jid];
        }
      }
      assert items.keys[..|items.keys|] == items.keys;
    }

    /** The body of the second loop. */
    method GiveBack(job: Job, later: real) returns (r: GiveBackOutcome)
      requires Valid()
      modifies this`queue, this`unfinished, this`inFlight
      ensures Valid() && (State(), r) == QueueSpec.GiveBack(old(State()), job, job.id, later)
    {
      var ok := TaskDone();
      if !ok {
        return Underflow;
      }
      ok := PutNowait(job);
      if !ok {
        inFlight := inFlight.Put(job.id, Flight(job, later));
        return NoRoom;
      }
      r := Back;
    }

    /** The second loop of a recovery: give the swept jobs back in order. */
    method RequeueStale(stale: seq<JobId>, items: map<JobId, Flight<Job>>, later: real) returns (r: RecoverOutcome)
      requires Valid() && forall k :: k in stale ==> k in items && items[k].job.id == k
      modifies this`queue, this`unfinished, this`inFlight
      ensures Valid() && (State(), r) == RequeueAll(old(State()), stale, items, 0, later)
    {
      var requeued := 0;
      while requeued < |stale|
        invariant requeued <= |stale| && Valid()
        invariant RequeueAll(old(State()), stale, items, 0, later)
          == RequeueAll(State(), stale[requeued..], items, requeued, later)
      {
        if closed {
          break;
        }
        var jid := stale[requeued];
        assert stale[requeued..] == [jid] + stale[requeued + 1..];
        var back := GiveBack(items[jid].job, later);
        match back {
          case Underflow => return RecoverUnderflow;
          case NoRoom => return RecoverFull(requeued);
          case Back =>
        }
        requeued := requeued + 1;
      }
      r := Recovered(requeued);
    }

    method RecoverStaleTasks(now: real, later: real) returns (r: RecoverOutcome)
      requires Valid()
      modifies this`queue, this`unfinished, this`inFlight
      ensures Valid() && (State(), r) == QueueSpec.Recover(old(State()), now, later, staleAfter)
    {
      var items := inFlight.vals;
      var stale := SweepStale(now);
      r := RequeueStale(stale, items, later);
    }

    method Close()
      requires Valid()
      modifies this`closed
      ensures Valid() && State() == old(State()).(closed := true)
    {
      closed := true;
    }

    /** `enqueue_and_wait` up to its wait: the waiter is in the table before the job is in the FIFO. */
    method EnqueueAndWait(job: Job) returns (r: PutOutcome, fut: Future<TaskResult>)
      requires Valid()
      modifies this`queue, this`unfinished, this`waiters
      ensures Valid() && (State(), r) == QueueSpec.Enqueue(old(State()), job)
      ensures fresh(fut) && fut.state == Waiting
      ensures waiters == if r == Accepted then old(waiters)[job.id := fut] else old(waiters) - {job.id}
    {
      fut := new Future<TaskResult>();
      waiters := waiters[job.id := fut];
      r := Enqueue(job);
      if r != Accepted {
        waiters := waiters - {job.id};
      }
    }

    /** The `finally` of `enqueue_and_wait`. */
    method EndWait(id: JobId)
      modifies this`waiters
      ensures waiters == old(waiters) - {id}
    {
      waiters := waiters - {id};
    }

    method PublishResult(result: TaskResult)
      modifies this`waiters, if result.jobId in waiters then {waiters[result.jobId]} else {}
      ensures waiters == old(waiters) - {result.jobId}
      ensures result.jobId in old(waiters) ==>
        var fut := old(waiters)[result.jobId]; fut.state == Settle(old(fut.state), result)
    {
      if result.jobId in waiters {
        var waiter := waiters[result.jobId];
        waiters := waiters - {result.jobId};
        if waiter.state.Waiting? {
          waiter.state := Value(result);
        }
      }
    }

    method AbandonWaitIfPending(id: JobId)
      modifies this`waiters, if id in waiters then {waiters[id]} else {}
      ensures waiters == old(waiters) - {id}
      ensures id in old(waiters) ==>
        var fut := old(waiters)[id]; fut.state == Cancel(old(fut.state))
    {
      if id in waiters {
        var fut := waiters[id];
        waiters := waiters - {id};
        if fut.state.Waiting? {
          fut.state := Cancelled;
        }
      }
    }
  }
}
