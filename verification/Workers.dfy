/** The code around one processor call: settle the reservation, publish, acknowledge or nack. */
module Workers {
  import opened Futures
  import opened QueueSpec
  import opened Results
  import opened QueueManager
  import opened DownloadCaches

  /** What the download processor does to the cache once the remote call returned `status`. */
  method SettleReservation(cache: DownloadCache?, job: Job, status: JobStatus, writeFails: bool, landed: nat)
    requires cache != null ==> cache.Valid()
    requires landed <= |IndexFile.Record(job.key)|
    modifies cache, if cache == null then null else cache.index
    ensures cache != null ==> cache.Valid()
    ensures cache != null && status != COMPLETED ==> cache.State() == DedupeSpec.Abort(old(cache.State()), job.key)
    ensures cache != null && status == COMPLETED ==>
      && cache.completed == old(cache.completed) + {job.key}
      && cache.inFlight == old(cache.inFlight) - {job.key}
    ensures
      (cache != null && status == COMPLETED && IndexFile.OneLine(job.key)
        && (cache.index == null || IndexFile.Terminated(old(cache.index.text)))) ==>
      cache.State() == DedupeSpec.Commit(old(cache.State()), job.key,
        if !writeFails then DedupeSpec.Appended
        else if landed < |IndexFile.Encode(job.key)| then DedupeSpec.FailedBefore else DedupeSpec.FailedAfter)
  {
    if cache != null {
      if status == COMPLETED {
        cache.Commit(job.key, writeFails, landed);
      } else {
        cache.Abort(job.key);
      }
    }
  }

  class Worker {
    const queue: JobQueueManager

    constructor (queue: JobQueueManager)
      ensures this.queue == queue
    {
      this.queue := queue;
    }

    /** `_dispatch` and the guard around it: the result always names the job that was dequeued. */
    method Dispatch(job: Job, outcome: Outcome) returns (result: TaskResult)
      ensures result == ResultFor(job.id, outcome)
      ensures result.jobId == job.id
      ensures result.status != FAILED ==> outcome == Returned(job.id, result.status)
      ensures outcome.Returned? && outcome.jobId == job.id ==> result.status == outcome.status
    {
      match outcome
      case Unrouted =>
        result := TaskResult(job.id, FAILED);
      case Raised =>
        result := TaskResult(job.id, FAILED);
      case Returned(id, status) =>
        result := TaskResult(id, status);
        if id != job.id {
          result := TaskResult(job.id, FAILED);
        }
    }

    /** One turn of the loop after the processor ended; false when an exception ends the worker. */
    method Complete(job: Job, outcome: Outcome) returns (alive: bool)
      requires queue.Valid()
      modifies queue, job`attempts, if job.id in queue.waiters then {queue.waiters[job.id]} else {}
      ensures queue.Valid()
      ensures queue.waiters == old(queue.waiters) - {job.id}
      ensures job.id in old(queue.waiters) ==>
        var fut := old(queue.waiters)[job.id]; fut.state == Settle(old(fut.state), ResultFor(job.id, outcome))
      ensures Settled(ResultFor(job.id, outcome).status) || !job.retryOnFailure ==>
        && (queue.State(), alive) == Acknowledge(old(queue.State()), job.id)
        && job.attempts == old(job.attempts)
      ensures !Settled(ResultFor(job.id, outcome).status) && job.retryOnFailure ==>
        var (q, r) := Nack(old(queue.State()), job, job.id, old(job.attempts), job.maxAttempts);
        && queue.State() == q
        && job.attempts == BumpedAttempts(old(job.attempts), r)
        && alive == (r == Requeued || r == GaveUp)
    {
      var result := Dispatch(job, outcome);
      queue.PublishResult(result);
      assert queue.State() == old(queue.State());
      if result.status == COMPLETED || result.status == REJECTED_DUPLICATE || result.status == SKIPPED {
        alive := queue.Acknowledge(job);
      } else if job.retryOnFailure {
        var r := queue.Nack(job);
        alive := r == Requeued || r == GaveUp;
      } else {
        alive := queue.Acknowledge(job);
      }
    }
  }
}
