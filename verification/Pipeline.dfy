/** The bot-facing entry: reserve the key, enqueue the job, give the reservation back on overflow. */
module Pipelines {
  import opened Futures
  import opened QueueSpec
  import opened Results
  import opened QueueManager
  import opened DownloadCaches

  datatype SubmitOutcome = Duplicate | Waits(PutOutcome)

  class TaskPipeline {
    const queue: JobQueueManager
    const cache: DownloadCache?

    constructor (queue: JobQueueManager, cache: DownloadCache?)
      ensures this.queue == queue && this.cache == cache
    {
      this.queue, this.cache := queue, cache;
    }

    /** `submit_download` up to its wait, for the job it builds. A closed queue raises without giving
        the reservation back. */
    method SubmitDownload(job: Job, readFails: bool) returns (r: SubmitOutcome, fut: Future?<TaskResult>)
      requires queue.Valid() && (cache != null ==> cache.Valid())
      modifies queue, cache
      ensures queue.Valid() && (cache != null ==> cache.Valid())
      ensures cache == null ==> r.Waits?
      ensures cache != null ==>
        var (c, granted) := DedupeSpec.TryReserve(old(cache.State()), job.key, job.id, readFails);
        && (r == Duplicate <==> !granted)
        && cache.State() == if r == Waits(RefusedFull) then DedupeSpec.Abort(c, job.key) else c
      ensures r == Duplicate ==> queue.State() == old(queue.State()) && queue.waiters == old(queue.waiters)
      ensures r.Waits? ==>
        r == Waits(Enqueue(old(queue.State()), job).1) && queue.State() == Enqueue(old(queue.State()), job).0
      ensures r == Waits(Accepted) ==>
        fut != null && fut.state == Waiting && queue.waiters == old(queue.waiters)[job.id := fut]
      ensures r.Waits? && r != Waits(Accepted) ==> queue.waiters == old(queue.waiters) - {job.id}
    {
      fut := null;
      if cache != null {
        var granted := cache.TryReserve(job.key, job.id, readFails);
        if !granted {
          return Duplicate, null;
        }
      }
      var put;
      put, fut := queue.EnqueueAndWait(job);
      r := Waits(put);
      if put == RefusedFull && cache != null {
        cache.Abort(job.key);
      }
    }
  }
}
