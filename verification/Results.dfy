/** Task results, and the one a worker publishes. */
module Results {
  import opened Basics

  datatype JobStatus = PENDING | PROCESSING | COMPLETED | FAILED | REJECTED_DUPLICATE | SKIPPED

  datatype TaskResult = TaskResult(jobId: JobId, status: JobStatus)

  /** The statuses after which a worker acknowledges whatever the job's retry flag says. */
  predicate Settled(status: JobStatus) {
    status in {COMPLETED, REJECTED_DUPLICATE, SKIPPED}
  }

  /** How one call of a processor ends: a result that may name any job, an exception, or no
      processor registered for the job's kind. */
  datatype Outcome = Returned(jobId: JobId, status: JobStatus) | Raised | Unrouted

  /** The result a worker publishes for `job`. */
  function ResultFor(job: JobId, outcome: Outcome): (r: TaskResult)
    ensures r.jobId == job
  {
    TaskResult(job, if outcome.Returned? && outcome.jobId == job then outcome.status else FAILED)
  }
}
