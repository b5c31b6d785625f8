/** Jobs: priorities, the status machine and the process-wide id counter's view of a fresh job.
    A job is a value: queue and executor clone it and hand it over by move. */
module Jobs {

  type JobId = nat

  datatype JobPriority = Low | Normal | High | Critical
  {
    function AsNat(): nat {
      match this
      case Low => 0
      case Normal => 1
      case High => 2
      case Critical => 3
    }
  }

  datatype JobStatus = Pending | Running | Paused | Completed | Failed(error: string) | Cancelled

  /** The user's part of a job, which no operation ever changes. */
  datatype Payload = Payload(plugin: string, description: string, command: string, args: seq<string>)

  datatype Job = Job(
    id: JobId,
    payload: Payload,
    priority: JobPriority,
    status: JobStatus,
    retryCount: nat,
    maxRetries: nat)

  function NewJob(id: JobId, payload: Payload, priority: JobPriority): Job {
    Job(id, payload, priority, Pending, 0, 3)
  }

  predicate CanTransition(from: JobStatus, to: JobStatus) {
    match from
    case Pending => to.Running? || to.Cancelled?
    case Running => to.Paused? || to.Completed? || to.Failed? || to.Cancelled?
    case Paused => to.Running? || to.Cancelled?
    case _ => false
  }

  /** A forbidden transition is an error that leaves the job alone. */
  function SetStatus(job: Job, status: JobStatus): (Job, bool) {
    if CanTransition(job.status, status) then (job.(status := status), true) else (job, false)
  }
}
