/** Jobs, leases and enqueue defaults (queue/job.go, queue/queue.go). */
module Jobs {

  type JobID = string
  type WorkerID = string

  /** The stored part of a job. Payload bytes are carried as a value. */
  datatype Job = Job(
    id: JobID,
    task: string,
    payload: string,
    attempt: nat,
    maxAttempts: int,
    availableAt: int)

  /** One delivery of one stream entry to one worker. */
  datatype Lease = Lease(messageId: nat, owner: WorkerID, token: int, partition: int)

  /** A job as handed to a worker: the stored value plus the lease it was delivered under. */
  datatype Delivery = Delivery(job: Job, lease: Lease)

  /** How a call to Redis went: answered, never executed, or executed with the reply lost. */
  datatype Answer = Heard | RequestLost | ReplyLost

  datatype Result<+T> = Ok(value: T) | InvalidJob

  predicate Valid(job: Job) {
    job.task != "" && job.payload != "" && job.maxAttempts > 0
  }

  /** A failure of this run should dead-letter the job instead of retrying it. */
  predicate Exhausted(job: Job) {
    job.attempt + 1 >= job.maxAttempts
  }

  /** The job value that Retry writes to the schedule. */
  function NextAttempt(job: Job): Job {
    job.(attempt := job.attempt + 1)
  }

  /** Attempts of a job that was accepted and is not past its last run stay below MaxAttempts. */
  predicate InAttempts(job: Job) {
    job.attempt < job.maxAttempts
  }

  function NewJob(id: JobID, task: string, payload: string, maxAttempts: int, now: int, delay: int): (r: Result<Job>)
    ensures r.Ok? <==> task != "" && payload != ""
    ensures r.Ok? ==> Valid(r.value) && InAttempts(r.value) && r.value.id == id && r.value.task == task && r.value.payload == payload
    ensures r.Ok? ==> r.value.attempt == 0 && r.value.availableAt == now + delay
    ensures r.Ok? ==> if maxAttempts > 0 then r.value.maxAttempts == maxAttempts else r.value.maxAttempts == 3
  {
    var attempts := if maxAttempts <= 0 then 3 else maxAttempts;
    var job := Job(id, task, payload, 0, attempts, now + delay);
    if Valid(job) then Ok(job) else InvalidJob
  }
}
