/** The job envelope shared by every component (internal/domain/job.go). */
module Domain {

  type Id = string

  /** Any other string the wire might carry is an UNKNOWN_TYPE. */
  datatype JobType = REGISTRATION | PAYMENT_WEBHOOK | QR_SCAN | NOTIFICATION | UNKNOWN_TYPE(name: string)
  {
    predicate Valid() {
      !UNKNOWN_TYPE?
    }
  }

  datatype JobStatus = QUEUED | PROCESSING | SUCCESS | FAILED | DEAD_LETTER

  datatype Priority = LOW | MEDIUM | HIGH | UNKNOWN_PRIORITY(name: string)

  /** The fields the queue, the pool and the job table read or write; the payload is opaque. */
  datatype Job = Job(
    id: Id, jobType: JobType, payload: string, status: JobStatus,
    retryCount: int, maxRetries: int, priority: Priority)
  {
    predicate CanRetry() {
      retryCount < maxRetries
    }
  }

  function PriorityForType(t: JobType): Priority {
    match t
    case PAYMENT_WEBHOOK => HIGH
    case QR_SCAN => HIGH
    case REGISTRATION => MEDIUM
    case NOTIFICATION => LOW
    case UNKNOWN_TYPE(_) => MEDIUM
  }

  function NewJob(id: Id, t: JobType, payload: string, maxRetries: int): Job {
    Job(id, t, payload, QUEUED, 0, maxRetries, PriorityForType(t))
  }

  /** A cached value with the time at which it expires. */
  datatype Entry = Entry(value: string, expires: nat)

  /** UPDATE jobs ... WHERE id: only the mutable columns change, and only if the row exists. */
  function UpdateRow(rows: map<Id, Job>, job: Job): map<Id, Job> {
    if job.id in rows then
      rows[job.id := rows[job.id].(status := job.status, retryCount := job.retryCount)]
    else
      rows
  }
}
