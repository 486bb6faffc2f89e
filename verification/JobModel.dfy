/** The durable job, its fence, and the structural checks made before any statement runs
    (pkg/model/job.go). Times and durations are whole milliseconds. */
module JobModel {

  import opened Wrappers
  import opened Text

  datatype JobState = Queued | Leased | Running | Succeeded | Failed | Canceled | DeadLetter {
    predicate IsTerminal() {
      Succeeded? || Failed? || Canceled? || DeadLetter?
    }

    predicate HoldsLease() {
      Leased? || Running?
    }
  }

  const MAX_FAILURE_CODE_LENGTH := 128
  const MAX_FAILURE_MESSAGE_LENGTH := 2048
  const MAX_ALLOWED_ATTEMPTS := 100
  const MAX_JOB_ID_LENGTH := 256
  const MAX_TENANT_ID_LENGTH := 128
  const MAX_IDEMPOTENCY_KEY_LENGTH := 512
  const MAX_ROUTING_VALUE_LENGTH := 256
  const MAX_LEASE_OWNER_LENGTH := 256
  const MAX_RETRY_BACKOFF := 7 * 24 * 3_600_000
  const MAX_JOB_BATCH_SIZE := 1000
  const MAX_JOB_LEASE_DURATION := 24 * 3_600_000
  const MAX_JOB_PAYLOAD_BYTES := 10 * 1024 * 1024

  /** The primary key of a job: (tenant_id, id). */
  datatype Key = Key(tenant: string, id: string)

  datatype Fence = Fence(key: Key, owner: string, token: int)

  /** One row of durable_jobs, without its key. */
  datatype Job = Job(
    idempotencyKey: string,
    requestHash: string,
    request: string,
    agentId: Option<string>,
    requiredCapability: Option<string>,
    state: JobState,
    attempt: nat,
    maxAttempts: int,
    nextRunAt: int,
    leaseOwner: Option<string>,
    leaseToken: nat,
    leaseExpiresAt: Option<int>,
    response: Option<string>,
    failureCode: Option<string>,
    failureMessage: Option<string>,
    cancelRequestedAt: Option<int>,
    createdAt: int,
    updatedAt: int)

  /** A row as the repository returns it. */
  datatype Snapshot = Snapshot(key: Key, job: Job) {
    function GetFence(): Fence {
      Fence(key, if job.leaseOwner.Some? then job.leaseOwner.value else "", job.leaseToken)
    }
  }

  predicate ValidKey(k: Key) {
    && !Blank(k.tenant) && |k.tenant| <= MAX_TENANT_ID_LENGTH
    && !Blank(k.id) && |k.id| <= MAX_JOB_ID_LENGTH
  }

  predicate ValidOwner(owner: string) {
    !Blank(owner) && |owner| <= MAX_LEASE_OWNER_LENGTH
  }

  /** LeaseFence.Validate */
  predicate ValidFence(f: Fence) {
    ValidKey(f.key) && ValidOwner(f.owner) && f.token > 0
  }

  predicate ValidLease(duration: int) {
    1 <= duration <= MAX_JOB_LEASE_DURATION
  }

  predicate ValidBackoff(backoff: int) {
    0 <= backoff <= MAX_RETRY_BACKOFF
  }

  predicate ValidBatchSize(n: int) {
    1 <= n <= MAX_JOB_BATCH_SIZE
  }
}
