/** The SQL statements of pkg/storage/postgres_jobs.go: for each, its WHERE clause as a
    predicate on one row and its SET clause as a function of that row. A statement acts on
    a whole table at one reading of NOW(); nothing here asks that reading to be monotone. */
module Ledger {
  import opened Wrappers
  import opened Text
  import opened JobModel

  type Table = map<Key, Job>

  datatype NewJob = NewJob(
    idempotencyKey: string,
    requestHash: string,
    request: string,
    agentId: string,
    requiredCapability: string,
    maxAttempts: int,
    nextRunAt: Option<int>)

  datatype Statement =
    | Insert(key: Key, input: NewJob, now: int)
    | Acquire(batch: set<Key>, owner: string, now: int, lease: int)
    | MarkRunning(fence: Fence, now: int)
    | Renew(fence: Fence, now: int, lease: int)
    | Complete(fence: Fence, now: int, response: string)
    | Fail(fence: Fence, now: int, retryable: bool, backoff: int, code: string, message: string)
    | Cancel(key: Key, now: int)
    | Acknowledge(fence: Fence, now: int)
    | Reclaim(batch: set<Key>, now: int, backoff: int)

  /** The checks made in Go before a statement is sent that the row invariants depend on. */
  predicate WellFormed(s: Statement) {
    && (s.Insert? ==> 1 <= s.input.maxAttempts <= MAX_ALLOWED_ATTEMPTS)
    && (s.Fail? ==> |s.code| <= MAX_FAILURE_CODE_LENGTH && |s.message| <= MAX_FAILURE_MESSAGE_LENGTH)
  }

  // ---- WHERE clauses

  predicate Ready(r: Job, now: int) {
    r.state.Queued? && r.nextRunAt <= now && r.attempt < r.maxAttempts
  }

  predicate Expired(r: Job, now: int) {
    r.state.HoldsLease() && r.leaseExpiresAt.Some? && r.leaseExpiresAt.value <= now
  }

  /** The row is under the lease that this fence names, expired or not. */
  predicate Held(r: Job, f: Fence) {
    r.leaseOwner == Some(f.owner) && r.leaseToken == f.token && r.state.HoldsLease()
  }

  predicate HeldLive(r: Job, f: Fence, now: int) {
    Held(r, f) && r.leaseExpiresAt.Some? && r.leaseExpiresAt.value > now
  }

  predicate CanRun(r: Job, f: Fence, now: int) {
    HeldLive(r, f, now) && r.state.Leased? && r.cancelRequestedAt.None?
  }

  predicate CanAcknowledge(r: Job, f: Fence, now: int) {
    HeldLive(r, f, now) && r.cancelRequestedAt.Some?
  }

  // ---- SET clauses

  function NewRow(input: NewJob, now: int): Job {
    Job(input.idempotencyKey, input.requestHash, input.request,
        NullIfBlank(input.agentId), NullIfBlank(input.requiredCapability),
        Queued, 0, input.maxAttempts,
        if input.nextRunAt.Some? then input.nextRunAt.value else now,
        None, 0, None, None, None, None, None, now, now)
  }

  function AcquiredRow(r: Job, owner: string, now: int, lease: int): Job {
    r.(state := Leased, attempt := r.attempt + 1, leaseOwner := Some(owner),
       leaseToken := r.leaseToken + 1, leaseExpiresAt := Some(now + lease), updatedAt := now)
  }

  function CompletedRow(r: Job, now: int, response: string): Job {
    r.(state := Succeeded, response := Some(response),
       leaseOwner := None, leaseExpiresAt := None, updatedAt := now)
  }

  function FailedRow(r: Job, now: int, retryable: bool, backoff: int, code: string, message: string): Job {
    var requeue := retryable && r.attempt < r.maxAttempts;
    r.(state := if !retryable then Failed else if r.attempt < r.maxAttempts then Queued else DeadLetter,
       nextRunAt := if requeue then now + backoff else r.nextRunAt,
       failureCode := NullIfBlank(code), failureMessage := NullIfBlank(message),
       leaseOwner := None, leaseExpiresAt := None, updatedAt := now)
  }

  function CanceledRow(r: Job, now: int): Job {
    if r.state.IsTerminal() then r
    else r.(state := if r.state.Queued? then Canceled else r.state,
            cancelRequestedAt := if r.cancelRequestedAt.Some? then r.cancelRequestedAt else Some(now),
            updatedAt := now)
  }

  function AcknowledgedRow(r: Job, now: int): Job {
    r.(state := Canceled, leaseOwner := None, leaseExpiresAt := None, updatedAt := now)
  }

  function ReclaimedRow(r: Job, now: int, backoff: int): Job {
    var requeue := r.cancelRequestedAt.None? && r.attempt < r.maxAttempts;
    r.(state := if r.cancelRequestedAt.Some? then Canceled
                else if r.attempt < r.maxAttempts then Queued else DeadLetter,
       nextRunAt := if requeue then now + backoff else r.nextRunAt,
       leaseOwner := None, leaseExpiresAt := None,
       leaseToken := r.leaseToken + 1, updatedAt := now)
  }

  /** What a statement makes of the existing row with key k. */
  function OnRow(s: Statement, k: Key, r: Job): Job {
    match s
    case Insert(_, _, _) => r
    case Acquire(batch, owner, now, lease) =>
      if k in batch && Ready(r, now) then AcquiredRow(r, owner, now, lease) else r
    case MarkRunning(f, now) =>
      if f.key == k && CanRun(r, f, now) then r.(state := Running, updatedAt := now) else r
    case Renew(f, now, lease) =>
      if f.key == k && HeldLive(r, f, now) then r.(leaseExpiresAt := Some(now + lease), updatedAt := now) else r
    case Complete(f, now, response) =>
      if f.key == k && HeldLive(r, f, now) then CompletedRow(r, now, response) else r
    case Fail(f, now, retryable, backoff, code, message) =>
      if f.key == k && HeldLive(r, f, now) then FailedRow(r, now, retryable, backoff, code, message) else r
    case Cancel(key, now) =>
      if key == k then CanceledRow(r, now) else r
    case Acknowledge(f, now) =>
      if f.key == k && CanAcknowledge(r, f, now) then AcknowledgedRow(r, now) else r
    case Reclaim(batch, now, backoff) =>
      if k in batch && Expired(r, now) then ReclaimedRow(r, now, backoff) else r
  }

  /** ON CONFLICT: the primary key or (tenant_id, idempotency_key) is already taken. */
  predicate Conflicts(t: Table, k: Key, idempotencyKey: string) {
    k in t || exists other | other in t :: other.tenant == k.tenant && t[other].idempotencyKey == idempotencyKey
  }

  function Apply(t: Table, s: Statement): (t': Table)
    ensures forall k | k in t :: k in t' && t'[k] == OnRow(s, k, t[k])
    ensures forall k | k in t' && k !in t ::
              s.Insert? && k == s.key && t'[k] == NewRow(s.input, s.now)
              && !Conflicts(t, k, s.input.idempotencyKey)
    ensures s.Insert? && !Conflicts(t, s.key, s.input.idempotencyKey) ==> s.key in t'
  {
    if s.Insert? then
      if Conflicts(t, s.key, s.input.idempotencyKey) then t else t[s.key := NewRow(s.input, s.now)]
    else
      map k | k in t :: OnRow(s, k, t[k])
  }

  /** The key a statement other than an insert or a batch names. */
  function Target(s: Statement): Option<Key> {
    match s
    case Insert(_, _, _) => None
    case Acquire(_, _, _, _) => None
    case Reclaim(_, _, _) => None
    case Cancel(k, _) => Some(k)
    case _ => Some(s.fence.key)
  }

  /** A statement that names one key touches that row only. */
  lemma OneRowOnly(t: Table, s: Statement, k: Key)
    requires Target(s) == Some(k)
    ensures Apply(t, s) == if k in t then t[k := OnRow(s, k, t[k])] else t
  {
  }

  /** A batch of rows that all match is updated as a whole. */
  lemma AcquireBatch(t: Table, s: Statement)
    requires s.Acquire? && s.batch <= t.Keys && forall k | k in s.batch :: Ready(t[k], s.now)
    ensures Apply(t, s) == map k | k in t :: if k in s.batch then AcquiredRow(t[k], s.owner, s.now, s.lease) else t[k]
  {
  }

  lemma ReclaimBatch(t: Table, s: Statement)
    requires s.Reclaim? && s.batch <= t.Keys && forall k | k in s.batch :: Expired(t[k], s.now)
    ensures Apply(t, s) == map k | k in t :: if k in s.batch then ReclaimedRow(t[k], s.now, s.backoff) else t[k]
  {
  }

  // ---- Row invariants

  /** The shape every row keeps, whatever statement runs next. */
  ghost predicate RowOk(r: Job) {
    && 1 <= r.maxAttempts <= MAX_ALLOWED_ATTEMPTS
    && r.attempt <= r.maxAttempts
    && (r.leaseOwner.Some? <==> r.state.HoldsLease())
    && (r.leaseExpiresAt.Some? <==> r.state.HoldsLease())
    && (r.state.Queued? ==> r.attempt < r.maxAttempts)
    && (!r.state.Queued? && !r.state.Canceled? ==> r.attempt >= 1)
    && (r.response.Some? <==> r.state.Succeeded?)
    && (r.state.Canceled? ==> r.cancelRequestedAt.Some?)
    && (r.state.DeadLetter? ==> r.attempt == r.maxAttempts)
    && r.attempt <= r.leaseToken <= 2 * r.attempt
    && (r.state.HoldsLease() ==> r.leaseToken <= 2 * r.attempt - 1)
    && (r.failureCode.Some? ==> |r.failureCode.value| <= MAX_FAILURE_CODE_LENGTH)
    && (r.failureMessage.Some? ==> |r.failureMessage.value| <= MAX_FAILURE_MESSAGE_LENGTH)
  }

  /** At most one job per (tenant, idempotency key). */
  ghost predicate UniqueIdempotencyKeys(t: Table) {
    forall a, b | a in t && b in t && a.tenant == b.tenant && t[a].idempotencyKey == t[b].idempotencyKey :: a == b
  }

  ghost predicate TableOk(t: Table) {
    && UniqueIdempotencyKeys(t)
    && forall k | k in t :: RowOk(t[k])
  }

  /** The row names this owner and token, and the lease has not run out. */
  predicate Live(r: Job, f: Fence, now: int) {
    r.leaseOwner == Some(f.owner) && r.leaseToken == f.token && r.leaseExpiresAt.Some? && now < r.leaseExpiresAt.value
  }

  /** A shaped row is held exactly by the owner and token that it names. */
  lemma LiveIsHeldLive(r: Job, f: Fence, now: int)
    requires RowOk(r)
    ensures Live(r, f, now) <==> HeldLive(r, f, now)
  {
  }

  lemma RowKeepsShape(s: Statement, k: Key, r: Job)
    requires WellFormed(s) && RowOk(r)
    ensures RowOk(OnRow(s, k, r))
  {
  }

  lemma KeysStayUnique(t: Table, s: Statement)
    requires UniqueIdempotencyKeys(t)
    ensures UniqueIdempotencyKeys(Apply(t, s))
  {
    var t' := Apply(t, s);
    forall a, b | a in t' && b in t' && a.tenant == b.tenant && t'[a].idempotencyKey == t'[b].idempotencyKey
      ensures a == b
    {
      if a in t { ImmutableColumns(s, a, t[a]); }
      if b in t { ImmutableColumns(s, b, t[b]); }
    }
  }

  lemma TableKeepsShape(t: Table, s: Statement)
    requires WellFormed(s) && TableOk(t)
    ensures TableOk(Apply(t, s))
  {
    KeysStayUnique(t, s);
    var t' := Apply(t, s);
    forall k | k in t' ensures RowOk(t'[k]) {
      if k in t {
        RowKeepsShape(s, k, t[k]);
      }
    }
  }

  /** What identifies a job and what it was asked to do never changes. */
  lemma ImmutableColumns(s: Statement, k: Key, r: Job)
    ensures var r' := OnRow(s, k, r);
            && r'.idempotencyKey == r.idempotencyKey && r'.requestHash == r.requestHash
            && r'.request == r.request && r'.agentId == r.agentId
            && r'.requiredCapability == r.requiredCapability
            && r'.maxAttempts == r.maxAttempts && r'.createdAt == r.createdAt
  {
  }

  // ---- Lease events, seen from one row

  /** The statement leases this row to a worker. */
  predicate TakesLease(s: Statement, k: Key, r: Job) {
    s.Acquire? && k in s.batch && Ready(r, s.now)
  }

  predicate ReclaimsLease(s: Statement, k: Key, r: Job) {
    s.Reclaim? && k in s.batch && Expired(r, s.now)
  }

  /** A fenced write that ends the lease takes effect. */
  predicate ReleasesLease(s: Statement, k: Key, r: Job) {
    || ((s.Complete? || s.Fail?) && s.fence.key == k && HeldLive(r, s.fence, s.now))
    || (s.Acknowledge? && s.fence.key == k && CanAcknowledge(r, s.fence, s.now))
  }

  predicate MovesLease(s: Statement, k: Key, r: Job) {
    TakesLease(s, k, r) || ReclaimsLease(s, k, r) || ReleasesLease(s, k, r)
  }

  /** The fence can no longer be honoured: the token has moved on, or it has not but nobody
      owns the row (FailJob and CompleteJob leave the token alone and clear the owner). */
  predicate Gone(r: Job, f: Fence) {
    r.leaseToken > f.token || (r.leaseToken == f.token && r.leaseOwner.None?)
  }

  lemma GoneIsForGood(s: Statement, k: Key, r: Job, f: Fence)
    requires RowOk(r) && f.key == k && Gone(r, f)
    ensures Gone(OnRow(s, k, r), f) && !Held(OnRow(s, k, r), f) && !Held(r, f)
  {
  }

  /** How a statement can change who holds a row. */
  lemma HoldingStep(s: Statement, k: Key, r: Job, f: Fence)
    requires RowOk(r) && f.key == k
    ensures OnRow(s, k, r).leaseToken >= r.leaseToken
    ensures OnRow(s, k, r).leaseToken == r.leaseToken + if TakesLease(s, k, r) || ReclaimsLease(s, k, r) then 1 else 0
    ensures Held(OnRow(s, k, r), f) <==>
              || (Held(r, f) && !MovesLease(s, k, r))
              || (TakesLease(s, k, r) && f.owner == s.owner && f.token == r.leaseToken + 1)
    ensures MovesLease(s, k, r) && r.leaseToken >= f.token ==> Gone(OnRow(s, k, r), f)
  {
  }
}
