/** PostgresJobRepository: the Go methods around the statements. Each method checks its input,
    runs its statement on the table at the database's clock, and reads the row again when the
    statement matched nothing. `history` records every statement that was sent, so whatever
    is proved about runs holds of every object of this class. */
module JobRepository {
  import opened Wrappers
  import opened Text
  import opened JobModel
  import opened Ledger
  import opened LedgerRuns
  import opened LeaseOrder

  datatype StoreError =
    | InvalidInput | MarshalFailed | PayloadTooLarge | RequestHashMismatch
    | JobIdConflict | IdempotencyConflict
    | JobNotFound | LeaseLost | CancellationRequested

  /** A value handed to marshalJobPayload: absent, not encodable, or its JSON bytes. */
  datatype Payload = NilPayload | BadPayload | Encoded(bytes: string)

  datatype CreateInput = CreateInput(
    key: Key,
    idempotencyKey: string,
    request: Payload,
    requestHash: string,
    agentId: string,
    requiredCapability: string,
    maxAttempts: int,
    nextRunAt: Option<int>)

  datatype FailInput = FailInput(
    fence: Fence, failureCode: string, failureMessage: string, retryable: bool, backoff: int)

  /** What the request hash is computed from. */
  datatype Fingerprint = Fingerprint(
    request: string, agentId: string, requiredCapability: string, maxAttempts: int)

  /** CreateJobInput.Validate */
  predicate ValidCreate(input: CreateInput) {
    && ValidKey(input.key)
    && !Blank(input.idempotencyKey) && |input.idempotencyKey| <= MAX_IDEMPOTENCY_KEY_LENGTH
    && (!Blank(input.agentId) || !Blank(input.requiredCapability))
    && |input.agentId| <= MAX_ROUTING_VALUE_LENGTH && |input.requiredCapability| <= MAX_ROUTING_VALUE_LENGTH
    && 1 <= input.maxAttempts <= MAX_ALLOWED_ATTEMPTS
    && !input.request.NilPayload?
  }

  /** FailJobInput.Validate */
  predicate ValidFail(input: FailInput) {
    && ValidFence(input.fence)
    && |input.failureCode| <= MAX_FAILURE_CODE_LENGTH && |input.failureMessage| <= MAX_FAILURE_MESSAGE_LENGTH
    && ValidBackoff(input.backoff)
  }

  function PayloadError(p: Payload): Option<StoreError> {
    if !p.Encoded? then Some(MarshalFailed)
    else if |p.bytes| > MAX_JOB_PAYLOAD_BYTES then Some(PayloadTooLarge)
    else None
  }

  function KeysOf(jobs: seq<Snapshot>): set<Key> {
    set s | s in jobs :: s.key
  }

  predicate DistinctKeys(jobs: seq<Snapshot>) {
    forall i, j | 0 <= i < j < |jobs| :: jobs[i].key != jobs[j].key
  }

  function ReadyRows(t: Table, locked: set<Key>, now: int): set<Key> {
    set k | k in t && Ready(t[k], now) && k !in locked
  }

  function ExpiredRows(t: Table, locked: set<Key>, now: int): set<Key> {
    set k | k in t && Expired(t[k], now) && k !in locked
  }

  /** The batch is the `limit` smallest of the candidates by (next_run_at, created_at), or all
      of them if there are fewer. */
  ghost predicate FirstByRank(t: Table, batch: set<Key>, candidates: set<Key>, limit: int) {
    && batch <= candidates <= t.Keys
    && |batch| == (if limit <= |candidates| then limit else |candidates|)
    && forall b, c | b in batch && c in candidates - batch :: RankLe(LeaseRank(t[b]), LeaseRank(t[c]))
  }

  /** A queued row that was due, with attempts left, is leased: one attempt and one token more. */
  predicate LeasedNow(was: Job, row: Job, owner: string, now: int, duration: int) {
    && was.state.Queued? && was.nextRunAt <= now && was.attempt < was.maxAttempts
    && row == was.(state := Leased, attempt := was.attempt + 1, leaseOwner := Some(owner),
                   leaseToken := was.leaseToken + 1, leaseExpiresAt := Some(now + duration), updatedAt := now)
  }

  /** If the row could have been leased too, the batch is full, of rows that were due no later,
      or at the same time and are no younger. */
  predicate WaitsBehind(row: Job, jobs: seq<Snapshot>, batchSize: int, now: int) {
    row.state.Queued? && row.nextRunAt <= now && row.attempt < row.maxAttempts ==>
      && |jobs| == batchSize
      && forall s | s in jobs ::
           s.job.nextRunAt < row.nextRunAt || (s.job.nextRunAt == row.nextRunAt && s.job.createdAt <= row.createdAt)
  }

  /** Every row that is left out was locked, or waits behind the batch. */
  predicate NonePassedOver(t: Table, jobs: seq<Snapshot>, batchSize: int, locked: set<Key>, now: int) {
    forall k | k in t && k !in locked && k !in KeysOf(jobs) :: WaitsBehind(t[k], jobs, batchSize, now)
  }

  lemma RankInColumns(t: Table, jobs: seq<Snapshot>, batch: set<Key>, batchSize: int, locked: set<Key>, now: int, k: Key)
    requires FirstByRank(t, batch, ReadyRows(t, locked, now), batchSize) && |jobs| == |batch|
    requires forall s | s in jobs :: s.key in batch && s.job.nextRunAt == t[s.key].nextRunAt && s.job.createdAt == t[s.key].createdAt
    requires k in t && k !in locked && k !in batch
    ensures WaitsBehind(t[k], jobs, batchSize, now)
  {
    var ready := ReadyRows(t, locked, now);
    if t[k].state.Queued? && t[k].nextRunAt <= now && t[k].attempt < t[k].maxAttempts {
      assert k in ready - batch;
      assert |batch| < |ready| by {
        SmallerWithout(batch, ready, k);
      }
      forall s | s in jobs
        ensures s.job.nextRunAt < t[k].nextRunAt || (s.job.nextRunAt == t[k].nextRunAt && s.job.createdAt <= t[k].createdAt)
      {
        assert RankLe(LeaseRank(t[s.key]), LeaseRank(t[k]));
      }
    }
  }

  lemma SmallerWithout(a: set<Key>, b: set<Key>, k: Key)
    requires a <= b && k in b && k !in a
    ensures |a| < |b|
  {
    assert a <= b - {k};
    SizeOfSubset(a, b - {k});
  }

  lemma BatchInColumns(t: Table, jobs: seq<Snapshot>, batch: set<Key>, batchSize: int, locked: set<Key>,
                       owner: string, now: int, duration: int)
    requires FirstByRank(t, batch, ReadyRows(t, locked, now), batchSize)
    requires |jobs| == |batch| && KeysOf(jobs) == batch
    requires forall s | s in jobs :: s.key in batch && s.job == AcquiredRow(t[s.key], owner, now, duration)
    ensures forall s | s in jobs :: s.key in t && LeasedNow(t[s.key], s.job, owner, now, duration)
    ensures NonePassedOver(t, jobs, batchSize, locked, now)
  {
    forall k | k in t && k !in locked && k !in KeysOf(jobs) ensures WaitsBehind(t[k], jobs, batchSize, now) {
      RankInColumns(t, jobs, batch, batchSize, locked, now, k);
    }
  }

  /** A lease that ran out is taken back: canceled if that was asked for, queued again after a
      pause if attempts are left, dead otherwise; the token moves on. */
  predicate ReclaimedNow(was: Job, row: Job, now: int, backoff: int) {
    && (was.state.Leased? || was.state.Running?) && was.leaseExpiresAt.Some? && was.leaseExpiresAt.value <= now
    && row == was.(state := if was.cancelRequestedAt.Some? then Canceled
                            else if was.attempt < was.maxAttempts then Queued else DeadLetter,
                   nextRunAt := if was.cancelRequestedAt.None? && was.attempt < was.maxAttempts then now + backoff
                                else was.nextRunAt,
                   leaseOwner := None, leaseToken := was.leaseToken + 1, leaseExpiresAt := None, updatedAt := now)
  }

  predicate TakenBackAt(t: Table, t': Table, k: Key, now: int, backoff: int) {
    k in t && k in t' && ReclaimedNow(t[k], t'[k], now, backoff)
  }

  predicate NotRunOut(r: Job, now: int) {
    r.leaseExpiresAt.None? || now < r.leaseExpiresAt.value
  }

  /** The batch is the `limit` longest expired of the unlocked leases, or all of them if there
      are fewer. */
  ghost predicate LongestExpired(t: Table, batch: set<Key>, limit: int, locked: set<Key>, now: int) {
    var expired := ExpiredRows(t, locked, now);
    && batch <= expired && |batch| == (if limit <= |expired| then limit else |expired|)
    && forall b, c | b in batch && c in expired - batch :: t[b].leaseExpiresAt.value <= t[c].leaseExpiresAt.value
  }

  /** If the batch is not full, no other unlocked lease has run out. */
  lemma NoneOverlooked(t: Table, batch: set<Key>, batchSize: int, locked: set<Key>, now: int, k: Key)
    requires TableOk(t) && LongestExpired(t, batch, batchSize, locked, now) && |batch| < batchSize
    requires k in t && k !in locked && k !in batch
    ensures NotRunOut(t[k], now)
  {
    assert RowOk(t[k]);
    if k in ExpiredRows(t, locked, now) {
      SmallerWithout(batch, ExpiredRows(t, locked, now), k);
    }
  }

  lemma BatchIsTakenBack(t: Table, batch: set<Key>, batchSize: int, locked: set<Key>, now: int, backoff: int)
    requires TableOk(t) && LongestExpired(t, batch, batchSize, locked, now)
    ensures var t' := map k | k in t :: if k in batch then ReclaimedRow(t[k], now, backoff) else t[k];
            && t' == Apply(t, Reclaim(batch, now, backoff))
            && forall k | k in batch :: k !in locked && TakenBackAt(t, t', k, now, backoff)
    ensures |batch| < batchSize ==> forall k | k in t && k !in locked && k !in batch :: NotRunOut(t[k], now)
  {
    ReclaimBatch(t, Reclaim(batch, now, backoff));
    if |batch| < batchSize {
      forall k | k in t && k !in locked && k !in batch ensures NotRunOut(t[k], now) {
        NoneOverlooked(t, batch, batchSize, locked, now, k);
      }
    }
  }

  /** What a failure makes of a row: queued, dead-lettered or failed by retryability and the
      attempts left, with the report stored and the token and any cancellation request kept. */
  predicate FailedAs(was: Job, row: Job, input: FailInput, now: int) {
    && (row.state.Queued? <==> input.retryable && was.attempt < was.maxAttempts)
    && (row.state.DeadLetter? <==> input.retryable && was.attempt == was.maxAttempts)
    && (row.state.Failed? <==> !input.retryable)
    && row.nextRunAt == (if row.state.Queued? then now + input.backoff else was.nextRunAt)
    && row.leaseToken == was.leaseToken && row.leaseOwner.None? && row.leaseExpiresAt.None?
    && row.cancelRequestedAt == was.cancelRequestedAt && row.attempt == was.attempt && row.response == was.response
    && row.failureCode == NullIfBlank(input.failureCode) && row.failureMessage == NullIfBlank(input.failureMessage)
  }

  lemma FailedRowIsRight(r: Job, input: FailInput, now: int)
    requires r.attempt <= r.maxAttempts
    ensures FailedAs(r, FailedRow(r, now, input.retryable, input.backoff, input.failureCode, input.failureMessage),
                     input, now)
  {
  }

  // ---- What reaches the database

  /** Some text that is not all white space, of at most so many characters. */
  predicate Visible(s: string, max: nat) {
    |s| <= max && exists i | 0 <= i < |s| :: !IsSpace(s[i])
  }

  predicate CheckedKey(k: Key) {
    Visible(k.tenant, MAX_TENANT_ID_LENGTH) && Visible(k.id, MAX_JOB_ID_LENGTH)
  }

  predicate CheckedFence(f: Fence) {
    CheckedKey(f.key) && Visible(f.owner, MAX_LEASE_OWNER_LENGTH) && f.token >= 1
  }

  /** A job names an agent or a capability, and may be attempted at least once. */
  predicate CheckedJob(k: Key, idempotencyKey: string, agentId: string, requiredCapability: string, maxAttempts: int) {
    && CheckedKey(k) && Visible(idempotencyKey, MAX_IDEMPOTENCY_KEY_LENGTH)
    && |agentId| <= MAX_ROUTING_VALUE_LENGTH && |requiredCapability| <= MAX_ROUTING_VALUE_LENGTH
    && (Visible(agentId, MAX_ROUTING_VALUE_LENGTH) || Visible(requiredCapability, MAX_ROUTING_VALUE_LENGTH))
    && 1 <= maxAttempts <= MAX_ALLOWED_ATTEMPTS
  }

  /** The statement is within the limits of the ledger. */
  predicate Checked(s: Statement) {
    match s
    case Insert(k, input, _) =>
      && CheckedJob(k, input.idempotencyKey, input.agentId, input.requiredCapability, input.maxAttempts)
      && |input.request| <= MAX_JOB_PAYLOAD_BYTES
    case Acquire(batch, owner, _, lease) =>
      |batch| <= MAX_JOB_BATCH_SIZE && Visible(owner, MAX_LEASE_OWNER_LENGTH) && 1 <= lease <= MAX_JOB_LEASE_DURATION
    case Reclaim(batch, _, backoff) => |batch| <= MAX_JOB_BATCH_SIZE && 0 <= backoff <= MAX_RETRY_BACKOFF
    case Cancel(k, _) => CheckedKey(k)
    case Renew(f, _, lease) => CheckedFence(f) && 1 <= lease <= MAX_JOB_LEASE_DURATION
    case Complete(f, _, response) => CheckedFence(f) && |response| <= MAX_JOB_PAYLOAD_BYTES
    case Fail(f, _, _, backoff, code, message) =>
      && CheckedFence(f) && 0 <= backoff <= MAX_RETRY_BACKOFF
      && |code| <= MAX_FAILURE_CODE_LENGTH && |message| <= MAX_FAILURE_MESSAGE_LENGTH
    case MarkRunning(f, _) => CheckedFence(f)
    case Acknowledge(f, _) => CheckedFence(f)
  }

  lemma VisibleIffNotBlank(s: string, max: nat)
    ensures Visible(s, max) <==> !Blank(s) && |s| <= max
  {
  }

  lemma CheckedKeyIffValid(k: Key)
    ensures CheckedKey(k) <==> ValidKey(k)
  {
    VisibleIffNotBlank(k.tenant, MAX_TENANT_ID_LENGTH);
    VisibleIffNotBlank(k.id, MAX_JOB_ID_LENGTH);
  }

  lemma CheckedFenceIffValid(f: Fence)
    ensures CheckedFence(f) <==> ValidFence(f)
  {
    CheckedKeyIffValid(f.key);
    VisibleIffNotBlank(f.owner, MAX_LEASE_OWNER_LENGTH);
  }

  lemma CheckedFailIffValid(input: FailInput, now: int)
    ensures ValidFail(input) <==>
              Checked(Fail(input.fence, now, input.retryable, input.backoff, input.failureCode, input.failureMessage))
  {
    CheckedFenceIffValid(input.fence);
  }

  lemma CheckedJobIffValid(input: CreateInput)
    ensures ValidCreate(input) <==>
              && CheckedJob(input.key, input.idempotencyKey, input.agentId, input.requiredCapability, input.maxAttempts)
              && !input.request.NilPayload?
  {
    CheckedKeyIffValid(input.key);
    VisibleIffNotBlank(input.idempotencyKey, MAX_IDEMPOTENCY_KEY_LENGTH);
    VisibleIffNotBlank(input.agentId, MAX_ROUTING_VALUE_LENGTH);
    VisibleIffNotBlank(input.requiredCapability, MAX_ROUTING_VALUE_LENGTH);
  }

  class PostgresJobRepository {
    var rows: Table
    ghost var history: Run
    const digest: Fingerprint -> string

    ghost predicate Valid()
      reads this
    {
      IsRun(history) && rows == history.states[|history.steps|] && forall s | s in history.steps :: Checked(s)
    }

    constructor (digest: Fingerprint -> string)
      ensures Valid() && rows == map[] && this.digest == digest
    {
      this.digest := digest;
      rows, history := map[], EMPTY_RUN;
    }

    /** Whatever methods have been called, every row has its shape, keys are unique, and nothing
        beyond the limits of the ledger was ever sent to it. */
    lemma ValidMeansTableOk()
      requires Valid()
      ensures TableOk(rows) && forall s | s in history.steps :: Checked(s)
    {
      StatesKeepShape(history, |history.steps|);
    }

    ghost method Record(s: Statement)
      requires IsRun(history) && WellFormed(s) && Checked(s) && forall s | s in history.steps :: Checked(s)
      modifies this`history
      ensures IsRun(history) && history == Extend(old(history), s) && forall s | s in history.steps :: Checked(s)
      ensures history.states[|history.steps|] == Apply(old(history.states[|history.steps|]), s)
    {
      ExtendIsRun(history, s);
      history := Extend(history, s);
    }

    function HashOf(input: CreateInput): string
      requires input.request.Encoded?
    {
      digest(Fingerprint(input.request.bytes, TrimSpace(input.agentId),
                         TrimSpace(input.requiredCapability), input.maxAttempts))
    }

    function RowOf(input: CreateInput): NewJob
      requires input.request.Encoded?
    {
      NewJob(input.idempotencyKey, HashOf(input), input.request.bytes, input.agentId,
             input.requiredCapability, input.maxAttempts, input.nextRunAt)
    }

    /** Why CreateJob refuses before touching the ledger. */
    function CreateRefusal(input: CreateInput): Option<StoreError> {
      if !ValidCreate(input) then Some(InvalidInput)
      else if PayloadError(input.request).Some? then PayloadError(input.request)
      else if input.requestHash != "" && !EqualFold(input.requestHash, HashOf(input)) then Some(RequestHashMismatch)
      else None
    }

    method CreateJob(input: CreateInput, now: int) returns (r: Result<Snapshot, StoreError>)
      requires Valid()
      modifies this
      ensures Valid()
      ensures CreateRefusal(input).Some? ==>
                r == Err(CreateRefusal(input).value) && rows == old(rows) && history == old(history)
      ensures CreateRefusal(input).None? ==>
                history == Extend(old(history), Insert(input.key, RowOf(input), now))
                && match old(Lookup(rows, input.key.tenant, input.idempotencyKey))
                   case Some(original) =>
                     && rows == old(rows)
                     && r == (if old(rows)[original].requestHash == HashOf(input)
                              then Ok(Snapshot(original, old(rows)[original])) else Err(IdempotencyConflict))
                   case None =>
                     if input.key in old(rows) then rows == old(rows) && r == Err(JobIdConflict)
                     else
                       && rows == old(rows)[input.key := NewRow(RowOf(input), now)]
                       && r == Ok(Snapshot(input.key, rows[input.key]))
      ensures var checked := CheckedJob(input.key, input.idempotencyKey, input.agentId, input.requiredCapability,
                                        input.maxAttempts);
              var tooLarge := input.request.Encoded? && |input.request.bytes| > MAX_JOB_PAYLOAD_BYTES;
              && (r == Err(InvalidInput) <==> !checked || input.request.NilPayload?)
              && (r == Err(MarshalFailed) <==> checked && input.request.BadPayload?)
              && (r == Err(PayloadTooLarge) <==> checked && tooLarge)
              && (r == Err(RequestHashMismatch) <==>
                    checked && input.request.Encoded? && !tooLarge && input.requestHash != ""
                    && !EqualFold(input.requestHash,
                                  digest(Fingerprint(input.request.bytes, TrimSpace(input.agentId),
                                                     TrimSpace(input.requiredCapability), input.maxAttempts))))
      ensures input.key in rows && input.key !in old(rows) ==>
                && input.request.Encoded?
                && rows[input.key] == Job(
                     idempotencyKey := input.idempotencyKey,
                     requestHash := digest(Fingerprint(input.request.bytes, TrimSpace(input.agentId),
                                                       TrimSpace(input.requiredCapability), input.maxAttempts)),
                     request := input.request.bytes,
                     agentId := if SqlTrim(input.agentId) == "" then None else Some(SqlTrim(input.agentId)),
                     requiredCapability := if SqlTrim(input.requiredCapability) == "" then None
                                           else Some(SqlTrim(input.requiredCapability)),
                     state := Queued, attempt := 0, maxAttempts := input.maxAttempts,
                     nextRunAt := if input.nextRunAt.Some? then input.nextRunAt.value else now,
                     leaseOwner := None, leaseToken := 0, leaseExpiresAt := None, response := None,
                     failureCode := None, failureMessage := None, cancelRequestedAt := None,
                     createdAt := now, updatedAt := now)
    {
      ValidMeansTableOk();
      CheckedJobIffValid(input);
      var refusal := CreateRefusal(input);
      if refusal.Some? {
        return Err(refusal.value);
      }
      ghost var s := Insert(input.key, RowOf(input), now);
      Record(s);
      if !Conflicts(rows, input.key, input.idempotencyKey) {
        rows := rows[input.key := NewRow(RowOf(input), now)];
        return Ok(Snapshot(input.key, rows[input.key]));
      }
      if k :| k in rows && k.tenant == input.key.tenant && rows[k].idempotencyKey == input.idempotencyKey {
        if rows[k].requestHash == HashOf(input) {
          return Ok(Snapshot(k, rows[k]));
        }
        return Err(IdempotencyConflict);
      }
      return Err(JobIdConflict);
    }

    method GetJob(key: Key) returns (r: Result<Snapshot, StoreError>)
      ensures r == if !ValidKey(key) then Err(InvalidInput)
                   else if key in rows then Ok(Snapshot(key, rows[key])) else Err(JobNotFound)
    {
      if !ValidKey(key) {
        return Err(InvalidInput);
      }
      if key in rows {
        return Ok(Snapshot(key, rows[key]));
      }
      return Err(JobNotFound);
    }

    /** What a fenced write reports when it matched no row. */
    function MissError(t: Table, key: Key, reportCancellation: bool): StoreError {
      if key !in t then JobNotFound
      else if reportCancellation && t[key].cancelRequestedAt.Some? then CancellationRequested
      else LeaseLost
    }

    method HandleLeaseMutationMiss(key: Key, reportCancellation: bool) returns (e: StoreError)
      ensures e == MissError(rows, key, reportCancellation)
    {
      if key !in rows {
        return JobNotFound;
      }
      if reportCancellation && rows[key].cancelRequestedAt.Some? {
        return CancellationRequested;
      }
      return LeaseLost;
    }

    method MarkRunning(fence: Fence, now: int) returns (r: Result<(), StoreError>)
      requires Valid()
      modifies this
      ensures Valid()
      ensures !ValidFence(fence) ==> r == Err(InvalidInput) && rows == old(rows) && history == old(history)
      ensures ValidFence(fence) ==>
                && history == Extend(old(history), Statement.MarkRunning(fence, now))
                && r == if fence.key in old(rows) && CanRun(old(rows)[fence.key], fence, now) then Ok(())
                        else Err(MissError(old(rows), fence.key, true))
      ensures r.Err? ==> r.error == if !CheckedFence(fence) then InvalidInput
                                    else if fence.key !in old(rows) then JobNotFound
                                    else if old(rows)[fence.key].cancelRequestedAt.Some? then CancellationRequested
                                    else LeaseLost
      ensures r.Ok? ==> rows == old(rows)[fence.key := old(rows)[fence.key].(state := Running, updatedAt := now)]
      ensures r.Err? ==> rows == old(rows)
    {
      CheckedFenceIffValid(fence);
      if !ValidFence(fence) {
        return Err(InvalidInput);
      }
      Record(Statement.MarkRunning(fence, now));
      OneRowOnly(rows, Statement.MarkRunning(fence, now), fence.key);
      if fence.key in rows && CanRun(rows[fence.key], fence, now) {
        rows := rows[fence.key := rows[fence.key].(state := Running, updatedAt := now)];
        return Ok(());
      }
      var e := HandleLeaseMutationMiss(fence.key, true);
      return Err(e);
    }

    method RenewLease(fence: Fence, duration: int, now: int) returns (r: Result<(), StoreError>)
      requires Valid()
      modifies this
      ensures Valid()
      ensures !ValidFence(fence) || !ValidLease(duration) ==>
                r == Err(InvalidInput) && rows == old(rows) && history == old(history)
      ensures ValidFence(fence) && ValidLease(duration) ==>
                && history == Extend(old(history), Renew(fence, now, duration))
                && r == if fence.key in old(rows) && HeldLive(old(rows)[fence.key], fence, now) then Ok(())
                        else Err(MissError(old(rows), fence.key, false))
      ensures r.Err? ==> r.error == if !CheckedFence(fence) || duration < 1 || duration > MAX_JOB_LEASE_DURATION
                                    then InvalidInput
                                    else if fence.key !in old(rows) then JobNotFound else LeaseLost
      ensures r.Ok? ==> rows == old(rows)[fence.key :=
                old(rows)[fence.key].(leaseExpiresAt := Some(now + duration), updatedAt := now)]
      ensures r.Err? ==> rows == old(rows)
    {
      CheckedFenceIffValid(fence);
      if !ValidFence(fence) || !ValidLease(duration) {
        return Err(InvalidInput);
      }
      Record(Renew(fence, now, duration));
      OneRowOnly(rows, Renew(fence, now, duration), fence.key);
      if fence.key in rows && HeldLive(rows[fence.key], fence, now) {
        rows := rows[fence.key := rows[fence.key].(leaseExpiresAt := Some(now + duration), updatedAt := now)];
        return Ok(());
      }
      var e := HandleLeaseMutationMiss(fence.key, false);
      return Err(e);
    }

    method CompleteJob(fence: Fence, response: Payload, now: int) returns (r: Result<(), StoreError>)
      requires Valid()
      modifies this
      ensures Valid()
      ensures !ValidFence(fence) ==> r == Err(InvalidInput)
      ensures ValidFence(fence) && PayloadError(response).Some? ==> r == Err(PayloadError(response).value)
      ensures !ValidFence(fence) || PayloadError(response).Some? ==> rows == old(rows) && history == old(history)
      ensures ValidFence(fence) && PayloadError(response).None? ==>
                && history == Extend(old(history), Complete(fence, now, response.bytes))
                && r == if fence.key in old(rows) && HeldLive(old(rows)[fence.key], fence, now) then Ok(())
                        else Err(MissError(old(rows), fence.key, false))
      ensures r.Err? ==> r.error == if !CheckedFence(fence) then InvalidInput
                                    else if !response.Encoded? then MarshalFailed
                                    else if |response.bytes| > MAX_JOB_PAYLOAD_BYTES then PayloadTooLarge
                                    else if fence.key !in old(rows) then JobNotFound else LeaseLost
      ensures r.Ok? ==> rows == old(rows)[fence.key :=
                old(rows)[fence.key].(state := Succeeded, response := Some(response.bytes),
                                      leaseOwner := None, leaseExpiresAt := None, updatedAt := now)]
      ensures r.Err? ==> rows == old(rows)
    {
      CheckedFenceIffValid(fence);
      if !ValidFence(fence) {
        return Err(InvalidInput);
      }
      if PayloadError(response).Some? {
        return Err(PayloadError(response).value);
      }
      Record(Complete(fence, now, response.bytes));
      OneRowOnly(rows, Complete(fence, now, response.bytes), fence.key);
      if fence.key in rows && HeldLive(rows[fence.key], fence, now) {
        rows := rows[fence.key := CompletedRow(rows[fence.key], now, response.bytes)];
        return Ok(());
      }
      var e := HandleLeaseMutationMiss(fence.key, false);
      return Err(e);
    }

    method FailJob(input: FailInput, now: int) returns (r: Result<(), StoreError>)
      requires Valid()
      modifies this
      ensures Valid()
      ensures !ValidFail(input) ==> r == Err(InvalidInput) && rows == old(rows) && history == old(history)
      ensures ValidFail(input) ==>
                && history == Extend(old(history), Fail(input.fence, now, input.retryable, input.backoff,
                                                        input.failureCode, input.failureMessage))
                && r == if input.fence.key in old(rows) && HeldLive(old(rows)[input.fence.key], input.fence, now)
                        then Ok(()) else Err(MissError(old(rows), input.fence.key, false))
      ensures r.Err? ==> r.error == if !Checked(Fail(input.fence, now, input.retryable, input.backoff,
                                                     input.failureCode, input.failureMessage))
                                    then InvalidInput
                                    else if input.fence.key !in old(rows) then JobNotFound else LeaseLost
      ensures r.Ok? ==>
                && input.fence.key in rows && rows == old(rows)[input.fence.key := rows[input.fence.key]]
                && FailedAs(old(rows)[input.fence.key], rows[input.fence.key], input, now)
      ensures r.Err? ==> rows == old(rows)
    {
      CheckedFailIffValid(input, now);
      if !ValidFail(input) {
        return Err(InvalidInput);
      }
      ValidMeansTableOk();
      var f := input.fence;
      ghost var s := Fail(f, now, input.retryable, input.backoff, input.failureCode, input.failureMessage);
      Record(s);
      OneRowOnly(rows, s, f.key);
      if f.key in rows && HeldLive(rows[f.key], f, now) {
        FailedRowIsRight(rows[f.key], input, now);
        rows := rows[f.key := FailedRow(rows[f.key], now, input.retryable, input.backoff,
                                        input.failureCode, input.failureMessage)];
        return Ok(());
      }
      var e := HandleLeaseMutationMiss(f.key, false);
      return Err(e);
    }

    method CancelJob(key: Key, now: int) returns (r: Result<(), StoreError>)
      requires Valid()
      modifies this
      ensures Valid()
      ensures !ValidKey(key) ==> r == Err(InvalidInput) && history == old(history)
      ensures ValidKey(key) ==> history == Extend(old(history), Cancel(key, now))
      ensures ValidKey(key) ==> r == if key in old(rows) then Ok(()) else Err(JobNotFound)
      ensures r == Err(InvalidInput) <==> !CheckedKey(key)
      ensures r.Err? ==> rows == old(rows)
      ensures r.Ok? ==>
                var was, row := old(rows)[key], rows[key];
                && rows == old(rows)[key := row]
                && row == was.(state := row.state, cancelRequestedAt := row.cancelRequestedAt, updatedAt := row.updatedAt)
                && (was.state.IsTerminal() ==> row == was)
                && (!was.state.IsTerminal() ==>
                      && row.cancelRequestedAt == (if was.cancelRequestedAt.Some? then was.cancelRequestedAt else Some(now))
                      && row.state == (if was.state.Queued? then Canceled else was.state)
                      && Held(row, Fence(key, if was.leaseOwner.Some? then was.leaseOwner.value else "", was.leaseToken))
                         == was.state.HoldsLease())
    {
      CheckedKeyIffValid(key);
      if !ValidKey(key) {
        return Err(InvalidInput);
      }
      ValidMeansTableOk();
      Record(Cancel(key, now));
      OneRowOnly(rows, Cancel(key, now), key);
      if key !in rows {
        return Err(JobNotFound);
      }
      rows := rows[key := CanceledRow(rows[key], now)];
      return Ok(());
    }

    method AcknowledgeCancellation(fence: Fence, now: int) returns (r: Result<(), StoreError>)
      requires Valid()
      modifies this
      ensures Valid()
      ensures !ValidFence(fence) ==> r == Err(InvalidInput) && history == old(history)
      ensures ValidFence(fence) ==>
                && history == Extend(old(history), Acknowledge(fence, now))
                && r == if fence.key in old(rows) && CanAcknowledge(old(rows)[fence.key], fence, now) then Ok(())
                        else Err(MissError(old(rows), fence.key, false))
      ensures r.Err? ==> r.error == if !CheckedFence(fence) then InvalidInput
                                    else if fence.key !in old(rows) then JobNotFound else LeaseLost
      ensures r.Ok? ==> rows == old(rows)[fence.key :=
                old(rows)[fence.key].(state := Canceled, leaseOwner := None, leaseExpiresAt := None, updatedAt := now)]
      ensures r.Err? ==> rows == old(rows)
    {
      CheckedFenceIffValid(fence);
      if !ValidFence(fence) {
        return Err(InvalidInput);
      }
      Record(Acknowledge(fence, now));
      OneRowOnly(rows, Acknowledge(fence, now), fence.key);
      if fence.key in rows && CanAcknowledge(rows[fence.key], fence, now) {
        rows := rows[fence.key := AcknowledgedRow(rows[fence.key], now)];
        return Ok(());
      }
      var e := HandleLeaseMutationMiss(fence.key, false);
      return Err(e);
    }

    /** WITH ready: the jobs to lease. */
    method SelectReady(batchSize: int, locked: set<Key>, now: int) returns (batch: set<Key>)
      requires batchSize >= 0
      ensures FirstByRank(rows, batch, ReadyRows(rows, locked, now), batchSize)
    {
      var ready := ReadyRows(rows, locked, now);
      var rank := map k | k in ready :: LeaseRank(rows[k]);
      batch := SelectSmallest(ready, rank, batchSize);
      forall b, c | b in batch && c in ready - batch ensures RankLe(LeaseRank(rows[b]), LeaseRank(rows[c])) {
        assert RankLe(rank[b], rank[c]);
      }
    }

    /** `locked` are the rows that concurrent transactions hold: FOR UPDATE SKIP LOCKED. */
    method AcquireLeases(owner: string, batchSize: int, duration: int, locked: set<Key>, now: int)
      returns (r: Result<seq<Snapshot>, StoreError>)
      requires Valid()
      modifies this
      ensures Valid()
      ensures r.Ok? <==> Visible(owner, MAX_LEASE_OWNER_LENGTH) && 1 <= batchSize <= MAX_JOB_BATCH_SIZE
                         && 1 <= duration <= MAX_JOB_LEASE_DURATION
      ensures r.Err? ==> r.error == InvalidInput && rows == old(rows) && history == old(history)
      ensures r.Ok? ==>
                && history == Extend(old(history), Acquire(KeysOf(r.value), owner, now, duration))
                && FirstByRank(old(rows), KeysOf(r.value), ReadyRows(old(rows), locked, now), batchSize)
                && KeysOf(r.value) !! locked && |r.value| == |KeysOf(r.value)|
                && Sorted(r.value) && DistinctKeys(r.value)
                && forall s | s in r.value :: s.key in rows && s.job == rows[s.key]
      ensures r.Ok? ==> forall s | s in r.value ::
                s.key in old(rows) && LeasedNow(old(rows)[s.key], s.job, owner, now, duration)
      ensures r.Ok? ==> NonePassedOver(old(rows), r.value, batchSize, locked, now)
    {
      VisibleIffNotBlank(owner, MAX_LEASE_OWNER_LENGTH);
      if !ValidOwner(owner) || !ValidBatchSize(batchSize) || !ValidLease(duration) {
        return Err(InvalidInput);
      }
      var batch := SelectReady(batchSize, locked, now);
      AcquireBatch(rows, Acquire(batch, owner, now, duration));
      Record(Acquire(batch, owner, now, duration));
      rows := map k | k in rows :: if k in batch then AcquiredRow(rows[k], owner, now, duration) else rows[k];
      var jobs := Returning(batch, rows);
      jobs := SortJobs(jobs);
      assert KeysOf(jobs) == batch;
      BatchInColumns(old(rows), jobs, batch, batchSize, locked, owner, now, duration);
      return Ok(jobs);
    }

    /** WITH expired: the leases to take back. */
    method SelectExpired(batchSize: int, locked: set<Key>, now: int) returns (batch: set<Key>)
      requires Valid() && batchSize >= 0
      ensures LongestExpired(rows, batch, batchSize, locked, now)
    {
      var expired := ExpiredRows(rows, locked, now);
      var rank := map k | k in expired :: (rows[k].leaseExpiresAt.value, 0);
      batch := SelectSmallest(expired, rank, batchSize);
      forall b, c | b in batch && c in expired - batch
        ensures rows[b].leaseExpiresAt.value <= rows[c].leaseExpiresAt.value
      {
        assert RankLe(rank[b], rank[c]);
      }
    }

    method ReclaimExpiredLeases(batchSize: int, backoff: int, locked: set<Key>, now: int)
      returns (r: Result<nat, StoreError>, ghost batch: set<Key>)
      requires Valid()
      modifies this
      ensures Valid()
      ensures r.Ok? <==> 1 <= batchSize <= MAX_JOB_BATCH_SIZE && 0 <= backoff <= MAX_RETRY_BACKOFF
      ensures r.Err? ==> r.error == InvalidInput && rows == old(rows) && history == old(history)
      ensures r.Ok? ==>
                && history == Extend(old(history), Reclaim(batch, now, backoff)) && r.value == |batch|
                && LongestExpired(old(rows), batch, batchSize, locked, now)
                && rows == map k | k in old(rows) ::
                     if k in batch then ReclaimedRow(old(rows)[k], now, backoff) else old(rows)[k]
      ensures r.Ok? ==> forall k | k in batch :: k !in locked && TakenBackAt(old(rows), rows, k, now, backoff)
      ensures r.Ok? && r.value < batchSize ==>
                forall k | k in old(rows) && k !in locked && k !in batch :: NotRunOut(old(rows)[k], now)
    {
      batch := {};
      if !ValidBatchSize(batchSize) || !ValidBackoff(backoff) {
        return Err(InvalidInput), {};
      }
      ValidMeansTableOk();
      var chosen := SelectExpired(batchSize, locked, now);
      BatchIsTakenBack(rows, chosen, batchSize, locked, now, backoff);
      Record(Reclaim(chosen, now, backoff));
      rows := map k | k in rows :: if k in chosen then ReclaimedRow(rows[k], now, backoff) else rows[k];
      return Ok(|chosen|), chosen;
    }
  }
}
