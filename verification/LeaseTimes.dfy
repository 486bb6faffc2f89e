/** The clock in whole runs of the ledger: no job is leased before it is due, and a lease lasts
    exactly as long as it was last granted for. Statements read any clock at all. */
module LeaseTimes {
  import opened Wrappers
  import opened JobModel
  import opened Ledger
  import opened LedgerRuns

  // ---- Waiting to be leased

  /** Statement m puts job k into the queue. */
  predicate QueuesAt(run: Run, m: nat, k: Key) {
    && m < |run.steps| && run.HasJob(m + 1, k) && run.JobAt(m + 1, k).state.Queued?
    && (run.HasJob(m, k) ==> !run.JobAt(m, k).state.Queued?)
  }

  /** Statement m leases job k. */
  predicate LeasesAt(run: Run, m: nat, k: Key) {
    && m < |run.steps| && run.steps[m].Acquire? && run.HasJob(m, k) && run.HasJob(m + 1, k)
    && run.JobAt(m, k).state.Queued? && run.JobAt(m + 1, k).state.Leased?
  }

  /** When a job may run that this statement queues: at the time its creator asked for, at once
      if there was none, and after the pause if it is queued again. */
  predicate DueFrom(s: Statement, at: int) {
    match s
    case Insert(_, input, now) => at == if input.nextRunAt.Some? then input.nextRunAt.value else now
    case Fail(_, now, retryable, backoff, _, _) => retryable && at == now + backoff
    case Reclaim(_, now, backoff) => at == now + backoff
    case _ => false
  }

  ghost predicate NotLeasedBetween(run: Run, m: nat, j: nat, k: Key) {
    forall p | m < p < j :: !LeasesAt(run, p, k)
  }

  /** Fences are issued by leases, and by nothing else. */
  lemma LeasesIssue(run: Run, m: nat, k: Key)
    requires IsRun(run) && m < |run.steps| && run.HasJob(m, k)
    ensures LeasesAt(run, m, k) <==>
              run.steps[m].Acquire? && Issues(run, m, Fence(k, run.steps[m].owner, run.JobAt(m, k).leaseToken + 1))
  {
    RowStep(run, m, k);
  }

  /** Only creation, a retryable failure and a reclaim queue a job, and each says for when. */
  lemma QueuedForWhen(run: Run, m: nat, k: Key)
    requires IsRun(run) && QueuesAt(run, m, k)
    ensures DueFrom(run.steps[m], run.JobAt(m + 1, k).nextRunAt)
  {
    assert WellFormed(run.steps[m]);
    if run.HasJob(m, k) {
      RowStep(run, m, k);
    }
  }

  /** A queued row stays as it is until it is leased or canceled. */
  lemma QueuedStep(run: Run, m: nat, k: Key)
    requires IsRun(run) && m < |run.steps| && run.HasJob(m, k)
    requires run.JobAt(m, k).state.Queued? || run.JobAt(m, k).state.Canceled?
    ensures run.HasJob(m + 1, k)
    ensures var r, r' := run.JobAt(m, k), run.JobAt(m + 1, k);
            && (r'.state.Queued? ==> r.state.Queued? && r'.nextRunAt == r.nextRunAt)
            && (r'.state.Queued? || r'.state.Canceled? || LeasesAt(run, m, k))
  {
    RowStep(run, m, k);
  }

  lemma {:induction false} WaitsUntilLeased(run: Run, m: nat, j: nat, k: Key)
    requires IsRun(run) && QueuesAt(run, m, k) && m < j <= |run.steps| && NotLeasedBetween(run, m, j, k)
    ensures run.HasJob(j, k)
    ensures run.JobAt(j, k).state.Canceled?
            || (run.JobAt(j, k).state.Queued? && run.JobAt(j, k).nextRunAt == run.JobAt(m + 1, k).nextRunAt)
    decreases j
  {
    if m + 1 < j {
      WaitsUntilLeased(run, m, j - 1, k);
      QueuedStep(run, j - 1, k);
    }
  }

  /** A statement that looks at a queued job leases it exactly if its clock has reached the time
      the job is due. */
  lemma LeasedIffDue(run: Run, j: nat, k: Key)
    requires IsRun(run) && j < |run.steps| && run.steps[j].Acquire? && run.HasJob(j, k)
    ensures var r := run.JobAt(j, k);
            LeasesAt(run, j, k) <==> k in run.steps[j].batch && r.state.Queued? && r.nextRunAt <= run.steps[j].now
  {
    RowStep(run, j, k);
  }

  /** NOT BEFORE IT IS DUE. The first lease of a job after it was created or queued again reads a
      clock no earlier than the time it was created for, or the end of the pause. */
  lemma NotLeasedEarly(run: Run, m: nat, j: nat, k: Key) returns (due: int)
    requires IsRun(run) && QueuesAt(run, m, k) && LeasesAt(run, j, k) && m < j && NotLeasedBetween(run, m, j, k)
    ensures DueFrom(run.steps[m], due) && due <= run.steps[j].now
  {
    QueuedForWhen(run, m, k);
    WaitsUntilLeased(run, m, j, k);
    LeasedIffDue(run, j, k);
    due := run.JobAt(m + 1, k).nextRunAt;
  }

  lemma {:induction false} QueuedSometime(run: Run, j: nat, k: Key) returns (m: nat)
    requires IsRun(run) && run.HasJob(j, k) && run.JobAt(j, k).state.Queued?
    ensures m < j && QueuesAt(run, m, k) && NotLeasedBetween(run, m, j, k)
    decreases j
  {
    if QueuesAt(run, j - 1, k) {
      m := j - 1;
    } else {
      m := QueuedSometime(run, j - 1, k);
      QueuedStep(run, j - 1, k);
    }
  }

  /** EVERY LEASE WAITED. Behind every lease there is a statement that queued the job, with no
      lease in between, and the lease was not taken before that statement allowed it. */
  lemma EveryLeaseWaited(run: Run, j: nat, k: Key) returns (m: nat, due: int)
    requires IsRun(run) && LeasesAt(run, j, k)
    ensures m < j && QueuesAt(run, m, k) && NotLeasedBetween(run, m, j, k)
    ensures DueFrom(run.steps[m], due) && due <= run.steps[j].now
  {
    m := QueuedSometime(run, j, k);
    due := NotLeasedEarly(run, m, j, k);
  }

  // ---- How long a lease lasts

  /** Statement p grants the lease that f names, as its acquire or as a renewal that its holder
      sent in time. */
  predicate Grants(run: Run, p: nat, f: Fence) {
    && p < |run.steps| && run.HasJob(p, f.key) && run.HasJob(p + 1, f.key)
    && ((LeasesAt(run, p, f.key) && f.owner == run.steps[p].owner && f.token == run.JobAt(p + 1, f.key).leaseToken)
        || (run.steps[p].Renew? && run.steps[p].fence == f && Live(run.JobAt(p, f.key), f, run.steps[p].now)))
  }

  /** When the lease runs out that this statement grants. */
  function RunsOut(s: Statement): int
    requires s.Acquire? || s.Renew?
  {
    s.now + s.lease
  }

  /** The last grant of f before statement j. */
  ghost predicate LastGrant(run: Run, p: nat, j: nat, f: Fence) {
    p < j && Grants(run, p, f) && forall q | p < q < j :: !Grants(run, q, f)
  }

  lemma ExpiryStep(run: Run, m: nat, f: Fence)
    requires IsRun(run) && m < |run.steps| && run.HasJob(m + 1, f.key) && Held(run.JobAt(m + 1, f.key), f)
    ensures run.HasJob(m, f.key)
    ensures if Grants(run, m, f) then run.JobAt(m + 1, f.key).leaseExpiresAt == Some(RunsOut(run.steps[m]))
            else Held(run.JobAt(m, f.key), f)
                 && run.JobAt(m + 1, f.key).leaseExpiresAt == run.JobAt(m, f.key).leaseExpiresAt
  {
    assert WellFormed(run.steps[m]);
    assert run.HasJob(m, f.key);
    RowStep(run, m, f.key);
    RowOfStep(run.steps[m], f.key, run.JobAt(m, f.key), f);
  }

  lemma RowOfStep(s: Statement, k: Key, r: Job, f: Fence)
    requires RowOk(r) && f.key == k && Held(OnRow(s, k, r), f)
    ensures var r' := OnRow(s, k, r);
            || (s.Acquire? && r.state.Queued? && r'.state.Leased? && f.owner == s.owner && f.token == r'.leaseToken
                && r'.leaseExpiresAt == Some(s.now + s.lease))
            || (s.Renew? && s.fence == f && Live(r, f, s.now) && r'.leaseExpiresAt == Some(s.now + s.lease))
            || (Held(r, f) && r'.leaseExpiresAt == r.leaseExpiresAt && !(s.Renew? && s.fence == f && Live(r, f, s.now))
                && !(s.Acquire? && r.state.Queued?))
  {
  }

  lemma {:induction false} ExpiryWasGranted(run: Run, j: nat, f: Fence) returns (p: nat)
    requires IsRun(run) && run.HasJob(j, f.key) && Held(run.JobAt(j, f.key), f)
    ensures LastGrant(run, p, j, f) && run.JobAt(j, f.key).leaseExpiresAt == Some(RunsOut(run.steps[p]))
    decreases j
  {
    ExpiryStep(run, j - 1, f);
    if Grants(run, j - 1, f) {
      p := j - 1;
    } else {
      p := ExpiryWasGranted(run, j - 1, f);
    }
  }

  /** AS LONG AS GRANTED. While nothing has moved the lease that f names, a completion, failure or
      renewal under f is accepted if and only if its clock is before the end of the last grant. */
  lemma AcceptedIffInTime(run: Run, i: nat, j: nat, f: Fence) returns (p: nat)
    requires IsRun(run) && Issues(run, i, f) && i < j < |run.steps| && Unmoved(run, i, j, f.key)
    requires var s := run.steps[j]; (s.Complete? || s.Fail? || s.Renew?) && s.fence == f
    ensures LastGrant(run, p, j, f)
    ensures AcceptedAt(run, j, f) <==> run.steps[j].now < RunsOut(run.steps[p])
  {
    HeldIffNotMoved(run, i, j, f);
    p := ExpiryWasGranted(run, j, f);
  }

  /** Statement j takes the lease back that f names. */
  predicate TakesBack(run: Run, j: nat, f: Fence) {
    && j < |run.steps| && run.steps[j].Reclaim? && run.HasJob(j, f.key) && run.HasJob(j + 1, f.key)
    && run.JobAt(j, f.key) != run.JobAt(j + 1, f.key)
  }

  /** NOT TAKEN BACK EARLY. A lease in force is taken back by a reclaim that looks at it if and
      only if its clock has reached the end of the last grant. */
  lemma TakenBackIffRunOut(run: Run, j: nat, f: Fence) returns (p: nat)
    requires IsRun(run) && j < |run.steps| && run.HasJob(j, f.key) && Held(run.JobAt(j, f.key), f)
    requires run.steps[j].Reclaim? && f.key in run.steps[j].batch
    ensures LastGrant(run, p, j, f)
    ensures TakesBack(run, j, f) <==> RunsOut(run.steps[p]) <= run.steps[j].now
  {
    p := ExpiryWasGranted(run, j, f);
    RowStep(run, j, f.key);
  }
}
