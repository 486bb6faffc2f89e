/** Whole runs of the ledger: any sequence of statements, from any number of processes, each
    at any reading of the clock, starting from the empty table. */
module LedgerRuns {
  import opened Wrappers
  import opened JobModel
  import opened Ledger

  /** The statements, and the table before each one and after the last. */
  datatype Run = Run(steps: seq<Statement>, states: seq<Table>) {
    predicate HasJob(i: nat, k: Key) {
      i < |states| && k in states[i]
    }

    function JobAt(i: nat, k: Key): Job
      requires HasJob(i, k)
    {
      states[i][k]
    }
  }

  ghost predicate IsRun(run: Run) {
    && |run.states| == |run.steps| + 1
    && run.states[0] == map[]
    && forall i {:trigger run.steps[i]} | 0 <= i < |run.steps| ::
         WellFormed(run.steps[i]) && run.states[i + 1] == Apply(run.states[i], run.steps[i])
  }

  lemma {:induction false} StatesKeepShape(run: Run, i: nat)
    requires IsRun(run) && i <= |run.steps|
    ensures TableOk(run.states[i])
    decreases i
  {
    if i > 0 {
      StatesKeepShape(run, i - 1);
      TableKeepsShape(run.states[i - 1], run.steps[i - 1]);
    }
  }

  const EMPTY_RUN := Run([], [map[]])

  function Extend(run: Run, s: Statement): Run
    requires |run.states| == |run.steps| + 1
  {
    Run(run.steps + [s], run.states + [Apply(run.states[|run.steps|], s)])
  }

  lemma ExtendIsRun(run: Run, s: Statement)
    requires IsRun(run) && WellFormed(s)
    ensures IsRun(Extend(run, s))
  {
  }

  /** What one statement of a run does to one row. */
  lemma RowStep(run: Run, m: nat, k: Key)
    requires IsRun(run) && m < |run.steps| && run.HasJob(m, k)
    ensures WellFormed(run.steps[m]) && RowOk(run.JobAt(m, k))
    ensures run.HasJob(m + 1, k) && run.JobAt(m + 1, k) == OnRow(run.steps[m], k, run.JobAt(m, k))
  {
    StatesKeepShape(run, m);
  }

  predicate SameRequest(a: Job, b: Job) {
    && a.idempotencyKey == b.idempotencyKey && a.requestHash == b.requestHash
    && a.request == b.request && a.maxAttempts == b.maxAttempts && a.createdAt == b.createdAt
  }

  lemma RequestStep(run: Run, m: nat, k: Key)
    requires IsRun(run) && m < |run.steps| && run.HasJob(m, k)
    ensures run.HasJob(m + 1, k) && SameRequest(run.JobAt(m, k), run.JobAt(m + 1, k))
  {
    RowStep(run, m, k);
    ImmutableColumns(run.steps[m], k, run.JobAt(m, k));
  }

  /** A job is never deleted, and its identity and request never change. */
  lemma {:induction false} JobsPersist(run: Run, i: nat, j: nat, k: Key)
    requires IsRun(run) && i <= j <= |run.steps| && run.HasJob(i, k)
    ensures run.HasJob(j, k)
    ensures SameRequest(run.JobAt(i, k), run.JobAt(j, k))
    decreases j
  {
    if i < j {
      JobsPersist(run, i, j - 1, k);
      RequestStep(run, j - 1, k);
    }
  }

  // ---- Fencing

  /** Statement i leases job f.key and hands out fence f. */
  predicate Issues(run: Run, i: nat, f: Fence) {
    && i < |run.steps| && run.HasJob(i, f.key)
    && TakesLease(run.steps[i], f.key, run.JobAt(i, f.key))
    && f.owner == run.steps[i].owner && f.token == run.JobAt(i, f.key).leaseToken + 1
  }

  /** Statement m acquires, reclaims, completes, fails or acknowledges job k. */
  predicate Moves(run: Run, m: nat, k: Key) {
    m < |run.steps| && run.HasJob(m, k) && MovesLease(run.steps[m], k, run.JobAt(m, k))
  }

  predicate Fenced(s: Statement) {
    s.MarkRunning? || s.Renew? || s.Complete? || s.Fail? || s.Acknowledge?
  }

  /** The WHERE clause of a fenced write matches the row. */
  predicate Accepts(s: Statement, r: Job)
    requires Fenced(s)
  {
    match s
    case MarkRunning(f, now) => CanRun(r, f, now)
    case Renew(f, now, _) => HeldLive(r, f, now)
    case Complete(f, now, _) => HeldLive(r, f, now)
    case Fail(f, now, _, _, _, _) => HeldLive(r, f, now)
    case Acknowledge(f, now) => CanAcknowledge(r, f, now)
  }

  predicate AcceptedAt(run: Run, j: nat, f: Fence) {
    && j < |run.steps| && Fenced(run.steps[j]) && run.steps[j].fence == f
    && run.HasJob(j, f.key) && Accepts(run.steps[j], run.JobAt(j, f.key))
  }

  /** HoldingStep at statement m of a run. */
  lemma LeaseStep(run: Run, m: nat, f: Fence)
    requires IsRun(run) && m < |run.steps| && run.HasJob(m, f.key)
    ensures run.HasJob(m + 1, f.key)
    ensures run.JobAt(m, f.key).leaseToken <= run.JobAt(m + 1, f.key).leaseToken
    ensures Held(run.JobAt(m + 1, f.key), f) <==> (Held(run.JobAt(m, f.key), f) && !Moves(run, m, f.key)) || Issues(run, m, f)
    ensures Moves(run, m, f.key) && run.JobAt(m, f.key).leaseToken >= f.token ==> Gone(run.JobAt(m + 1, f.key), f)
    ensures Issues(run, m, f) ==> Moves(run, m, f.key) && run.JobAt(m + 1, f.key).leaseToken == f.token
  {
    StatesKeepShape(run, m);
    HoldingStep(run.steps[m], f.key, run.JobAt(m, f.key), f);
  }

  lemma TokenStep(run: Run, m: nat, k: Key)
    requires IsRun(run) && m < |run.steps| && run.HasJob(m, k)
    ensures run.HasJob(m + 1, k) && run.JobAt(m, k).leaseToken <= run.JobAt(m + 1, k).leaseToken
  {
    LeaseStep(run, m, Fence(k, "", 0));
  }

  lemma {:induction false} TokensNeverFall(run: Run, i: nat, j: nat, k: Key)
    requires IsRun(run) && i <= j <= |run.steps| && run.HasJob(i, k)
    ensures run.HasJob(j, k) && run.JobAt(i, k).leaseToken <= run.JobAt(j, k).leaseToken
    decreases j
  {
    if i < j {
      TokensNeverFall(run, i, j - 1, k);
      TokenStep(run, j - 1, k);
    }
  }

  /** No two acquires ever hand out the same (job, token). */
  lemma TokenIssuedOnce(run: Run, i: nat, j: nat, f: Fence, g: Fence)
    requires IsRun(run) && Issues(run, i, f) && Issues(run, j, g)
    requires f.key == g.key && f.token == g.token
    ensures i == j && f == g
  {
    LeaseStep(run, i, f);
    LeaseStep(run, j, g);
    if i < j {
      TokensNeverFall(run, i + 1, j, f.key);
      assert false;
    } else if j < i {
      TokensNeverFall(run, j + 1, i, f.key);
      assert false;
    }
  }

  lemma GoneStep(run: Run, m: nat, f: Fence)
    requires IsRun(run) && m < |run.steps| && run.HasJob(m, f.key) && Gone(run.JobAt(m, f.key), f)
    ensures run.HasJob(m + 1, f.key) && Gone(run.JobAt(m + 1, f.key), f)
  {
    RowStep(run, m, f.key);
    GoneIsForGood(run.steps[m], f.key, run.JobAt(m, f.key), f);
  }

  lemma GoneIsNotHeld(run: Run, m: nat, f: Fence)
    requires IsRun(run) && m <= |run.steps| && run.HasJob(m, f.key) && Gone(run.JobAt(m, f.key), f)
    ensures !Held(run.JobAt(m, f.key), f)
  {
    StatesKeepShape(run, m);
  }

  lemma {:induction false} GoneStaysGone(run: Run, i: nat, j: nat, f: Fence)
    requires IsRun(run) && i <= j <= |run.steps| && run.HasJob(i, f.key) && Gone(run.JobAt(i, f.key), f)
    ensures run.HasJob(j, f.key) && Gone(run.JobAt(j, f.key), f) && !Held(run.JobAt(j, f.key), f)
    decreases j
  {
    if i < j {
      GoneStaysGone(run, i, j - 1, f);
      GoneStep(run, j - 1, f);
    }
    GoneIsNotHeld(run, j, f);
  }

  /** After any statement that moves the lease, a fence issued before it is dead for ever. */
  lemma MovedFenceIsDead(run: Run, i: nat, m: nat, j: nat, f: Fence)
    requires IsRun(run) && Issues(run, i, f) && i < m < j <= |run.steps| && Moves(run, m, f.key)
    ensures run.HasJob(j, f.key) && !Held(run.JobAt(j, f.key), f)
    ensures !AcceptedAt(run, j, f)
  {
    LeaseStep(run, i, f);
    TokensNeverFall(run, i + 1, m, f.key);
    LeaseStep(run, m, f);
    GoneStaysGone(run, m + 1, j, f);
  }

  /** One more statement leaves a fence current exactly if it does not move the lease. */
  lemma HeldStep(run: Run, i: nat, m: nat, f: Fence)
    requires IsRun(run) && Issues(run, i, f) && i < m < |run.steps| && run.HasJob(m, f.key)
    ensures run.HasJob(m + 1, f.key)
    ensures Held(run.JobAt(m + 1, f.key), f) <==> Held(run.JobAt(m, f.key), f) && !Moves(run, m, f.key)
  {
    LeaseStep(run, m, f);
    if Issues(run, m, f) {
      TokenIssuedOnce(run, i, m, f, f);
    }
  }

  /** No statement after i and before j moves the lease of k. */
  ghost predicate Unmoved(run: Run, i: nat, j: nat, k: Key) {
    forall m | i < m < j :: !Moves(run, m, k)
  }

  lemma UnmovedStep(run: Run, i: nat, j: nat, k: Key)
    requires i < j
    ensures Unmoved(run, i, j + 1, k) <==> Unmoved(run, i, j, k) && !Moves(run, j, k)
  {
  }

  lemma HeldAtFirst(run: Run, i: nat, f: Fence)
    requires IsRun(run) && Issues(run, i, f)
    ensures run.HasJob(i + 1, f.key) && Held(run.JobAt(i + 1, f.key), f)
  {
    LeaseStep(run, i, f);
  }

  /** A fence is current exactly while nothing has moved the lease since it was issued. */
  lemma {:induction false} HeldIffNotMoved(run: Run, i: nat, j: nat, f: Fence)
    requires IsRun(run) && Issues(run, i, f) && i < j <= |run.steps|
    ensures run.HasJob(j, f.key)
    ensures Held(run.JobAt(j, f.key), f) <==> Unmoved(run, i, j, f.key)
    decreases j
  {
    if i + 1 == j {
      HeldAtFirst(run, i, f);
    } else {
      HeldIffNotMoved(run, i, j - 1, f);
      HeldStep(run, i, j - 1, f);
      UnmovedStep(run, i, j - 1, f.key);
    }
  }

  /** Whoever holds a row got its fence from an acquire, and it is still the last word. */
  lemma {:induction false} HolderWasIssued(run: Run, j: nat, f: Fence) returns (i: nat)
    requires IsRun(run) && run.HasJob(j, f.key) && Held(run.JobAt(j, f.key), f)
    ensures i < j && Issues(run, i, f)
    decreases j
  {
    assert WellFormed(run.steps[j - 1]);
    assert run.HasJob(j - 1, f.key);
    LeaseStep(run, j - 1, f);
    if Issues(run, j - 1, f) {
      i := j - 1;
    } else {
      i := HolderWasIssued(run, j - 1, f);
    }
  }

  /** FENCING. A fenced write is accepted only under a fence that one acquire handed out, with
      no acquire, reclaim, completion, failure or acknowledgement of the job in between, by
      any process. Crashed workers and lost replies are runs like any other. */
  lemma FencingOverRuns(run: Run, j: nat, f: Fence) returns (i: nat)
    requires IsRun(run) && AcceptedAt(run, j, f)
    ensures i < j && Issues(run, i, f)
    ensures forall i' | Issues(run, i', f) :: i' == i
    ensures Unmoved(run, i, j, f.key)
    ensures forall s: Statement | Fenced(s) && s.fence.key == f.key && Accepts(s, run.JobAt(j, f.key)) :: s.fence == f
  {
    i := HolderWasIssued(run, j, f);
    HeldIffNotMoved(run, i, j, f);
    forall i' | Issues(run, i', f) ensures i' == i {
      TokenIssuedOnce(run, i, i', f, f);
    }
  }

  /** EVERY EFFECT IS ALLOWED. A statement that changes the row of a job leases it, takes it back
      or asks to cancel it, or it is a write under the fence that holds the job. */
  lemma EffectsAreAllowed(run: Run, m: nat, k: Key)
    requires IsRun(run) && m < |run.steps| && run.HasJob(m, k) && run.HasJob(m + 1, k)
    requires run.JobAt(m, k) != run.JobAt(m + 1, k)
    ensures var s, r := run.steps[m], run.JobAt(m, k);
            || ((s.Acquire? || s.Reclaim?) && k in s.batch)
            || (s.Cancel? && s.key == k)
            || ((s.MarkRunning? || s.Renew? || s.Complete? || s.Fail? || s.Acknowledge?)
                && s.fence.key == k && AcceptedAt(run, m, s.fence) && Held(r, s.fence))
  {
    RowStep(run, m, k);
  }

  lemma LeaseEnds(run: Run, m: nat, f: Fence)
    requires IsRun(run) && m < |run.steps| && run.HasJob(m, f.key) && Held(run.JobAt(m, f.key), f)
    requires run.HasJob(m + 1, f.key) && !Held(run.JobAt(m + 1, f.key), f)
    ensures var s, r := run.steps[m], run.JobAt(m, f.key);
            ReleasesLease(s, f.key, r) || ReclaimsLease(s, f.key, r)
  {
    LeaseStep(run, m, f);
  }

  /** A lease that is no longer held was released by its holder or reclaimed: it never just
      gives way to the next one. */
  lemma {:induction false} LeaseWasEnded(run: Run, i: nat, j: nat, f: Fence) returns (m: nat)
    requires IsRun(run) && Issues(run, i, f) && i < j <= |run.steps|
    requires run.HasJob(j, f.key) && !Held(run.JobAt(j, f.key), f)
    ensures i < m < j && run.HasJob(m, f.key) && Held(run.JobAt(m, f.key), f)
    ensures var s, r := run.steps[m], run.JobAt(m, f.key);
            ReleasesLease(s, f.key, r) || ReclaimsLease(s, f.key, r)
    decreases j
  {
    HeldAtFirst(run, i, f);
    JobsPersist(run, i + 1, j - 1, f.key);
    if Held(run.JobAt(j - 1, f.key), f) {
      LeaseEnds(run, j - 1, f);
      m := j - 1;
    } else {
      m := LeaseWasEnded(run, i, j - 1, f);
    }
  }

  /** LEASES DO NOT OVERLAP. Between two leases of a job the first one was released by its
      holder or reclaimed, so batches leased side by side are disjoint. */
  lemma LeasesDoNotOverlap(run: Run, i: nat, j: nat, f: Fence, g: Fence) returns (m: nat)
    requires IsRun(run) && Issues(run, i, f) && Issues(run, j, g) && f.key == g.key && i < j
    ensures i < m < j && run.HasJob(m, f.key) && Held(run.JobAt(m, f.key), f)
    ensures var s, r := run.steps[m], run.JobAt(m, f.key);
            ReleasesLease(s, f.key, r) || ReclaimsLease(s, f.key, r)
  {
    m := LeaseWasEnded(run, i, j, f);
  }

  // ---- Termination and attempts

  /** Bounds the state changes a job has left. */
  function Measure(r: Job): int {
    if r.state.IsTerminal() then 0
    else 3 * (r.maxAttempts - r.attempt) + if r.state.Leased? then 2 else if r.state.Running? then 1 else 0
  }

  lemma MeasureStep(s: Statement, k: Key, r: Job)
    requires RowOk(r)
    ensures Measure(r) >= 0
    ensures OnRow(s, k, r).state != r.state ==> Measure(OnRow(s, k, r)) < Measure(r)
    ensures OnRow(s, k, r).state == r.state ==> Measure(OnRow(s, k, r)) == Measure(r)
    ensures r.state.IsTerminal() ==> OnRow(s, k, r) == r
  {
  }

  /** How many of the first j statements changed the state of job k. */
  function StateChanges(run: Run, k: Key, j: nat): nat
    requires j < |run.states|
  {
    if j == 0 then 0
    else
      StateChanges(run, k, j - 1) + if ChangesAt(run, j - 1, k) then 1 else 0
  }

  predicate ChangesAt(run: Run, m: nat, k: Key) {
    run.HasJob(m, k) && run.HasJob(m + 1, k) && run.JobAt(m, k).state != run.JobAt(m + 1, k).state
  }

  lemma ChangeCosts(run: Run, m: nat, k: Key)
    requires IsRun(run) && m < |run.steps|
    ensures run.HasJob(m, k) ==>
              && run.HasJob(m + 1, k) && run.JobAt(m + 1, k).maxAttempts == run.JobAt(m, k).maxAttempts
              && Measure(run.JobAt(m + 1, k)) + (if ChangesAt(run, m, k) then 1 else 0) <= Measure(run.JobAt(m, k))
    ensures !run.HasJob(m, k) && run.HasJob(m + 1, k) ==>
              Measure(run.JobAt(m + 1, k)) == 3 * run.JobAt(m + 1, k).maxAttempts
  {
    if run.HasJob(m, k) {
      RowStep(run, m, k);
      MeasureStep(run.steps[m], k, run.JobAt(m, k));
      ImmutableColumns(run.steps[m], k, run.JobAt(m, k));
    } else {
      assert WellFormed(run.steps[m]);
    }
  }

  lemma {:induction false} ChangesPlusMeasure(run: Run, k: Key, j: nat)
    requires IsRun(run) && j <= |run.steps|
    ensures !run.HasJob(j, k) ==> StateChanges(run, k, j) == 0
    ensures run.HasJob(j, k) ==> StateChanges(run, k, j) + Measure(run.JobAt(j, k)) <= 3 * run.JobAt(j, k).maxAttempts
    decreases j
  {
    if j > 0 {
      ChangesPlusMeasure(run, k, j - 1);
      ChangeCosts(run, j - 1, k);
    }
  }

  /** TERMINATION. No run takes a job through more than 3 * max_attempts state changes. */
  lemma StateChangesAreBounded(run: Run, k: Key, j: nat)
    requires IsRun(run) && run.HasJob(j, k)
    ensures StateChanges(run, k, j) <= 3 * run.JobAt(j, k).maxAttempts <= 3 * MAX_ALLOWED_ATTEMPTS
  {
    ChangesPlusMeasure(run, k, j);
    StatesKeepShape(run, j);
    MeasureStep(Cancel(k, 0), k, run.JobAt(j, k));
  }

  lemma TerminalStep(run: Run, m: nat, k: Key)
    requires IsRun(run) && m < |run.steps| && run.HasJob(m, k) && run.JobAt(m, k).state.IsTerminal()
    ensures run.HasJob(m + 1, k) && run.JobAt(m + 1, k) == run.JobAt(m, k)
  {
    RowStep(run, m, k);
    MeasureStep(run.steps[m], k, run.JobAt(m, k));
  }

  /** A job in a terminal state is frozen: no column changes again. */
  lemma {:induction false} TerminalIsFinal(run: Run, i: nat, j: nat, k: Key)
    requires IsRun(run) && i <= j <= |run.steps| && run.HasJob(i, k) && run.JobAt(i, k).state.IsTerminal()
    ensures run.HasJob(j, k) && run.JobAt(j, k) == run.JobAt(i, k)
    decreases j
  {
    if i < j {
      TerminalIsFinal(run, i, j - 1, k);
      TerminalStep(run, j - 1, k);
    }
  }

  predicate LeasedAt(run: Run, m: nat, k: Key) {
    m < |run.steps| && run.HasJob(m, k) && TakesLease(run.steps[m], k, run.JobAt(m, k))
  }

  /** How many of the first j statements leased job k to a worker. */
  function Acquires(run: Run, k: Key, j: nat): nat
    requires j < |run.states| == |run.steps| + 1
  {
    if j == 0 then 0
    else Acquires(run, k, j - 1) + if LeasedAt(run, j - 1, k) then 1 else 0
  }

  lemma AttemptStep(run: Run, m: nat, k: Key)
    requires IsRun(run) && m < |run.steps|
    ensures run.HasJob(m, k) ==>
              && run.HasJob(m + 1, k)
              && run.JobAt(m + 1, k).attempt == run.JobAt(m, k).attempt + if LeasedAt(run, m, k) then 1 else 0
    ensures !run.HasJob(m, k) && run.HasJob(m + 1, k) ==> run.JobAt(m + 1, k).attempt == 0
  {
    if run.HasJob(m, k) {
      RowStep(run, m, k);
    } else {
      assert WellFormed(run.steps[m]);
    }
  }

  lemma AttemptsInBounds(run: Run, m: nat, k: Key)
    requires IsRun(run) && run.HasJob(m, k)
    ensures run.JobAt(m, k).attempt <= run.JobAt(m, k).maxAttempts
  {
    StatesKeepShape(run, m);
  }

  /** The attempt column counts the leases handed out, and there are at most max_attempts. */
  lemma {:induction false} AttemptCountsAcquires(run: Run, k: Key, j: nat)
    requires IsRun(run) && j <= |run.steps|
    ensures !run.HasJob(j, k) ==> Acquires(run, k, j) == 0
    ensures run.HasJob(j, k) ==> Acquires(run, k, j) == run.JobAt(j, k).attempt <= run.JobAt(j, k).maxAttempts
    decreases j
  {
    if j > 0 {
      AttemptCountsAcquires(run, k, j - 1);
      AttemptStep(run, j - 1, k);
    }
    if run.HasJob(j, k) {
      AttemptsInBounds(run, j, k);
    }
  }

  /** TOKEN ARITHMETIC, with the bound it gives for every job the model accepts. */
  lemma TokenArithmetic(run: Run, k: Key, j: nat)
    requires IsRun(run) && run.HasJob(j, k)
    ensures var r := run.JobAt(j, k);
            && Acquires(run, k, j) <= r.leaseToken <= 2 * Acquires(run, k, j)
            && (r.state.HoldsLease() ==> r.leaseToken <= 2 * Acquires(run, k, j) - 1)
            && r.leaseToken <= 2 * MAX_ALLOWED_ATTEMPTS
  {
    StatesKeepShape(run, j);
    AttemptCountsAcquires(run, k, j);
  }

  // ---- The bound on state changes is attained

  lemma {:induction false} ChangesInPrefix(run: Run, s: Statement, k: Key, j: nat)
    requires |run.states| == |run.steps| + 1 && j < |run.states|
    ensures StateChanges(Extend(run, s), k, j) == StateChanges(run, k, j)
    decreases j
  {
    if j > 0 {
      ChangesInPrefix(run, s, k, j - 1);
    }
  }

  /** Appending a statement that changes the state of k adds one to the count. */
  lemma ExtendWithChange(run: Run, s: Statement, k: Key)
    requires IsRun(run) && WellFormed(s) && run.HasJob(|run.steps|, k)
    requires OnRow(s, k, run.JobAt(|run.steps|, k)).state != run.JobAt(|run.steps|, k).state
    ensures var next := Extend(run, s);
            && IsRun(next) && next.HasJob(|next.steps|, k)
            && next.JobAt(|next.steps|, k) == OnRow(s, k, run.JobAt(|run.steps|, k))
            && StateChanges(next, k, |next.steps|) == StateChanges(run, k, |run.steps|) + 1
  {
    ExtendIsRun(run, s);
    ChangesInPrefix(run, s, k, |run.steps|);
    assert Extend(run, s).HasJob(|run.steps|, k);
  }

  /** The run ends with row r for job k, after so many changes of its state. */
  ghost predicate EndsAt(run: Run, k: Key, r: Job, changes: nat) {
    && IsRun(run) && run.HasJob(|run.steps|, k)
    && run.JobAt(|run.steps|, k) == r && StateChanges(run, k, |run.steps|) == changes
  }

  lemma OneMoreChange(run: Run, s: Statement, k: Key, r: Job, changes: nat)
    requires EndsAt(run, k, r, changes) && WellFormed(s) && OnRow(s, k, r).state != r.state
    ensures EndsAt(Extend(run, s), k, OnRow(s, k, r), changes + 1)
  {
    ExtendWithChange(run, s, k);
  }

  /** Job k waits in the queue after n leases, all of them failed as retryable. */
  ghost predicate UsedAttempts(r: Job, n: nat, maxAttempts: int) {
    && r.attempt == n && r.leaseToken == n && r.maxAttempts == maxAttempts && r.cancelRequestedAt.None?
    && (n < maxAttempts ==> r.state.Queued? && r.nextRunAt == 0)
  }

  /** Acquire, mark running, fail as retryable. */
  function OneAttempt(k: Key, n: nat): (Statement, Statement, Statement) {
    var f := Fence(k, "worker", n + 1);
    (Acquire({k}, "worker", 0, 1), MarkRunning(f, 0), Fail(f, 0, true, 0, "", ""))
  }

  lemma RowsOfOneAttempt(r: Job, k: Key, n: nat, maxAttempts: int)
    requires UsedAttempts(r, n, maxAttempts) && n < maxAttempts
    ensures var (a, b, c) := OneAttempt(k, n);
            var leased := OnRow(a, k, r);
            var running := OnRow(b, k, leased);
            var failed := OnRow(c, k, running);
            && leased.state != r.state && running.state != leased.state && failed.state != running.state
            && UsedAttempts(failed, n + 1, maxAttempts)
            && WellFormed(a) && WellFormed(b) && WellFormed(c)
  {
  }

  lemma UseOneAttempt(run: Run, k: Key, r: Job, n: nat, maxAttempts: int) returns (next: Run, r': Job)
    requires EndsAt(run, k, r, 3 * n) && UsedAttempts(r, n, maxAttempts) && n < maxAttempts
    ensures EndsAt(next, k, r', 3 * (n + 1)) && UsedAttempts(r', n + 1, maxAttempts)
  {
    var (a, b, c) := OneAttempt(k, n);
    RowsOfOneAttempt(r, k, n, maxAttempts);
    OneMoreChange(run, a, k, r, 3 * n);
    next, r' := Extend(run, a), OnRow(a, k, r);
    OneMoreChange(next, b, k, r', 3 * n + 1);
    next, r' := Extend(next, b), OnRow(b, k, r');
    OneMoreChange(next, c, k, r', 3 * n + 2);
    next, r' := Extend(next, c), OnRow(c, k, r');
  }

  lemma {:induction false} UseAttempts(k: Key, input: NewJob, n: nat) returns (run: Run, r: Job)
    requires n <= input.maxAttempts && 1 <= input.maxAttempts <= MAX_ALLOWED_ATTEMPTS
    requires input.nextRunAt == Some(0)
    ensures EndsAt(run, k, r, 3 * n) && UsedAttempts(r, n, input.maxAttempts)
  {
    if n == 0 {
      ExtendIsRun(EMPTY_RUN, Insert(k, input, 0));
      run, r := Extend(EMPTY_RUN, Insert(k, input, 0)), NewRow(input, 0);
      assert StateChanges(run, k, 0) == 0;
    } else {
      run, r := UseAttempts(k, input, n - 1);
      run, r := UseOneAttempt(run, k, r, n - 1, input.maxAttempts);
    }
  }

  /** For every max_attempts some run makes exactly 3 * max_attempts state changes. */
  lemma BoundIsAttained(k: Key, input: NewJob) returns (run: Run)
    requires 1 <= input.maxAttempts <= MAX_ALLOWED_ATTEMPTS && input.nextRunAt == Some(0)
    ensures IsRun(run) && run.HasJob(|run.steps|, k)
    ensures StateChanges(run, k, |run.steps|) == 3 * input.maxAttempts == 3 * run.JobAt(|run.steps|, k).maxAttempts
  {
    var r;
    run, r := UseAttempts(k, input, input.maxAttempts);
  }

  // ---- Cancellation

  lemma RequestStays(run: Run, m: nat, k: Key)
    requires IsRun(run) && m < |run.steps| && run.HasJob(m, k)
    ensures run.HasJob(m + 1, k)
    ensures run.JobAt(m, k).cancelRequestedAt.Some? ==>
              run.JobAt(m + 1, k).cancelRequestedAt == run.JobAt(m, k).cancelRequestedAt
  {
    RowStep(run, m, k);
  }

  /** A cancellation request is never cleared and never re-dated. */
  lemma {:induction false} CancelIsPermanent(run: Run, i: nat, j: nat, k: Key)
    requires IsRun(run) && i <= j <= |run.steps| && run.HasJob(i, k) && run.JobAt(i, k).cancelRequestedAt.Some?
    ensures run.HasJob(j, k) && run.JobAt(j, k).cancelRequestedAt == run.JobAt(i, k).cancelRequestedAt
    decreases j
  {
    if i < j {
      CancelIsPermanent(run, i, j - 1, k);
      RequestStays(run, j - 1, k);
    }
  }

  /** No statement starts a job whose cancellation has been requested. */
  lemma NeverStartedAfterCancel(run: Run, i: nat, m: nat, k: Key)
    requires IsRun(run) && i <= m < |run.steps| && run.HasJob(i, k) && run.JobAt(i, k).cancelRequestedAt.Some?
    ensures run.HasJob(m, k) && run.HasJob(m + 1, k)
    ensures run.JobAt(m + 1, k).state.Running? ==> run.JobAt(m, k).state.Running?
  {
    CancelIsPermanent(run, i, m, k);
    assert WellFormed(run.steps[m]);
  }

  /** Step m is a retryable failure, accepted, of a job that has attempts left and that was
      asked to cancel. */
  predicate RequeuesDespiteRequest(run: Run, m: nat, k: Key) {
    && m < |run.steps| && run.HasJob(m, k)
    && RequeuesDoomedRow(run.steps[m], k, run.JobAt(m, k))
  }

  predicate RequeuesDoomedRow(s: Statement, k: Key, r: Job) {
    && s.Fail? && s.fence.key == k && HeldLive(r, s.fence, s.now)
    && s.retryable && r.attempt < r.maxAttempts && r.cancelRequestedAt.Some?
  }

  predicate QueuedDespiteRequest(r: Job) {
    r.state.Queued? && r.cancelRequestedAt.Some?
  }

  /** No statement from m up to, but without, j changes the row of job k. */
  ghost predicate Untouched(run: Run, m: nat, j: nat, k: Key) {
    run.HasJob(m, k) && forall p | m <= p <= j :: run.HasJob(p, k) && run.JobAt(p, k) == run.JobAt(m, k)
  }

  /** What leaves a row queued although its cancellation was requested. */
  lemma QueuedDespiteRequestStep(s: Statement, k: Key, r: Job)
    requires RowOk(r)
    ensures QueuedDespiteRequest(OnRow(s, k, r)) <==>
              || (QueuedDespiteRequest(r) && OnRow(s, k, r) == r)
              || RequeuesDoomedRow(s, k, r)
  {
  }

  lemma UntouchedOn(run: Run, m: nat, j: nat, k: Key)
    requires m <= j && Untouched(run, m, j, k) && run.HasJob(j + 1, k) && run.JobAt(j + 1, k) == run.JobAt(j, k)
    ensures Untouched(run, m, j + 1, k)
  {
  }

  lemma QueuedDespiteRequestBefore(run: Run, j: nat, k: Key)
    requires IsRun(run) && 0 < j && run.HasJob(j, k) && QueuedDespiteRequest(run.JobAt(j, k))
    ensures run.HasJob(j - 1, k)
    ensures RequeuesDespiteRequest(run, j - 1, k)
            || (QueuedDespiteRequest(run.JobAt(j - 1, k)) && run.JobAt(j, k) == run.JobAt(j - 1, k))
  {
    assert WellFormed(run.steps[j - 1]);
    assert run.HasJob(j - 1, k);
    StatesKeepShape(run, j - 1);
    QueuedDespiteRequestStep(run.steps[j - 1], k, run.JobAt(j - 1, k));
  }

  lemma {:induction false} QueuedDespiteRequestCameFrom(run: Run, j: nat, k: Key) returns (m: nat)
    requires IsRun(run) && run.HasJob(j, k) && QueuedDespiteRequest(run.JobAt(j, k))
    ensures m < j && RequeuesDespiteRequest(run, m, k) && Untouched(run, m + 1, j, k)
    decreases j
  {
    QueuedDespiteRequestBefore(run, j, k);
    if RequeuesDespiteRequest(run, j - 1, k) {
      m := j - 1;
    } else {
      m := QueuedDespiteRequestCameFrom(run, j - 1, k);
      UntouchedOn(run, m + 1, j - 1, k);
    }
  }

  /** QUEUED DESPITE A REQUEST. A job waits in the queue with a cancellation request exactly if
      a retryable failure put it back after the request and nothing has touched it since. */
  lemma QueuedDespiteRequestIff(run: Run, j: nat, k: Key)
    requires IsRun(run) && run.HasJob(j, k)
    ensures QueuedDespiteRequest(run.JobAt(j, k)) <==>
              exists m | 0 <= m < j :: RequeuesDespiteRequest(run, m, k) && Untouched(run, m + 1, j, k)
  {
    if QueuedDespiteRequest(run.JobAt(j, k)) {
      var m := QueuedDespiteRequestCameFrom(run, j, k);
    }
    if m :| 0 <= m < j && RequeuesDespiteRequest(run, m, k) && Untouched(run, m + 1, j, k) {
      StatesKeepShape(run, m);
      QueuedDespiteRequestStep(run.steps[m], k, run.JobAt(m, k));
      assert run.JobAt(j, k) == run.JobAt(m + 1, k);
    }
  }

  // ---- Ending despite a request

  /** A completion, or a failure that is final, is accepted for a job that was asked to cancel. */
  predicate EndsRequestedRow(s: Statement, k: Key, r: Job) {
    && (s.Complete? || (s.Fail? && (!s.retryable || r.attempt >= r.maxAttempts)))
    && s.fence.key == k && HeldLive(r, s.fence, s.now) && r.cancelRequestedAt.Some?
  }

  predicate EndsDespiteRequest(run: Run, m: nat, k: Key) {
    m < |run.steps| && run.HasJob(m, k) && EndsRequestedRow(run.steps[m], k, run.JobAt(m, k))
  }

  predicate EndedDespiteRequest(r: Job) {
    r.cancelRequestedAt.Some? && r.state.IsTerminal() && !r.state.Canceled?
  }

  lemma EndedDespiteRequestStep(s: Statement, k: Key, r: Job)
    requires RowOk(r)
    ensures EndedDespiteRequest(OnRow(s, k, r)) <==> EndedDespiteRequest(r) || EndsRequestedRow(s, k, r)
  {
  }

  lemma EndedDespiteRequestAt(run: Run, m: nat, k: Key)
    requires IsRun(run) && m < |run.steps| && run.HasJob(m + 1, k)
    ensures EndedDespiteRequest(run.JobAt(m + 1, k)) <==>
              (run.HasJob(m, k) && EndedDespiteRequest(run.JobAt(m, k))) || EndsDespiteRequest(run, m, k)
  {
    if run.HasJob(m, k) {
      RowStep(run, m, k);
      EndedDespiteRequestStep(run.steps[m], k, run.JobAt(m, k));
    } else {
      assert WellFormed(run.steps[m]);
    }
  }

  lemma {:induction false} EndedDespiteRequestCameFrom(run: Run, j: nat, k: Key) returns (m: nat)
    requires IsRun(run) && run.HasJob(j, k) && EndedDespiteRequest(run.JobAt(j, k))
    ensures m < j && EndsDespiteRequest(run, m, k)
    decreases j
  {
    EndedDespiteRequestAt(run, j - 1, k);
    if EndsDespiteRequest(run, j - 1, k) {
      m := j - 1;
    } else {
      m := EndedDespiteRequestCameFrom(run, j - 1, k);
    }
  }

  /** ENDED DESPITE A REQUEST. A job that was asked to cancel has ended otherwise exactly if a
      completion or a final failure was accepted for it after the request. */
  lemma EndedDespiteRequestIff(run: Run, j: nat, k: Key)
    requires IsRun(run) && run.HasJob(j, k)
    ensures EndedDespiteRequest(run.JobAt(j, k)) <==> exists m | 0 <= m < j :: EndsDespiteRequest(run, m, k)
  {
    if EndedDespiteRequest(run.JobAt(j, k)) {
      var m := EndedDespiteRequestCameFrom(run, j, k);
    }
    if m :| 0 <= m < j && EndsDespiteRequest(run, m, k) {
      RowStep(run, m, k);
      EndedDespiteRequestAt(run, m, k);
      TerminalIsFinal(run, m + 1, j, k);
    }
  }

  /** Nothing is canceled that was not asked to be. */
  lemma CanceledWasRequested(run: Run, j: nat, k: Key)
    requires IsRun(run) && run.HasJob(j, k) && run.JobAt(j, k).state.Canceled?
    ensures exists m | 0 <= m < j :: run.steps[m].Cancel? && run.steps[m].key == k && run.HasJob(m, k)
  {
    StatesKeepShape(run, j);
    var m := CancelCameFrom(run, j, k);
    assert run.steps[m].Cancel?;
  }

  /** A request that is there now and was not there before is recorded by a CancelJob. */
  lemma RequestRecorded(run: Run, m: nat, k: Key)
    requires IsRun(run) && m < |run.steps| && run.HasJob(m + 1, k) && run.JobAt(m + 1, k).cancelRequestedAt.Some?
    ensures run.HasJob(m, k)
    ensures run.JobAt(m, k).cancelRequestedAt.Some? || (run.steps[m].Cancel? && run.steps[m].key == k)
  {
    assert WellFormed(run.steps[m]);
  }

  lemma {:induction false} CancelCameFrom(run: Run, j: nat, k: Key) returns (m: nat)
    requires IsRun(run) && run.HasJob(j, k) && run.JobAt(j, k).cancelRequestedAt.Some?
    ensures m < j && run.steps[m].Cancel? && run.steps[m].key == k && run.HasJob(m, k)
    decreases j
  {
    RequestRecorded(run, j - 1, k);
    if run.JobAt(j - 1, k).cancelRequestedAt.Some? {
      m := CancelCameFrom(run, j - 1, k);
    } else {
      m := j - 1;
    }
  }

  // ---- Idempotent creation

  /** The row that (tenant, idempotency key) names, if there is one. */
  ghost function Lookup(t: Table, tenant: string, idempotencyKey: string): (o: Option<Key>)
    ensures o.Some? ==> o.value in t && o.value.tenant == tenant && t[o.value].idempotencyKey == idempotencyKey
    ensures o.None? ==> forall k | k in t :: !(k.tenant == tenant && t[k].idempotencyKey == idempotencyKey)
  {
    if exists k | k in t :: k.tenant == tenant && t[k].idempotencyKey == idempotencyKey then
      var k :| k in t && k.tenant == tenant && t[k].idempotencyKey == idempotencyKey;
      Some(k)
    else None
  }

  /** IDEMPOTENT CREATION. Once a job exists, every later insert under its key or its
      idempotency key leaves the ledger alone, and looking its idempotency key up, then or at
      any later moment, finds that same job with the request hash it was created with. */
  lemma RepeatFindsOriginal(run: Run, i: nat, j: nat, m: nat, k: Key, s: Statement)
    requires IsRun(run) && i <= j <= m <= |run.steps| && run.HasJob(i, k) && s.Insert?
    requires s.key == k || (s.key.tenant == k.tenant && s.input.idempotencyKey == run.JobAt(i, k).idempotencyKey)
    ensures Apply(run.states[j], s) == run.states[j]
    ensures Lookup(run.states[m], k.tenant, run.JobAt(i, k).idempotencyKey) == Some(k)
    ensures run.JobAt(m, k).requestHash == run.JobAt(i, k).requestHash
  {
    JobsPersist(run, i, j, k);
    JobsPersist(run, i, m, k);
    StatesKeepShape(run, m);
  }
}
