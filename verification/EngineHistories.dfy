/** What the histories of the worker engines say about single executions: which of them make
    a request, when an outcome is written, and what becomes of a job whose cancellation is
    requested. Each result that depends on timing comes with a history that shows it. */
module EngineHistories {
  import opened Wrappers
  import opened JobModel
  import opened Ledger
  import opened LedgerRuns
  import opened Engines

  predicate Exists(h: History, n: nat, i: nat) {
    n < |h.worlds| && i < |h.worlds[n].executions|
  }

  function ExecutionAt(h: History, n: nat, i: nat): Execution
    requires Exists(h, n, i)
  {
    h.worlds[n].executions[i]
  }

  /** Event n is a step of execution i. */
  predicate StepsAt(h: History, n: nat, i: nat) {
    n < |h.events| && h.events[n].Step? && h.events[n].i == i
  }

  predicate JoinsAt(h: History, n: nat, i: nat) {
    StepsAt(h, n, i) && h.events[n].action.Join?
  }

  predicate WritesAt(h: History, n: nat, i: nat) {
    StepsAt(h, n, i) && h.events[n].action.Write?
  }

  predicate SendsAt(h: History, n: nat, i: nat) {
    StepsAt(h, n, i) && h.events[n].action.Send?
  }

  /** What the event before world n did to execution i. */
  lemma OneStep(h: History, n: nat, i: nat)
    requires IsHistory(h) && 0 < n <= |h.events| && Exists(h, n, i)
    ensures var y, e := ExecutionAt(h, n, i), h.events[n - 1];
            if StepsAt(h, n - 1, i)
            then
              && Exists(h, n - 1, i) && CanAct(ExecutionAt(h, n - 1, i), e.action)
              && ExecutionAt(h, n - 1, i).fence.key in h.worlds[n - 1].Rows()
              && y == After(ExecutionAt(h, n - 1, i), e.action,
                            h.worlds[n - 1].Rows()[ExecutionAt(h, n - 1, i).fence.key], e.fate)
            else if Exists(h, n - 1, i)
            then y == ExecutionAt(h, n - 1, i) || y == ExecutionAt(h, n - 1, i).(main := Finished, renewal := Exited)
            else y.main.Starting? && y.requests == 0
  {
    var w, e := h.worlds[n - 1], h.events[n - 1];
    assert Enabled(w, e) && h.worlds[n] == Next(w, e);
  }

  lemma StillExists(h: History, n: nat, i: nat)
    requires IsHistory(h) && n < |h.events| && Exists(h, n, i)
    ensures Exists(h, n + 1, i)
  {
    var w, e := h.worlds[n], h.events[n];
    assert Enabled(w, e) && h.worlds[n + 1] == Next(w, e);
  }

  // ---- When an outcome is written

  function Progress(main: MainPc): nat {
    match main
    case Starting => 0
    case MarkMissed => 1
    case MustAcknowledge => 2
    case Executing(_) => 3
    case Returned(_) => 4
    case Deciding(_) => 5
    case Finished => 6
  }

  lemma {:induction false} ProgressIsKept(h: History, m: nat, n: nat, i: nat)
    requires IsHistory(h) && m <= n <= |h.events| && Exists(h, m, i)
    ensures Exists(h, n, i) && Progress(ExecutionAt(h, m, i).main) <= Progress(ExecutionAt(h, n, i).main)
    decreases n
  {
    if m < n {
      ProgressIsKept(h, m, n - 1, i);
      StillExists(h, n - 1, i);
      OneStep(h, n, i);
    }
  }

  /** An execution passes the check after its renewal thread has stopped at most once. */
  lemma JoinsOnce(h: History, j: nat, n: nat, i: nat)
    requires IsHistory(h) && JoinsAt(h, j, i) && JoinsAt(h, n, i)
    ensures j == n
  {
    var a, b := if j < n then j else n, if j < n then n else j;
    assert Enabled(h.worlds[a], h.events[a]) && Enabled(h.worlds[b], h.events[b]);
    if a < b {
      StillExists(h, a, i);
      OneStep(h, a + 1, i);
      ProgressIsKept(h, a + 1, b, i);
      assert false;
    }
  }

  lemma {:induction false} DecidedByJoin(h: History, n: nat, i: nat) returns (j: nat)
    requires IsHistory(h) && n <= |h.events| && Exists(h, n, i) && ExecutionAt(h, n, i).main.Deciding?
    ensures j < n && JoinsAt(h, j, i) && Exists(h, j, i)
    ensures !ExecutionAt(h, j, i).contextCanceled && ExecutionAt(h, j, i).renewal.Exited?
    decreases n
  {
    OneStep(h, n, i);
    if JoinsAt(h, n - 1, i) {
      j := n - 1;
    } else {
      j := DecidedByJoin(h, n - 1, i);
    }
  }

  /** THE CHECK BEFORE THE OUTCOME. A completion or failure is sent only after the one check
      that found the renewal thread stopped and the job context live, so an execution whose
      context was cancelled by then sends neither. */
  lemma WriteFollowsLiveJoin(h: History, n: nat, i: nat) returns (j: nat)
    requires IsHistory(h) && WritesAt(h, n, i)
    ensures j < n && JoinsAt(h, j, i) && Exists(h, j, i)
    ensures !ExecutionAt(h, j, i).contextCanceled && ExecutionAt(h, j, i).renewal.Exited?
    ensures forall j' | JoinsAt(h, j', i) :: j' == j
  {
    assert Enabled(h.worlds[n], h.events[n]);
    j := DecidedByJoin(h, n, i);
    forall j' | JoinsAt(h, j', i) ensures j' == j {
      JoinsOnce(h, j', j, i);
    }
  }

  // ---- Which leases make a request

  ghost predicate HasSent(h: History, n: nat, i: nat) {
    exists j | 0 <= j < n :: SendsAt(h, j, i)
  }

  lemma HasSentStep(h: History, n: nat, i: nat)
    ensures HasSent(h, n + 1, i) <==> HasSent(h, n, i) || SendsAt(h, n, i)
  {
    if HasSent(h, n + 1, i) {
      var j :| 0 <= j < n + 1 && SendsAt(h, j, i);
    }
  }

  lemma AtMostOneRequest(h: History, n: nat, i: nat)
    requires IsHistory(h) && n <= |h.events| && Exists(h, n, i)
    ensures ExecutionAt(h, n, i).requests <= 1
  {
    WorldsStayOk(h, n);
    assert ExecutionAt(h, n, i) in h.worlds[n].executions;
  }

  lemma RequestsStep(h: History, n: nat, i: nat)
    requires IsHistory(h) && 0 < n <= |h.events| && Exists(h, n, i)
    ensures if Exists(h, n - 1, i)
            then ExecutionAt(h, n, i).requests
                 == ExecutionAt(h, n - 1, i).requests + if SendsAt(h, n - 1, i) then 1 else 0
            else ExecutionAt(h, n, i).requests == 0
  {
    OneStep(h, n, i);
  }

  /** Nothing was sent by an execution that was not there yet. */
  lemma NotThereNotSent(h: History, n: nat, i: nat)
    requires IsHistory(h) && n <= |h.events| && !Exists(h, n, i)
    ensures !HasSent(h, n + 1, i)
  {
    forall j | 0 <= j < n + 1 ensures !SendsAt(h, j, i) {
      if SendsAt(h, j, i) {
        assert Enabled(h.worlds[j], h.events[j]);
        ProgressIsKept(h, j, n, i);
      }
    }
  }

  /** An execution has made a request exactly if it has sent one. */
  lemma {:induction false} RequestIff(h: History, n: nat, i: nat)
    requires IsHistory(h) && n <= |h.events| && Exists(h, n, i)
    ensures ExecutionAt(h, n, i).requests <= 1
    ensures ExecutionAt(h, n, i).requests == 1 <==> HasSent(h, n, i)
    decreases n
  {
    AtMostOneRequest(h, n, i);
    if n > 0 {
      RequestsStep(h, n, i);
      if Exists(h, n - 1, i) {
        RequestIff(h, n - 1, i);
        HasSentStep(h, n - 1, i);
      } else {
        NotThereNotSent(h, n - 1, i);
      }
    }
  }

  /** The MarkRunning call of execution i was accepted, and the execution was told. */
  predicate MarkedAt(h: History, n: nat, i: nat) {
    && StepsAt(h, n, i) && h.events[n].action.Mark? && h.events[n].fate.Answered? && Exists(h, n, i)
    && var f := ExecutionAt(h, n, i).fence;
       f.key in h.worlds[n].Rows() && CanRun(h.worlds[n].Rows()[f.key], f, h.events[n].action.now)
  }

  lemma {:induction false} ExecutingWasMarked(h: History, n: nat, i: nat) returns (m: nat)
    requires IsHistory(h) && n <= |h.events| && Exists(h, n, i) && ExecutionAt(h, n, i).main.Executing?
    ensures m < n && MarkedAt(h, m, i)
    decreases n
  {
    OneStep(h, n, i);
    if MarkedAt(h, n - 1, i) {
      m := n - 1;
    } else {
      m := ExecutingWasMarked(h, n - 1, i);
    }
  }

  /** Execute turned the job down, or could not translate it, before anything was sent. */
  predicate RefusesUnsentAt(h: History, n: nat, i: nat) {
    && StepsAt(h, n, i) && h.events[n].action.Refuse? && Exists(h, n, i)
    && ExecutionAt(h, n, i).main == Executing(Preparing(0))
  }

  /** Nothing is sent after that. */
  lemma {:induction false} RefusedStaysUnsent(h: History, j: nat, n: nat, i: nat)
    requires IsHistory(h) && RefusesUnsentAt(h, j, i) && j < n <= |h.events|
    ensures Exists(h, n, i) && ExecutionAt(h, n, i).requests == 0
    ensures var main := ExecutionAt(h, n, i).main;
            main == Executing(Concluded(false)) || main.Returned? || main.Deciding? || main.Finished?
    decreases n
  {
    if j + 1 == n {
      WorldsStayOk(h, j);
      assert ExecutionAt(h, j, i) in h.worlds[j].executions;
    } else {
      RefusedStaysUnsent(h, j, n - 1, i);
    }
    StillExists(h, n - 1, i);
    OneStep(h, n, i);
  }

  lemma {:induction false} UnsentWasRefused(h: History, n: nat, i: nat) returns (j: nat)
    requires IsHistory(h) && n <= |h.events| && Exists(h, n, i)
    requires ExecutionAt(h, n, i).main.Executing? && ExecutionAt(h, n, i).main.at.Concluded?
    requires ExecutionAt(h, n, i).requests == 0
    ensures j < n && RefusesUnsentAt(h, j, i)
    decreases n
  {
    OneStep(h, n, i);
    WorldsStayOk(h, n - 1);
    assert ExecutionAt(h, n - 1, i) in h.worlds[n - 1].executions;
    if RefusesUnsentAt(h, n - 1, i) {
      j := n - 1;
    } else {
      j := UnsentWasRefused(h, n - 1, i);
    }
  }

  /** Execute comes back, not by a panic. */
  predicate ReturnsAt(h: History, n: nat, i: nat) {
    StepsAt(h, n, i) && h.events[n].action.Return?
  }

  /** Nothing is sent after Execute came back. */
  lemma {:induction false} RequestsAreSettled(h: History, j: nat, n: nat, i: nat)
    requires IsHistory(h) && ReturnsAt(h, j, i) && j < n <= |h.events|
    ensures Exists(h, j, i) && Exists(h, n, i) && ExecutionAt(h, n, i).requests == ExecutionAt(h, j, i).requests
    ensures Progress(ExecutionAt(h, n, i).main) >= 4
    decreases n
  {
    assert Enabled(h.worlds[j], h.events[j]);
    if j + 1 < n {
      RequestsAreSettled(h, j, n - 1, i);
    }
    StillExists(h, n - 1, i);
    OneStep(h, n, i);
  }

  /** Execute has done what it will, or has already come back. */
  ghost predicate PastExecute(h: History, n: nat, i: nat) {
    && Exists(h, n, i)
    && var main := ExecutionAt(h, n, i).main;
       (main.Executing? && main.at.Concluded?) || exists j | 0 <= j < n :: ReturnsAt(h, j, i)
  }

  /** The last world in which Execute had done what it will and had not come back. */
  lemma Conclusion(h: History, n: nat, i: nat) returns (j: nat)
    requires IsHistory(h) && n <= |h.events| && PastExecute(h, n, i)
    ensures j <= n && Exists(h, j, i) && ExecutionAt(h, j, i).main.Executing? && ExecutionAt(h, j, i).main.at.Concluded?
    ensures ExecutionAt(h, n, i).requests == ExecutionAt(h, j, i).requests
  {
    if ExecutionAt(h, n, i).main.Executing? && ExecutionAt(h, n, i).main.at.Concluded? {
      j := n;
    } else {
      j :| 0 <= j < n && ReturnsAt(h, j, i);
      assert Enabled(h.worlds[j], h.events[j]);
      RequestsAreSettled(h, j, n, i);
    }
  }

  /** ONE REQUEST OR NONE. Once an execution has got through Execute, and whatever became of it
      since, it was marked running under its fence, and it has made exactly one request unless
      Execute refused the job before sending, in which case it has made none. */
  lemma WhichLeasesRequest(h: History, n: nat, i: nat)
    requires IsHistory(h) && n <= |h.events| && PastExecute(h, n, i)
    ensures ExecutionAt(h, n, i).requests <= 1
    ensures exists m | 0 <= m < n :: MarkedAt(h, m, i)
    ensures ExecutionAt(h, n, i).requests == 1 <==> !exists p | 0 <= p < n :: RefusesUnsentAt(h, p, i)
  {
    var j := Conclusion(h, n, i);
    var m := ExecutingWasMarked(h, j, i);
    RequestIff(h, n, i);
    if ExecutionAt(h, n, i).requests == 0 {
      var p := UnsentWasRefused(h, j, i);
    } else if p :| 0 <= p < n && RefusesUnsentAt(h, p, i) {
      RefusedStaysUnsent(h, p, n, i);
      assert false;
    }
  }

  // ---- Who completed a job

  /** Execution i has completed job k: marked running, one request made, one completion sent. */
  predicate CompletedBy(h: History, n: nat, i: nat, k: Key) {
    && Exists(h, n, i)
    && var x := ExecutionAt(h, n, i);
       x.fence.key == k && x.marked && x.requests == 1 && x.completes == 1
  }

  lemma CompletedByStays(h: History, n: nat, i: nat, k: Key)
    requires IsHistory(h) && n < |h.events| && CompletedBy(h, n, i, k)
    ensures CompletedBy(h, n + 1, i, k)
  {
    WorldsStayOk(h, n);
    assert ExecutionAt(h, n, i) in h.worlds[n].executions;
    StillExists(h, n, i);
    OneStep(h, n + 1, i);
  }

  /** Only a completion makes a row succeeded. */
  lemma OnlyCompleteSucceeds(s: Statement, k: Key, r: Job)
    requires OnRow(s, k, r).state.Succeeded? && !r.state.Succeeded?
    ensures s.Complete? && s.fence.key == k
  {
  }

  /** Only the completion of an execution that made its request is ever sent. */
  lemma CompletionStep(h: History, n: nat, k: Key) returns (i: nat)
    requires IsHistory(h) && n < |h.events| && h.worlds[n].WellShaped()
    requires Reaching(h.worlds[n], h.events[n]).Some? && Reaching(h.worlds[n], h.events[n]).value.Complete?
    requires Reaching(h.worlds[n], h.events[n]).value.fence.key == k
    ensures CompletedBy(h, n + 1, i, k)
  {
    var w, e := h.worlds[n], h.events[n];
    assert Enabled(w, e);
    i := e.i;
    WorldsStayOk(h, n);
    assert w.executions[i] in w.executions;
    StillExists(h, n, i);
    OneStep(h, n + 1, i);
  }

  /** SUCCESS HAS ONE REQUEST BEHIND IT. A job that succeeded was completed by an execution that
      was marked running and made exactly one request. */
  lemma {:induction false} SucceededWasRequested(h: History, n: nat, k: Key) returns (i: nat)
    requires IsHistory(h) && n <= |h.events| && h.worlds[n].WellShaped()
    requires k in h.worlds[n].Rows() && h.worlds[n].Rows()[k].state.Succeeded?
    ensures CompletedBy(h, n, i, k)
    decreases n
  {
    var w, e := h.worlds[n - 1], h.events[n - 1];
    assert Enabled(w, e) && h.worlds[n] == Next(w, e);
    NextRows(w, e);
    if k in w.Rows() && w.Rows()[k].state.Succeeded? {
      i := SucceededWasRequested(h, n - 1, k);
      CompletedByStays(h, n - 1, i, k);
    } else {
      var s := Reaching(w, e).value;
      if k in w.Rows() {
        OnlyCompleteSucceeds(s, k, w.Rows()[k]);
      }
      i := CompletionStep(h, n - 1, k);
    }
  }

  // ---- Building histories

  function Last(h: History): World
    requires |h.worlds| > 0
  {
    h.worlds[|h.worlds| - 1]
  }

  /** The history ends with one job in the ledger and these executions. */
  ghost predicate EndsWith(h: History, k: Key, r: Job, xs: seq<Execution>) {
    IsHistory(h) && Last(h).WellShaped() && Last(h).Rows() == map[k := r] && Last(h).executions == xs
  }

  lemma Do(h: History, e: Event) returns (h': History)
    requires IsHistory(h) && Last(h).WellShaped() && Enabled(Last(h), e)
    ensures IsHistory(h') && Last(h') == Next(Last(h), e) && h'.events == h.events + [e]
    ensures h'.worlds == h.worlds + [Last(h')]
  {
    h' := History(h.events + [e], h.worlds + [Next(Last(h), e)]);
    forall n | 0 <= n < |h'.events|
      ensures && h'.worlds[n].WellShaped() && Enabled(h'.worlds[n], h'.events[n])
              && h'.worlds[n + 1] == Next(h'.worlds[n], h'.events[n])
    {
      if n < |h.events| {
        assert h.events[n] == h'.events[n];
      }
    }
  }

  /** A job created at time 0. */
  lemma Created(k: Key, input: NewJob) returns (h: History)
    requires 1 <= input.maxAttempts <= MAX_ALLOWED_ATTEMPTS
    ensures EndsWith(h, k, NewRow(input, 0), []) && |h.events| == 1
  {
    var s := Insert(k, input, 0);
    h := History([], [INITIAL]);
    NextRows(INITIAL, Client(s));
    h := Do(h, Client(s));
    assert Apply(map[], s) == map[k := NewRow(input, 0)];
  }

  /** A ready job leased at time `now` by engine 0, for one millisecond. */
  lemma LeaseTo(h: History, k: Key, r: Job, xs: seq<Execution>, now: int) returns (h': History)
    requires EndsWith(h, k, r, xs) && Ready(r, now)
    ensures EndsWith(h', k, AcquiredRow(r, "worker", now, 1), xs + [NewExecution(0, Fence(k, "worker", r.leaseToken + 1))])
    ensures |h'.events| == |h.events| + 1
  {
    var s := Acquire({k}, "worker", now, 1);
    var e := Poll(0, s, [k]);
    NextRows(Last(h), e);
    h' := Do(h, e);
    assert Apply(map[k := r], s) == map[k := OnRow(s, k, r)];
    assert Spawned(e, map[k := r]) == [NewExecution(0, Fence(k, "worker", r.leaseToken + 1))];
  }

  /** A statement from outside. */
  lemma FromOutside(h: History, k: Key, r: Job, xs: seq<Execution>, e: Event) returns (h': History)
    requires EndsWith(h, k, r, xs) && (e.Client? || e.Sweep?)
    requires if e.Client? then e.s.Cancel? else e.s.Reclaim?
    ensures EndsWith(h', k, OnRow(e.s, k, r), xs) && |h'.events| == |h.events| + 1
  {
    NextRows(Last(h), e);
    h' := Do(h, e);
    assert Apply(map[k := r], e.s) == map[k := OnRow(e.s, k, r)];
  }

  /** An answered step of the one execution there is. */
  lemma StepOnly(h: History, k: Key, r: Job, x: Execution, a: Action) returns (h': History)
    requires EndsWith(h, k, r, [x]) && x.fence.key == k && CanAct(x, a)
    ensures EndsWith(h', k, if Sent(x, a).Some? then OnRow(Sent(x, a).value, k, r) else r, [After(x, a, r, Answered)])
    ensures h'.events == h.events + [Step(0, a, Answered)] && h'.worlds == h.worlds + [Last(h')]
  {
    var e := Step(0, a, Answered);
    NextRows(Last(h), e);
    h' := Do(h, e);
    if Sent(x, a).Some? {
      assert Apply(map[k := r], Sent(x, a).value) == map[k := OnRow(Sent(x, a).value, k, r)];
    }
    assert [x][0 := After(x, a, r, Answered)] == [After(x, a, r, Answered)];
  }

  // ---- Witnesses

  /** A lease that makes no request: its process crashes at once. The attempt is used up. */
  lemma LeaseWithoutRequest(k: Key, input: NewJob) returns (h: History)
    requires 1 <= input.maxAttempts <= MAX_ALLOWED_ATTEMPTS && input.nextRunAt == Some(0)
    ensures IsHistory(h) && Last(h).WellShaped() && |Last(h).executions| == 1
    ensures var x := Last(h).executions[0];
            && x.fence == Fence(k, "worker", 1) && x.main.Finished? && x.requests == 0
            && k in Last(h).Rows() && Last(h).Rows()[k].attempt == 1
  {
    h := Created(k, input);
    h := LeaseTo(h, k, NewRow(input, 0), [], 0);
    NextRows(Last(h), Crash(0));
    h := Do(h, Crash(0));
  }

  /** A job that was leased and marked running at time 0. */
  lemma StartedAtOnce(k: Key, input: NewJob) returns (h: History, r: Job, x: Execution)
    requires 1 <= input.maxAttempts <= MAX_ALLOWED_ATTEMPTS && input.nextRunAt == Some(0)
    ensures EndsWith(h, k, r, [x]) && x.fence == Fence(k, "worker", 1) && x.main == Executing(Preparing(0))
    ensures x.engine == 0 && x.renewal.Waiting? && !x.contextCanceled && x.requests == 0
    ensures HeldLive(r, x.fence, 0) && r.state.Running? && r.cancelRequestedAt.None? && r.leaseExpiresAt == Some(1)
    ensures r.attempt == 1 && r.maxAttempts == input.maxAttempts
  {
    r := NewRow(input, 0);
    h := Created(k, input);
    h := LeaseTo(h, k, r, [], 0);
    r := AcquiredRow(r, "worker", 0, 1);
    x := NewExecution(0, Fence(k, "worker", 1));
    assert [] + [x] == [x];
    h := StepOnly(h, k, r, x, Mark(0));
    x := After(x, Mark(0), r, Answered);
    r := r.(state := Running, updatedAt := 0);
  }

  /** The same job, asked to cancel. */
  lemma RunningAndAsked(k: Key, input: NewJob) returns (h: History, r: Job, x: Execution)
    requires 1 <= input.maxAttempts <= MAX_ALLOWED_ATTEMPTS && input.nextRunAt == Some(0)
    ensures EndsWith(h, k, r, [x]) && x.fence == Fence(k, "worker", 1) && x.main == Executing(Preparing(0))
    ensures x.renewal.Waiting? && !x.contextCanceled && x.requests == 0
    ensures HeldLive(r, x.fence, 0) && r.state.Running? && r.cancelRequestedAt == Some(0)
    ensures r.attempt == 1 && r.maxAttempts == input.maxAttempts
  {
    h, r, x := StartedAtOnce(k, input);
    h := FromOutside(h, k, r, [x], Client(Cancel(k, 0)));
    r := CanceledRow(r, 0);
  }

  /** The same job, whose lease has run out and was reclaimed. */
  lemma RunningAndReclaimed(k: Key, input: NewJob) returns (h: History, r: Job, x: Execution)
    requires 2 <= input.maxAttempts <= MAX_ALLOWED_ATTEMPTS && input.nextRunAt == Some(0)
    ensures EndsWith(h, k, r, [x]) && x.fence == Fence(k, "worker", 1) && x.main == Executing(Preparing(0))
    ensures x.engine == 0 && x.renewal.Waiting? && !x.contextCanceled
    ensures Ready(r, 1) && r.leaseToken == 2 && r.leaseOwner.None? && r.cancelRequestedAt.None?
  {
    h, r, x := StartedAtOnce(k, input);
    h := FromOutside(h, k, r, [x], Sweep(Reclaim({k}, 1, 0)));
    r := ReclaimedRow(r, 1, 0);
  }

  /** SHARED KEY. An engine that lost a lease of a job takes the job again while its first
      execution is still running: two unfinished executions of one engine under one key. */
  lemma SameKeyTwice(k: Key, input: NewJob) returns (h: History)
    requires 2 <= input.maxAttempts <= MAX_ALLOWED_ATTEMPTS && input.nextRunAt == Some(0)
    ensures IsHistory(h) && Last(h).WellShaped() && |Last(h).executions| == 2
    ensures var x, y := Last(h).executions[0], Last(h).executions[1];
            && x.engine == y.engine && x.fence == Fence(k, "worker", 1) && y.fence == Fence(k, "worker", 3)
            && x.main == Executing(Preparing(0)) && y.main.Starting?
  {
    var r, x;
    h, r, x := RunningAndReclaimed(k, input);
    h := LeaseTo(h, k, r, [x], 1);
  }

  /** A job asked to cancel while it runs, up to the point where its outcome is due. */
  lemma CancelWhileRunning(k: Key, input: NewJob, o: Outcome) returns (h: History, r: Job, x: Execution)
    requires 1 <= input.maxAttempts <= MAX_ALLOWED_ATTEMPTS && input.nextRunAt == Some(0) && Bounded(o)
    ensures EndsWith(h, k, r, [x]) && x.fence == Fence(k, "worker", 1) && x.main == Deciding(o) && x.requests == 1
    ensures HeldLive(r, x.fence, 0) && r.state.Running? && r.cancelRequestedAt == Some(0)
    ensures r.attempt == 1 && r.maxAttempts == input.maxAttempts
  {
    h, r, x := RunningAndAsked(k, input);
    h, x := ToTheOutcome(h, k, r, x, o);
  }

  /** From the start of Execute to the outcome, with the renewal thread seeing nothing. */
  lemma ToTheOutcome(h: History, k: Key, r: Job, x: Execution, o: Outcome) returns (h': History, y: Execution)
    requires EndsWith(h, k, r, [x]) && x.fence.key == k && Bounded(o)
    requires x.main == Executing(Preparing(0)) && x.renewal.Waiting? && !x.contextCanceled && x.requests == 0
    ensures EndsWith(h', k, r, [y]) && y.main == Deciding(o) && y.fence == x.fence && y.requests == 1
  {
    y := x;
    h' := StepOnly(h, k, r, y, Send);
    y := After(y, Send, r, Answered);
    h' := StepOnly(h', k, r, y, Hear(false));
    y := After(y, Hear(false), r, Answered);
    h' := StepOnly(h', k, r, y, Return(o));
    y := After(y, Return(o), r, Answered);
    h' := StepOnly(h', k, r, y, StopRenewal);
    y := After(y, StopRenewal, r, Answered);
    h' := StepOnly(h', k, r, y, Join);
    y := After(y, Join, r, Answered);
  }

  /** TOO LATE TO CANCEL. Whatever Execute came back with, some history records it for a job
      that was asked to cancel while running: the job succeeds, fails, is dead-lettered, or is
      put back in the queue with its request still standing. */
  lemma CancelMayComeTooLate(k: Key, input: NewJob, o: Outcome) returns (h: History)
    requires 1 <= input.maxAttempts <= MAX_ALLOWED_ATTEMPTS && input.nextRunAt == Some(0) && Bounded(o)
    ensures IsHistory(h) && Last(h).WellShaped() && k in Last(h).Rows()
    ensures var r := Last(h).Rows()[k];
            && r.cancelRequestedAt == Some(0)
            && r.state == (if o.Success? then Succeeded
                           else if !o.retryable then JobState.Failed
                           else if 1 < input.maxAttempts then Queued else DeadLetter)
            && (r.state.Queued? ==> Doomed(Last(h).Rows(), k))
  {
    var r, x;
    h, r, x := CancelWhileRunning(k, input, o);
    h := StepOnly(h, k, r, x, Write(0, 0));
  }

  /** Recording a request cancels a queued job, and dooms a leased one. */
  lemma RequestDooms(s: Statement, k: Key, r: Job)
    requires r.cancelRequestedAt.None? && OnRow(s, k, r).cancelRequestedAt.Some? && !r.state.Running?
    ensures OnRow(s, k, r).state.Leased? || OnRow(s, k, r).state.Canceled?
  {
  }

  /** ONLY WHILE RUNNING. A job that ends other than canceled after its cancellation was
      requested was running when the request was recorded. */
  lemma OnlyRunningJobsOutliveRequest(h: History, m: nat, n: nat, k: Key)
    requires IsHistory(h) && m < n <= |h.events| && h.worlds[m].WellShaped() && h.worlds[m + 1].WellShaped()
    requires k in h.worlds[m].Rows() && h.worlds[m].Rows()[k].cancelRequestedAt.None?
    requires k in h.worlds[m + 1].Rows() && h.worlds[m + 1].Rows()[k].cancelRequestedAt.Some?
    requires h.worlds[n].WellShaped() && k in h.worlds[n].Rows()
    requires h.worlds[n].Rows()[k].state.IsTerminal() && !h.worlds[n].Rows()[k].state.Canceled?
    ensures h.worlds[m].Rows()[k].state.Running?
  {
    var w, e := h.worlds[m], h.events[m];
    assert Enabled(w, e) && h.worlds[m + 1] == Next(w, e);
    NextRows(w, e);
    if !w.Rows()[k].state.Running? {
      RequestDooms(Reaching(w, e).value, k, w.Rows()[k]);
      DoomedJobsOnlyCancel(h, m + 1, n, k);
      assert false;
    }
  }
}
