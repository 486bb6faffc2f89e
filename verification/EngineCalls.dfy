/** The calls that processJob and its renewal thread make, said in the columns of the row they
    meet: what each call does to the ledger, which call comes next, and what stops a job. */
module EngineCalls {
  import opened Wrappers
  import opened Text
  import opened JobModel
  import opened Ledger
  import opened LedgerRuns
  import opened Engines
  import opened EngineHistories

  /** The job that execution i runs has a row in world n. */
  predicate HasRow(h: History, n: nat, i: nat) {
    Exists(h, n, i) && h.worlds[n].WellShaped() && ExecutionAt(h, n, i).fence.key in h.worlds[n].Rows()
  }

  function RowOf(h: History, n: nat, i: nat): Job
    requires HasRow(h, n, i)
  {
    h.worlds[n].Rows()[ExecutionAt(h, n, i).fence.key]
  }

  /** A step is taken by an execution whose job is in the ledger, and stays there. */
  lemma StepHasRow(h: History, n: nat, i: nat)
    requires IsHistory(h) && StepsAt(h, n, i)
    ensures HasRow(h, n, i) && CanAct(ExecutionAt(h, n, i), h.events[n].action)
    ensures HasRow(h, n + 1, i) && ExecutionAt(h, n + 1, i).fence == ExecutionAt(h, n, i).fence
  {
    var w, e := h.worlds[n], h.events[n];
    assert Enabled(w, e) && h.worlds[n + 1] == Next(w, e);
    NextRows(w, e);
  }

  lemma StepIsOk(h: History, n: nat, i: nat)
    requires IsHistory(h) && n <= |h.events| && HasRow(h, n, i)
    ensures RowOk(RowOf(h, n, i)) && ExecutionOk(ExecutionAt(h, n, i))
  {
    var w := h.worlds[n];
    WorldsStayOk(h, n);
    StatesKeepShape(w.ledger, |w.ledger.steps|);
    assert w.executions[i] in w.executions;
  }

  // ---- What a call does to the row

  /** An acknowledgement that arrives: accepted from the live holder of a job that was asked to
      cancel. */
  function Acknowledged(r: Job, f: Fence, now: int): Job {
    if Live(r, f, now) && r.cancelRequestedAt.Some?
    then r.(state := Canceled, leaseOwner := None, leaseExpiresAt := None, updatedAt := now) else r
  }

  /** An outcome that arrives: accepted from the live holder, and recorded as it is. */
  function Recorded(r: Job, f: Fence, o: Outcome, now: int, backoff: int): Job {
    if !Live(r, f, now) then r
    else
      var freed := r.(leaseOwner := None, leaseExpiresAt := None, updatedAt := now);
      match o
      case Success(response) => freed.(state := Succeeded, response := Some(response))
      case Failure(code, message, retryable) =>
        freed.(state := if !retryable then JobState.Failed else if r.attempt < r.maxAttempts then Queued else DeadLetter,
               nextRunAt := if retryable && r.attempt < r.maxAttempts then now + backoff else r.nextRunAt,
               failureCode := NullIfBlank(code), failureMessage := NullIfBlank(message))
  }

  /** What an action of an execution does to its row, if its call arrives. */
  function Effect(r: Job, x: Execution, a: Action): Job
    requires CanAct(x, a)
  {
    match a
    case Mark(now) =>
      if Live(r, x.fence, now) && r.state.Leased? && r.cancelRequestedAt.None?
      then r.(state := JobState.Running, updatedAt := now) else r
    case AcknowledgeEarly(now) => Acknowledged(r, x.fence, now)
    case AcknowledgeLate(now) => Acknowledged(r, x.fence, now)
    case RenewNow(now, lease, _) =>
      if Live(r, x.fence, now) then r.(leaseExpiresAt := Some(now + lease), updatedAt := now) else r
    case Write(now, backoff) => Recorded(r, x.fence, x.main.outcome, now, backoff)
    case _ => r
  }

  lemma OutcomeIsRecorded(x: Execution, r: Job, now: int, backoff: int)
    requires CanAct(x, Write(now, backoff)) && RowOk(r)
    ensures Recorded(r, x.fence, x.main.outcome, now, backoff)
            == OnRow(Sent(x, Write(now, backoff)).value, x.fence.key, r)
  {
    LiveIsHeldLive(r, x.fence, now);
  }

  lemma ActionTakesEffect(x: Execution, a: Action, r: Job)
    requires CanAct(x, a) && RowOk(r)
    ensures Effect(r, x, a) == if Sent(x, a).Some? then OnRow(Sent(x, a).value, x.fence.key, r) else r
  {
    match a {
      case Write(now, backoff) => OutcomeIsRecorded(x, r, now, backoff);
      case Mark(now) => LiveIsHeldLive(r, x.fence, now);
      case AcknowledgeEarly(now) => LiveIsHeldLive(r, x.fence, now);
      case AcknowledgeLate(now) => LiveIsHeldLive(r, x.fence, now);
      case RenewNow(now, _, _) => LiveIsHeldLive(r, x.fence, now);
      case _ =>
    }
  }

  /** WHAT CALLS DO. In every history each call of an execution that is not lost on its way has
      exactly this effect on its row; one that is lost has none. */
  lemma CallsTakeEffect(h: History, n: nat, i: nat)
    requires IsHistory(h) && StepsAt(h, n, i)
    ensures HasRow(h, n, i) && HasRow(h, n + 1, i) && CanAct(ExecutionAt(h, n, i), h.events[n].action)
    ensures RowOf(h, n + 1, i) == if h.events[n].fate.NotSent? then RowOf(h, n, i)
                                  else Effect(RowOf(h, n, i), ExecutionAt(h, n, i), h.events[n].action)
  {
    var w, e := h.worlds[n], h.events[n];
    StepHasRow(h, n, i);
    StepIsOk(h, n, i);
    NextRows(w, e);
    ActionTakesEffect(ExecutionAt(h, n, i), e.action, RowOf(h, n, i));
  }

  // ---- A batch arrives

  /** A fresh call of processJob, under the fence of the row that was returned. */
  function Fresh(engine: nat, k: Key, owner: string, r: Job): Execution {
    Execution(engine, Fence(k, owner, r.leaseToken + 1), Starting, NotStarted, false, false, 0, 0, 0, 0)
  }

  /** ANY BATCH MAY COME. Any different jobs that are queued, due and have attempts left can be
      delivered to any engine, and each is started under its own new fence. */
  lemma BatchIsSpawned(w: World, engine: nat, owner: string, now: int, lease: int, delivered: seq<Key>)
    requires w.WellShaped() && forall i, j | 0 <= i < j < |delivered| :: delivered[i] != delivered[j]
    requires forall k | k in delivered ::
               && k in w.Rows() && w.Rows()[k].state.Queued?
               && w.Rows()[k].nextRunAt <= now && w.Rows()[k].attempt < w.Rows()[k].maxAttempts
    ensures var e := Poll(engine, Acquire((set k | k in delivered), owner, now, lease), delivered);
            && Enabled(w, e)
            && Next(w, e).executions == w.executions + seq(|delivered|, i requires 0 <= i < |delivered| =>
                 Fresh(engine, delivered[i], owner, w.Rows()[delivered[i]]))
  {
    var s := Acquire((set k | k in delivered), owner, now, lease);
    var e := Poll(engine, s, delivered);
    forall k | k in delivered ensures TakesLease(s, k, w.Rows()[k]) {
      assert k in s.batch;
    }
    assert TakenBy(e, w.Rows());
    forall i | 0 <= i < |delivered|
      ensures Spawned(e, w.Rows())[i] == Fresh(engine, delivered[i], owner, w.Rows()[delivered[i]])
    {
      assert delivered[i] in delivered;
    }
  }

  // ---- Starting

  predicate MarksAt(h: History, n: nat, i: nat) {
    StepsAt(h, n, i) && h.events[n].action.Mark?
  }

  /** The MarkRunning call of execution i is answered, and finds its lease live, the job leased
      and not asked to cancel. */
  predicate StartsAt(h: History, n: nat, i: nat) {
    && MarksAt(h, n, i) && h.events[n].fate.Answered? && HasRow(h, n, i)
    && Live(RowOf(h, n, i), ExecutionAt(h, n, i).fence, h.events[n].action.now)
    && RowOf(h, n, i).state.Leased? && RowOf(h, n, i).cancelRequestedAt.None?
  }

  /** The job is executed, with a renewal thread beside it, exactly if MarkRunning found it so
      and was answered. If it was answered otherwise, the row is read to learn why. */
  lemma MarkDecides(h: History, n: nat, i: nat)
    requires IsHistory(h) && MarksAt(h, n, i)
    ensures HasRow(h, n + 1, i)
    ensures var x := ExecutionAt(h, n + 1, i);
            if StartsAt(h, n, i) then x.main == Executing(Preparing(0)) && x.renewal.Waiting?
            else x.renewal.NotStarted? && x.main == if h.events[n].fate.Answered? then MarkMissed else Finished
  {
    StepHasRow(h, n, i);
    StepIsOk(h, n, i);
    OneStep(h, n + 1, i);
  }

  /** The read after a MarkRunning that matched nothing finds a cancellation request. */
  predicate LearnsAt(h: History, n: nat, i: nat) {
    && StepsAt(h, n, i) && h.events[n].action.Lookup? && h.events[n].fate.Answered? && HasRow(h, n, i)
    && RowOf(h, n, i).cancelRequestedAt.Some?
  }

  predicate ReadsWhyAt(h: History, n: nat, i: nat) {
    StepsAt(h, n, i) && h.events[n].action.Lookup?
  }

  lemma LookupDecides(h: History, n: nat, i: nat)
    requires IsHistory(h) && ReadsWhyAt(h, n, i)
    ensures Exists(h, n + 1, i)
    ensures ExecutionAt(h, n + 1, i).main == if LearnsAt(h, n, i) then MustAcknowledge else Finished
    ensures ExecutionAt(h, n + 1, i).renewal.NotStarted?
  {
    StepHasRow(h, n, i);
    StepIsOk(h, n, i);
    OneStep(h, n + 1, i);
  }

  /** After the read an execution has nothing to do but one acknowledgement, and that only if a
      request was found. */
  lemma {:induction false} OnlyAcknowledges(h: History, n: nat, m: nat, i: nat)
    requires IsHistory(h) && ReadsWhyAt(h, n, i) && n < m <= |h.events|
    ensures Exists(h, m, i)
    ensures var x := ExecutionAt(h, m, i);
            && (x.renewal.NotStarted? || x.renewal.Exited?)
            && (x.main.Finished? || (LearnsAt(h, n, i) && x.main.MustAcknowledge?))
    ensures StepsAt(h, m, i) ==>
              h.events[m].action.CancelContext? || (LearnsAt(h, n, i) && h.events[m].action.AcknowledgeEarly?)
    decreases m
  {
    if n + 1 == m {
      LookupDecides(h, n, i);
    } else {
      OnlyAcknowledges(h, n, m - 1, i);
      StillExists(h, m - 1, i);
      OneStep(h, m, i);
    }
    if StepsAt(h, m, i) {
      StepHasRow(h, m, i);
    }
  }

  // ---- Nothing moves the renewal thread but its own steps and a crash

  predicate CrashesAt(h: History, n: nat, i: nat) {
    n < |h.events| && Exists(h, n, i) && h.events[n] == Crash(ExecutionAt(h, n, i).engine)
  }

  predicate OfRenewal(a: Action) {
    a.Tick? || a.AcknowledgeLate? || a.RenewNow? || a.StopRenewal?
  }

  /** Event p is no step of the renewal thread of execution i, and not the end of its process. */
  predicate RenewalRests(h: History, p: nat, i: nat) {
    !CrashesAt(h, p, i) && (StepsAt(h, p, i) ==> !OfRenewal(h.events[p].action) && !h.events[p].action.Mark?)
  }

  lemma RestsOneStep(h: History, n: nat, i: nat)
    requires IsHistory(h) && n < |h.events| && Exists(h, n, i)
    ensures Exists(h, n + 1, i)
    ensures RenewalRests(h, n, i) ==> ExecutionAt(h, n + 1, i).renewal == ExecutionAt(h, n, i).renewal
  {
    var w, e := h.worlds[n], h.events[n];
    assert Enabled(w, e) && h.worlds[n + 1] == Next(w, e);
    StillExists(h, n, i);
    OneStep(h, n + 1, i);
  }

  lemma {:induction false} RenewalStays(h: History, n: nat, m: nat, i: nat)
    requires IsHistory(h) && n <= m <= |h.events| && Exists(h, n, i) && forall p | n <= p < m :: RenewalRests(h, p, i)
    ensures Exists(h, m, i) && ExecutionAt(h, m, i).renewal == ExecutionAt(h, n, i).renewal
    decreases m
  {
    if n < m {
      RenewalStays(h, n, m - 1, i);
      RestsOneStep(h, m - 1, i);
    }
  }

  // ---- The renewal thread

  predicate TicksAt(h: History, n: nat, i: nat) {
    StepsAt(h, n, i) && h.events[n].action.Tick?
  }

  /** The renewal thread of execution i reads that its job was asked to cancel. */
  predicate NoticesAt(h: History, n: nat, i: nat) {
    TicksAt(h, n, i) && h.events[n].fate.Answered? && HasRow(h, n, i) && RowOf(h, n, i).cancelRequestedAt.Some?
  }

  predicate RenewsAt(h: History, n: nat, i: nat) {
    StepsAt(h, n, i) && h.events[n].action.RenewNow?
  }

  /** The renewal thread is told that its lease is lost: nothing matched, and the read after it
      says so. */
  predicate LosesAt(h: History, n: nat, i: nat) {
    && RenewsAt(h, n, i) && h.events[n].fate.Answered? && h.events[n].action.missRead && HasRow(h, n, i)
    && !Live(RowOf(h, n, i), ExecutionAt(h, n, i).fence, h.events[n].action.now)
  }

  predicate AcknowledgesAt(h: History, n: nat, i: nat) {
    StepsAt(h, n, i) && h.events[n].action.AcknowledgeLate?
  }

  /** Each look at the job leads to an acknowledgement if it finds a request, and to a renewal
      otherwise; a renewal leads back to the wait unless the lease is lost. */
  lemma RenewalThread(h: History, n: nat, i: nat)
    requires IsHistory(h) && (TicksAt(h, n, i) || RenewsAt(h, n, i) || AcknowledgesAt(h, n, i))
    ensures Exists(h, n + 1, i)
    ensures ExecutionAt(h, n + 1, i).renewal
            == if TicksAt(h, n, i) then (if NoticesAt(h, n, i) then MustAck else MustRenew)
               else if AcknowledgesAt(h, n, i) || LosesAt(h, n, i) then Exited else Waiting
  {
    StepHasRow(h, n, i);
    StepIsOk(h, n, i);
    OneStep(h, n + 1, i);
  }

  /** What is due after a look stays due until it is done or the process crashes. */
  lemma NextCallIsDue(h: History, n: nat, m: nat, i: nat, now: int, lease: int, missRead: bool)
    requires IsHistory(h) && TicksAt(h, n, i) && n < m <= |h.events| && forall p | n < p < m :: RenewalRests(h, p, i)
    ensures Exists(h, m, i)
    ensures CanAct(ExecutionAt(h, m, i), AcknowledgeLate(now)) <==> NoticesAt(h, n, i)
    ensures CanAct(ExecutionAt(h, m, i), RenewNow(now, lease, missRead)) <==> !NoticesAt(h, n, i)
  {
    RenewalThread(h, n, i);
    RenewalStays(h, n + 1, m, i);
  }

  /** Where a noticed request leaves an execution. */
  predicate GivenUp(x: Execution) {
    && x.contextCanceled && (x.renewal.MustAck? || x.renewal.Exited?)
    && (x.main.Executing? || x.main.Returned? || x.main.Finished?)
  }

  lemma NoticeGivesUp(h: History, n: nat, i: nat)
    requires IsHistory(h) && NoticesAt(h, n, i)
    ensures Exists(h, n + 1, i) && GivenUp(ExecutionAt(h, n + 1, i))
  {
    StepHasRow(h, n, i);
    StepIsOk(h, n, i);
    OneStep(h, n + 1, i);
  }

  lemma GivenUpStays(x: Execution, a: Action, row: Job, fate: Fate)
    requires GivenUp(x) && CanAct(x, a)
    ensures GivenUp(After(x, a, row, fate)) && !a.Write? && !a.RenewNow?
  {
  }

  /** REQUEST NOTICED. Once the renewal thread has read a cancellation request, its execution
      never renews its lease and never writes an outcome. */
  lemma {:induction false} NothingAfterNotice(h: History, n: nat, m: nat, i: nat)
    requires IsHistory(h) && NoticesAt(h, n, i) && n < m <= |h.events|
    ensures Exists(h, m, i) && GivenUp(ExecutionAt(h, m, i))
    ensures !WritesAt(h, m, i) && !RenewsAt(h, m, i)
    decreases m
  {
    if n + 1 == m {
      NoticeGivesUp(h, n, i);
    } else {
      NothingAfterNotice(h, n, m - 1, i);
      StillExists(h, m - 1, i);
      OneStep(h, m, i);
      if StepsAt(h, m - 1, i) {
        var x, e := ExecutionAt(h, m - 1, i), h.events[m - 1];
        GivenUpStays(x, e.action, h.worlds[m - 1].Rows()[x.fence.key], e.fate);
      }
    }
    if StepsAt(h, m, i) {
      StepHasRow(h, m, i);
    }
  }

  // ---- What cancels the context of a job

  /** A request is noticed, the lease is lost, or the drain deadline fires. */
  predicate StopsAt(h: History, n: nat, i: nat) {
    NoticesAt(h, n, i) || LosesAt(h, n, i) || (StepsAt(h, n, i) && h.events[n].action.CancelContext?)
  }

  ghost predicate StoppedBefore(h: History, n: nat, i: nat) {
    exists j | 0 <= j < n :: StopsAt(h, j, i)
  }

  lemma StoppedStep(h: History, n: nat, i: nat)
    ensures StoppedBefore(h, n + 1, i) <==> StoppedBefore(h, n, i) || StopsAt(h, n, i)
  {
    if StoppedBefore(h, n + 1, i) {
      var j :| 0 <= j < n + 1 && StopsAt(h, j, i);
    }
  }

  lemma NotThereNotStopped(h: History, n: nat, i: nat)
    requires IsHistory(h) && n <= |h.events| && !Exists(h, n, i)
    ensures !StoppedBefore(h, n + 1, i)
  {
    forall j | 0 <= j < n + 1 ensures !StopsAt(h, j, i) {
      if StopsAt(h, j, i) {
        StepHasRow(h, j, i);
        ProgressIsKept(h, j, n, i);
      }
    }
  }

  lemma ContextStep(h: History, n: nat, i: nat)
    requires IsHistory(h) && n < |h.events| && Exists(h, n + 1, i)
    ensures if Exists(h, n, i)
            then ExecutionAt(h, n + 1, i).contextCanceled
                 <==> ExecutionAt(h, n, i).contextCanceled || StopsAt(h, n, i)
            else !ExecutionAt(h, n + 1, i).contextCanceled
  {
    var w, e := h.worlds[n], h.events[n];
    assert Enabled(w, e) && h.worlds[n + 1] == Next(w, e);
    if StepsAt(h, n, i) {
      StepHasRow(h, n, i);
      StepIsOk(h, n, i);
    }
    OneStep(h, n + 1, i);
  }

  /** The context of a job is cancelled exactly if one of these happened. */
  lemma {:induction false} ContextCanceledIff(h: History, n: nat, i: nat)
    requires IsHistory(h) && n <= |h.events| && Exists(h, n, i)
    ensures ExecutionAt(h, n, i).contextCanceled <==> StoppedBefore(h, n, i)
    decreases n
  {
    if n > 0 {
      ContextStep(h, n - 1, i);
      if Exists(h, n - 1, i) {
        ContextCanceledIff(h, n - 1, i);
        StoppedStep(h, n - 1, i);
      } else {
        NotThereNotStopped(h, n - 1, i);
      }
    }
  }

  /** RENEWED WHILE EXECUTING. As long as Execute runs and nothing has stopped the job, its
      renewal thread is waiting for the next tick or about to renew. */
  lemma {:induction false} RenewedWhileExecuting(h: History, n: nat, i: nat)
    requires IsHistory(h) && n <= |h.events| && Exists(h, n, i)
    requires ExecutionAt(h, n, i).main.Executing? && !ExecutionAt(h, n, i).contextCanceled
    ensures ExecutionAt(h, n, i).renewal.Waiting? || ExecutionAt(h, n, i).renewal.MustRenew?
    decreases n
  {
    OneStep(h, n, i);
    if Exists(h, n - 1, i) && ExecutionAt(h, n - 1, i).main.Executing? {
      RenewedWhileExecuting(h, n - 1, i);
    }
  }

  /** WRITTEN OR NOT. When the renewal thread has stopped, the outcome is due if and only if no
      request was noticed, no lease was lost and no deadline fired before; else nothing is. */
  lemma JoinDecides(h: History, n: nat, i: nat)
    requires IsHistory(h) && JoinsAt(h, n, i)
    ensures Exists(h, n, i) && Exists(h, n + 1, i) && ExecutionAt(h, n, i).main.Returned?
    ensures ExecutionAt(h, n + 1, i).main
            == if StoppedBefore(h, n, i) then Finished else Deciding(ExecutionAt(h, n, i).main.outcome)
  {
    StepHasRow(h, n, i);
    ContextCanceledIff(h, n, i);
    OneStep(h, n + 1, i);
  }

  // ---- Outcomes

  /** Execute of execution i ends with this outcome, or its panic does. */
  predicate EndsWithAt(h: History, n: nat, i: nat, o: Outcome) {
    StepsAt(h, n, i) && (h.events[n].action == Return(o) || h.events[n].action == Panic(o))
  }

  /** What is written is what Execute came back with. */
  lemma {:induction false} OutcomeCameFrom(h: History, n: nat, i: nat) returns (j: nat)
    requires IsHistory(h) && n <= |h.events| && Exists(h, n, i)
    requires ExecutionAt(h, n, i).main.Returned? || ExecutionAt(h, n, i).main.Deciding?
    ensures j < n && EndsWithAt(h, j, i, ExecutionAt(h, n, i).main.outcome)
    decreases n
  {
    var o := ExecutionAt(h, n, i).main.outcome;
    OneStep(h, n, i);
    if EndsWithAt(h, n - 1, i, o) {
      j := n - 1;
    } else {
      j := OutcomeCameFrom(h, n - 1, i);
    }
  }

  /** The write that makes a row succeeded is the answer of the execution that sent it. */
  lemma SuccessCameFrom(h: History, n: nat, k: Key) returns (i: nat, j: nat)
    requires IsHistory(h) && n < |h.events| && h.worlds[n].WellShaped() && h.worlds[n + 1].WellShaped()
    requires k in h.worlds[n + 1].Rows() && h.worlds[n + 1].Rows()[k].state.Succeeded?
    requires k in h.worlds[n].Rows() ==> !h.worlds[n].Rows()[k].state.Succeeded?
    ensures j < n && h.worlds[n + 1].Rows()[k].response.Some?
    ensures EndsWithAt(h, j, i, Success(h.worlds[n + 1].Rows()[k].response.value))
    ensures Exists(h, n + 1, i) && ExecutionAt(h, n + 1, i).fence.key == k
  {
    var w, e := h.worlds[n], h.events[n];
    assert Enabled(w, e) && h.worlds[n + 1] == Next(w, e);
    NextRows(w, e);
    var s := Reaching(w, e).value;
    if k in w.Rows() {
      OnlyCompleteSucceeds(s, k, w.Rows()[k]);
    }
    i := e.i;
    CallsTakeEffect(h, n, i);
    StepHasRow(h, n, i);
    j := OutcomeCameFrom(h, n, i);
  }

  lemma SucceededStays(h: History, n: nat, k: Key)
    requires IsHistory(h) && n < |h.events| && h.worlds[n].WellShaped()
    requires k in h.worlds[n].Rows() && h.worlds[n].Rows()[k].state.Succeeded?
    ensures h.worlds[n + 1].WellShaped() && k in h.worlds[n + 1].Rows()
    ensures h.worlds[n + 1].Rows()[k] == h.worlds[n].Rows()[k]
  {
    var w, e := h.worlds[n], h.events[n];
    assert Enabled(w, e) && h.worlds[n + 1] == Next(w, e);
    NextRows(w, e);
    WorldsStayOk(h, n);
    StatesKeepShape(w.ledger, |w.ledger.steps|);
    if Reaching(w, e).Some? {
      MeasureStep(Reaching(w, e).value, k, w.Rows()[k]);
    }
  }

  lemma FenceStays(h: History, n: nat, i: nat)
    requires IsHistory(h) && n < |h.events| && Exists(h, n, i)
    ensures Exists(h, n + 1, i) && ExecutionAt(h, n + 1, i).fence == ExecutionAt(h, n, i).fence
  {
    StillExists(h, n, i);
    OneStep(h, n + 1, i);
  }

  /** SUCCESS IS THE ANSWER. The response stored for a job that succeeded is the one that Execute
      returned to an execution of that job. */
  lemma {:induction false} SucceededWithItsAnswer(h: History, n: nat, k: Key) returns (i: nat, j: nat)
    requires IsHistory(h) && n <= |h.events| && h.worlds[n].WellShaped()
    requires k in h.worlds[n].Rows() && h.worlds[n].Rows()[k].state.Succeeded?
    ensures j < n && h.worlds[n].Rows()[k].response.Some?
    ensures EndsWithAt(h, j, i, Success(h.worlds[n].Rows()[k].response.value))
    ensures Exists(h, n, i) && ExecutionAt(h, n, i).fence.key == k
    decreases n
  {
    var w := h.worlds[n - 1];
    assert Enabled(w, h.events[n - 1]);
    if k in w.Rows() && w.Rows()[k].state.Succeeded? {
      i, j := SucceededWithItsAnswer(h, n - 1, k);
      SucceededStays(h, n - 1, k);
      FenceStays(h, n - 1, i);
    } else {
      i, j := SuccessCameFrom(h, n - 1, k);
    }
  }

  // ---- Cancellation, carried out by the worker

  /** CANCELED WHILE RUNNING. The renewal thread of a running job notices the request and
      acknowledges it, and the job ends canceled. */
  lemma CanceledWhileRunning(k: Key, input: NewJob) returns (h: History)
    requires 1 <= input.maxAttempts <= MAX_ALLOWED_ATTEMPTS && input.nextRunAt == Some(0)
    ensures IsHistory(h) && |h.events| >= 2
    ensures NoticesAt(h, |h.events| - 2, 0) && AcknowledgesAt(h, |h.events| - 1, 0)
    ensures h.worlds[|h.events| - 1].WellShaped() && k in h.worlds[|h.events| - 1].Rows()
    ensures h.worlds[|h.events| - 1].Rows()[k].state.Running?
    ensures Last(h).WellShaped() && k in Last(h).Rows() && Last(h).Rows()[k].state.Canceled?
  {
    var r, x;
    h, r, x := RunningAndAsked(k, input);
    h := StepOnly(h, k, r, x, Tick);
    x := After(x, Tick, r, Answered);
    h := StepOnly(h, k, r, x, AcknowledgeLate(0));
  }

  /** CANCELED BEFORE THE START. A worker that leased a job which is then asked to cancel learns
      so when it wants to start it, acknowledges, and makes no request. */
  lemma CanceledBeforeStart(k: Key, input: NewJob) returns (h: History)
    requires 1 <= input.maxAttempts <= MAX_ALLOWED_ATTEMPTS && input.nextRunAt == Some(0)
    ensures IsHistory(h) && |h.events| >= 2
    ensures LearnsAt(h, |h.events| - 2, 0) && StepsAt(h, |h.events| - 1, 0)
    ensures h.events[|h.events| - 1].action.AcknowledgeEarly?
    ensures Last(h).WellShaped() && k in Last(h).Rows() && Last(h).Rows()[k].state.Canceled?
    ensures Exists(h, |h.events|, 0) && ExecutionAt(h, |h.events|, 0).requests == 0
  {
    var r := NewRow(input, 0);
    h := Created(k, input);
    h := LeaseTo(h, k, r, [], 0);
    r := AcquiredRow(r, "worker", 0, 1);
    var x := NewExecution(0, Fence(k, "worker", 1));
    assert [] + [x] == [x];
    h := FromOutside(h, k, r, [x], Client(Cancel(k, 0)));
    r := CanceledRow(r, 0);
    h := StepOnly(h, k, r, x, Mark(0));
    x := After(x, Mark(0), r, Answered);
    h := StepOnly(h, k, r, x, Lookup);
    x := After(x, Lookup, r, Answered);
    h := StepOnly(h, k, r, x, AcknowledgeEarly(0));
  }

  /** LEASE LOST. A renewal that comes too late stops the execution. */
  lemma LeaseLostWhileRunning(k: Key, input: NewJob) returns (h: History)
    requires 2 <= input.maxAttempts <= MAX_ALLOWED_ATTEMPTS && input.nextRunAt == Some(0)
    ensures IsHistory(h) && |h.events| >= 1 && LosesAt(h, |h.events| - 1, 0)
    ensures Exists(h, |h.events|, 0) && ExecutionAt(h, |h.events|, 0).contextCanceled
  {
    var r, x;
    h, r, x := RunningAndReclaimed(k, input);
    h := StepOnly(h, k, r, x, Tick);
    x := After(x, Tick, r, Answered);
    h := StepOnly(h, k, r, x, RenewNow(1, 1, true));
  }
}
