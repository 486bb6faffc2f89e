/** Worker engines driving the ledger: any number of processJob calls, in any number of
    processes, interleaved step by step with each other, with API clients and with the
    reclamation loops (pkg/worker/worker.go). A call to the store can be lost before it is
    sent, can land while its reply is lost, or can be answered; a process can crash at any
    point. processJob has two threads: the main one and the lease renewal goroutine. */
module Engines {
  import opened Wrappers
  import opened JobModel
  import opened Ledger
  import opened LedgerRuns
  import FallbackGraph

  /** What Execute came back with, after panic recovery and SanitizeFailure. */
  datatype Outcome =
    | Success(response: string)
    | Failure(code: string, message: string, retryable: bool)

  predicate Bounded(o: Outcome) {
    o.Failure? ==> |o.code| <= MAX_FAILURE_CODE_LENGTH && |o.message| <= MAX_FAILURE_MESSAGE_LENGTH
  }

  /** Where Execute is, in the retry loop of DispatchSingleAttempt. */
  datatype DispatchPc =
    | Preparing(attempt: nat)     // checking and translating the request, attempt requests sent
    | Pending(attempt: nat)       // one more sent, no reply yet
    | Concluded(heard: bool)      // nothing more will be sent; `heard`: a reply that is final

  datatype MainPc =
    | Starting                    // about to call MarkRunning
    | MarkMissed                  // MarkRunning matched no row; about to read why
    | MustAcknowledge             // MarkRunning reported a cancellation request
    | Executing(at: DispatchPc)
    | Returned(outcome: Outcome)  // Execute is back; waiting for the renewal thread
    | Deciding(outcome: Outcome)  // the job context was live: about to write the outcome
    | Finished

  datatype RenewalPc =
    | NotStarted
    | Waiting                     // in the select
    | MustAck                     // saw a cancellation request, context cancelled
    | MustRenew
    | Exited

  /** One call of processJob. The last fields count what it has sent. */
  datatype Execution = Execution(
    engine: nat,
    fence: Fence,
    main: MainPc,
    renewal: RenewalPc,
    contextCanceled: bool,
    marked: bool,                 // a MarkRunning call came back without error
    requests: nat,                // downstream requests
    acks: nat,
    completes: nat,
    fails: nat)

  datatype Action =
    | Mark(now: int)
    | Lookup
    | AcknowledgeEarly(now: int)
    | Refuse                      // job turned down, no agent, not translatable, retries used up
    | Send
    | Hear(retryable: bool)       // the reply to a request, or its failure
    | Return(outcome: Outcome)
    | Panic(outcome: Outcome)     // recovered by processJob, reported as a failure
    | Join
    | Write(now: int, backoff: int)
    | Tick
    | AcknowledgeLate(now: int)
    | RenewNow(now: int, lease: int, missRead: bool)
    | StopRenewal
    | CancelContext               // the drain deadline

  /** What became of a call to the store. */
  datatype Fate = NotSent | ReplyLost | Answered

  function NewExecution(engine: nat, fence: Fence): Execution {
    Execution(engine, fence, Starting, NotStarted, false, false, 0, 0, 0, 0)
  }

  predicate CanAct(x: Execution, a: Action) {
    match a
    case Mark(_) => x.main.Starting?
    case Lookup => x.main.MarkMissed?
    case AcknowledgeEarly(_) => x.main.MustAcknowledge?
    case Refuse => x.main.Executing? && x.main.at.Preparing?
    case Send => x.main.Executing? && x.main.at.Preparing? && x.main.at.attempt <= FallbackGraph.SINGLE_ATTEMPT_RETRIES
    case Hear(_) => x.main.Executing? && x.main.at.Pending?
    case Return(o) => x.main.Executing? && x.main.at.Concluded? && Bounded(o) && (o.Success? ==> x.main.at.heard)
    case Panic(o) => x.main.Executing? && Bounded(o) && o.Failure?
    case Join => x.main.Returned? && x.renewal.Exited?
    case Write(_, _) => x.main.Deciding?
    case Tick => x.renewal.Waiting?
    case AcknowledgeLate(_) => x.renewal.MustAck?
    case RenewNow(_, _, _) => x.renewal.MustRenew?
    case StopRenewal => x.renewal.Waiting? && (x.main.Returned? || x.contextCanceled)
    case CancelContext => !x.main.Finished?
  }

  /** The statement an action sends. */
  function Sent(x: Execution, a: Action): Option<Statement>
    requires CanAct(x, a)
  {
    match a
    case Mark(now) => Some(MarkRunning(x.fence, now))
    case AcknowledgeEarly(now) => Some(Acknowledge(x.fence, now))
    case AcknowledgeLate(now) => Some(Acknowledge(x.fence, now))
    case Write(now, backoff) =>
      Some(match x.main.outcome
           case Success(response) => Complete(x.fence, now, response)
           case Failure(code, message, retryable) => Fail(x.fence, now, retryable, backoff, code, message))
    case RenewNow(now, lease, _) => Some(Renew(x.fence, now, lease))
    case _ => None
  }

  /** The execution after an action, given the row as the action found it. */
  function After(x: Execution, a: Action, row: Job, fate: Fate): Execution
    requires CanAct(x, a)
  {
    match a
    case Mark(now) =>
      if !fate.Answered? then x.(main := Finished)
      else if CanRun(row, x.fence, now) then x.(main := Executing(Preparing(0)), renewal := Waiting, marked := true)
      else x.(main := MarkMissed)
    case Lookup =>
      x.(main := if fate.Answered? && row.cancelRequestedAt.Some? then MustAcknowledge else Finished)
    case AcknowledgeEarly(_) => x.(main := Finished, acks := x.acks + 1)
    case Refuse => x.(main := Executing(Concluded(false)))
    case Send => x.(main := Executing(Pending(x.main.at.attempt)), requests := x.requests + 1)
    case Hear(retryable) =>
      x.(main := Executing(if retryable then Preparing(x.main.at.attempt + 1) else Concluded(true)))
    case Return(o) => x.(main := Returned(o))
    case Panic(o) => x.(main := Returned(o))
    case Join =>
      x.(main := if x.contextCanceled then Finished else Deciding(x.main.outcome))
    case Write(_, _) =>
      if x.main.outcome.Success? then x.(main := Finished, completes := x.completes + 1)
      else x.(main := Finished, fails := x.fails + 1)
    case Tick =>
      if fate.Answered? && row.cancelRequestedAt.Some? then x.(contextCanceled := true, renewal := MustAck)
      else x.(renewal := MustRenew)
    case AcknowledgeLate(_) => x.(renewal := Exited, acks := x.acks + 1)
    case RenewNow(now, _, missRead) =>
      if fate.Answered? && !HeldLive(row, x.fence, now) && missRead
      then x.(contextCanceled := true, renewal := Exited)
      else x.(renewal := Waiting)
    case StopRenewal => x.(renewal := Exited)
    case CancelContext => x.(contextCanceled := true)
  }

  /** The ledger so far and every processJob call ever started. */
  datatype World = World(ledger: Run, executions: seq<Execution>) {
    predicate WellShaped() {
      |ledger.states| == |ledger.steps| + 1
    }

    function Rows(): Table {
      if ledger.states == [] then map[] else ledger.states[|ledger.states| - 1]
    }
  }

  datatype Event =
    | Client(s: Statement)                                    // create or cancel, from the API
    | Sweep(s: Statement)                                     // ReclaimExpiredLeases
    | Poll(engine: nat, s: Statement, delivered: seq<Key>)    // AcquireLeases, and the jobs started from it
    | Step(i: nat, action: Action, fate: Fate)
    | Crash(engine: nat)

  /** The delivered jobs are distinct, and the statement did lease each of them. */
  predicate TakenBy(e: Event, t: Table)
    requires e.Poll?
  {
    && (forall k | k in e.delivered :: k in t && TakesLease(e.s, k, t[k]))
    && (forall i, j | 0 <= i < j < |e.delivered| :: e.delivered[i] != e.delivered[j])
  }

  predicate Enabled(w: World, e: Event)
    requires w.WellShaped()
  {
    match e
    case Client(s) => (s.Insert? || s.Cancel?) && WellFormed(s)
    case Sweep(s) => s.Reclaim?
    case Poll(_, s, delivered) =>
      && s.Acquire?
      && TakenBy(e, w.Rows())
    case Step(i, a, _) =>
      i < |w.executions| && CanAct(w.executions[i], a) && w.executions[i].fence.key in w.Rows()
    case Crash(_) => true
  }

  /** The statement that reaches the database. */
  function Reaching(w: World, e: Event): Option<Statement>
    requires w.WellShaped() && Enabled(w, e)
  {
    match e
    case Client(s) => Some(s)
    case Sweep(s) => Some(s)
    case Poll(_, s, _) => Some(s)
    case Step(i, a, fate) => if fate.NotSent? then None else Sent(w.executions[i], a)
    case Crash(_) => None
  }

  /** One execution for each delivered job, under the fence of the row it was returned with. */
  function Spawned(e: Event, rows: Table): seq<Execution>
    requires e.Poll? && forall k | k in e.delivered :: k in rows
  {
    seq(|e.delivered|, i requires 0 <= i < |e.delivered| =>
      var k := e.delivered[i];
      NewExecution(e.engine, Snapshot(k, OnRow(e.s, k, rows[k])).GetFence()))
  }

  function Crashed(x: Execution, engine: nat): Execution {
    if x.engine == engine then x.(main := Finished, renewal := Exited) else x
  }

  function Next(w: World, e: Event): World
    requires w.WellShaped() && Enabled(w, e)
  {
    World(
      match Reaching(w, e) case Some(s) => Extend(w.ledger, s) case None => w.ledger,
      match e
      case Poll(_, _, _) => w.executions + Spawned(e, w.Rows())
      case Step(i, a, fate) =>
        w.executions[i := After(w.executions[i], a, w.Rows()[w.executions[i].fence.key], fate)]
      case Crash(engine) =>
        seq(|w.executions|, i requires 0 <= i < |w.executions| => Crashed(w.executions[i], engine))
      case _ => w.executions)
  }

  // ---- Invariants of one execution

  /** Where the calls an execution has issued stand against its program counters. */
  ghost predicate ExecutionOk(x: Execution) {
    && x.requests <= FallbackGraph.SINGLE_ATTEMPT_RETRIES + 1 && (x.requests > 0 ==> x.marked)
    && match x.main
       case Executing(at) =>
         && InFlight(x)
         && (at.Preparing? ==> x.requests == at.attempt)
         && (at.Pending? ==> x.requests == at.attempt + 1)
         && (at == Concluded(true) ==> x.requests > 0)
       case Returned(o) => InFlight(x) && Bounded(o) && (o.Success? ==> x.requests > 0)
       case Deciding(o) =>
         && x.marked && x.renewal.Exited? && x.acks == x.completes == x.fails == 0 && Bounded(o)
         && (o.Success? ==> x.requests > 0)
       case Finished =>
         && (x.renewal.NotStarted? || x.renewal.Exited?)
         && x.acks + x.completes + x.fails <= 1
         && (x.completes + x.fails == 1 ==> x.marked)
         && (x.completes == 1 ==> x.requests > 0)
       case _ =>
         !x.marked && x.renewal.NotStarted? && x.acks == x.completes == x.fails == 0
  }

  ghost predicate InFlight(x: Execution) {
    && x.marked && !x.renewal.NotStarted? && x.completes == x.fails == 0
    && x.acks <= (if x.renewal.Exited? && x.contextCanceled then 1 else 0)
    && (x.renewal.MustAck? ==> x.contextCanceled)
  }

  lemma ActionKeepsOk(x: Execution, a: Action, row: Job, fate: Fate)
    requires ExecutionOk(x) && CanAct(x, a)
    ensures ExecutionOk(After(x, a, row, fate))
    ensures After(x, a, row, fate).fence == x.fence && After(x, a, row, fate).engine == x.engine
    ensures Sent(x, a).Some? ==> WellFormed(Sent(x, a).value) && Target(Sent(x, a).value) == Some(x.fence.key)
  {
  }

  /** The fence is one the row has seen; if it is still current, the row is under this
      execution's owner, and once the execution has been marked the row is running. */
  ghost predicate FenceOk(x: Execution, r: Job) {
    && 1 <= x.fence.token <= r.leaseToken
    && (r.leaseToken == x.fence.token && r.leaseOwner.Some? ==>
          r.leaseOwner.value == x.fence.owner && (x.marked ==> r.state.Running?))
  }

  lemma StatementKeepsFence(s: Statement, x: Execution, r: Job)
    requires RowOk(r) && FenceOk(x, r)
    ensures FenceOk(x, OnRow(s, x.fence.key, r))
  {
  }

  /** An answered MarkRunning leaves the row running under its fence. */
  lemma ActionKeepsFence(x: Execution, a: Action, r: Job, fate: Fate)
    requires CanAct(x, a) && RowOk(r) && FenceOk(x, r)
    ensures var r' := if fate.NotSent? || Sent(x, a).None? then r else OnRow(Sent(x, a).value, x.fence.key, r);
            FenceOk(After(x, a, r, fate), r')
  {
    if !fate.NotSent? && Sent(x, a).Some? {
      StatementKeepsFence(Sent(x, a).value, x, r);
    }
  }

  // ---- Invariants of the world

  function Executions(xs: seq<Execution>, k: Key): nat {
    if xs == [] then 0 else Executions(xs[..|xs| - 1], k) + if xs[|xs| - 1].fence.key == k then 1 else 0
  }

  /** Downstream requests made for job k. */
  function Requests(xs: seq<Execution>, k: Key): nat {
    if xs == [] then 0
    else Requests(xs[..|xs| - 1], k) + if xs[|xs| - 1].fence.key == k then xs[|xs| - 1].requests else 0
  }

  function Attempts(t: Table, k: Key): nat {
    if k in t then t[k].attempt else 0
  }

  ghost predicate FencesOk(xs: seq<Execution>, t: Table) {
    forall x | x in xs :: x.fence.key in t && FenceOk(x, t[x.fence.key])
  }

  ghost predicate DistinctFences(xs: seq<Execution>) {
    forall i, j | 0 <= i < j < |xs| :: xs[i].fence.key == xs[j].fence.key ==> xs[i].fence.token != xs[j].fence.token
  }

  ghost predicate WorldOk(w: World) {
    && IsRun(w.ledger)
    && (forall x | x in w.executions :: ExecutionOk(x))
    && FencesOk(w.executions, w.Rows())
    && DistinctFences(w.executions)
    && forall k :: Executions(w.executions, k) <= Attempts(w.Rows(), k)
  }

  const INITIAL := World(EMPTY_RUN, [])

  lemma {:induction false} SameFencesSameCount(xs: seq<Execution>, ys: seq<Execution>, k: Key)
    requires |xs| == |ys| && forall i | 0 <= i < |xs| :: xs[i].fence == ys[i].fence
    ensures Executions(xs, k) == Executions(ys, k)
  {
    if xs != [] {
      SameFencesSameCount(xs[..|xs| - 1], ys[..|ys| - 1], k);
    }
  }

  lemma {:induction false} CountAppended(xs: seq<Execution>, ys: seq<Execution>, k: Key)
    requires forall i, j | 0 <= i < j < |ys| :: ys[i].fence.key != ys[j].fence.key
    ensures Executions(xs + ys, k) == Executions(xs, k) + if exists y | y in ys :: y.fence.key == k then 1 else 0
  {
    if ys == [] {
      assert xs + ys == xs;
    } else {
      var front := ys[..|ys| - 1];
      assert xs + ys == (xs + front) + [ys[|ys| - 1]];
      assert (xs + ys)[..|xs + ys| - 1] == xs + front;
      CountAppended(xs, front, k);
      assert forall y | y in front :: y in ys;
      assert ys == front + [ys[|ys| - 1]];
    }
  }

  /** What a statement does to the fences of executions it does not belong to. */
  lemma FencesSurvive(run: Run, s: Statement, xs: seq<Execution>)
    requires IsRun(run) && WellFormed(s)
    requires FencesOk(xs, run.states[|run.steps|])
    ensures IsRun(Extend(run, s))
    ensures FencesOk(xs, Apply(run.states[|run.steps|], s))
  {
    ExtendIsRun(run, s);
    StatesKeepShape(run, |run.steps|);
    var t := run.states[|run.steps|];
    forall x | x in xs ensures x.fence.key in Apply(t, s) && FenceOk(x, Apply(t, s)[x.fence.key]) {
      StatementKeepsFence(s, x, t[x.fence.key]);
    }
  }

  lemma AttemptsGrow(t: Table, s: Statement, k: Key)
    ensures Attempts(t, k) <= Attempts(Apply(t, s), k)
    ensures k in t && TakesLease(s, k, t[k]) ==> Attempts(Apply(t, s), k) == Attempts(t, k) + 1
  {
  }

  lemma NextRows(w: World, e: Event)
    requires w.WellShaped() && Enabled(w, e)
    ensures Next(w, e).WellShaped()
    ensures Next(w, e).Rows() == match Reaching(w, e) case Some(s) => Apply(w.Rows(), s) case None => w.Rows()
  {
  }

  /** The executions started from one AcquireLeases call fit in. */
  lemma SpawnedOk(xs: seq<Execution>, t: Table, e: Event)
    requires e.Poll? && e.s.Acquire? && TakenBy(e, t)
    requires FencesOk(xs, t) && DistinctFences(xs)
    ensures var ys := Spawned(e, t);
            && FencesOk(ys, Apply(t, e.s))
            && (forall y | y in ys :: ExecutionOk(y) && y.fence.key in e.delivered)
            && DistinctFences(xs + ys)
            && forall i, j | 0 <= i < j < |ys| :: ys[i].fence.key != ys[j].fence.key
  {
    var ys := Spawned(e, t);
    var zs := xs + ys;
    forall i, j | 0 <= i < j < |zs| && zs[i].fence.key == zs[j].fence.key
      ensures zs[i].fence.token != zs[j].fence.token
    {
      if i < |xs| <= j {
        assert xs[i] in xs && FenceOk(xs[i], t[xs[i].fence.key]);
      }
    }
  }

  lemma PollKeepsOk(w: World, e: Event)
    requires WorldOk(w) && e.Poll? && Enabled(w, e)
    ensures WorldOk(Next(w, e))
  {
    var t, xs := w.Rows(), w.executions;
    var ys := Spawned(e, t);
    NextRows(w, e);
    FencesSurvive(w.ledger, e.s, xs);
    SpawnedOk(xs, t, e);
    forall k ensures Executions(xs + ys, k) <= Attempts(Apply(t, e.s), k) {
      CountAppended(xs, ys, k);
      AttemptsGrow(t, e.s, k);
    }
  }

  /** Executions that keep their fences stay within the attempts of their jobs. */
  lemma CountsSurvive(xs: seq<Execution>, ys: seq<Execution>, t: Table, s: Option<Statement>)
    requires |xs| == |ys| && forall i | 0 <= i < |xs| :: xs[i].fence == ys[i].fence
    requires forall k :: Executions(xs, k) <= Attempts(t, k)
    ensures forall k :: Executions(ys, k) <= Attempts(if s.Some? then Apply(t, s.value) else t, k)
  {
    forall k ensures Executions(ys, k) <= Attempts(if s.Some? then Apply(t, s.value) else t, k) {
      SameFencesSameCount(xs, ys, k);
      if s.Some? {
        AttemptsGrow(t, s.value, k);
      }
    }
  }

  lemma StepKeepsOk(w: World, e: Event)
    requires WorldOk(w) && e.Step? && Enabled(w, e)
    ensures WorldOk(Next(w, e))
  {
    var t, x, ys := w.Rows(), w.executions[e.i], Next(w, e).executions;
    var k := x.fence.key;
    NextRows(w, e);
    StatesKeepShape(w.ledger, |w.ledger.steps|);
    ActionKeepsOk(x, e.action, t[k], e.fate);
    ActionKeepsFence(x, e.action, t[k], e.fate);
    if Reaching(w, e).Some? {
      FencesSurvive(w.ledger, Reaching(w, e).value, w.executions);
    }
    CountsSurvive(w.executions, ys, t, Reaching(w, e));
    var y := ys[e.i];
    assert x in w.executions;
    forall z | z in ys ensures z == y || z in w.executions {
      var j :| 0 <= j < |ys| && ys[j] == z;
    }
  }

  lemma OutsideKeepsOk(w: World, e: Event)
    requires WorldOk(w) && (e.Client? || e.Sweep?) && Enabled(w, e)
    ensures WorldOk(Next(w, e))
  {
    NextRows(w, e);
    FencesSurvive(w.ledger, e.s, w.executions);
    CountsSurvive(w.executions, w.executions, w.Rows(), Some(e.s));
  }

  lemma CrashedOk(x: Execution, engine: nat, r: Job)
    requires ExecutionOk(x) && FenceOk(x, r)
    ensures ExecutionOk(Crashed(x, engine)) && FenceOk(Crashed(x, engine), r) && Crashed(x, engine).fence == x.fence
  {
  }

  lemma CrashKeepsOk(w: World, e: Event)
    requires WorldOk(w) && e.Crash?
    ensures WorldOk(Next(w, e))
  {
    NextRows(w, e);
    var ys := Next(w, e).executions;
    CountsSurvive(w.executions, ys, w.Rows(), None);
    forall y | y in ys
      ensures ExecutionOk(y) && y.fence.key in w.Rows() && FenceOk(y, w.Rows()[y.fence.key])
    {
      var j :| 0 <= j < |ys| && ys[j] == y;
      assert w.executions[j] in w.executions;
      CrashedOk(w.executions[j], e.engine, w.Rows()[w.executions[j].fence.key]);
    }
  }

  // ---- Histories

  datatype History = History(events: seq<Event>, worlds: seq<World>)

  /** Every interleaving of enabled events, from the empty ledger with nothing running. */
  ghost predicate IsHistory(h: History) {
    && |h.worlds| == |h.events| + 1
    && h.worlds[0] == INITIAL
    && forall n {:trigger h.events[n]} | 0 <= n < |h.events| ::
         && h.worlds[n].WellShaped() && Enabled(h.worlds[n], h.events[n])
         && h.worlds[n + 1] == Next(h.worlds[n], h.events[n])
  }

  lemma {:induction false} WorldsStayOk(h: History, n: nat)
    requires IsHistory(h) && n <= |h.events|
    ensures WorldOk(h.worlds[n])
    decreases n
  {
    if n > 0 {
      WorldsStayOk(h, n - 1);
      var e := h.events[n - 1];
      match e {
        case Poll(_, _, _) => PollKeepsOk(h.worlds[n - 1], e);
        case Step(_, _, _) => StepKeepsOk(h.worlds[n - 1], e);
        case Crash(_) => CrashKeepsOk(h.worlds[n - 1], e);
        case _ => OutsideKeepsOk(h.worlds[n - 1], e);
      }
    }
  }

  /** No two executions, of any engines, ever run under the same lease token of a job. */
  lemma ExecutionsHaveDistinctLeases(h: History, n: nat, i: nat, j: nat)
    requires IsHistory(h) && n <= |h.events|
    requires i < j < |h.worlds[n].executions|
    ensures var x, y := h.worlds[n].executions[i], h.worlds[n].executions[j];
            x.fence.key == y.fence.key ==> x.fence.token != y.fence.token
  {
    WorldsStayOk(h, n);
  }

  lemma {:induction false} OneRequestEach(xs: seq<Execution>, k: Key)
    requires forall x | x in xs :: x.requests <= FallbackGraph.SINGLE_ATTEMPT_RETRIES + 1
    ensures Requests(xs, k) <= Executions(xs, k)
  {
    if xs != [] {
      OneRequestEach(xs[..|xs| - 1], k);
      assert xs[|xs| - 1] in xs;
    }
  }

  /** BOUNDED EXECUTION. A job causes at most max_attempts downstream requests in all, even
      when holders of expired leases are still running. */
  lemma RequestsAreBounded(h: History, n: nat, k: Key)
    requires IsHistory(h) && n <= |h.events|
    ensures var w := h.worlds[n];
            && Requests(w.executions, k) <= Executions(w.executions, k) <= Attempts(w.Rows(), k)
            && (k in w.Rows() ==> Requests(w.executions, k) <= w.Rows()[k].maxAttempts <= MAX_ALLOWED_ATTEMPTS)
            && (k !in w.Rows() ==> Requests(w.executions, k) == 0)
  {
    WorldsStayOk(h, n);
    var w := h.worlds[n];
    OneRequestEach(w.executions, k);
    StatesKeepShape(w.ledger, |w.ledger.steps|);
  }

  /** ONE OUTCOME PER LEASE. Across both threads of a processJob call. */
  lemma OneOutcomePerLease(h: History, n: nat, i: nat)
    requires IsHistory(h) && n <= |h.events| && i < |h.worlds[n].executions|
    ensures var x := h.worlds[n].executions[i];
            && x.acks + x.completes + x.fails <= 1
            && (x.completes + x.fails == 1 ==> x.marked)
            && (x.completes == 1 ==> x.requests == 1)
            && (x.requests >= 1 ==> x.marked)
  {
    WorldsStayOk(h, n);
    assert h.worlds[n].executions[i] in h.worlds[n].executions;
  }

  /** At most one execution in the whole world holds a job at any moment. */
  lemma OneHolder(h: History, n: nat, i: nat, j: nat)
    requires IsHistory(h) && n <= |h.events|
    requires i < |h.worlds[n].executions| && j < |h.worlds[n].executions|
    requires var w := h.worlds[n];
             var x, y := w.executions[i], w.executions[j];
             && x.fence.key == y.fence.key && x.fence.key in w.Rows()
             && Held(w.Rows()[x.fence.key], x.fence) && Held(w.Rows()[x.fence.key], y.fence)
    ensures i == j
  {
    WorldsStayOk(h, n);
    if i < j {
      ExecutionsHaveDistinctLeases(h, n, i, j);
    } else if j < i {
      ExecutionsHaveDistinctLeases(h, n, j, i);
    }
  }

  /** Fencing holds in every such world, crashes and lost replies included: an accepted write
      belongs to the one acquire whose fence it carries, with nothing having moved the lease
      since. */
  lemma FencingInWorlds(h: History, n: nat, j: nat, f: Fence) returns (i: nat)
    requires IsHistory(h) && n <= |h.events| && AcceptedAt(h.worlds[n].ledger, j, f)
    ensures var run := h.worlds[n].ledger;
            && i < j && Issues(run, i, f)
            && (forall i' | Issues(run, i', f) :: i' == i)
            && Unmoved(run, i, j, f.key)
  {
    WorldsStayOk(h, n);
    i := FencingOverRuns(h.worlds[n].ledger, j, f);
  }

  // ---- Cancellation in engine-driven runs

  /** Asked to be cancelled while not running. */
  predicate Doomed(t: Table, k: Key) {
    && k in t && t[k].cancelRequestedAt.Some?
    && (t[k].state.Queued? || t[k].state.Leased? || t[k].state.Canceled?)
  }

  /** Leases the job can still take. */
  function LeasesLeft(t: Table, k: Key): nat
    requires k in t
  {
    if t[k].state.Queued? then 1 else 0
  }

  /** Only a marked execution completes or fails a job, and a marked execution that still
      holds its job finds it running. */
  lemma WritesOnlyRunningJobs(x: Execution, a: Action, r: Job)
    requires CanAct(x, a) && ExecutionOk(x) && FenceOk(x, r)
    requires Sent(x, a).Some? && (Sent(x, a).value.Complete? || Sent(x, a).value.Fail?) && !r.state.Running?
    ensures OnRow(Sent(x, a).value, x.fence.key, r) == r
  {
  }

  lemma NoOutcomeForDoomed(w: World, e: Event, k: Key)
    requires WorldOk(w) && Enabled(w, e) && Doomed(w.Rows(), k) && Reaching(w, e).Some?
    ensures var s := Reaching(w, e).value; s.Complete? || s.Fail? ==> OnRow(s, k, w.Rows()[k]) == w.Rows()[k]
  {
    if e.Step? {
      var x := w.executions[e.i];
      assert x in w.executions;
      if x.fence.key == k && Sent(x, e.action).Some?
         && (Sent(x, e.action).value.Complete? || Sent(x, e.action).value.Fail?) {
        WritesOnlyRunningJobs(x, e.action, w.Rows()[k]);
      }
    }
  }

  lemma DoomedStep(w: World, e: Event, k: Key)
    requires WorldOk(w) && Enabled(w, e) && Doomed(w.Rows(), k)
    ensures var t, t' := w.Rows(), Next(w, e).Rows();
            && Doomed(t', k)
            && t'[k].attempt + LeasesLeft(t', k) <= t[k].attempt + LeasesLeft(t, k)
  {
    NextRows(w, e);
    StatesKeepShape(w.ledger, |w.ledger.steps|);
    if Reaching(w, e).Some? {
      NoOutcomeForDoomed(w, e, k);
      DoomedRow(Reaching(w, e).value, k, w.Rows()[k]);
    }
  }

  lemma DoomedRow(s: Statement, k: Key, r: Job)
    requires RowOk(r) && r.cancelRequestedAt.Some? && (r.state.Queued? || r.state.Leased? || r.state.Canceled?)
    requires s.Complete? || s.Fail? ==> OnRow(s, k, r) == r
    ensures var r' := OnRow(s, k, r);
            && r'.cancelRequestedAt.Some? && (r'.state.Queued? || r'.state.Leased? || r'.state.Canceled?)
            && r'.attempt + (if r'.state.Queued? then 1 else 0) <= r.attempt + if r.state.Queued? then 1 else 0
  {
  }

  /** CANCELLATION. A job that was asked to cancel while queued or leased, for instance one
      that a retryable failure put back in the queue, never runs again, takes at most one more
      lease, and if it ends it ends canceled. */
  lemma {:induction false} DoomedJobsOnlyCancel(h: History, m: nat, n: nat, k: Key)
    requires IsHistory(h) && m <= n <= |h.events|
    requires h.worlds[m].WellShaped() && Doomed(h.worlds[m].Rows(), k)
    ensures h.worlds[n].WellShaped() && Doomed(h.worlds[n].Rows(), k)
    ensures var t, t' := h.worlds[m].Rows(), h.worlds[n].Rows();
            && !t'[k].state.Running?
            && (t'[k].state.IsTerminal() ==> t'[k].state.Canceled?)
            && t'[k].attempt + LeasesLeft(t', k) <= t[k].attempt + LeasesLeft(t, k) <= t[k].attempt + 1
    decreases n
  {
    if m < n {
      DoomedJobsOnlyCancel(h, m, n - 1, k);
      WorldsStayOk(h, n - 1);
      DoomedStep(h.worlds[n - 1], h.events[n - 1], k);
    }
  }
}
