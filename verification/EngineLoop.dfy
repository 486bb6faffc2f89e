/** Engine.Run inside one process (pkg/worker/worker.go): the poll loop with its capacity
    tokens, the job goroutines it starts, the map of cancel functions they share, and the
    drain at shutdown. One event is one step of the poll loop or of one goroutine. */
module EngineLoop {
  import opened Wrappers
  import opened JobModel

  datatype Reply = Failed | Batch(jobs: seq<Option<Key>>)

  datatype Continuation = ToShutdown | ToErrorCheck | ToIdle | ToFilter(jobs: seq<Option<Key>>)

  datatype PollPc =
    | Top
    | Collecting                                    // taking tokens without blocking
    | Blocked                                       // waiting for a token or for shutdown
    | CollectingMore                                // again without blocking, one token in hand
    | HasTokens
    | Acquiring                                     // AcquireLeases in flight
    | Returning(left: nat, next: Continuation)      // sending tokens back one by one
    | Filtering(jobs: seq<Option<Key>>, valid: seq<Key>)
    | Dispatching(valid: seq<Key>)
    | Idle                                          // poll timer running
    | ShuttingDown
    | Draining
    | Stopped

  datatype TaskPc = Spawned | Registered | Leaving | Gone

  /** One goroutine running processJob. */
  datatype Task = Task(key: Key, pc: TaskPc, canceled: bool)

  datatype State = State(
    concurrency: nat,
    batchSize: nat,
    free: nat,                  // tokens in the channel
    held: nat,                  // acquiredTokens not yet passed on
    pc: PollPc,
    contextDone: bool,
    shuttingDown: bool,
    tasks: seq<Task>,
    active: map<Key, nat>)      // activeCancelFuncs: job key to the task to cancel

  datatype Event =
    | Advance                   // the poll loop moves on
    | Answer(reply: Reply)      // AcquireLeases returns
    | TimerFires
    | ShutdownChosen            // the wait for a token ends with the context done, token or not
    | ContextDone
    | AllDrained
    | DeadlineReached
    | Begin(i: nat)             // the task looks at shuttingDown and registers
    | Finish(i: nat)            // processJob is over: the map entry is deleted
    | Leave(i: nat)             // the goroutine sends its token back

  function Initial(concurrency: nat, batchSize: nat): State {
    State(concurrency, batchSize, concurrency, 0, Top, false, false, [], map[])
  }

  /** A token is being sent to the channel. */
  predicate ReturnsToken(s: State, e: Event) {
    || (e.Advance? && s.pc.Returning? && s.pc.left > 0)
    || (e.Advance? && s.pc.Filtering? && s.pc.jobs != [] && s.pc.jobs[0].None?)
    || e.Leave?
  }

  predicate Enabled(s: State, e: Event) {
    match e
    case Advance =>
      && !s.pc.Acquiring? && !s.pc.Draining? && !s.pc.Stopped?
      && (s.pc.Blocked? ==> s.free > 0)
      && (s.pc.Idle? ==> s.contextDone)
    case Answer(_) => s.pc.Acquiring?
    case TimerFires => s.pc.Idle?
    case ShutdownChosen => s.pc.Blocked? && s.contextDone
    case ContextDone => true
    case AllDrained => s.pc.Draining? && forall t | t in s.tasks :: t.pc.Gone?
    case DeadlineReached => s.pc.Draining?
    case Begin(i) => i < |s.tasks| && s.tasks[i].pc.Spawned?
    case Finish(i) => i < |s.tasks| && s.tasks[i].pc.Registered?
    case Leave(i) => i < |s.tasks| && s.tasks[i].pc.Leaving?
  }

  function Take(s: State, next: PollPc): State
    requires s.free > 0
  {
    s.(free := s.free - 1, held := s.held + 1, pc := next)
  }

  function Give(s: State, next: PollPc): State {
    s.(free := s.free + 1, held := if s.held > 0 then s.held - 1 else 0, pc := next)
  }

  function Resume(s: State, c: Continuation): PollPc {
    match c
    case ToShutdown => ShuttingDown
    case ToErrorCheck => if s.contextDone then ShuttingDown else Idle
    case ToIdle => Idle
    case ToFilter(jobs) => Filtering(jobs, [])
  }

  /** The poll loop's own steps. */
  function AdvancePoll(s: State): State
    requires Enabled(s, Advance)
  {
    match s.pc
    case Top => s.(pc := if s.contextDone then ShuttingDown else Collecting)
    case Collecting =>
      if s.held < s.batchSize && s.free > 0 then Take(s, Collecting)
      else s.(pc := if s.held == 0 then Blocked else HasTokens)
    case Blocked => Take(s, CollectingMore)
    case CollectingMore =>
      if s.held < s.batchSize && s.free > 0 then Take(s, CollectingMore) else s.(pc := HasTokens)
    case HasTokens => s.(pc := if s.contextDone then Returning(s.held, ToShutdown) else Acquiring)
    case Returning(left, next) =>
      if left > 0 then Give(s, Returning(left - 1, next)) else s.(pc := Resume(s, next))
    case Filtering(jobs, valid) =>
      if jobs == [] then s.(pc := if valid == [] then Top else Dispatching(valid))
      else if jobs[0].None? then Give(s, Filtering(jobs[1..], valid))
      else s.(pc := Filtering(jobs[1..], valid + [jobs[0].value]))
    case Dispatching(valid) =>
      if valid == [] then s.(pc := Top)
      else s.(held := if s.held > 0 then s.held - 1 else 0, pc := Dispatching(valid[1..]),
              tasks := s.tasks + [Task(valid[0], Spawned, false)])
    case Idle => s.(pc := ShuttingDown)
    case ShuttingDown => s.(pc := Draining, shuttingDown := true)
    case _ => s
  }

  /** Error, shutdown race, empty, over-full and ordinary replies. */
  function OnAnswer(s: State, reply: Reply): State {
    match reply
    case Failed => s.(pc := Returning(s.held, ToErrorCheck))
    case Batch(jobs) =>
      if s.contextDone then s.(pc := Returning(s.held, ToShutdown))
      else if jobs == [] then s.(pc := Returning(s.held, ToIdle))
      else
        var kept := if |jobs| > s.held then jobs[..s.held] else jobs;
        s.(pc := Returning(s.held - |kept|, ToFilter(kept)))
  }

  function Next(s: State, e: Event): State
    requires Enabled(s, e)
  {
    match e
    case Advance => AdvancePoll(s)
    case Answer(reply) => OnAnswer(s, reply)
    case TimerFires => s.(pc := Top)
    case ShutdownChosen => s.(pc := ShuttingDown)
    case ContextDone => s.(contextDone := true)
    case AllDrained => s.(pc := Stopped)
    case DeadlineReached =>
      s.(pc := Stopped,
         tasks := seq(|s.tasks|, i requires 0 <= i < |s.tasks| =>
           if exists k | k in s.active :: s.active[k] == i then s.tasks[i].(canceled := true) else s.tasks[i]))
    case Begin(i) =>
      if s.shuttingDown then s.(tasks := s.tasks[i := s.tasks[i].(pc := Leaving)])
      else s.(tasks := s.tasks[i := s.tasks[i].(pc := Registered)], active := s.active[s.tasks[i].key := i])
    case Finish(i) =>
      s.(tasks := s.tasks[i := s.tasks[i].(pc := Leaving)], active := s.active - {s.tasks[i].key})
    case Leave(i) =>
      s.(tasks := s.tasks[i := s.tasks[i].(pc := Gone)], free := s.free + 1)
  }

  // ---- Capacity

  /** Goroutines that still hold a token. */
  function Running(tasks: seq<Task>): nat {
    if tasks == [] then 0
    else Running(tasks[..|tasks| - 1]) + if tasks[|tasks| - 1].pc.Gone? then 0 else 1
  }

  /** What the poll loop's position says about the tokens in its hand. */
  ghost predicate HandOk(s: State) {
    match s.pc
    case Collecting => s.held <= s.batchSize
    case CollectingMore => 1 <= s.held <= s.batchSize
    case HasTokens => 1 <= s.held <= s.batchSize
    case Acquiring => 1 <= s.held <= s.batchSize
    case Returning(left, next) => s.held == left + if next.ToFilter? then |next.jobs| else 0
    case Filtering(jobs, valid) => s.held == |jobs| + |valid|
    case Dispatching(valid) => s.held == |valid|
    case _ => s.held == 0
  }

  ghost predicate CapacityOk(s: State) {
    && 1 <= s.batchSize <= s.concurrency
    && HandOk(s)
    && s.free + s.held + Running(s.tasks) == s.concurrency
  }

  lemma {:induction false} RunningUpdated(tasks: seq<Task>, i: nat, t: Task)
    requires i < |tasks|
    ensures Running(tasks[i := t]) + (if tasks[i].pc.Gone? then 0 else 1)
            == Running(tasks) + if t.pc.Gone? then 0 else 1
  {
    var n := |tasks| - 1;
    if i < n {
      RunningUpdated(tasks[..n], i, t);
      assert tasks[i := t][..n] == tasks[..n][i := t];
    } else {
      assert tasks[i := t][..n] == tasks[..n];
    }
  }

  lemma {:induction false} RunningSamePcs(a: seq<Task>, b: seq<Task>)
    requires |a| == |b| && forall i | 0 <= i < |a| :: a[i].pc == b[i].pc
    ensures Running(a) == Running(b)
  {
    if a != [] {
      RunningSamePcs(a[..|a| - 1], b[..|b| - 1]);
    }
  }

  lemma RunningAppended(tasks: seq<Task>, t: Task)
    ensures Running(tasks + [t]) == Running(tasks) + if t.pc.Gone? then 0 else 1
  {
    assert (tasks + [t])[..|tasks|] == tasks;
  }

  /** Tokens only move between the hand and the channel. */
  ghost predicate MovesTokens(s: State, s': State) {
    && HandOk(s') && s'.tasks == s.tasks && s'.free + s'.held == s.free + s.held
    && s'.concurrency == s.concurrency && s'.batchSize == s.batchSize
  }

  lemma CollectingMovesTokens(s: State)
    requires HandOk(s) && Enabled(s, Advance) && s.batchSize >= 1
    requires s.pc.Collecting? || s.pc.Blocked? || s.pc.CollectingMore? || s.pc.HasTokens?
    ensures MovesTokens(s, AdvancePoll(s))
  {
  }

  lemma ReturningMovesTokens(s: State)
    requires HandOk(s) && Enabled(s, Advance) && (s.pc.Returning? || s.pc.Filtering?)
    ensures MovesTokens(s, AdvancePoll(s))
  {
  }

  lemma LoopMovesTokens(s: State)
    requires HandOk(s) && Enabled(s, Advance) && s.batchSize >= 1 && !s.pc.Dispatching?
    ensures MovesTokens(s, AdvancePoll(s))
  {
    if s.pc.Collecting? || s.pc.Blocked? || s.pc.CollectingMore? || s.pc.HasTokens? {
      CollectingMovesTokens(s);
    } else if s.pc.Returning? || s.pc.Filtering? {
      ReturningMovesTokens(s);
    }
  }

  /** A token in the hand becomes the token of a started task. */
  lemma DispatchingKeepsCapacity(s: State)
    requires CapacityOk(s) && s.pc.Dispatching?
    ensures CapacityOk(AdvancePoll(s))
  {
    if s.pc.valid != [] {
      RunningAppended(s.tasks, Task(s.pc.valid[0], Spawned, false));
      var s' := AdvancePoll(s);
      assert s'.free == s.free && s'.held == s.held - 1 && Running(s'.tasks) == Running(s.tasks) + 1;
    }
  }

  lemma AdvanceKeepsCapacity(s: State)
    requires CapacityOk(s) && Enabled(s, Advance)
    ensures CapacityOk(AdvancePoll(s))
  {
    if !s.pc.Dispatching? {
      LoopMovesTokens(s);
    } else {
      DispatchingKeepsCapacity(s);
    }
  }

  lemma TaskKeepsCapacity(s: State, e: Event)
    requires CapacityOk(s) && Enabled(s, e) && (e.Begin? || e.Finish? || e.Leave?)
    ensures CapacityOk(Next(s, e))
  {
    RunningUpdated(s.tasks, e.i, Next(s, e).tasks[e.i]);
  }

  lemma StepKeepsCapacity(s: State, e: Event)
    requires CapacityOk(s) && Enabled(s, e)
    ensures CapacityOk(Next(s, e))
  {
    match e {
      case Advance => AdvanceKeepsCapacity(s);
      case Begin(_) => TaskKeepsCapacity(s, e);
      case Finish(_) => TaskKeepsCapacity(s, e);
      case Leave(_) => TaskKeepsCapacity(s, e);
      case DeadlineReached => RunningSamePcs(s.tasks, Next(s, e).tasks);
      case _ =>
    }
  }

  // ---- Histories

  datatype History = History(events: seq<Event>, states: seq<State>)

  ghost predicate IsHistory(h: History) {
    && |h.states| == |h.events| + 1
    && 1 <= h.states[0].batchSize <= h.states[0].concurrency <= MAX_JOB_BATCH_SIZE
    && h.states[0] == Initial(h.states[0].concurrency, h.states[0].batchSize)
    && forall n {:trigger h.events[n]} | 0 <= n < |h.events| ::
         Enabled(h.states[n], h.events[n]) && h.states[n + 1] == Next(h.states[n], h.events[n])
  }

  lemma {:induction false} CapacityAlwaysOk(h: History, n: nat)
    requires IsHistory(h) && n <= |h.events|
    ensures CapacityOk(h.states[n])
    ensures h.states[n].concurrency == h.states[0].concurrency && h.states[n].batchSize == h.states[0].batchSize
    decreases n
  {
    if n > 0 {
      CapacityAlwaysOk(h, n - 1);
      StepKeepsCapacity(h.states[n - 1], h.events[n - 1]);
    }
  }

  /** CAPACITY. Tokens are conserved on every path; no return of a token can block, because the
      channel then has room; at most `concurrency` jobs run at once; and every batch asked for
      is one AcquireLeases accepts. */
  lemma TokensAreConserved(h: History, n: nat)
    requires IsHistory(h) && n <= |h.events|
    ensures var s := h.states[n];
            && s.free + s.held + Running(s.tasks) == h.states[0].concurrency
            && Running(s.tasks) <= h.states[0].concurrency
            && (s.pc.Acquiring? ==> s.held <= h.states[0].batchSize && ValidBatchSize(s.held))
            && (n < |h.events| && ReturnsToken(s, h.events[n]) ==> s.free < s.concurrency)
  {
    CapacityAlwaysOk(h, n);
    if n < |h.events| && h.events[n].Leave? {
      var s, i := h.states[n], h.events[n].i;
      RunningUpdated(s.tasks, i, s.tasks[i].(pc := Gone));
    }
  }

  // ---- Drain

  /** After shutdown the poll loop starts nothing, and only then does it drain or cancel. */
  ghost predicate ShutdownOk(s: State) {
    && (s.shuttingDown <==> s.pc.Draining? || s.pc.Stopped?)
    && (s.pc.Stopped? || forall t | t in s.tasks :: !t.canceled)
    && forall k | k in s.active :: s.active[k] < |s.tasks| && s.tasks[s.active[k]].key == k
                                   && s.tasks[s.active[k]].pc.Registered?
  }

  lemma TaskKeepsShutdownOk(s: State, e: Event)
    requires ShutdownOk(s) && Enabled(s, e) && (e.Begin? || e.Finish? || e.Leave?)
    ensures ShutdownOk(Next(s, e))
  {
  }

  /** The poll loop leaves the map alone and only adds fresh tasks. */
  lemma AdvanceFrame(s: State)
    requires Enabled(s, Advance)
    ensures var s' := AdvancePoll(s);
            && s'.active == s.active
            && (s'.tasks == s.tasks || (s.pc.Dispatching? && exists k :: s'.tasks == s.tasks + [Task(k, Spawned, false)]))
            && (s'.shuttingDown <==> s.shuttingDown || s.pc.ShuttingDown?)
            && (s'.pc.Draining? <==> s.pc.ShuttingDown?) && !s'.pc.Stopped?
  {
  }

  lemma LoopKeepsShutdownOk(s: State, e: Event)
    requires ShutdownOk(s) && Enabled(s, e) && !e.Begin? && !e.Finish? && !e.Leave?
    ensures ShutdownOk(Next(s, e))
    ensures s.shuttingDown ==> Next(s, e).shuttingDown && |Next(s, e).tasks| == |s.tasks|
  {
    if e.Advance? {
      AdvanceFrame(s);
    }
  }

  lemma StepKeepsShutdownOk(s: State, e: Event)
    requires ShutdownOk(s) && Enabled(s, e)
    ensures ShutdownOk(Next(s, e))
    ensures s.shuttingDown ==> Next(s, e).shuttingDown && |Next(s, e).tasks| == |s.tasks|
  {
    if e.Begin? || e.Finish? || e.Leave? {
      TaskKeepsShutdownOk(s, e);
    } else {
      LoopKeepsShutdownOk(s, e);
    }
  }

  lemma {:induction false} ShutdownAlwaysOk(h: History, n: nat)
    requires IsHistory(h) && n <= |h.events|
    ensures ShutdownOk(h.states[n])
    decreases n
  {
    if n > 0 {
      ShutdownAlwaysOk(h, n - 1);
      StepKeepsShutdownOk(h.states[n - 1], h.events[n - 1]);
    }
  }

  /** Event m puts task i into the map of cancel functions. */
  predicate RegistersAt(h: History, m: nat, i: nat) {
    m < |h.events| && m < |h.states| && h.events[m] == Begin(i) && !h.states[m].shuttingDown
  }

  /** Nothing registers, and no goroutine starts, once shuttingDown is set. */
  lemma {:induction false} NoRegistrationAfterShutdown(h: History, m: nat, n: nat, i: nat)
    requires IsHistory(h) && m <= n <= |h.events| && h.states[m].shuttingDown
    requires i < |h.states[n].tasks|
    ensures |h.states[n].tasks| == |h.states[m].tasks|
    ensures h.states[n].tasks[i].pc.Registered? ==> h.states[m].tasks[i].pc.Registered?
    ensures !RegistersAt(h, n, i)
    decreases n
  {
    ShutdownAlwaysOk(h, n);
    if m < n {
      var e := h.events[n - 1];
      ShutdownAlwaysOk(h, n - 1);
      StepKeepsShutdownOk(h.states[n - 1], e);
      ShutdownOrder(h, m, n - 1);
      NoRegistrationAfterShutdown(h, m, n - 1, i);
      TaskStep(h.states[n - 1], e, i);
    }
  }

  lemma {:induction false} ShutdownOrder(h: History, m: nat, n: nat)
    requires IsHistory(h) && m <= n <= |h.events| && h.states[m].shuttingDown
    ensures h.states[n].shuttingDown && |h.states[n].tasks| == |h.states[m].tasks|
    decreases n
  {
    if m < n {
      ShutdownOrder(h, m, n - 1);
      ShutdownAlwaysOk(h, n - 1);
      StepKeepsShutdownOk(h.states[n - 1], h.events[n - 1]);
    }
  }

  /** The map still leads from the task's job key to the task. */
  predicate Covered(s: State, i: nat) {
    i < |s.tasks| && s.tasks[i].key in s.active && s.active[s.tasks[i].key] == i
  }

  /** Another task of the same job key registers or finishes. */
  predicate Disturbing(s: State, e: Event, i: nat) {
    && i < |s.tasks| && (e.Begin? || e.Finish?) && e.i < |s.tasks| && e.i != i
    && s.tasks[e.i].key == s.tasks[i].key
    && (e.Begin? ==> !s.shuttingDown)
  }

  predicate Disturbs(h: History, m: nat, i: nat) {
    m < |h.events| && m < |h.states| && Disturbing(h.states[m], h.events[m], i)
  }

  lemma CoverageStep(s: State, e: Event, i: nat)
    requires ShutdownOk(s) && Enabled(s, e) && i < |s.tasks| && s.tasks[i].pc.Registered?
    ensures i < |Next(s, e).tasks|
    ensures Next(s, e).tasks[i].pc.Registered? ==>
              (Covered(Next(s, e), i) <==> Covered(s, i) && !Disturbing(s, e, i))
  {
    if e.Advance? {
      AdvanceFrame(s);
    }
  }

  /** A task keeps its key and only moves forward. */
  lemma TaskStep(s: State, e: Event, i: nat)
    requires Enabled(s, e) && i < |s.tasks|
    ensures i < |Next(s, e).tasks| && Next(s, e).tasks[i].key == s.tasks[i].key
    ensures Next(s, e).tasks[i].pc.Spawned? ==> s.tasks[i].pc.Spawned?
    ensures Next(s, e).tasks[i].pc.Registered? ==>
              s.tasks[i].pc.Registered? || (s.tasks[i].pc.Spawned? && e == Begin(i) && !s.shuttingDown)
  {
    if e.Advance? {
      AdvanceFrame(s);
    }
  }

  /** While a task is registered, its cancel function is in the map exactly when no other task
      of the same job key has registered or finished since. */
  lemma {:induction false} CoveredIffUndisturbed(h: History, r: nat, n: nat, i: nat)
    requires IsHistory(h) && r < n <= |h.events| && RegistersAt(h, r, i)
    requires i < |h.states[n].tasks| && h.states[n].tasks[i].pc.Registered?
    ensures Covered(h.states[n], i) <==> forall m | r < m < n :: !Disturbs(h, m, i)
    decreases n
  {
    var s, e := h.states[n - 1], h.events[n - 1];
    ShutdownAlwaysOk(h, n - 1);
    if r + 1 < n {
      assert Enabled(h.states[r], h.events[r]);
      TasksOnlyGrow(h, r + 1, n - 1, i);
      TaskStep(s, e, i);
      CoveredIffUndisturbed(h, r, n - 1, i);
      CoverageStep(s, e, i);
      assert Disturbs(h, n - 1, i) <==> Disturbing(s, e, i);
    }
  }

  /** A task that was started stays started. */
  lemma {:induction false} TasksOnlyGrow(h: History, m: nat, n: nat, i: nat)
    requires IsHistory(h) && m <= n <= |h.events|
    requires i < |h.states[m].tasks| && !h.states[m].tasks[i].pc.Spawned?
    ensures i < |h.states[n].tasks| && !h.states[n].tasks[i].pc.Spawned?
    decreases n
  {
    if m < n {
      TasksOnlyGrow(h, m, n - 1, i);
      TaskStep(h.states[n - 1], h.events[n - 1], i);
    }
  }

  /** DRAIN. When the drain deadline fires, a registered task is cancelled if and only if no
      other task of the same (tenant, id) registered or finished after it registered. */
  lemma DeadlineCancelsIff(h: History, r: nat, n: nat, i: nat)
    requires IsHistory(h) && r < n < |h.events| && RegistersAt(h, r, i) && h.events[n].DeadlineReached?
    requires i < |h.states[n].tasks| && h.states[n].tasks[i].pc.Registered?
    ensures i < |h.states[n + 1].tasks|
    ensures h.states[n + 1].tasks[i].canceled <==> forall m | r < m < n :: !Disturbs(h, m, i)
  {
    CoveredIffUndisturbed(h, r, n, i);
    ShutdownAlwaysOk(h, n);
    assert h.states[n].tasks[i] in h.states[n].tasks;
  }

  /** No two registered tasks share a job key. */
  ghost predicate KeysUnshared(s: State) {
    forall i, j | 0 <= i < j < |s.tasks| && s.tasks[i].pc.Registered? && s.tasks[j].pc.Registered? ::
      s.tasks[i].key != s.tasks[j].key
  }

  lemma UnsharedMeansUndisturbed(s: State, e: Event, i: nat)
    requires Enabled(s, e) && KeysUnshared(s) && KeysUnshared(Next(s, e))
    requires i < |s.tasks| && s.tasks[i].pc.Registered?
    ensures !Disturbing(s, e, i)
  {
    if e.Begin? && e.i != i && !s.shuttingDown {
      var t := Next(s, e).tasks;
      assert t[i] == s.tasks[i] && t[e.i].pc.Registered? && t[e.i].key == s.tasks[e.i].key;
    }
  }

  lemma {:induction false} UnsharedMeansCovered(h: History, n: nat, i: nat)
    requires IsHistory(h) && n <= |h.events| && forall m | 0 <= m <= n :: KeysUnshared(h.states[m])
    requires i < |h.states[n].tasks| && h.states[n].tasks[i].pc.Registered?
    ensures Covered(h.states[n], i)
    decreases n
  {
    if n > 0 {
      var s, e := h.states[n - 1], h.events[n - 1];
      ShutdownAlwaysOk(h, n - 1);
      assert KeysUnshared(s) && KeysUnshared(h.states[n]);
      if i < |s.tasks| {
        TaskStep(s, e, i);
        if s.tasks[i].pc.Registered? {
          UnsharedMeansCovered(h, n - 1, i);
          UnsharedMeansUndisturbed(s, e, i);
          CoverageStep(s, e, i);
        }
      }
    }
  }

  /** If no two in-flight jobs ever shared (tenant, id), then after the drain deadline every
      job that is still registered has been cancelled. */
  lemma DrainReachesEveryJob(h: History, n: nat, i: nat)
    requires IsHistory(h) && n < |h.events| && h.events[n].DeadlineReached?
    requires forall m | 0 <= m <= n :: KeysUnshared(h.states[m])
    requires i < |h.states[n + 1].tasks| && h.states[n + 1].tasks[i].pc.Registered?
    ensures h.states[n + 1].tasks[i].canceled
  {
    UnsharedMeansCovered(h, n, i);
  }

  // ---- The proviso is needed

  function Last(h: History): State
    requires |h.states| > 0
  {
    h.states[|h.states| - 1]
  }

  lemma Do(h: History, e: Event) returns (h': History)
    requires IsHistory(h) && Enabled(Last(h), e)
    ensures IsHistory(h') && Last(h') == Next(Last(h), e)
    ensures h'.events == h.events + [e] && h'.states == h.states + [Last(h')]
  {
    h' := History(h.events + [e], h.states + [Next(Last(h), e)]);
  }

  /** The state in which `tasks` have been started, one after the other. */
  function AtTop(concurrency: nat, tasks: seq<Task>, active: map<Key, nat>): State
    requires |tasks| <= concurrency
  {
    State(concurrency, 1, concurrency - |tasks|, 0, Top, false, false, tasks, active)
  }

  /** One token taken and one lease for job k asked for. */
  lemma LeaseJob(h: History, concurrency: nat, tasks: seq<Task>, active: map<Key, nat>) returns (h': History)
    requires IsHistory(h) && |tasks| < concurrency && Last(h) == AtTop(concurrency, tasks, active)
    ensures IsHistory(h') && Last(h') == Last(h).(free := concurrency - |tasks| - 1, held := 1, pc := Acquiring)
  {
    h' := Do(h, Advance);
    h' := Do(h', Advance);
    h' := Do(h', Advance);
    h' := Do(h', Advance);
  }

  /** One poll that leases job k and one goroutine that registers it. */
  lemma StartJob(h: History, concurrency: nat, tasks: seq<Task>, active: map<Key, nat>, k: Key) returns (h': History)
    requires IsHistory(h) && |tasks| < concurrency && Last(h) == AtTop(concurrency, tasks, active)
    ensures IsHistory(h')
    ensures Last(h') == AtTop(concurrency, tasks + [Task(k, Registered, false)], active[k := |tasks|])
  {
    h' := LeaseJob(h, concurrency, tasks, active);
    h' := Do(h', Answer(Batch([Some(k)])));
    h' := Do(h', Advance);
    h' := Do(h', Advance);
    h' := Do(h', Advance);
    h' := Do(h', Advance);
    h' := Do(h', Advance);
    assert Last(h').tasks == tasks + [Task(k, Spawned, false)];
    h' := Do(h', Begin(|tasks|));
    assert Last(h').tasks == tasks + [Task(k, Registered, false)];
  }

  /** With two in-flight jobs under one (tenant, id), which a lease that expired and was taken
      again by the same engine produces, the deadline leaves the first one running. */
  lemma SharedKeyEscapesDrain(k: Key) returns (h: History)
    ensures IsHistory(h) && |h.events| > 0 && h.events[|h.events| - 1].DeadlineReached?
    ensures var s := Last(h); |s.tasks| == 2 && s.tasks[0] == Task(k, Registered, false) && s.tasks[1] == Task(k, Registered, true)
  {
    h := History([], [Initial(2, 1)]);
    h := StartJob(h, 2, [], map[], k);
    h := StartJob(h, 2, [Task(k, Registered, false)], map[k := 0], k);
    h := Do(h, ContextDone);
    h := Do(h, Advance);
    h := Do(h, Advance);
    var s := Last(h);
    assert s.active == map[k := 1] && s.active[k] == 1;
    h := Do(h, DeadlineReached);
  }
}
