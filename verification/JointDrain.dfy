/** One process with both sides in view: the poll loop with its tasks and tokens, and the
    ledger with the executions those tasks run. The histories are those in which this process
    is the only one to lease jobs and discards none, so that task i runs execution i. */
module JointDrain {
  import opened Wrappers
  import opened JobModel
  import opened Ledger
  import opened LedgerRuns
  import Loop = EngineLoop
  import World = Engines

  const ENGINE: nat := 0

  datatype Joint = Joint(loop: Loop.State, world: World.World)

  datatype Event =
    | InLoop(step: Loop.Event)
    | InWorld(e: World.Event)       // clients, reclamation, and the steps of executions
    | Lease(poll: World.Event)      // AcquireLeases: the ledger leases, the loop gets the jobs

  function Jobs(delivered: seq<Key>): seq<Option<Key>> {
    seq(|delivered|, i requires 0 <= i < |delivered| => Some(delivered[i]))
  }

  function Reply(delivered: seq<Key>): Loop.Event {
    Loop.Answer(Loop.Batch(Jobs(delivered)))
  }

  predicate Enabled(j: Joint, e: Event) {
    && j.world.WellShaped()
    && match e
       case InLoop(e) =>
         Loop.Enabled(j.loop, e) && !(e.Answer? && e.reply.Batch? && e.reply.jobs != [])
       case InWorld(e) =>
         && World.Enabled(j.world, e) && !e.Poll? && !e.Crash?
         && (e.Step? ==>
               // an execution runs while its task is registered, and only the loop cancels it
               && e.i < |j.loop.tasks| && j.loop.tasks[e.i].pc.Registered?
               && (e.action.CancelContext? ==> j.loop.tasks[e.i].canceled))
       case Lease(poll) =>
         && poll.Poll? && poll.engine == ENGINE && World.Enabled(j.world, poll)
         && 0 < |poll.delivered| == |poll.s.batch| <= j.loop.held
         && Loop.Enabled(j.loop, Reply(poll.delivered)) && !j.loop.contextDone
  }

  function Next(j: Joint, e: Event): Joint
    requires Enabled(j, e)
  {
    match e
    case InLoop(e) => j.(loop := Loop.Next(j.loop, e))
    case InWorld(e) => j.(world := World.Next(j.world, e))
    case Lease(poll) => Joint(Loop.Next(j.loop, Reply(poll.delivered)), World.Next(j.world, poll))
  }

  datatype History = History(events: seq<Event>, states: seq<Joint>)

  ghost predicate IsHistory(h: History) {
    && |h.states| == |h.events| + 1
    && 1 <= h.states[0].loop.batchSize <= h.states[0].loop.concurrency <= MAX_JOB_BATCH_SIZE
    && h.states[0] == Joint(Loop.Initial(h.states[0].loop.concurrency, h.states[0].loop.batchSize), World.INITIAL)
    && forall n {:trigger h.events[n]} | 0 <= n < |h.events| ::
         Enabled(h.states[n], h.events[n]) && h.states[n + 1] == Next(h.states[n], h.events[n])
  }

  function Last(h: History): Joint
    requires |h.states| > 0
  {
    h.states[|h.states| - 1]
  }

  lemma Do(h: History, e: Event) returns (h': History)
    requires IsHistory(h) && Enabled(Last(h), e)
    ensures IsHistory(h') && Last(h') == Next(Last(h), e) && h'.events == h.events + [e]
  {
    h' := History(h.events + [e], h.states + [Next(Last(h), e)]);
    forall n | 0 <= n < |h'.events|
      ensures Enabled(h'.states[n], h'.events[n]) && h'.states[n + 1] == Next(h'.states[n], h'.events[n])
    {
      if n < |h.events| {
        assert h.events[n] == h'.events[n];
      }
    }
  }

  // ---- One job, seen from both sides

  /** The ledger holds job k with row r, and these are the executions. */
  ghost predicate Holds(w: World.World, k: Key, r: Job, xs: seq<World.Execution>) {
    w.WellShaped() && w.Rows() == map[k := r] && w.executions == xs
  }

  ghost predicate EndsWith(h: History, s: Loop.State, k: Key, r: Job, xs: seq<World.Execution>) {
    IsHistory(h) && Last(h).loop == s && Holds(Last(h).world, k, r, xs)
  }

  lemma Touches(w: World.World, k: Key, r: Job, xs: seq<World.Execution>, e: World.Event)
    requires Holds(w, k, r, xs) && World.Enabled(w, e)
    requires World.Reaching(w, e).Some? && !World.Reaching(w, e).value.Insert?
    ensures Holds(World.Next(w, e), k, OnRow(World.Reaching(w, e).value, k, r), World.Next(w, e).executions)
  {
    World.NextRows(w, e);
    var s := World.Reaching(w, e).value;
    assert Apply(map[k := r], s) == map[k := OnRow(s, k, r)];
  }

  lemma LoopSteps(h: History, s: Loop.State, k: Key, r: Job, xs: seq<World.Execution>, e: Loop.Event) returns (h': History)
    requires EndsWith(h, s, k, r, xs) && Loop.Enabled(s, e) && !e.Answer?
    ensures EndsWith(h', Loop.Next(s, e), k, r, xs) && h'.events == h.events + [InLoop(e)]
  {
    h' := Do(h, InLoop(e));
  }

  /** The loop at the top with some tasks started, and on its way to lease one more. */
  function AtTop(tasks: seq<Loop.Task>, active: map<Key, nat>): Loop.State
    requires |tasks| <= 2
  {
    Loop.AtTop(2, tasks, active)
  }

  function Asking(tasks: seq<Loop.Task>, active: map<Key, nat>): Loop.State
    requires |tasks| < 2
  {
    AtTop(tasks, active).(free := 2 - |tasks| - 1, held := 1, pc := Loop.Acquiring)
  }

  lemma AsksForOne(h: History, tasks: seq<Loop.Task>, active: map<Key, nat>, k: Key, r: Job, xs: seq<World.Execution>)
    returns (h': History)
    requires |tasks| < 2 && EndsWith(h, AtTop(tasks, active), k, r, xs)
    ensures EndsWith(h', Asking(tasks, active), k, r, xs)
  {
    var s := AtTop(tasks, active);
    h' := LoopSteps(h, s, k, r, xs, Loop.Advance);
    s := s.(pc := Loop.Collecting);
    h' := LoopSteps(h', s, k, r, xs, Loop.Advance);
    s := s.(free := s.free - 1, held := 1);
    h' := LoopSteps(h', s, k, r, xs, Loop.Advance);
    s := s.(pc := Loop.HasTokens);
    h' := LoopSteps(h', s, k, r, xs, Loop.Advance);
  }

  /** The ledger leases the job, and the loop has it as the one job of its batch. */
  lemma GetsLease(h: History, tasks: seq<Loop.Task>, active: map<Key, nat>, k: Key, r: Job, xs: seq<World.Execution>,
                  now: int)
    returns (h': History)
    requires |tasks| < 2 && EndsWith(h, Asking(tasks, active), k, r, xs) && Ready(r, now)
    ensures EndsWith(h', Asking(tasks, active).(pc := Loop.Returning(0, Loop.ToFilter([Some(k)]))), k,
                     AcquiredRow(r, "worker", now, 1),
                     xs + [World.NewExecution(ENGINE, Fence(k, "worker", r.leaseToken + 1))])
  {
    var poll := World.Poll(ENGINE, Acquire({k}, "worker", now, 1), [k]);
    var w := Last(h).world;
    assert Jobs([k]) == [Some(k)];
    Touches(w, k, r, xs, poll);
    h' := Do(h, Lease(poll));
    assert World.Spawned(poll, w.Rows()) == [World.NewExecution(ENGINE, Fence(k, "worker", r.leaseToken + 1))];
  }

  /** The reply sorted out: one job to start. */
  lemma SortsOut(h: History, tasks: seq<Loop.Task>, active: map<Key, nat>, k: Key, r: Job, xs: seq<World.Execution>)
    returns (h': History)
    requires |tasks| < 2
    requires EndsWith(h, Asking(tasks, active).(pc := Loop.Returning(0, Loop.ToFilter([Some(k)]))), k, r, xs)
    ensures EndsWith(h', Asking(tasks, active).(pc := Loop.Dispatching([k])), k, r, xs)
  {
    var jobs: seq<Option<Key>> := [Some(k)];
    assert jobs[1..] == [];
    var s := Asking(tasks, active).(pc := Loop.Returning(0, Loop.ToFilter(jobs)));
    h' := LoopSteps(h, s, k, r, xs, Loop.Advance);
    var none: seq<Key> := [];
    s := s.(pc := Loop.Filtering(jobs, none));
    h' := LoopSteps(h', s, k, r, xs, Loop.Advance);
    assert none + [jobs[0].value] == [k];
    s := s.(pc := Loop.Filtering([], [k]));
    h' := LoopSteps(h', s, k, r, xs, Loop.Advance);
  }

  /** The loop starts the task of that job, and the task registers. */
  lemma StartsTask(h: History, tasks: seq<Loop.Task>, active: map<Key, nat>, k: Key, r: Job, xs: seq<World.Execution>)
    returns (h': History)
    requires |tasks| < 2
    requires EndsWith(h, Asking(tasks, active).(pc := Loop.Dispatching([k])), k, r, xs)
    ensures EndsWith(h', AtTop(tasks + [Loop.Task(k, Loop.Registered, false)], active[k := |tasks|]), k, r, xs)
  {
    var s := Asking(tasks, active).(pc := Loop.Dispatching([k]));
    assert [k][1..] == [];
    h' := LoopSteps(h, s, k, r, xs, Loop.Advance);
    var started := tasks + [Loop.Task(k, Loop.Spawned, false)];
    s := s.(pc := Loop.Dispatching([]), held := 0, tasks := started);
    h' := LoopSteps(h', s, k, r, xs, Loop.Advance);
    s := s.(pc := Loop.Top);
    h' := LoopSteps(h', s, k, r, xs, Loop.Begin(|tasks|));
    assert started[|tasks| := Loop.Task(k, Loop.Registered, false)] == tasks + [Loop.Task(k, Loop.Registered, false)];
  }

  lemma TakesJob(h: History, tasks: seq<Loop.Task>, active: map<Key, nat>, k: Key, r: Job, xs: seq<World.Execution>, now: int)
    returns (h': History)
    requires |tasks| < 2 && EndsWith(h, AtTop(tasks, active), k, r, xs) && Ready(r, now)
    ensures EndsWith(h', AtTop(tasks + [Loop.Task(k, Loop.Registered, false)], active[k := |tasks|]), k,
                     AcquiredRow(r, "worker", now, 1),
                     xs + [World.NewExecution(ENGINE, Fence(k, "worker", r.leaseToken + 1))])
  {
    h' := AsksForOne(h, tasks, active, k, r, xs);
    h' := GetsLease(h', tasks, active, k, r, xs, now);
    h' := SortsOut(h', tasks, active, k, AcquiredRow(r, "worker", now, 1),
                   xs + [World.NewExecution(ENGINE, Fence(k, "worker", r.leaseToken + 1))]);
    h' := StartsTask(h', tasks, active, k, AcquiredRow(r, "worker", now, 1),
                     xs + [World.NewExecution(ENGINE, Fence(k, "worker", r.leaseToken + 1))]);
  }

  lemma CreatesJob(k: Key, input: NewJob) returns (h: History)
    requires 1 <= input.maxAttempts <= MAX_ALLOWED_ATTEMPTS
    ensures EndsWith(h, AtTop([], map[]), k, NewRow(input, 0), [])
  {
    h := History([], [Joint(Loop.Initial(2, 1), World.INITIAL)]);
    var s := Insert(k, input, 0);
    World.NextRows(World.INITIAL, World.Client(s));
    h := Do(h, InWorld(World.Client(s)));
    assert Apply(map[], s) == map[k := NewRow(input, 0)];
  }

  /** The execution is marked running, and its lease is reclaimed once it has expired. */
  lemma MarksAndLoses(h: History, tasks: seq<Loop.Task>, active: map<Key, nat>, k: Key, r: Job, x: World.Execution)
    returns (h': History, r': Job, y: World.Execution)
    requires |tasks| == 1 && tasks[0].pc.Registered? && EndsWith(h, AtTop(tasks, active), k, r, [x])
    requires x == World.NewExecution(ENGINE, Fence(k, "worker", 1))
    requires CanRun(r, x.fence, 0) && r.leaseExpiresAt == Some(1) && r.attempt < r.maxAttempts
    ensures EndsWith(h', AtTop(tasks, active), k, r', [y])
    ensures Ready(r', 1) && r'.leaseToken == 2
    ensures y.fence == x.fence && y.main == World.Executing(World.Preparing(0)) && !y.contextCanceled
  {
    var mark := World.Step(0, World.Mark(0), World.Answered);
    Touches(Last(h).world, k, r, [x], mark);
    h' := Do(h, InWorld(mark));
    y := World.After(x, World.Mark(0), r, World.Answered);
    r' := r.(state := Running, updatedAt := 0);
    assert [x][0 := y] == [y];
    var sweep := World.Sweep(Reclaim({k}, 1, 0));
    Touches(Last(h').world, k, r', [y], sweep);
    h' := Do(h', InWorld(sweep));
    r' := ReclaimedRow(r', 1, 0);
  }

  lemma Drains(h: History, k: Key, r: Job, xs: seq<World.Execution>) returns (h': History)
    requires EndsWith(h, AtTop([Loop.Task(k, Loop.Registered, false), Loop.Task(k, Loop.Registered, false)], map[k := 1]),
                      k, r, xs)
    ensures IsHistory(h') && |h'.events| > 0 && h'.events[|h'.events| - 1] == InLoop(Loop.DeadlineReached)
    ensures Last(h').loop.pc.Stopped? && Last(h').world.executions == xs
    ensures Last(h').loop.tasks == [Loop.Task(k, Loop.Registered, false), Loop.Task(k, Loop.Registered, true)]
  {
    var s := AtTop([Loop.Task(k, Loop.Registered, false), Loop.Task(k, Loop.Registered, false)], map[k := 1]);
    h' := LoopSteps(h, s, k, r, xs, Loop.ContextDone);
    s := s.(contextDone := true);
    h' := LoopSteps(h', s, k, r, xs, Loop.Advance);
    s := s.(pc := Loop.ShuttingDown);
    h' := LoopSteps(h', s, k, r, xs, Loop.Advance);
    s := s.(pc := Loop.Draining, shuttingDown := true);
    assert s.active == map[k := 1] && s.active[k] == 1;
    h' := LoopSteps(h', s, k, r, xs, Loop.DeadlineReached);
  }

  /** THE DRAIN MISSES AN EXECUTION. In one history the engine leases a job and starts it, its
      lease expires and is reclaimed, the engine leases and starts the same job again, and the
      drain deadline cancels the second execution while the first, still executing, is left with
      a live context that the drain does not know of. */
  lemma DrainMissesExecution(k: Key, input: NewJob) returns (h: History)
    requires 2 <= input.maxAttempts <= MAX_ALLOWED_ATTEMPTS && input.nextRunAt == Some(0)
    ensures IsHistory(h) && |h.events| > 0 && h.events[|h.events| - 1] == InLoop(Loop.DeadlineReached)
    ensures var j := Last(h);
            && j.loop.pc.Stopped?
            && j.loop.tasks == [Loop.Task(k, Loop.Registered, false), Loop.Task(k, Loop.Registered, true)]
            && |j.world.executions| == 2
            && j.world.executions[0].fence == Fence(k, "worker", 1) && j.world.executions[1].fence == Fence(k, "worker", 3)
            && j.world.executions[0].main == World.Executing(World.Preparing(0))
            && !j.world.executions[0].contextCanceled
  {
    var r := NewRow(input, 0);
    h := CreatesJob(k, input);
    h := TakesJob(h, [], map[], k, r, [], 0);
    r := AcquiredRow(r, "worker", 0, 1);
    var x := World.NewExecution(ENGINE, Fence(k, "worker", 1));
    var tasks, active := [Loop.Task(k, Loop.Registered, false)], map[k := 0];
    assert [] + [x] == [x] && [] + tasks == tasks && map[][k := 0] == active;
    h, r, x := MarksAndLoses(h, tasks, active, k, r, x);
    h := TakesJob(h, tasks, active, k, r, [x], 1);
    r := AcquiredRow(r, "worker", 1, 1);
    var y := World.NewExecution(ENGINE, Fence(k, "worker", 3));
    assert active[k := 1] == map[k := 1];
    assert tasks + tasks == [Loop.Task(k, Loop.Registered, false), Loop.Task(k, Loop.Registered, false)];
    assert [x] + [y] == [x, y];
    h := Drains(h, k, r, [x, y]);
  }
}
