/** What the poll loop of one process does over whole histories: which of the jobs it leases it
    starts, how many it asks for, when it asks again, and when it ends. */
module PollHistories {
  import opened Wrappers
  import opened JobModel
  import opened EngineLoop

  // ---- Which jobs are started

  /** The keys of the jobs that are not nil, in order. */
  function Present(jobs: seq<Option<Key>>): seq<Key> {
    if jobs == [] then []
    else (if jobs[0].Some? then [jobs[0].value] else []) + Present(jobs[1..])
  }

  function FirstOf(jobs: seq<Option<Key>>, n: nat): seq<Option<Key>> {
    if |jobs| <= n then jobs else jobs[..n]
  }

  function KeysOf(tasks: seq<Task>): seq<Key> {
    seq(|tasks|, i requires 0 <= i < |tasks| => tasks[i].key)
  }

  /** The jobs that event e obliges the process to start: those of a batch that arrives while
      the context is live, up to the number asked for. */
  function Owed(s: State, e: Event): seq<Key> {
    if e.Answer? && e.reply.Batch? && !s.contextDone then Present(FirstOf(e.reply.jobs, s.held)) else []
  }

  /** All jobs owed by the first n events, in order. */
  function OwedUpTo(h: History, n: nat): seq<Key>
    requires n <= |h.events| && |h.states| == |h.events| + 1
  {
    if n == 0 then [] else OwedUpTo(h, n - 1) + Owed(h.states[n - 1], h.events[n - 1])
  }

  /** The jobs in the poll loop's hand. */
  function InHand(pc: PollPc): seq<Key> {
    match pc
    case Returning(_, ToFilter(jobs)) => Present(jobs)
    case Filtering(jobs, valid) => valid + Present(jobs)
    case Dispatching(valid) => valid
    case _ => []
  }

  /** The tasks started so far, and the jobs still in hand. */
  function Taken(s: State): seq<Key> {
    KeysOf(s.tasks) + InHand(s.pc)
  }

  /** Filtering a batch keeps its jobs in hand, in order. */
  lemma FilteringKeepsHand(s: State)
    requires Enabled(s, Advance) && (s.pc.Returning? || s.pc.Filtering?)
    ensures InHand(AdvancePoll(s).pc) == InHand(s.pc) && AdvancePoll(s).tasks == s.tasks
  {
    if s.pc.Filtering? && s.pc.jobs != [] && s.pc.jobs[0].Some? {
      var valid, job, rest := s.pc.valid, s.pc.jobs[0].value, Present(s.pc.jobs[1..]);
      assert valid + ([job] + rest) == valid + [job] + rest;
    }
  }

  lemma DispatchingStarts(s: State)
    requires Enabled(s, Advance) && s.pc.Dispatching?
    ensures KeysOf(AdvancePoll(s).tasks) + InHand(AdvancePoll(s).pc) == KeysOf(s.tasks) + InHand(s.pc)
  {
    if s.pc.valid != [] {
      assert KeysOf(AdvancePoll(s).tasks) == KeysOf(s.tasks) + [s.pc.valid[0]];
      assert s.pc.valid == [s.pc.valid[0]] + s.pc.valid[1..];
    }
  }

  lemma EmptyHandStays(s: State)
    requires Enabled(s, Advance) && !s.pc.Returning? && !s.pc.Filtering? && !s.pc.Dispatching?
    ensures InHand(s.pc) == InHand(AdvancePoll(s).pc) == [] && AdvancePoll(s).tasks == s.tasks
  {
  }

  /** What was owed is taken. */
  predicate PassesOn(s: State, s': State, owed: seq<Key>) {
    Taken(s') == Taken(s) + owed
  }

  lemma NothingNew(s: State, s': State)
    requires KeysOf(s'.tasks) + InHand(s'.pc) == KeysOf(s.tasks) + InHand(s.pc)
    ensures PassesOn(s, s', [])
  {
  }

  lemma SameKeysSameHand(s: State, s': State)
    requires KeysOf(s'.tasks) == KeysOf(s.tasks) && InHand(s'.pc) == InHand(s.pc)
    ensures PassesOn(s, s', [])
  {
  }

  lemma HandFilled(s: State, s': State, owed: seq<Key>)
    requires s'.tasks == s.tasks && InHand(s.pc) == [] && InHand(s'.pc) == owed
    ensures PassesOn(s, s', owed)
  {
    assert KeysOf(s.tasks) + [] == KeysOf(s.tasks);
  }

  lemma AnswerFillsHand(s: State, reply: Reply)
    requires s.pc.Acquiring?
    ensures InHand(s.pc) == [] && OnAnswer(s, reply).tasks == s.tasks
    ensures InHand(OnAnswer(s, reply).pc) == Owed(s, Answer(reply))
  {
  }

  /** No other step touches the hand or starts a task. */
  lemma OthersPassNothing(s: State, e: Event)
    requires Enabled(s, e) && !e.Advance? && !e.Answer?
    ensures InHand(Next(s, e).pc) == InHand(s.pc) && KeysOf(Next(s, e).tasks) == KeysOf(s.tasks)
  {
  }

  lemma AdvancePassesOn(s: State)
    requires Enabled(s, Advance)
    ensures PassesOn(s, AdvancePoll(s), [])
  {
    if s.pc.Dispatching? {
      DispatchingStarts(s);
      NothingNew(s, AdvancePoll(s));
    } else {
      if s.pc.Returning? || s.pc.Filtering? {
        FilteringKeepsHand(s);
      } else {
        EmptyHandStays(s);
      }
      SameKeysSameHand(s, AdvancePoll(s));
    }
  }

  /** One step passes jobs on from the batch to the hand, and from there to the tasks. */
  lemma StepPassesOn(s: State, e: Event)
    requires Enabled(s, e)
    ensures PassesOn(s, Next(s, e), Owed(s, e))
  {
    match e
    case Answer(reply) =>
      AnswerFillsHand(s, reply);
      HandFilled(s, OnAnswer(s, reply), Owed(s, e));
    case Advance => AdvancePassesOn(s);
    case _ =>
      OthersPassNothing(s, e);
      SameKeysSameHand(s, Next(s, e));
  }

  /** No batch arrives from n on and before m. */
  ghost predicate NoAnswer(events: seq<Event>, n: nat, m: nat)
    requires m <= |events|
  {
    forall p | n <= p < m :: !events[p].Answer?
  }

  lemma AnswerFindsAcquiring(h: History, n: nat)
    requires IsHistory(h) && n < |h.events| && h.events[n].Answer?
    ensures InHand(h.states[n].pc) == []
  {
    assert Enabled(h.states[n], h.events[n]);
  }

  lemma TakenStep(h: History, n: nat)
    requires IsHistory(h) && n < |h.events|
    ensures Taken(h.states[n + 1]) == Taken(h.states[n]) + Owed(h.states[n], h.events[n])
  {
    StepPassesOn(h.states[n], h.events[n]);
  }

  lemma TakenStays(h: History, n: nat)
    requires IsHistory(h) && n < |h.events| && !h.events[n].Answer?
    ensures Taken(h.states[n + 1]) == Taken(h.states[n])
  {
    TakenStep(h, n);
  }

  /** EVERY LEASED JOB IS STARTED. At every moment the tasks started so far and the jobs still in
      the poll loop's hand are, in order, the jobs of all batches that arrived in time. */
  lemma {:induction false} OwedIsStarted(h: History, n: nat)
    requires IsHistory(h) && n <= |h.events|
    ensures Taken(h.states[n]) == OwedUpTo(h, n)
    decreases n
  {
    if n > 0 {
      OwedIsStarted(h, n - 1);
      TakenStep(h, n - 1);
    }
  }

  lemma {:induction false} TakenSince(h: History, n: nat, m: nat)
    requires IsHistory(h) && n < m <= |h.events| && NoAnswer(h.events, n + 1, m)
    ensures Taken(h.states[m]) == Taken(h.states[n]) + Owed(h.states[n], h.events[n])
    decreases m
  {
    if n + 1 == m {
      TakenStep(h, n);
    } else {
      TakenSince(h, n, m - 1);
      TakenStays(h, m - 1);
    }
  }

  lemma NothingInHand(s: State)
    requires InHand(s.pc) == []
    ensures Taken(s) == KeysOf(s.tasks)
  {
  }

  /** One batch: when the poll loop is next at its top, or will not get there any more, exactly
      the non-nil jobs among the first `held` have become tasks, in order, if the context was
      live when they came; and none have if it was done, or if the call failed. */
  lemma BatchIsStarted(h: History, n: nat, m: nat)
    requires IsHistory(h) && n < m <= |h.events| && h.events[n].Answer? && NoAnswer(h.events, n + 1, m)
    requires h.states[m].pc.Top? || h.states[m].pc.Idle? || h.states[m].pc.ShuttingDown?
             || h.states[m].pc.Draining? || h.states[m].pc.Stopped?
    ensures var s, reply := h.states[n], h.events[n].reply;
            KeysOf(h.states[m].tasks)
            == KeysOf(s.tasks) + if reply.Failed? || s.contextDone then [] else Present(FirstOf(reply.jobs, s.held))
  {
    TakenSince(h, n, m);
    AnswerFindsAcquiring(h, n);
    NothingInHand(h.states[n]);
    NothingInHand(h.states[m]);
  }

  // ---- How many jobs are asked for, and when

  /** AcquireLeases is called. */
  predicate AsksAt(h: History, n: nat) {
    n < |h.events| && |h.states| == |h.events| + 1 && !h.states[n].pc.Acquiring? && h.states[n + 1].pc.Acquiring?
  }

  lemma AskingStep(s: State, e: Event)
    requires Enabled(s, e) && !s.pc.Acquiring? && Next(s, e).pc.Acquiring?
    ensures s.pc.HasTokens? && !s.contextDone && Next(s, e).held == s.held
  {
    match e
    case Advance =>
      match s.pc {
        case HasTokens =>
        case Returning(_, _) =>
        case _ =>
      }
    case _ =>
  }

  /** It is called only with a live context, and for as many jobs as fit: a whole batch, or else
      as many as there were free tokens when the last one was taken. */
  lemma AsksWhileLive(h: History, n: nat)
    requires IsHistory(h) && AsksAt(h, n)
    ensures !h.states[n].contextDone && h.states[n].held == h.states[n + 1].held >= 1
  {
    CapacityAlwaysOk(h, n);
    AskingStep(h.states[n], h.events[n]);
  }

  predicate CollectsAt(h: History, n: nat) {
    && n < |h.events| && |h.states| == |h.events| + 1 && h.events[n].Advance?
    && (h.states[n].pc.Collecting? || h.states[n].pc.CollectingMore?)
  }

  /** The loop goes on taking tokens until it has a whole batch or none are left. */
  lemma CollectsAll(h: History, n: nat)
    requires IsHistory(h) && CollectsAt(h, n)
    ensures var s, s' := h.states[n], h.states[n + 1];
            if s.held < s.batchSize && s.free > 0
            then s'.pc == s.pc && s'.held == s.held + 1 && s'.free == s.free - 1
            else s'.held == s.held && s'.pc == if s.held == 0 then Blocked else HasTokens
  {
    assert Enabled(h.states[n], h.events[n]);
    CapacityAlwaysOk(h, n);
  }

  /** The call that event n answers brought nothing, or failed. */
  predicate FruitlessAt(h: History, n: nat) {
    && n < |h.events| && |h.states| == |h.events| + 1 && h.events[n].Answer?
    && (h.events[n].reply.Failed? || h.events[n].reply.jobs == [] || h.states[n].contextDone)
  }

  predicate Resting(pc: PollPc) {
    (pc.Returning? && !pc.next.ToFilter?) || pc.Idle? || pc.ShuttingDown? || pc.Draining? || pc.Stopped?
  }

  lemma FruitlessRests(s: State, reply: Reply)
    requires reply.Failed? || reply.jobs == [] || s.contextDone
    ensures Resting(OnAnswer(s, reply).pc)
  {
  }

  lemma RestsOn(s: State, e: Event)
    requires Enabled(s, e) && Resting(s.pc) && !e.TimerFires?
    ensures Resting(Next(s, e).pc)
  {
    if !e.Advance? {
      assert !e.Answer?;
    } else if s.pc.Returning? {
      assert !s.pc.next.ToFilter?;
    }
  }

  /** NO BUSY LOOP. After a call that failed or brought nothing, the poll loop does not ask again
      before its timer has fired. */
  lemma {:induction false} WaitsForTimer(h: History, n: nat, m: nat)
    requires IsHistory(h) && FruitlessAt(h, n) && n < m <= |h.events|
    requires forall p | n < p < m :: !h.events[p].TimerFires?
    ensures Resting(h.states[m].pc) && !AsksAt(h, m)
    decreases m
  {
    if n + 1 == m {
      FruitlessRests(h.states[n], h.events[n].reply);
    } else {
      WaitsForTimer(h, n, m - 1);
      RestsOn(h.states[m - 1], h.events[m - 1]);
    }
    if AsksAt(h, m) {
      AskingStep(h.states[m], h.events[m]);
      assert false;
    }
  }

  // ---- The end

  /** Bounds the steps that the poll loop takes before it drains, once its context is done. */
  function StepsLeft(s: State): nat {
    match s.pc
    case ShuttingDown => 1
    case Idle => 2
    case Top => 2
    case Returning(left, ToFilter(jobs)) => left + 4 * |jobs| + 5
    case Returning(left, _) => left + 3
    case Filtering(jobs, valid) => 4 * |jobs| + 3 * |valid| + 4
    case Dispatching(valid) => 3 * |valid| + 3
    case Acquiring => s.held + 4
    case HasTokens => s.held + 4
    case CollectingMore => 2 * s.free + s.held + 5
    case Blocked => 2 * s.free + s.held + 6
    case Collecting => 2 * s.free + s.held + 7
    case _ => 0
  }

  /** Every running task may still send a token back to a loop that is collecting them. */
  function Distance(s: State): nat {
    StepsLeft(s) + 2 * EngineLoop.Running(s.tasks)
  }

  lemma CollectingComesCloser(s: State)
    requires Enabled(s, Advance) && s.contextDone && HandOk(s)
    requires s.pc.Collecting? || s.pc.Blocked? || s.pc.CollectingMore? || s.pc.HasTokens?
    ensures AdvancePoll(s).tasks == s.tasks && StepsLeft(AdvancePoll(s)) < StepsLeft(s)
  {
  }

  lemma AdvanceComesCloser(s: State)
    requires Enabled(s, Advance) && s.contextDone && !s.pc.Dispatching?
    requires !s.pc.Collecting? && !s.pc.Blocked? && !s.pc.CollectingMore? && !s.pc.HasTokens?
    ensures AdvancePoll(s).tasks == s.tasks && StepsLeft(AdvancePoll(s)) < StepsLeft(s)
  {
  }

  lemma DispatchingComesCloser(s: State)
    requires s.pc.Dispatching?
    ensures if s.pc.valid == [] then AdvancePoll(s).tasks == s.tasks && StepsLeft(AdvancePoll(s)) < StepsLeft(s)
            else AdvancePoll(s).tasks == s.tasks + [Task(s.pc.valid[0], Spawned, false)]
                 && StepsLeft(AdvancePoll(s)) == StepsLeft(s) - 3
  {
  }

  lemma TaskComesNoFurther(s: State, e: Event)
    requires Enabled(s, e) && (e.Begin? || e.Finish? || e.Leave?)
    ensures Distance(Next(s, e)) <= Distance(s)
  {
    RunningUpdated(s.tasks, e.i, Next(s, e).tasks[e.i]);
    if e.Leave? {
      OneTokenMore(s);
    } else {
      assert StepsLeft(Next(s, e)) == StepsLeft(s);
    }
  }

  lemma OneTokenMore(s: State)
    ensures StepsLeft(s.(free := s.free + 1)) <= StepsLeft(s) + 2
  {
  }

  lemma OthersComeNoFurther(s: State, e: Event)
    requires Enabled(s, e) && s.contextDone && !e.Advance? && !e.Begin? && !e.Finish? && !e.Leave?
    ensures Distance(Next(s, e)) <= Distance(s)
  {
    if e.DeadlineReached? {
      RunningSamePcs(s.tasks, Next(s, e).tasks);
    }
  }

  /** With the context done, a step of the poll loop brings it closer to the drain, and no other
      event takes it further away. */
  lemma ComesCloser(s: State, e: Event)
    requires Enabled(s, e) && s.contextDone && HandOk(s)
    ensures Next(s, e).contextDone
    ensures Distance(Next(s, e)) + (if e.Advance? then 1 else 0) <= Distance(s)
  {
    if e.Begin? || e.Finish? || e.Leave? {
      TaskComesNoFurther(s, e);
    } else if !e.Advance? {
      OthersComeNoFurther(s, e);
    } else if s.pc.Dispatching? {
      DispatchingComesCloser(s);
      if s.pc.valid != [] {
        RunningAppended(s.tasks, Task(s.pc.valid[0], Spawned, false));
      }
    } else if s.pc.Collecting? || s.pc.Blocked? || s.pc.CollectingMore? || s.pc.HasTokens? {
      CollectingComesCloser(s);
    } else {
      AdvanceComesCloser(s);
    }
  }

  /** The steps of the poll loop from event n on and before m. */
  function OwnSteps(events: seq<Event>, n: nat, m: nat): nat
    requires n <= m <= |events|
    decreases m - n
  {
    if n == m then 0 else OwnSteps(events, n, m - 1) + if events[m - 1].Advance? then 1 else 0
  }

  lemma {:induction false} StaysDone(h: History, n: nat, m: nat)
    requires IsHistory(h) && n <= m <= |h.events| && h.states[n].contextDone
    ensures h.states[m].contextDone
    decreases m
  {
    if n < m {
      StaysDone(h, n, m - 1);
      CapacityAlwaysOk(h, m - 1);
      ComesCloser(h.states[m - 1], h.events[m - 1]);
    }
  }

  /** Event p brings the loop closer to the drain, or at least no further away. */
  predicate ClosesInAt(h: History, p: nat) {
    p < |h.events| && |h.states| == |h.events| + 1
    && Distance(h.states[p + 1]) + (if h.events[p].Advance? then 1 else 0) <= Distance(h.states[p])
  }

  lemma ClosesIn(h: History, n: nat, p: nat)
    requires IsHistory(h) && n <= p < |h.events| && h.states[n].contextDone
    ensures ClosesInAt(h, p)
  {
    StaysDone(h, n, p);
    CapacityAlwaysOk(h, p);
    ComesCloser(h.states[p], h.events[p]);
  }

  lemma {:induction false} StepsAddUp(h: History, n: nat, m: nat)
    requires n <= m <= |h.events| && |h.states| == |h.events| + 1 && forall p | n <= p < m :: ClosesInAt(h, p)
    ensures OwnSteps(h.events, n, m) + Distance(h.states[m]) <= Distance(h.states[n])
    decreases m
  {
    if n == m {
      assert OwnSteps(h.events, n, m) == 0;
    } else {
      StepsAddUp(h, n, m - 1);
      assert ClosesInAt(h, m - 1);
    }
  }

  /** SHUTDOWN ENDS. From the moment its context is done, whatever else happens and however
      events interleave, the poll loop takes only so many steps before it drains, and it never
      asks for jobs again. */
  lemma ShutdownIsBounded(h: History, n: nat, m: nat)
    requires IsHistory(h) && n <= m <= |h.events| && h.states[n].contextDone
    ensures OwnSteps(h.events, n, m) <= Distance(h.states[n]) && !AsksAt(h, m)
  {
    forall p | n <= p < m ensures ClosesInAt(h, p) {
      ClosesIn(h, n, p);
    }
    StepsAddUp(h, n, m);
    StaysDone(h, n, m);
    if AsksAt(h, m) {
      AsksWhileLive(h, m);
    }
  }

  /** DRAINED. The loop ends in the drain deadline or with every task gone. */
  lemma {:induction false} StopsWhenDrained(h: History, n: nat)
    requires IsHistory(h) && n <= |h.events| && h.states[n].pc.Stopped?
    ensures (exists p | 0 <= p < n :: h.events[p].DeadlineReached?) || forall t | t in h.states[n].tasks :: t.pc.Gone?
    decreases n
  {
    var s, e := h.states[n - 1], h.events[n - 1];
    assert Enabled(s, e);
    if s.pc.Stopped? {
      StopsWhenDrained(h, n - 1);
    } else if e.Advance? {
      AdvanceFrame(s);
    }
  }
}
