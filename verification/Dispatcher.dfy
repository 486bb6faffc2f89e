/** Dispatch with retries and fallbacks (pkg/dispatcher/dispatcher.go). The network, the request
    context and the backoff timer are an environment: any answers at all, as long as a context
    that is done stays done. */
module Dispatch {
  import opened Wrappers
  import opened Text
  import opened FallbackGraph

  datatype TaskRequest = TaskRequest(id: string, agentId: string, requiredCapability: string, stream: bool)

  datatype Response = Response(taskId: string, agentId: string, failed: bool, output: string)

  /** One pass through the body of the retry loop. `deadline` says whether the error reads as
      an exceeded deadline. */
  datatype Attempt =
    | TranslateFailed(deadline: bool)    // before any request is made
    | TransportFailed(deadline: bool)
    | ServerError                        // status 500 or above
    | BadResponse(deadline: bool)
    | Answered(response: Response)
  {
    predicate Retryable() {
      TransportFailed? || ServerError?
    }

    predicate Late() {
      (TranslateFailed? || TransportFailed? || BadResponse?) && deadline
    }
  }

  datatype DispatchError =
    | InvalidRequest
    | AgentNotFound(id: string)
    | CapabilityNotFound(capability: string)
    | CycleDetected(id: string)
    | ContextDone
    | DownstreamTimeout(id: string)
    | DownstreamUnavailable(id: string)
  {
    predicate Unresolved() {
      InvalidRequest? || AgentNotFound? || CapabilityNotFound?
    }
  }

  /** Every look at the outside world takes the next tick of a clock. */
  datatype Environment = Environment(
    attempt: (nat, string) -> Attempt,
    live: nat -> bool,                   // ctx.Err() == nil
    interrupted: nat -> bool,            // a backoff sleep cut short by the context
    taskId: string)                      // a generated task id

  ghost predicate Sound(env: Environment) {
    && (forall m: nat, n: nat | m <= n && env.live(n) :: env.live(m))
    && (forall n: nat | env.interrupted(n) :: !env.live(n))
  }

  function Budget(a: Agent): nat {
    1 + if a.retries < 0 then 0 else a.retries
  }

  /** An attempt and the tick at which it was made. */
  datatype Call = Call(at: nat, attempt: Attempt)

  /** What invoking one agent did: the attempts made, and how it ended. An error carries
      whether it reads as an exceeded deadline. */
  datatype Invocation = Invocation(agent: Agent, made: seq<Call>, result: Result<Response, bool>)

  /** Downstream requests among the attempts made. */
  function Sent(made: seq<Call>): nat {
    if made == [] then 0 else Sent(made[..|made| - 1]) + if made[|made| - 1].attempt.TranslateFailed? then 0 else 1
  }

  lemma {:induction false} SentAtMostAll(made: seq<Call>)
    ensures Sent(made) <= |made|
  {
    if made != [] {
      SentAtMostAll(made[..|made| - 1]);
    }
  }

  function SentInAll(invs: seq<Invocation>): nat {
    if invs == [] then 0 else SentInAll(invs[..|invs| - 1]) + Sent(invs[|invs| - 1].made)
  }

  lemma {:induction false} SentInBoth(a: seq<Invocation>, b: seq<Invocation>)
    ensures SentInAll(a + b) == SentInAll(a) + SentInAll(b)
  {
    if b == [] {
      assert a + b == a;
    } else {
      assert (a + b)[..|a + b| - 1] == a + b[..|b| - 1];
      SentInBoth(a, b[..|b| - 1]);
    }
  }

  function Filled(r: Response, taskId: string, generated: string, a: Agent): Response {
    r.(taskId := if r.taskId != "" then r.taskId else if taskId != "" then taskId else generated,
       agentId := if r.agentId != "" then r.agentId else a.id)
  }

  /** What the agent answered stays; only ids that it left blank are filled in, with the id of
      the request if that has one, and with the agent's. */
  lemma FilledKeepsAnswer(r: Response, taskId: string, generated: string, a: Agent)
    ensures var filled := Filled(r, taskId, generated, a);
            && filled.failed == r.failed && filled.output == r.output
            && (r.taskId != "" ==> filled.taskId == r.taskId) && (r.agentId != "" ==> filled.agentId == r.agentId)
            && (r.taskId == "" && taskId != "" ==> filled.taskId == taskId)
            && (r.taskId == "" && taskId == "" ==> filled.taskId == generated)
            && (r.agentId == "" ==> filled.agentId == a.id)
            && Filled(filled, taskId, generated, a) == filled
  {
  }

  predicate SameCapability(a: string, b: string) {
    EqualFold(TrimSpace(a), TrimSpace(b))
  }

  /** Capabilities agree if, apart from white space around them, they agree letter by letter, in
      lower or upper case. */
  lemma SameCapabilityIff(a: string, b: string)
    ensures var s, t := TrimSpace(a), TrimSpace(b);
            SameCapability(a, b) <==>
              |s| == |t| && forall i | 0 <= i < |s| ::
                s[i] == t[i] || ('A' <= s[i] <= 'Z' && t[i] == s[i] + 'a' - 'A')
                || ('A' <= t[i] <= 'Z' && s[i] == t[i] + 'a' - 'A')
  {
    var s, t := TrimSpace(a), TrimSpace(b);
    if |s| == |t| {
      forall i | 0 <= i < |s| {
        SameLetter(s[i], t[i]);
      }
    }
  }

  predicate Offers(a: Agent, capability: string) {
    exists i | 0 <= i < |a.capabilities| :: SameCapability(a.capabilities[i], capability)
  }

  /** The agent named by the task, or the first one configured that offers its capability. */
  predicate ResolvesTo(agents: seq<Agent>, task: Option<TaskRequest>, a: Agent) {
    && task.Some? && a in agents
    && if task.value.agentId != "" then a.id == task.value.agentId
       else
         && task.value.requiredCapability != "" && Offers(a, task.value.requiredCapability)
         && exists i | 0 <= i < |agents| ::
              agents[i] == a && forall j | 0 <= j < i :: !Offers(agents[j], task.value.requiredCapability)
  }

  /** Why a task that no agent can be found for is turned down. */
  function ResolutionError(task: Option<TaskRequest>): DispatchError {
    if task.None? || (task.value.agentId == "" && task.value.requiredCapability == "") then InvalidRequest
    else if task.value.agentId != "" then AgentNotFound(task.value.agentId)
    else CapabilityNotFound(task.value.requiredCapability)
  }

  /** The last attempt ran into a deadline. */
  predicate EndedLate(made: seq<Call>) {
    made != [] && made[|made| - 1].attempt.Late()
  }

  /** The error for an agent that was invoked and whose context is still live. */
  function DownstreamError(id: string, late: bool): DispatchError {
    if late then DownstreamTimeout(id) else DownstreamUnavailable(id)
  }

  /** The attempts lie between two readings of the clock. */
  predicate Within(made: seq<Call>, from: nat, to: nat) {
    made != [] ==> from <= made[0].at && made[|made| - 1].at < to
  }

  /** The i-th call came after the one before it and met what the environment makes of it. */
  ghost predicate Called(env: Environment, agent: Agent, made: seq<Call>, i: nat)
    requires i < |made|
  {
    made[i].attempt == env.attempt(made[i].at, agent.id) && (i > 0 ==> made[i - 1].at < made[i].at)
  }

  ghost predicate RetriedAt(env: Environment, agent: Agent, made: seq<Call>, i: nat)
    requires i < |made|
  {
    Called(env, agent, made, i) && made[i].attempt.Retryable()
  }

  /** Attempts on one agent, one after the other, that leave the retry loop running. */
  ghost predicate Fruitless(env: Environment, agent: Agent, made: seq<Call>) {
    forall i | 0 <= i < |made| :: RetriedAt(env, agent, made, i)
  }

  /** What the retry loop may do to one agent: at most 1 + retries attempts, one after the
      other, all but the last of them retried. */
  ghost predicate Permitted(env: Environment, adapters: set<string>, agent: Agent, made: seq<Call>) {
    && |made| <= Budget(agent) && (made == [] <==> agent.adapterType !in adapters)
    && (made != [] ==> Fruitless(env, agent, made[..|made| - 1]) && Called(env, agent, made, |made| - 1))
  }

  /** Any two attempts are in order, so no tick is used twice. */
  lemma {:induction false} AttemptsInOrder(env: Environment, adapters: set<string>, agent: Agent, made: seq<Call>,
                                           i: nat, j: nat)
    requires Permitted(env, adapters, agent, made) && i < j < |made|
    ensures made[i].at < made[j].at && made[i].attempt.Retryable()
    decreases j
  {
    var front := made[..|made| - 1];
    assert RetriedAt(env, agent, front, i);
    if j < |made| - 1 {
      assert RetriedAt(env, agent, front, j);
    }
    if i < j - 1 {
      AttemptsInOrder(env, adapters, agent, made, i, j - 1);
    }
  }

  /** Only a request that got no reply, or one of status 500 or above, is followed by another. */
  lemma OnlyTheseAreRetried(env: Environment, adapters: set<string>, agent: Agent, made: seq<Call>)
    requires Permitted(env, adapters, agent, made)
    ensures forall i | 0 <= i < |made| - 1 :: made[i].attempt.TransportFailed? || made[i].attempt.ServerError?
  {
    forall i | 0 <= i < |made| - 1 ensures made[i].attempt.TransportFailed? || made[i].attempt.ServerError? {
      assert RetriedAt(env, agent, made[..|made| - 1], i);
    }
  }

  /** What the last attempt came to. */
  function LastAnswer(env: Environment, taskId: string, agent: Agent, made: seq<Call>): Option<Response> {
    if made != [] && made[|made| - 1].attempt.Answered?
    then Some(Filled(made[|made| - 1].attempt.response, taskId, env.taskId, agent))
    else None
  }

  /** The invocation is what the environment and the configuration allow, and it came back with
      an answer exactly if the last attempt was answered. */
  ghost predicate Genuine(env: Environment, adapters: set<string>, taskId: string, inv: Invocation) {
    && Permitted(env, adapters, inv.agent, inv.made)
    && LastAnswer(env, taskId, inv.agent, inv.made) == if inv.result.Ok? then Some(inv.result.value) else None
  }

  /** What the loop makes of an attempt. */
  datatype Verdict = Again(late: bool) | GiveUp(late: bool) | Got(response: Response)

  predicate VerdictOn(v: Verdict, attempt: Attempt) {
    match v
    case Again(late) => attempt.Retryable() && late == attempt.Late()
    case GiveUp(late) => !attempt.Answered? && late == attempt.Late()
    case Got(response) => attempt == Answered(response)
  }

  lemma SentStep(made: seq<Call>, c: Call)
    ensures Sent(made + [c]) == Sent(made) + if c.attempt.TranslateFailed? then 0 else 1
  {
    assert (made + [c])[..|made + [c]| - 1] == made;
  }

  /** One more attempt: an invocation may end with it, or go on if it is retried. */
  lemma OneMoreAttempt(env: Environment, adapters: set<string>, agent: Agent, made: seq<Call>, from: nat, at: nat)
    requires Fruitless(env, agent, made) && |made| < Budget(agent) && agent.adapterType in adapters
    requires Within(made, from, at) && from <= at
    ensures var attempt := env.attempt(at, agent.id);
            var more := made + [Call(at, attempt)];
            && Permitted(env, adapters, agent, more) && Within(more, from, at + 1)
            && (attempt.Retryable() ==> Fruitless(env, agent, more))
  {
    var more := made + [Call(at, env.attempt(at, agent.id))];
    assert more[..|more| - 1] == made;
    if env.attempt(at, agent.id).Retryable() {
      forall i | 0 <= i < |more| ensures RetriedAt(env, agent, more, i) {
        assert i < |made| ==> RetriedAt(env, agent, made, i);
      }
    }
  }

  ghost predicate InvokedAs(d: Dispatcher, taskId: string, id: string, inv: Invocation) {
    inv.agent.id == id && inv.agent in d.agents && Genuine(d.env, d.adapters, taskId, inv)
  }

  /** One genuine invocation of a configured agent for each id tried. */
  ghost predicate InvokedInTurn(d: Dispatcher, taskId: string, tried: seq<string>, invs: seq<Invocation>) {
    |invs| == |tried| && forall i | 0 <= i < |invs| :: InvokedAs(d, taskId, tried[i], invs[i])
  }

  predicate AllFailed(invs: seq<Invocation>) {
    forall i | 0 <= i < |invs| :: invs[i].result.Err?
  }

  /** The agents tried were all invoked in turn, and all failed but perhaps the last, whose
      answer is then the result. */
  ghost predicate Told(d: Dispatcher, taskId: string, tried: seq<string>, invs: seq<Invocation>, answer: Option<Response>) {
    && InvokedInTurn(d, taskId, tried, invs)
    && match answer
       case None => AllFailed(invs)
       case Some(response) => invs != [] && AllFailed(invs[..|invs| - 1]) && invs[|invs| - 1].result == Ok(response)
  }

  /** An agent that failed was not given up before its time: its last attempt failed for good, or
      all its retries were used. */
  predicate Spent(adapters: set<string>, inv: Invocation) {
    inv.result.Err? && inv.agent.adapterType in adapters ==>
      && inv.made != []
      && (inv.made[|inv.made| - 1].attempt.TranslateFailed? || inv.made[|inv.made| - 1].attempt.BadResponse?
          || |inv.made| == 1 + if inv.agent.retries < 0 then 0 else inv.agent.retries)
  }

  predicate AllSpent(adapters: set<string>, invs: seq<Invocation>) {
    forall i | 0 <= i < |invs| :: Spent(adapters, invs[i])
  }

  lemma AllSpentBoth(adapters: set<string>, a: seq<Invocation>, b: seq<Invocation>)
    requires AllSpent(adapters, a) && AllSpent(adapters, b)
    ensures AllSpent(adapters, a + b)
  {
  }

  /** Every agent invoked was attempted at most once more than it has retries, and again only
      after a request that got no reply or one of status 500 or above. */
  predicate RetriedAsConfigured(invs: seq<Invocation>) {
    forall n | 0 <= n < |invs| ::
      && |invs[n].made| <= 1 + (if invs[n].agent.retries < 0 then 0 else invs[n].agent.retries)
      && forall i | 0 <= i < |invs[n].made| - 1 ::
           invs[n].made[i].attempt.TransportFailed? || invs[n].made[i].attempt.ServerError?
  }

  lemma ToldAsConfigured(d: Dispatcher, taskId: string, tried: seq<string>, invs: seq<Invocation>)
    requires InvokedInTurn(d, taskId, tried, invs)
    ensures RetriedAsConfigured(invs)
  {
    forall n | 0 <= n < |invs|
      ensures |invs[n].made| <= 1 + (if invs[n].agent.retries < 0 then 0 else invs[n].agent.retries)
      ensures forall i | 0 <= i < |invs[n].made| - 1 ::
                invs[n].made[i].attempt.TransportFailed? || invs[n].made[i].attempt.ServerError?
    {
      assert InvokedAs(d, taskId, tried[n], invs[n]);
      OnlyTheseAreRetried(d.env, d.adapters, invs[n].agent, invs[n].made);
    }
  }

  lemma InvokedBoth(d: Dispatcher, taskId: string, tried: seq<string>, invs: seq<Invocation>,
                    more: seq<string>, moreInvs: seq<Invocation>)
    requires InvokedInTurn(d, taskId, tried, invs) && InvokedInTurn(d, taskId, more, moreInvs)
    ensures InvokedInTurn(d, taskId, tried + more, invs + moreInvs)
  {
  }

  lemma ToldBoth(d: Dispatcher, taskId: string, tried: seq<string>, invs: seq<Invocation>,
                 more: seq<string>, moreInvs: seq<Invocation>, answer: Option<Response>)
    requires Told(d, taskId, tried, invs, None) && Told(d, taskId, more, moreInvs, answer)
    ensures Told(d, taskId, tried + more, invs + moreInvs, answer)
    ensures SentInAll(invs + moreInvs) == SentInAll(invs) + SentInAll(moreInvs)
  {
    SentInBoth(invs, moreInvs);
    InvokedBoth(d, taskId, tried, invs, more, moreInvs);
    if answer.Some? {
      var all := invs + moreInvs;
      assert all[..|all| - 1] == invs + moreInvs[..|moreInvs| - 1];
    }
  }

  function Answer(r: Result<Response, DispatchError>): Option<Response> {
    if r.Ok? then Some(r.value) else None
  }

  /** The error of a context that is done, or of an agent whose last attempt was late or not. */
  predicate Failure(e: DispatchError, id: string, late: bool, live: bool) {
    (e == ContextDone && !live) || e == DownstreamError(id, late)
  }

  /** The agents tried are a prefix of the depth-first preorder, all of it if the search ran
      to its end. */
  predicate Searched(full: (seq<string>, set<string>), tried: seq<string>, visited: set<string>, toTheEnd: bool) {
    tried <= full.0 && (toTheEnd ==> tried == full.0 && visited == full.1)
  }

  predicate TriedOnce(tried: seq<string>) {
    forall i, j | 0 <= i < j < |tried| :: tried[i] != tried[j]
  }

  /** Exactly the configured agents that can be reached were tried. */
  ghost predicate Exhaustive(g: Graph, start: string, tried: seq<string>) {
    forall y :: y in tried <==> Reachable(g, start, y)
  }

  /** A search from one agent, cut short or not. */
  lemma SearchFromOne(agents: seq<Agent>, start: Agent, tried: seq<string>)
    requires UniqueIds(agents) && start in agents && tried <= Preorder(GraphOf(agents), [start.id], {}).0
    ensures TriedOnce(tried)
    ensures tried == Preorder(GraphOf(agents), [start.id], {}).0 ==> Exhaustive(GraphOf(agents), start.id, tried)
  {
    var g := GraphOf(agents);
    var i :| 0 <= i < |agents| && agents[i] == start;
    GraphHasAgent(agents, i);
    forall i, j | 0 <= i < j < |tried| ensures tried[i] != tried[j] {
      PreorderMeetsOnce(g, [start.id], {}, i, j);
    }
    forall y ensures y in Preorder(g, [start.id], {}).0 <==> Reachable(g, start.id, y) {
      PreorderIsExact(g, start.id, y);
    }
  }

  class Dispatcher {
    const agents: seq<Agent>
    const adapters: set<string>
    const env: Environment
    var clock: nat
    var visited: set<string>
    ghost var requests: nat      // downstream requests sent
    ghost var cycleHits: nat     // times the CYCLE_DETECTED branch was taken

    ghost predicate Valid()
      reads this
    {
      Sound(env) && UniqueIds(agents)
    }

    constructor (agents: seq<Agent>, adapters: set<string>, env: Environment)
      requires Sound(env) && UniqueIds(agents)
      ensures Valid() && this.agents == agents && this.adapters == adapters && this.env == env
      ensures requests == 0 && cycleHits == 0
    {
      this.agents, this.adapters, this.env := agents, adapters, env;
      clock, visited, requests, cycleHits := 0, {}, 0, 0;
    }

    method ContextLive() returns (ok: bool)
      modifies this`clock
      ensures ok == env.live(old(clock)) && clock == old(clock) + 1
    {
      ok := env.live(clock);
      clock := clock + 1;
    }

    /** The first configured agent with this id. */
    method GetAgent(id: string) returns (a: Option<Agent>)
      ensures a.Some? ==> a.value in agents && a.value.id == id
      ensures a.Some? <==> id in GraphOf(agents)
    {
      for i := 0 to |agents|
        invariant forall j | 0 <= j < i :: agents[j].id != id
      {
        if agents[i].id == id {
          GraphHasAgent(agents, i);
          return Some(agents[i]);
        }
      }
      if id in GraphOf(agents) {
        var j := AgentOf(agents, id);
      }
      a := None;
    }

    /** The first configured agent that offers the capability. */
    method FindAgentByCapability(capability: string) returns (a: Option<Agent>)
      ensures a.Some? ==> exists i | 0 <= i < |agents| ::
                a.value == agents[i] && Offers(agents[i], capability) && forall j | 0 <= j < i :: !Offers(agents[j], capability)
      ensures a.None? ==> forall i | 0 <= i < |agents| :: !Offers(agents[i], capability)
      ensures a.Some? ==> exists c | c in a.value.capabilities :: SameCapability(c, capability)
      ensures a.None? ==> forall i, c | 0 <= i < |agents| && c in agents[i].capabilities :: !SameCapability(c, capability)
    {
      for i := 0 to |agents|
        invariant forall j | 0 <= j < i :: !Offers(agents[j], capability)
      {
        for c := 0 to |agents[i].capabilities|
          invariant forall d | 0 <= d < c :: !SameCapability(agents[i].capabilities[d], capability)
        {
          if SameCapability(agents[i].capabilities[c], capability) {
            return Some(agents[i]);
          }
        }
      }
      a := None;
    }

    method ResolveAgent(task: Option<TaskRequest>) returns (r: Result<Agent, DispatchError>)
      ensures r.Ok? ==> ResolvesTo(agents, task, r.value)
      ensures r == Err(InvalidRequest) <==> task.None? || (task.value.agentId == "" && task.value.requiredCapability == "")
      ensures r.Err? ==> r.error == ResolutionError(task) && forall a :: !ResolvesTo(agents, task, a)
      ensures r.Err? && r.error.AgentNotFound? ==> task.value.agentId !in GraphOf(agents)
      ensures r.Err? && r.error.CapabilityNotFound? ==>
                forall a | a in agents :: !Offers(a, task.value.requiredCapability)
    {
      if task.None? {
        return Err(InvalidRequest);
      }
      var t := task.value;
      if t.agentId != "" {
        var a := GetAgent(t.agentId);
        forall i | 0 <= i < |agents| ensures agents[i].id in GraphOf(agents) {
          GraphHasAgent(agents, i);
        }
        return if a.Some? then Ok(a.value) else Err(AgentNotFound(t.agentId));
      }
      if t.requiredCapability != "" {
        var a := FindAgentByCapability(t.requiredCapability);
        return if a.Some? then Ok(a.value) else Err(CapabilityNotFound(t.requiredCapability));
      }
      return Err(InvalidRequest);
    }

    /** The body of the retry loop. */
    method AttemptOnce(agent: Agent, ghost made: seq<Call>, ghost from: nat) returns (v: Verdict, ghost more: seq<Call>)
      requires Sound(env) && Fruitless(env, agent, made) && |made| < Budget(agent) && agent.adapterType in adapters
      requires Within(made, from, clock) && from <= clock
      modifies this`clock, this`requests
      ensures clock >= old(clock) && requests + Sent(made) == old(requests) + Sent(more)
      ensures |more| == |made| + 1 && Within(more, from, clock) && Permitted(env, adapters, agent, more)
      ensures VerdictOn(v, more[|made|].attempt)
      ensures v.Again? ==> Fruitless(env, agent, more)
      ensures v.GiveUp? && env.live(clock) ==> more[|made|].attempt.TranslateFailed? || more[|made|].attempt.BadResponse?
    {
      var attempt := env.attempt(clock, agent.id);
      OneMoreAttempt(env, adapters, agent, made, from, clock);
      SentStep(made, Call(clock, attempt));
      more := made + [Call(clock, attempt)];
      clock := clock + 1;
      requests := requests + if attempt.TranslateFailed? then 0 else 1;
      match attempt {
        case TranslateFailed(deadline) =>
          return GiveUp(deadline), more;
        case TransportFailed(deadline) =>
          var ok := ContextLive();
          return if ok then Again(deadline) else GiveUp(deadline), more;
        case ServerError =>
          return Again(false), more;
        case BadResponse(deadline) =>
          return GiveUp(deadline), more;
        case Answered(response) =>
          return Got(response), more;
      }
    }

    /** The retry loop for one agent: at most 1 + retries attempts, stopping at the first one
        that is not retried. */
    method Attempts(agent: Agent) returns (r: Result<Response, bool>, ghost made: seq<Call>)
      requires Sound(env)
      modifies this`clock, this`requests
      ensures clock >= old(clock) && requests == old(requests) + Sent(made)
      ensures Within(made, old(clock), clock) && Permitted(env, adapters, agent, made)
      ensures r.Ok? <==> made != [] && made[|made| - 1].attempt.Answered?
      ensures r.Ok? ==> r.value == made[|made| - 1].attempt.response
      ensures r.Err? && env.live(clock) ==> r.error == EndedLate(made)
      ensures r.Err? && env.live(clock) && made != [] ==>
                r.error == match made[|made| - 1].attempt
                           case TranslateFailed(deadline) => deadline
                           case TransportFailed(deadline) => deadline
                           case BadResponse(deadline) => deadline
                           case _ => false
      ensures |made| <= 1 + if agent.retries < 0 then 0 else agent.retries
      ensures forall i | 0 <= i < |made| - 1 :: made[i].attempt.TransportFailed? || made[i].attempt.ServerError?
      ensures r.Err? && agent.adapterType in adapters && env.live(clock) ==>
                && made != []
                && (made[|made| - 1].attempt.TranslateFailed? || made[|made| - 1].attempt.BadResponse?
                    || |made| == 1 + if agent.retries < 0 then 0 else agent.retries)
    {
      made := [];
      if agent.adapterType !in adapters {
        return Err(false), made;
      }
      var maxRetries := if agent.retries < 0 then 0 else agent.retries;
      var lastErr := false;
      for n := 0 to maxRetries + 1
        invariant clock >= old(clock) && requests == old(requests) + Sent(made)
        invariant |made| == n && Fruitless(env, agent, made) && Within(made, old(clock), clock)
        invariant n > 0 ==> Permitted(env, adapters, agent, made) && VerdictOn(Again(lastErr), made[n - 1].attempt)
      {
        if n > 0 {
          var cut := env.interrupted(clock);
          clock := clock + 1;
          if cut {
            OnlyTheseAreRetried(env, adapters, agent, made);
            return Err(false), made;
          }
        }
        var v;
        v, made := AttemptOnce(agent, made, old(clock));
        OnlyTheseAreRetried(env, adapters, agent, made);
        match v {
          case Again(late) =>
            lastErr := late;
          case GiveUp(late) =>
            return Err(late), made;
          case Got(response) =>
            return Ok(response), made;
        }
      }
      OnlyTheseAreRetried(env, adapters, agent, made);
      return Err(lastErr), made;
    }

    /** The retry loop, and the ids that an answer left blank filled in. */
    method InvokeAgentWithRetries(task: TaskRequest, agent: Agent) returns (r: Result<Response, bool>, ghost made: seq<Call>)
      requires Sound(env)
      modifies this`clock, this`requests
      ensures clock >= old(clock) && requests == old(requests) + Sent(made)
      ensures Within(made, old(clock), clock) && Genuine(env, adapters, task.id, Invocation(agent, made, r))
      ensures r.Err? && env.live(clock) ==> r.error == EndedLate(made)
      ensures |made| <= 1 + if agent.retries < 0 then 0 else agent.retries
      ensures forall i | 0 <= i < |made| - 1 :: made[i].attempt.TransportFailed? || made[i].attempt.ServerError?
      ensures r.Err? && agent.adapterType in adapters && env.live(clock) ==>
                && made != []
                && (made[|made| - 1].attempt.TranslateFailed? || made[|made| - 1].attempt.BadResponse?
                    || |made| == 1 + if agent.retries < 0 then 0 else agent.retries)
    {
      r, made := Attempts(agent);
      if r.Ok? {
        r := Ok(Filled(r.value, task.id, env.taskId, agent));
      }
    }

    function Remaining(): nat
      reads this
    {
      |GraphOf(agents).Keys - visited|
    }

    /** The recursive search over the shared visited set. `tried` are the agents it invokes, in
        order, and `invs` what each invocation did. */
    method DispatchWithFallback(task: TaskRequest, agent: Agent)
      returns (r: Result<Response, DispatchError>, ghost tried: seq<string>, ghost invs: seq<Invocation>)
      requires Valid() && agent in agents
      modifies this`clock, this`visited, this`requests, this`cycleHits
      ensures clock >= old(clock) && old(visited) <= visited && requests == old(requests) + SentInAll(invs)
      ensures agent.id in old(visited) ==>
                r == Err(CycleDetected(agent.id)) && cycleHits == old(cycleHits) + 1 && tried == []
      ensures agent.id !in old(visited) ==>
                && cycleHits == old(cycleHits) && Told(this, task.id, tried, invs, Answer(r))
                && Searched(Preorder(GraphOf(agents), [agent.id], old(visited)), tried, visited, r.Err? && env.live(clock))
      ensures env.live(clock) ==> AllSpent(adapters, invs)
      ensures agent.id !in old(visited) && r.Err? ==>
                invs != [] && Failure(r.error, agent.id, EndedLate(invs[0].made), env.live(clock))
      decreases Remaining(), 0
    {
      tried, invs := [], [];
      if agent.id in visited {
        cycleHits := cycleHits + 1;
        return Err(CycleDetected(agent.id)), [], [];
      }
      ghost var g, v := GraphOf(agents), visited;
      AgentInGraph(agent);
      Shrinks(g, visited, visited, agent.id);
      visited := visited + {agent.id};
      var invoked;
      ghost var made;
      invoked, made := InvokeAgentWithRetries(task, agent);
      ghost var inv := Invocation(agent, made, invoked);
      tried, invs := [agent.id], [inv];
      AgentAlone(this, task.id, inv, v);
      if invoked.Ok? {
        return Ok(invoked.value), tried, invs;
      }
      var ok := ContextLive();
      if !ok {
        return Err(ContextDone), tried, invs;
      }
      var answer;
      ghost var below, belowInvs;
      answer, below, belowInvs := CascadeToFallbacks(task, agent.fallbacks);
      AgentThenFallbacks(this, task.id, inv, v, below, belowInvs, answer, visited, answer.None? && env.live(clock),
                         env.live(clock));
      tried, invs := tried + below, invs + belowInvs;
      if answer.Some? {
        return Ok(answer.value), tried, invs;
      }
      ok := ContextLive();
      if !ok {
        return Err(ContextDone), tried, invs;
      }
      return Err(DownstreamError(agent.id, invoked.error)), tried, invs;
    }

    /** The loop over the fallbacks of an agent that failed. It ends early when the context is
        done, which the check after it finds again. */
    method CascadeToFallbacks(task: TaskRequest, ids: seq<string>)
      returns (answer: Option<Response>, ghost tried: seq<string>, ghost invs: seq<Invocation>)
      requires Valid()
      modifies this`clock, this`visited, this`requests, this`cycleHits
      ensures clock >= old(clock) && old(visited) <= visited && cycleHits == old(cycleHits)
      ensures requests == old(requests) + SentInAll(invs)
      ensures Searched(Preorder(GraphOf(agents), ids, old(visited)), tried, visited, answer.None? && env.live(clock))
      ensures Told(this, task.id, tried, invs, answer)
      ensures env.live(clock) ==> AllSpent(adapters, invs)
      decreases Remaining(), 2
    {
      ghost var g, v := GraphOf(agents), visited;
      answer, tried, invs := None, [], [];
      for i := 0 to |ids|
        invariant clock >= old(clock) && v <= visited && cycleHits == old(cycleHits)
        invariant requests == old(requests) + SentInAll(invs)
        invariant answer.None? && Told(this, task.id, tried, invs, None)
        invariant env.live(clock) ==> AllSpent(adapters, invs)
        invariant tried <= Preorder(g, ids, v).0
        invariant env.live(clock) ==> (tried, visited) == Preorder(g, ids[..i], v)
      {
        var ok := ContextLive();
        if !ok {
          return;
        }
        SizeOfSubset(g.Keys - visited, g.Keys - v);
        answer, tried, invs := FailOver(task, ids, i, v, tried, invs);
        if answer.Some? {
          return;
        }
      }
      assert ids[..|ids|] == ids;
    }

    /** One turn of that loop: the search goes on from the i-th fallback, after all before it
        failed, unless it is visited or not configured. */
    method FailOver(task: TaskRequest, ids: seq<string>, i: nat, ghost v: set<string>,
                    ghost before: seq<string>, ghost beforeInvs: seq<Invocation>)
      returns (answer: Option<Response>, ghost tried: seq<string>, ghost invs: seq<Invocation>)
      requires Valid() && i < |ids|
      requires Told(this, task.id, before, beforeInvs, None) && (before, visited) == Preorder(GraphOf(agents), ids[..i], v)
      requires env.live(clock) ==> AllSpent(adapters, beforeInvs)
      modifies this`clock, this`visited, this`requests, this`cycleHits
      ensures clock >= old(clock) && old(visited) <= visited && cycleHits == old(cycleHits)
      ensures requests + SentInAll(beforeInvs) == old(requests) + SentInAll(invs)
      ensures Told(this, task.id, tried, invs, answer)
      ensures env.live(clock) ==> AllSpent(adapters, invs)
      ensures tried <= Preorder(GraphOf(agents), ids, v).0
      ensures answer.None? && env.live(clock) ==> (tried, visited) == Preorder(GraphOf(agents), ids[..i + 1], v)
      decreases Remaining(), 1
    {
      ghost var g, seen := GraphOf(agents), visited;
      SearchSkips(g, ids, v, i);
      SearchedSoFar(g, ids, v, i, before);
      answer, tried, invs := None, before, beforeInvs;
      if ids[i] in visited {
        return;
      }
      var fallback := GetAgent(ids[i]);
      if fallback.None? {
        return;
      }
      var r;
      ghost var more, moreInvs;
      r, more, moreInvs := DispatchWithFallback(task, fallback.value);
      SearchOneMore(g, ids, v, i, before, seen, more, visited, r.Err? && env.live(clock));
      ToldBoth(this, task.id, before, beforeInvs, more, moreInvs, Answer(r));
      if env.live(clock) {
        AllSpentBoth(adapters, beforeInvs, moreInvs);
      }
      answer, tried, invs := Answer(r), before + more, beforeInvs + moreInvs;
    }

    /** Synchronous dispatch. On every fallback graph it ends, invokes agents at most once each in
        depth-first preorder from the resolved one, never meets a visited agent again, returns
        the first answer, and fails with a live context only after invoking every configured
        agent that the resolved one reaches. */
    method Dispatch(task: Option<TaskRequest>)
      returns (r: Result<Response, DispatchError>,
               ghost start: Option<Agent>, ghost tried: seq<string>, ghost invs: seq<Invocation>)
      requires Valid()
      modifies this`clock, this`visited, this`requests, this`cycleHits
      ensures cycleHits == old(cycleHits) && requests == old(requests) + SentInAll(invs)
      ensures start.None? <==> r.Err? && r.error.Unresolved()
      ensures start.None? ==> tried == [] && invs == [] && r == Err(ResolutionError(task))
      ensures start.Some? ==>
                && ResolvesTo(agents, task, start.value)
                && Told(this, task.value.id, tried, invs, Answer(r))
                && tried <= Preorder(GraphOf(agents), [start.value.id], {}).0
      ensures TriedOnce(tried)
      ensures start.Some? && r.Err? && env.live(clock) ==>
                && invs != []
                && r.error == (if EndedLate(invs[0].made) then DownstreamTimeout(start.value.id)
                               else DownstreamUnavailable(start.value.id))
                && Exhaustive(GraphOf(agents), start.value.id, tried)
      ensures RetriedAsConfigured(invs) && (env.live(clock) ==> AllSpent(adapters, invs))
    {
      start, tried, invs := None, [], [];
      var resolved := ResolveAgent(task);
      if resolved.Err? {
        return Err(resolved.error), None, [], [];
      }
      var target := resolved.value;
      start := Some(target);
      visited := {};
      r, tried, invs := DispatchWithFallback(task.value, target);
      SearchFromOne(agents, target, tried);
      ToldAsConfigured(this, task.value.id, tried, invs);
    }

    /** The durable workers' entry point: no retry and no fallback, so at most one request. */
    method DispatchSingleAttempt(task: Option<TaskRequest>)
      returns (r: Result<Response, DispatchError>, ghost start: Option<Agent>, ghost made: seq<Call>)
      requires Valid()
      modifies this`clock, this`requests
      ensures |made| <= 1 && requests == old(requests) + Sent(made) <= old(requests) + 1
      ensures start.None? <==> r.Err? && r.error.Unresolved()
      ensures start.None? ==> made == [] && r == Err(ResolutionError(task)) && forall a :: !ResolvesTo(agents, task, a)
      ensures start.Some? ==>
                && ResolvesTo(agents, task, start.value)
                && (made == [] <==> start.value.adapterType !in adapters)
                && Within(made, old(clock), clock)
                && (made != [] ==> made[0].attempt == env.attempt(made[0].at, start.value.id))
                && (r.Ok? <==> made != [] && made[0].attempt.Answered?)
                && (r.Ok? ==> r.value == Filled(made[0].attempt.response, task.value.id, env.taskId, start.value))
      ensures start.Some? && r.Err? ==>
                (r.error == ContextDone && !env.live(clock))
                || r.error == DownstreamError(start.value.id, EndedLate(made))
    {
      start, made := None, [];
      var resolved := ResolveAgent(task);
      if resolved.Err? {
        return Err(resolved.error), None, [];
      }
      start := Some(resolved.value);
      var agent := resolved.value.(retries := SINGLE_ATTEMPT_RETRIES, fallbacks := []);
      var invoked;
      invoked, made := InvokeAgentWithRetries(task.value, agent);
      SentAtMostAll(made);
      if invoked.Ok? {
        return Ok(invoked.value), start, made;
      }
      var ok := ContextLive();
      if !ok {
        return Err(ContextDone), start, made;
      }
      return Err(DownstreamError(agent.id, invoked.error)), start, made;
    }

    lemma AgentInGraph(agent: Agent)
      requires UniqueIds(agents) && agent in agents
      ensures agent.id in GraphOf(agents) && GraphOf(agents)[agent.id] == agent.fallbacks
    {
      var i :| 0 <= i < |agents| && agents[i] == agent;
      GraphHasAgent(agents, i);
    }
  }

  lemma Extends(met: seq<string>, next: seq<string>, more: seq<string>)
    requires more <= next
    ensures met + more <= met + next
  {
  }

  /** The agent itself comes first. */
  lemma AgentAlone(d: Dispatcher, taskId: string, inv: Invocation, visited: set<string>)
    requires inv.agent.id in GraphOf(d.agents) && inv.agent.id !in visited
    requires inv.agent in d.agents && Genuine(d.env, d.adapters, taskId, inv)
    ensures Spent(d.adapters, inv) ==> AllSpent(d.adapters, [inv])
    ensures Told(d, taskId, [inv.agent.id], [inv], if inv.result.Ok? then Some(inv.result.value) else None)
    ensures SentInAll([inv]) == Sent(inv.made)
    ensures [inv.agent.id] <= Preorder(GraphOf(d.agents), [inv.agent.id], visited).0
  {
    assert [inv][..0] == [];
    PreorderOfOne(GraphOf(d.agents), inv.agent.id, visited);
  }

  /** Then come its fallbacks. */
  lemma AgentThenFallbacks(d: Dispatcher, taskId: string, inv: Invocation, visited: set<string>,
                           below: seq<string>, belowInvs: seq<Invocation>, answer: Option<Response>,
                           now: set<string>, toTheEnd: bool, live: bool)
    requires inv.agent.id in GraphOf(d.agents) && inv.agent.id !in visited
    requires live ==> AllSpent(d.adapters, [inv]) && AllSpent(d.adapters, belowInvs)
    requires Told(d, taskId, [inv.agent.id], [inv], None) && Told(d, taskId, below, belowInvs, answer)
    requires GraphOf(d.agents)[inv.agent.id] == inv.agent.fallbacks
    requires Searched(Preorder(GraphOf(d.agents), inv.agent.fallbacks, visited + {inv.agent.id}), below, now, toTheEnd)
    ensures Told(d, taskId, [inv.agent.id] + below, [inv] + belowInvs, answer)
    ensures live ==> AllSpent(d.adapters, [inv] + belowInvs)
    ensures SentInAll([inv] + belowInvs) == Sent(inv.made) + SentInAll(belowInvs)
    ensures Searched(Preorder(GraphOf(d.agents), [inv.agent.id], visited), [inv.agent.id] + below, now, toTheEnd)
  {
    var g, x := GraphOf(d.agents), inv.agent.id;
    assert [inv][..0] == [];
    SentInBoth([inv], belowInvs);
    ToldBoth(d, taskId, [x], [inv], below, belowInvs, answer);
    PreorderOfOne(g, x, visited);
    Extends([x], Preorder(g, g[x], visited + {x}).0, below);
  }

  /** What a prefix of the starting ids led to is a prefix of what all of them lead to. */
  lemma SearchedSoFar(g: Graph, ids: seq<string>, visited: set<string>, i: nat, tried: seq<string>)
    requires i <= |ids|
    ensures tried <= Preorder(g, ids[..i], visited).0 ==> tried <= Preorder(g, ids, visited).0
  {
    PreorderGrows(g, ids, visited, i);
  }

  /** An id that is visited or not configured adds nothing. */
  lemma SearchSkips(g: Graph, ids: seq<string>, visited: set<string>, i: nat)
    requires i < |ids|
    ensures ids[i] in Preorder(g, ids[..i], visited).1 || ids[i] !in g ==>
              Preorder(g, ids[..i + 1], visited) == Preorder(g, ids[..i], visited)
  {
    PreorderNext(g, ids, visited, i);
  }

  /** A finished search from the first ids, and one from the next, make one from both. */
  lemma SearchOneMore(g: Graph, ids: seq<string>, visited: set<string>, i: nat, tried: seq<string>, seen: set<string>,
                      more: seq<string>, now: set<string>, toTheEnd: bool)
    requires i < |ids| && (tried, seen) == Preorder(g, ids[..i], visited) && ids[i] !in seen && ids[i] in g
    requires Searched(Preorder(g, [ids[i]], seen), more, now, toTheEnd)
    ensures Searched(Preorder(g, ids[..i + 1], visited), tried + more, now, toTheEnd)
    ensures tried + more <= Preorder(g, ids, visited).0
  {
    PreorderNext(g, ids, visited, i);
    Extends(tried, Preorder(g, [ids[i]], seen).0, more);
    SearchedSoFar(g, ids, visited, i + 1, tried + more);
  }

  /** The search from a single id, opened up. */
  lemma PreorderOfOne(g: Graph, x: string, visited: set<string>)
    requires x in g && x !in visited
    ensures Preorder(g, [x], visited).0 == [x] + Preorder(g, g[x], visited + {x}).0
    ensures Preorder(g, [x], visited).1 == Preorder(g, g[x], visited + {x}).1
  {
    assert [x][..0] == [];
    assert Preorder(g, [], visited) == ([], visited);
  }

  /** One more starting id. */
  lemma PreorderNext(g: Graph, ids: seq<string>, visited: set<string>, i: nat)
    requires i < |ids|
    ensures var (met, seen) := Preorder(g, ids[..i], visited);
            Preorder(g, ids[..i + 1], visited)
            == if ids[i] in seen || ids[i] !in g then (met, seen)
               else (met + Preorder(g, [ids[i]], seen).0, Preorder(g, [ids[i]], seen).1)
  {
    var next := ids[..i + 1];
    assert next[..|next| - 1] == ids[..i] && next[|next| - 1] == ids[i];
    var (met, seen) := Preorder(g, ids[..i], visited);
    if ids[i] !in seen && ids[i] in g {
      PreorderOfOne(g, ids[i], seen);
      Shrinks(g, visited, seen, ids[i]);
      var below := Preorder(g, g[ids[i]], seen + {ids[i]}).0;
      assert met + [ids[i]] + below == met + ([ids[i]] + below);
    }
  }
}
