/** Streaming dispatch: retries and fallbacks up to the first event, and the handler that
    closes the stream (pkg/dispatcher/dispatcher.go, pkg/server/a2a_handler.go). */
module StreamDispatch {
  import opened Wrappers
  import opened FallbackGraph
  import opened Dispatch
  import opened StreamEvents
  import opened Adapters

  /** One pass through the body of the streaming retry loop. */
  datatype StreamAttempt =
    | NotTranslated(deadline: bool)      // before any request is made
    | NotSent(deadline: bool)
    | Refused                            // status 500 or above
    | Streaming(response: StreamResponse)
  {
    predicate Retried() {
      NotSent? || Refused?
    }

    predicate Expired() {
      (NotTranslated? || NotSent?) && deadline
    }
  }

  datatype StreamEnvironment = StreamEnvironment(
    attempt: (nat, string) -> StreamAttempt,
    live: nat -> bool,
    interrupted: nat -> bool,
    adapter: string -> Adapter)          // by adapter type

  ghost predicate SoundStream(env: StreamEnvironment) {
    && (forall m: nat, n: nat | m <= n && env.live(n) :: env.live(m))
    && (forall n: nat | env.interrupted(n) :: !env.live(n))
    && (forall adapterType: string :: WellBehaved(env.adapter(adapterType)))
  }

  /** An agent was contacted at a tick of the clock. */
  datatype Contact = Contact(agent: string, adapterType: string, at: nat)

  /** What a contact's response is worth to the client. */
  function ScriptOf(env: StreamEnvironment, source: Contact, response: StreamResponse): seq<Event> {
    Script(env.adapter(source.adapterType), source.agent, response)
  }

  /** The stream broke off after it was established, or the dispatch failed before. */
  datatype StreamError = Broken | Unserved(error: DispatchError)

  ghost predicate NoStream(env: StreamEnvironment, made: seq<Contact>) {
    forall i | 0 <= i < |made| :: !env.attempt(made[i].at, made[i].agent).Streaming?
  }

  /** The last contact made is the one that answered with a stream, and everything sent since
      `before` is its translation. */
  ghost predicate Established(env: StreamEnvironment, before: seq<Event>, made: seq<Contact>, sink: SseWriter,
                              sent: seq<Event>, failed: bool) {
    && made != [] && NoStream(env, made[..|made| - 1])
    && var source := made[|made| - 1];
    var attempt := env.attempt(source.at, source.agent);
    && attempt.Streaming?
    && Relayed(before + ScriptOf(env, source, attempt.response), sink.accepts, |before|, sent, failed)
  }

  /** Either nothing was sent and no contact answered with a stream, or the last one did. */
  ghost predicate Streamed(env: StreamEnvironment, before: seq<Event>, made: seq<Contact>, t: TrackingEmitter, failed: bool)
    reads t, t.inner.inner
  {
    if t.hasEmitted then Established(env, before, made, t.inner.inner, t.inner.inner.sent, failed)
    else failed && t.inner.inner.sent == before && NoStream(env, made)
  }

  /** The handlers' flag tells whether the stream sent ends in an error. */
  ghost predicate ErrorNoted(noted: bool, t: TrackingEmitter)
    reads t, t.inner, t.inner.inner
  {
    t.inner.errorEmitted <==> noted || (t.hasEmitted && LastIsError(t.inner.inner.sent))
  }

  /** The contacts lie between two readings of the clock. */
  predicate MadeWithin(made: seq<Contact>, from: nat, to: nat) {
    made != [] ==> from <= made[0].at && made[|made| - 1].at < to
  }

  /** The i-th contact was made with this agent, after the one before it. */
  predicate Reached(agent: Agent, made: seq<Contact>, i: nat)
    requires i < |made|
  {
    made[i].agent == agent.id && made[i].adapterType == agent.adapterType && (i > 0 ==> made[i - 1].at < made[i].at)
  }

  predicate ReachedInVain(env: StreamEnvironment, agent: Agent, made: seq<Contact>, i: nat)
    requires i < |made|
  {
    Reached(agent, made, i) && env.attempt(made[i].at, made[i].agent).Retried()
  }

  /** Contacts with one agent, one after the other, that leave the retry loop running. */
  ghost predicate Retrying(env: StreamEnvironment, agent: Agent, made: seq<Contact>) {
    forall i | 0 <= i < |made| :: ReachedInVain(env, agent, made, i)
  }

  /** What the retry loop may do to one agent: at most 1 + retries contacts, one after the
      other, all but the last of them retried. */
  ghost predicate Allowed(env: StreamEnvironment, adapters: set<string>, agent: Agent, made: seq<Contact>) {
    && |made| <= Budget(agent) && (made == [] <==> agent.adapterType !in adapters)
    && (made != [] ==> Retrying(env, agent, made[..|made| - 1]) && Reached(agent, made, |made| - 1))
  }

  /** Any two contacts with an agent are in order, so no tick is used twice. */
  lemma {:induction false} ContactsInOrder(env: StreamEnvironment, adapters: set<string>, agent: Agent, made: seq<Contact>,
                                           i: nat, j: nat)
    requires Allowed(env, adapters, agent, made) && i < j < |made|
    ensures made[i].at < made[j].at && env.attempt(made[i].at, made[i].agent).Retried()
    decreases j
  {
    var front := made[..|made| - 1];
    assert ReachedInVain(env, agent, front, i);
    if j < |made| - 1 {
      assert ReachedInVain(env, agent, front, j);
    }
    if i < j - 1 {
      ContactsInOrder(env, adapters, agent, made, i, j - 1);
    }
  }

  /** The last contact ran into a deadline. */
  predicate EndedExpired(env: StreamEnvironment, made: seq<Contact>) {
    made != [] && env.attempt(made[|made| - 1].at, made[|made| - 1].agent).Expired()
  }

  /** What the loop makes of a contact. */
  datatype StreamVerdict = TryAgain(late: bool) | Stop(late: bool) | Opened(response: StreamResponse)

  ghost predicate StreamVerdictOn(v: StreamVerdict, attempt: StreamAttempt) {
    match v
    case TryAgain(late) => attempt.Retried() && late == attempt.Expired()
    case Stop(late) => !attempt.Streaming? && late == attempt.Expired()
    case Opened(response) => attempt == Streaming(response)
  }

  /** Contacts that ended with a stream response, or none of which did. */
  ghost predicate OpenedBy(env: StreamEnvironment, agent: Agent, made: seq<Contact>, response: Option<StreamResponse>) {
    match response
    case None => NoStream(env, made)
    case Some(r) =>
      made != [] && NoStream(env, made[..|made| - 1]) && env.attempt(made[|made| - 1].at, agent.id) == Streaming(r)
  }

  /** Only a contact without a reply, or one that met a status of 500 or above, is followed by
      another. */
  lemma OnlyTheseAreTriedAgain(env: StreamEnvironment, adapters: set<string>, agent: Agent, made: seq<Contact>)
    requires Allowed(env, adapters, agent, made)
    ensures forall i | 0 <= i < |made| - 1 ::
              env.attempt(made[i].at, agent.id).NotSent? || env.attempt(made[i].at, agent.id).Refused?
  {
    forall i | 0 <= i < |made| - 1
      ensures env.attempt(made[i].at, agent.id).NotSent? || env.attempt(made[i].at, agent.id).Refused?
    {
      assert ReachedInVain(env, agent, made[..|made| - 1], i);
    }
  }

  lemma RetryingMeansNoStream(env: StreamEnvironment, agent: Agent, made: seq<Contact>, at: nat)
    requires Retrying(env, agent, made)
    ensures NoStream(env, made)
    ensures !env.attempt(at, agent.id).Streaming? ==> NoStream(env, made + [Contact(agent.id, agent.adapterType, at)])
  {
    forall i | 0 <= i < |made| ensures !env.attempt(made[i].at, made[i].agent).Streaming? {
      assert ReachedInVain(env, agent, made, i);
    }
  }

  lemma RetryingOn(env: StreamEnvironment, agent: Agent, made: seq<Contact>, at: nat)
    requires Retrying(env, agent, made) && env.attempt(at, agent.id).Retried()
    requires made != [] ==> made[|made| - 1].at < at
    ensures Retrying(env, agent, made + [Contact(agent.id, agent.adapterType, at)])
  {
    var more := made + [Contact(agent.id, agent.adapterType, at)];
    forall i | 0 <= i < |more| ensures ReachedInVain(env, agent, more, i) {
      if i < |made| {
        assert ReachedInVain(env, agent, made, i);
      }
    }
  }

  lemma OneMoreContact(env: StreamEnvironment, adapters: set<string>, agent: Agent, made: seq<Contact>, from: nat, at: nat)
    requires Retrying(env, agent, made) && |made| < Budget(agent) && agent.adapterType in adapters
    requires MadeWithin(made, from, at) && from <= at
    ensures var more := made + [Contact(agent.id, agent.adapterType, at)];
            && Allowed(env, adapters, agent, more) && MadeWithin(more, from, at + 1)
            && more[..|more| - 1] == made && NoStream(env, made)
            && (!env.attempt(at, agent.id).Streaming? ==> NoStream(env, more))
            && (env.attempt(at, agent.id).Retried() ==> Retrying(env, agent, more))
  {
    var more := made + [Contact(agent.id, agent.adapterType, at)];
    assert more[..|more| - 1] == made;
    RetryingMeansNoStream(env, agent, made, at);
    if env.attempt(at, agent.id).Retried() {
      RetryingOn(env, agent, made, at);
    }
  }

  /** An agent that was invoked, and the contacts made with it. */
  datatype Invoked = Invoked(agent: Agent, made: seq<Contact>)

  function LastMade(invs: seq<Invoked>): seq<Contact> {
    if invs == [] then [] else invs[|invs| - 1].made
  }

  /** An agent was not given up before its time: it answered with a stream, its request could not
      be translated, or all its retries were used. */
  predicate ToTheLast(env: StreamEnvironment, adapters: set<string>, inv: Invoked) {
    inv.agent.adapterType in adapters ==>
      && inv.made != []
      && var last := env.attempt(inv.made[|inv.made| - 1].at, inv.agent.id);
         last.Streaming? || last.NotTranslated? || |inv.made| == 1 + if inv.agent.retries < 0 then 0 else inv.agent.retries
  }

  predicate AllToTheLast(env: StreamEnvironment, adapters: set<string>, invs: seq<Invoked>) {
    forall i | 0 <= i < |invs| :: ToTheLast(env, adapters, invs[i])
  }

  lemma AllToTheLastBoth(env: StreamEnvironment, adapters: set<string>, a: seq<Invoked>, b: seq<Invoked>)
    requires AllToTheLast(env, adapters, a) && AllToTheLast(env, adapters, b)
    ensures AllToTheLast(env, adapters, a + b)
  {
  }

  ghost predicate ContactedAs(d: StreamDispatcher, id: string, inv: Invoked) {
    inv.agent.id == id && inv.agent in d.disp.agents && Allowed(d.env, d.disp.adapters, inv.agent, inv.made)
  }

  ghost predicate Invocations(d: StreamDispatcher, tried: seq<string>, invs: seq<Invoked>) {
    |invs| == |tried| && forall i | 0 <= i < |invs| :: ContactedAs(d, tried[i], invs[i])
  }

  /** Nobody invoked so far answered with a stream. */
  ghost predicate Quiet(d: StreamDispatcher, invs: seq<Invoked>) {
    forall i | 0 <= i < |invs| :: NoStream(d.env, invs[i].made)
  }

  /** One invocation of a configured agent for each id tried. No contact before the last
      invocation answered with a stream, and what was sent is what the last one streamed. */
  ghost predicate StreamTold(d: StreamDispatcher, before: seq<Event>, tried: seq<string>, invs: seq<Invoked>,
                             t: TrackingEmitter, failed: bool)
    reads t, t.inner.inner
  {
    && Invocations(d, tried, invs)
    && (invs != [] ==> Quiet(d, invs[..|invs| - 1]))
    && Streamed(d.env, before, LastMade(invs), t, failed)
  }

  lemma InvocationsBoth(d: StreamDispatcher, tried: seq<string>, invs: seq<Invoked>,
                        more: seq<string>, moreInvs: seq<Invoked>)
    requires Invocations(d, tried, invs) && Invocations(d, more, moreInvs)
    ensures Invocations(d, tried + more, invs + moreInvs)
  {
  }

  lemma QuietBoth(d: StreamDispatcher, a: seq<Invoked>, b: seq<Invoked>)
    requires Quiet(d, a)
    ensures Quiet(d, b) ==> Quiet(d, a + b)
    ensures b != [] ==> (a + b)[..|a + b| - 1] == a + b[..|b| - 1]
    ensures b != [] && Quiet(d, b[..|b| - 1]) ==> Quiet(d, (a + b)[..|a + b| - 1])
  {
    if b != [] {
      assert (a + b)[..|a + b| - 1] == a + b[..|b| - 1];
    }
  }

  lemma AllQuiet(d: StreamDispatcher, invs: seq<Invoked>)
    requires invs != [] && Quiet(d, invs[..|invs| - 1]) && NoStream(d.env, LastMade(invs))
    ensures Quiet(d, invs)
  {
    assert invs == invs[..|invs| - 1] + [invs[|invs| - 1]];
  }

  lemma StreamToldBoth(d: StreamDispatcher, before: seq<Event>, tried: seq<string>, invs: seq<Invoked>,
                       more: seq<string>, moreInvs: seq<Invoked>, t: TrackingEmitter, failed: bool)
    requires Invocations(d, tried, invs) && Quiet(d, invs) && StreamTold(d, before, more, moreInvs, t, failed)
    ensures StreamTold(d, before, tried + more, invs + moreInvs, t, failed)
    ensures !t.hasEmitted ==> Quiet(d, invs + moreInvs)
  {
    InvocationsBoth(d, tried, invs, more, moreInvs);
    QuietBoth(d, invs, moreInvs);
    if moreInvs == [] {
      assert invs + moreInvs == invs;
    } else if !t.hasEmitted {
      AllQuiet(d, moreInvs);
    }
  }

  /** The agent itself comes first. */
  lemma StreamAgentAlone(d: StreamDispatcher, before: seq<Event>, inv: Invoked, visited: set<string>,
                         t: TrackingEmitter, failed: bool)
    requires inv.agent.id in GraphOf(d.disp.agents) && inv.agent.id !in visited
    requires inv.agent in d.disp.agents && Allowed(d.env, d.disp.adapters, inv.agent, inv.made)
    requires Streamed(d.env, before, inv.made, t, failed)
    ensures ToTheLast(d.env, d.disp.adapters, inv) ==> AllToTheLast(d.env, d.disp.adapters, [inv])
    ensures StreamTold(d, before, [inv.agent.id], [inv], t, failed)
    ensures Invocations(d, [inv.agent.id], [inv])
    ensures [inv.agent.id] <= Preorder(GraphOf(d.disp.agents), [inv.agent.id], visited).0
  {
    assert [inv][..0] == [];
    PreorderOfOne(GraphOf(d.disp.agents), inv.agent.id, visited);
  }

  /** An agent that sent nothing, and then its fallbacks. */
  lemma StreamAgentThenFallbacks(d: StreamDispatcher, before: seq<Event>, inv: Invoked, visited: set<string>,
                                 below: seq<string>, belowInvs: seq<Invoked>, t: TrackingEmitter, failed: bool,
                                 now: set<string>, toTheEnd: bool, live: bool)
    requires live ==> AllToTheLast(d.env, d.disp.adapters, [inv]) && AllToTheLast(d.env, d.disp.adapters, belowInvs)
    requires inv.agent.id in GraphOf(d.disp.agents) && inv.agent.id !in visited
    requires Invocations(d, [inv.agent.id], [inv]) && NoStream(d.env, inv.made)
    requires StreamTold(d, before, below, belowInvs, t, failed)
    requires Searched(Preorder(GraphOf(d.disp.agents), inv.agent.fallbacks, visited + {inv.agent.id}), below, now, toTheEnd)
    requires GraphOf(d.disp.agents)[inv.agent.id] == inv.agent.fallbacks
    ensures StreamTold(d, before, [inv.agent.id] + below, [inv] + belowInvs, t, failed)
    ensures live ==> AllToTheLast(d.env, d.disp.adapters, [inv] + belowInvs)
    ensures Searched(Preorder(GraphOf(d.disp.agents), [inv.agent.id], visited), [inv.agent.id] + below, now, toTheEnd)
  {
    var g, x := GraphOf(d.disp.agents), inv.agent.id;
    StreamToldBoth(d, before, [x], [inv], below, belowInvs, t, failed);
    PreorderOfOne(g, x, visited);
    Extends([x], Preorder(g, g[x], visited + {x}).0, below);
  }

  /** The error of a stream that broke off, of a context that is done, or of an agent whose
      last contact was late or not. */
  predicate StreamFailure(e: StreamError, id: string, late: bool, sent: bool, live: bool) {
    if sent then e == Broken
    else (e == Unserved(ContextDone) && !live) || e == Unserved(DownstreamError(id, late))
  }

  class StreamDispatcher {
    const disp: Dispatcher       // the configuration
    const env: StreamEnvironment
    var clock: nat
    var visited: set<string>
    ghost var cycleHits: nat

    constructor (disp: Dispatcher, env: StreamEnvironment)
      requires UniqueIds(disp.agents) && SoundStream(env)
      ensures this.disp == disp && this.env == env && Valid() && cycleHits == 0
    {
      this.disp, this.env := disp, env;
      clock, visited, cycleHits := 0, {}, 0;
    }

    ghost predicate Valid() {
      UniqueIds(disp.agents) && SoundStream(env)
    }

    method ContextLive() returns (ok: bool)
      modifies this`clock
      ensures ok == env.live(old(clock)) && clock == old(clock) + 1
    {
      ok := env.live(clock);
      clock := clock + 1;
    }

    /** The body of the streaming retry loop. */
    method ContactOnce(agent: Agent, ghost made: seq<Contact>, ghost from: nat)
      returns (v: StreamVerdict, ghost more: seq<Contact>)
      requires Valid() && Retrying(env, agent, made) && |made| < Budget(agent) && agent.adapterType in disp.adapters
      requires MadeWithin(made, from, clock) && from <= clock
      modifies this`clock
      ensures clock >= old(clock) && |more| == |made| + 1
      ensures MadeWithin(more, from, clock) && Allowed(env, disp.adapters, agent, more)
      ensures StreamVerdictOn(v, env.attempt(more[|made|].at, agent.id))
      ensures OpenedBy(env, agent, more, if v.Opened? then Some(v.response) else None)
      ensures v.TryAgain? ==> Retrying(env, agent, more)
      ensures v.Stop? && env.live(clock) ==> env.attempt(more[|made|].at, agent.id).NotTranslated?
    {
      var attempt := env.attempt(clock, agent.id);
      OneMoreContact(env, disp.adapters, agent, made, from, clock);
      more := made + [Contact(agent.id, agent.adapterType, clock)];
      clock := clock + 1;
      match attempt {
        case NotTranslated(deadline) =>
          return Stop(deadline), more;
        case NotSent(deadline) =>
          var ok := ContextLive();
          return if ok then TryAgain(deadline) else Stop(deadline), more;
        case Refused =>
          return TryAgain(false), more;
        case Streaming(response) =>
          return Opened(response), more;
      }
    }

    /** The streaming retry loop for one agent, up to the response it ends with. An error
        carries whether it reads as an exceeded deadline. */
    method Connect(agent: Agent) returns (r: Result<StreamResponse, bool>, ghost made: seq<Contact>)
      requires Valid()
      modifies this`clock
      ensures clock >= old(clock) && MadeWithin(made, old(clock), clock) && Allowed(env, disp.adapters, agent, made)
      ensures OpenedBy(env, agent, made, if r.Ok? then Some(r.value) else None)
      ensures r.Err? && env.live(clock) ==> r.error == EndedExpired(env, made)
      ensures r.Err? && env.live(clock) && made != [] ==>
                r.error == match env.attempt(made[|made| - 1].at, agent.id)
                           case NotTranslated(deadline) => deadline
                           case NotSent(deadline) => deadline
                           case _ => false
      ensures |made| <= 1 + if agent.retries < 0 then 0 else agent.retries
      ensures forall i | 0 <= i < |made| - 1 ::
                env.attempt(made[i].at, agent.id).NotSent? || env.attempt(made[i].at, agent.id).Refused?
      ensures r.Err? && agent.adapterType in disp.adapters && env.live(clock) ==>
                && made != []
                && (env.attempt(made[|made| - 1].at, agent.id).NotTranslated?
                    || |made| == 1 + if agent.retries < 0 then 0 else agent.retries)
    {
      made := [];
      if agent.adapterType !in disp.adapters {
        return Err(false), made;
      }
      var maxRetries := if agent.retries < 0 then 0 else agent.retries;
      var lastErr := false;
      for n := 0 to maxRetries + 1
        invariant clock >= old(clock) && |made| == n && MadeWithin(made, old(clock), clock)
        invariant Retrying(env, agent, made)
        invariant n > 0 ==> Allowed(env, disp.adapters, agent, made) && lastErr == EndedExpired(env, made)
      {
        if n > 0 {
          var cut := env.interrupted(clock);
          clock := clock + 1;
          if cut {
            RetryingMeansNoStream(env, agent, made, 0);
            OnlyTheseAreTriedAgain(env, disp.adapters, agent, made);
            return Err(false), made;
          }
        }
        var v;
        v, made := ContactOnce(agent, made, old(clock));
        OnlyTheseAreTriedAgain(env, disp.adapters, agent, made);
        match v {
          case TryAgain(late) =>
            lastErr := late;
          case Stop(late) =>
            return Err(late), made;
          case Opened(response) =>
            return Ok(response), made;
        }
      }
      RetryingMeansNoStream(env, agent, made, 0);
      OnlyTheseAreTriedAgain(env, disp.adapters, agent, made);
      return Err(lastErr), made;
    }

    /** Once a response is translated there is no way back: its outcome is the outcome. */
    method InvokeAgentStreamWithRetries(agent: Agent, t: TrackingEmitter) returns (r: Result<(), bool>, ghost made: seq<Contact>)
      requires Valid() && !t.hasEmitted
      modifies this`clock, t, t.inner, t.inner.inner
      ensures clock >= old(clock) && Allowed(env, disp.adapters, agent, made)
      ensures Streamed(env, old(t.inner.inner.sent), made, t, r.Err?)
      ensures ErrorNoted(old(t.inner.errorEmitted), t)
      ensures !t.hasEmitted && env.live(clock) ==> r.error == EndedExpired(env, made)
      ensures |made| <= 1 + if agent.retries < 0 then 0 else agent.retries
      ensures forall i | 0 <= i < |made| - 1 ::
                env.attempt(made[i].at, agent.id).NotSent? || env.attempt(made[i].at, agent.id).Refused?
      ensures env.live(clock) ==> ToTheLast(env, disp.adapters, Invoked(agent, made))
    {
      var connected;
      connected, made := Connect(agent);
      if connected.Err? {
        return Err(connected.error), made;
      }
      var failed := TranslateStream(env.adapter(agent.adapterType), agent.id, connected.value, t);
      return if failed then Err(false) else Ok(()), made;
    }

    function Remaining(): nat
      reads this
    {
      |GraphOf(disp.agents).Keys - visited|
    }

    /** The recursive search, which goes on only while nothing has been sent. */
    method DispatchStreamWithFallback(agent: Agent, t: TrackingEmitter)
      returns (r: Result<(), StreamError>, ghost tried: seq<string>, ghost invs: seq<Invoked>)
      requires Valid() && agent in disp.agents && !t.hasEmitted
      modifies this`clock, this`visited, this`cycleHits, t, t.inner, t.inner.inner
      ensures clock >= old(clock) && old(visited) <= visited
      ensures StreamTold(this, old(t.inner.inner.sent), tried, invs, t, r.Err?) && ErrorNoted(old(t.inner.errorEmitted), t)
      ensures agent.id in old(visited) ==>
                r == Err(Unserved(CycleDetected(agent.id))) && cycleHits == old(cycleHits) + 1 && tried == []
      ensures agent.id !in old(visited) ==>
                && cycleHits == old(cycleHits) && tried != []
                && Searched(Preorder(GraphOf(disp.agents), [agent.id], old(visited)), tried, visited,
                            !t.hasEmitted && env.live(clock))
      ensures env.live(clock) ==> AllToTheLast(env, disp.adapters, invs)
      ensures agent.id !in old(visited) && r.Err? ==>
                StreamFailure(r.error, agent.id, EndedExpired(env, invs[0].made), t.hasEmitted, env.live(clock))
      decreases Remaining(), 0
    {
      tried, invs := [], [];
      if agent.id in visited {
        cycleHits := cycleHits + 1;
        return Err(Unserved(CycleDetected(agent.id))), [], [];
      }
      ghost var g, v, before := GraphOf(disp.agents), visited, t.inner.inner.sent;
      disp.AgentInGraph(agent);
      Shrinks(g, visited, visited, agent.id);
      visited := visited + {agent.id};
      var invoked;
      ghost var made;
      invoked, made := InvokeAgentStreamWithRetries(agent, t);
      tried, invs := [agent.id], [Invoked(agent, made)];
      StreamAgentAlone(this, before, invs[0], v, t, invoked.Err?);
      if invoked.Ok? {
        return Ok(()), tried, invs;
      }
      if t.hasEmitted {
        return Err(Broken), tried, invs;
      }
      var ok := ContextLive();
      if !ok {
        return Err(Unserved(ContextDone)), tried, invs;
      }
      ghost var below, belowInvs;
      r, below, belowInvs := CascadeStream(agent, invoked.error, t);
      StreamAgentThenFallbacks(this, before, invs[0], v, below, belowInvs, t, r.Err?,
                               visited, !t.hasEmitted && env.live(clock), env.live(clock));
      tried, invs := tried + below, invs + belowInvs;
    }

    /** The loop over the fallbacks of an agent that failed before sending anything, and the
        error if they all do. */
    method CascadeStream(agent: Agent, late: bool, t: TrackingEmitter)
      returns (r: Result<(), StreamError>, ghost tried: seq<string>, ghost invs: seq<Invoked>)
      requires Valid() && !t.hasEmitted
      modifies this`clock, this`visited, this`cycleHits, t, t.inner, t.inner.inner
      ensures clock >= old(clock) && old(visited) <= visited && cycleHits == old(cycleHits)
      ensures StreamTold(this, old(t.inner.inner.sent), tried, invs, t, r.Err?) && ErrorNoted(old(t.inner.errorEmitted), t)
      ensures Searched(Preorder(GraphOf(disp.agents), agent.fallbacks, old(visited)), tried, visited,
                       !t.hasEmitted && env.live(clock))
      ensures r.Err? ==> StreamFailure(r.error, agent.id, late, t.hasEmitted, env.live(clock))
      ensures env.live(clock) ==> AllToTheLast(env, disp.adapters, invs)
      decreases Remaining(), 1
    {
      ghost var g, v, before := GraphOf(disp.agents), visited, t.inner.inner.sent;
      var ids := agent.fallbacks;
      tried, invs := [], [];
      for i := 0 to |ids|
        invariant clock >= old(clock) && v <= visited && cycleHits == old(cycleHits)
        invariant !t.hasEmitted && t.inner.inner.sent == before && t.inner.errorEmitted == old(t.inner.errorEmitted)
        invariant Invocations(this, tried, invs) && Quiet(this, invs)
        invariant env.live(clock) ==> AllToTheLast(env, disp.adapters, invs)
        invariant Searched(Preorder(g, ids[..i], v), tried, visited, env.live(clock))
      {
        var ok := ContextLive();
        if !ok {
          SearchedSoFar(g, ids, v, i, tried);
          return Err(Unserved(ContextDone)), tried, invs;
        }
        SearchSkips(g, ids, v, i);
        if ids[i] !in visited {
          var fallback := disp.GetAgent(ids[i]);
          if fallback.Some? {
            SizeOfSubset(g.Keys - visited, g.Keys - v);
            ghost var seen := visited;
            ghost var more, moreInvs;
            r, more, moreInvs := DispatchStreamWithFallback(fallback.value, t);
            SearchOneMore(g, ids, v, i, tried, seen, more, visited, !t.hasEmitted && env.live(clock));
            StreamToldBoth(this, before, tried, invs, more, moreInvs, t, r.Err?);
            if env.live(clock) {
              AllToTheLastBoth(env, disp.adapters, invs, moreInvs);
            }
            tried, invs := tried + more, invs + moreInvs;
            if r.Ok? || t.hasEmitted {
              return r, tried, invs;
            }
          }
        }
      }
      assert ids[..|ids|] == ids;
      var ok := ContextLive();
      return Err(Unserved(if ok then DownstreamError(agent.id, late) else ContextDone)), tried, invs;
    }

    /** The search from the resolved agent, with a fresh visited set and a fresh tracker. */
    method StreamFrom(agent: Agent, emitter: ErrorTrackingEmitter)
      returns (r: Result<(), StreamError>, ghost relayed: bool, ghost tried: seq<string>, ghost invs: seq<Invoked>)
      requires Valid() && agent in disp.agents
      modifies this`clock, this`visited, this`cycleHits, emitter, emitter.inner
      ensures cycleHits == old(cycleHits) && clock >= old(clock)
      ensures Invocations(this, tried, invs) && (invs != [] ==> Quiet(this, invs[..|invs| - 1]))
      ensures TriedOnce(tried) && tried != [] && tried <= Preorder(GraphOf(disp.agents), [agent.id], {}).0
      ensures if relayed
              then Established(env, old(emitter.inner.sent), LastMade(invs), emitter.inner, emitter.inner.sent, r.Err?)
              else r.Err? && emitter.inner.sent == old(emitter.inner.sent) && NoStream(env, LastMade(invs))
      ensures emitter.errorEmitted <==>
                old(emitter.errorEmitted) || (relayed && LastIsError(emitter.inner.sent))
      ensures r.Err? ==> StreamFailure(r.error, agent.id, EndedExpired(env, invs[0].made), relayed, env.live(clock))
      ensures !relayed && env.live(clock) ==> Exhaustive(GraphOf(disp.agents), agent.id, tried)
      ensures env.live(clock) ==> AllToTheLast(env, disp.adapters, invs)
    {
      visited := {};
      var t := new TrackingEmitter(emitter);
      r, tried, invs := DispatchStreamWithFallback(agent, t);
      relayed := t.hasEmitted;
      SearchFromOne(disp.agents, agent, tried);
    }

    /** Streaming dispatch. `relayed` says whether anything was sent: then everything sent is the
        translation of the last contact made, the only one that answered with a stream.
        Otherwise, if the context is live, every configured agent that the resolved one reaches
        was invoked. */
    method DispatchStream(task: Option<TaskRequest>, emitter: ErrorTrackingEmitter)
      returns (r: Result<(), StreamError>, ghost start: Option<Agent>, ghost relayed: bool,
               ghost tried: seq<string>, ghost invs: seq<Invoked>)
      requires Valid()
      modifies this`clock, this`visited, this`cycleHits, emitter, emitter.inner
      ensures cycleHits == old(cycleHits)
      ensures start.None? <==> r.Err? && r.error.Unserved? && r.error.error.Unresolved()
      ensures start.None? ==> tried == [] && !relayed && r == Err(Unserved(ResolutionError(task)))
      ensures start.Some? ==> ResolvesTo(disp.agents, task, start.value)
                              && tried <= Preorder(GraphOf(disp.agents), [start.value.id], {}).0
      ensures Invocations(this, tried, invs) && (invs != [] ==> Quiet(this, invs[..|invs| - 1]))
      ensures TriedOnce(tried)
      ensures if relayed
              then Established(env, old(emitter.inner.sent), LastMade(invs), emitter.inner, emitter.inner.sent, r.Err?)
              else r.Err? && emitter.inner.sent == old(emitter.inner.sent) && NoStream(env, LastMade(invs))
      ensures emitter.errorEmitted <==>
                old(emitter.errorEmitted) || (relayed && LastIsError(emitter.inner.sent))
      ensures start.Some? && !relayed && env.live(clock) ==>
                && tried != []
                && r.error == Unserved(if EndedExpired(env, invs[0].made) then DownstreamTimeout(start.value.id)
                                       else DownstreamUnavailable(start.value.id))
                && Exhaustive(GraphOf(disp.agents), start.value.id, tried)
      ensures env.live(clock) ==> AllToTheLast(env, disp.adapters, invs)
    {
      start, relayed, tried, invs := None, false, [], [];
      var resolved := disp.ResolveAgent(task);
      if resolved.Err? {
        return Err(Unserved(resolved.error)), None, false, [], [];
      }
      start := Some(resolved.value);
      r, relayed, tried, invs := StreamFrom(resolved.value, emitter);
    }
  }

  // ---- The handler

  /** A terminal event that reached the client is the last thing handed to the connection. If
      every event reached the client there is exactly one, and it tells how the dispatch ended. */
  ghost predicate Closed(accepts: nat -> bool, sent: seq<Event>, failed: bool) {
    && (forall i | 0 <= i < |sent| && sent[i].Terminal() && accepts(i) :: i == |sent| - 1)
    && ((forall i | 0 <= i < |sent| :: accepts(i)) ==>
          && sent != [] && sent[|sent| - 1].Terminal() && (sent[|sent| - 1].TaskCompleted? <==> !failed)
          && forall i | 0 <= i < |sent| - 1 :: !sent[i].Terminal())
  }

  predicate NoEarlyEnd(sent: seq<Event>) {
    forall i | 0 <= i < |sent| - 1 :: !sent[i].Terminal()
  }

  lemma RelayedEndsOnce(a: Adapter, agentId: string, r: StreamResponse, accepts: nat -> bool, sent: seq<Event>, failed: bool)
    requires WellBehaved(a) && Relayed(Script(a, agentId, r), accepts, 0, sent, failed)
    ensures NoEarlyEnd(sent)
  {
    forall i | 0 <= i < |sent| - 1 ensures !sent[i].Terminal() {
      ScriptEndsOnce(a, agentId, r, i);
      assert sent[i] == Script(a, agentId, r)[i];
    }
  }

  /** What the handler adds closes the stream. */
  lemma HandlerCloses(a: Adapter, agentId: string, r: StreamResponse, accepts: nat -> bool, sent: seq<Event>, failed: bool,
                      e: Event)
    requires WellBehaved(a) && Relayed(Script(a, agentId, r), accepts, 0, sent, failed) && e.TaskError?
    ensures Closed(accepts, if failed && !LastIsError(sent) then sent + [e] else sent, failed)
  {
    RelayedEndsOnce(a, agentId, r, accepts, sent, failed);
  }

  /** Events that come from one stream response of one configured agent, or none at all. */
  ghost predicate OneSource(d: StreamDispatcher, source: Option<Contact>, events: seq<Event>) {
    match source
    case None => events == []
    case Some(c) =>
      var attempt := d.env.attempt(c.at, c.agent);
      && attempt.Streaming? && events <= ScriptOf(d.env, c, attempt.response)
      && exists agent :: agent in d.disp.agents && agent.id == c.agent && agent.adapterType == c.adapterType
  }

  /** How the handler leaves the connection, given what the dispatch left. */
  lemma StreamIsServed(d: StreamDispatcher, tried: seq<string>, invs: seq<Invoked>, sink: SseWriter, sent: seq<Event>,
                       relayed: bool, failed: bool, noted: bool, e: Event)
    returns (source: Option<Contact>)
    requires SoundStream(d.env) && Invocations(d, tried, invs) && e.TaskError?
    requires if relayed then Established(d.env, [], LastMade(invs), sink, sent, failed) else failed && sent == []
    requires noted <==> relayed && LastIsError(sent)
    ensures OneSource(d, source, sent)
    ensures Closed(sink.accepts, if failed && !noted then sent + [e] else sent, failed)
  {
    if relayed {
      var c := LastMade(invs)[|LastMade(invs)| - 1];
      source := Some(c);
      var agent := invs[|invs| - 1].agent;
      assert ContactedAs(d, tried[|invs| - 1], invs[|invs| - 1]);
      assert agent in d.disp.agents && agent.id == c.agent && agent.adapterType == c.adapterType;
      var response := d.env.attempt(c.at, c.agent).response;
      assert [] + ScriptOf(d.env, c, response) == ScriptOf(d.env, c, response);
      HandlerCloses(d.env.adapter(c.adapterType), c.agent, response, sink.accepts, sent, failed, e);
    } else {
      source := None;
      assert sent + [e] == [e];
    }
  }

  /** The streaming handlers, from the moment the response headers are out. `relayed` is what
      the dispatch sent. */
  method ServeStream(d: StreamDispatcher, task: Option<TaskRequest>, sink: SseWriter, text: StreamError -> string)
    returns (r: Result<(), StreamError>, ghost source: Option<Contact>, ghost relayed: seq<Event>)
    requires d.Valid() && sink.sent == []
    modifies d, sink
    ensures OneSource(d, source, relayed)
    ensures sink.sent == relayed || (r.Err? && sink.sent == relayed + [TaskError(text(r.error), None)])
    ensures Closed(sink.accepts, sink.sent, r.Err?)
  {
    var emitter := new ErrorTrackingEmitter(sink);
    ghost var start, started, tried, invs;
    r, start, started, tried, invs := d.DispatchStream(task, emitter);
    relayed := sink.sent;
    source := StreamIsServed(d, tried, invs, sink, relayed, started, r.Err?, emitter.errorEmitted,
                             TaskError(if r.Err? then text(r.error) else "", None));
    if r.Err? && !emitter.errorEmitted {
      var _ := emitter.Emit(TaskError(text(r.error), None));
    }
  }
}
