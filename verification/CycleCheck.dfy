/** The fallback part of config.Validate (pkg/config/validator.go): references first, then a
    three-colour depth-first search for cycles. */
module CycleCheck {
  import opened Wrappers
  import opened FallbackGraph

  datatype ConfigError =
    | EmptyId
    | DuplicateId(id: string)
    | UnknownFallback(id: string, fallback: string)
    | SelfFallback(id: string)
    | CyclicFallback(path: seq<string>, neighbor: string)

  /** The reported path walks along fallbacks, and its last agent falls back to an agent that
      is already on it: from there to the end, and back, is a cycle. */
  ghost predicate RealCycle(g: Graph, path: seq<string>, neighbor: string) {
    IsPath(g, path) && Edge(g, path[|path| - 1], neighbor) && neighbor in path
  }

  lemma RealCycleIsCycle(g: Graph, path: seq<string>, neighbor: string) returns (cycle: seq<string>)
    requires RealCycle(g, path, neighbor)
    ensures IsPath(g, cycle) && |cycle| >= 2 && cycle[0] == cycle[|cycle| - 1] == neighbor
    ensures !Acyclic(g)
  {
    var i :| 0 <= i < |path| && path[i] == neighbor;
    cycle := path[i..] + [neighbor];
    forall j | 0 <= j < |cycle| - 1 ensures Edge(g, cycle[j], cycle[j + 1]) {
      if i + j + 1 < |path| {
        assert Edge(g, path[i + j], path[i + j + 1]);
      }
    }
  }

  /** Every agent's fallbacks come earlier in the order. */
  ghost predicate Sorted(g: Graph, order: seq<string>) {
    forall i, y | 0 <= i < |order| && Edge(g, order[i], y) :: y in order[..i]
  }

  lemma TailIsPath(g: Graph, p: seq<string>)
    requires IsPath(g, p) && |p| >= 2
    ensures IsPath(g, p[1..])
  {
    var tail := p[1..];
    forall m | 0 <= m < |tail| - 1 ensures Edge(g, tail[m], tail[m + 1]) {
      assert Edge(g, p[m + 1], p[m + 1 + 1]);
    }
  }

  lemma SortedAppend(g: Graph, order: seq<string>, n: string)
    requires Sorted(g, order) && forall y | Edge(g, n, y) :: y in order
    ensures Sorted(g, order + [n])
  {
    var next := order + [n];
    forall i, y | 0 <= i < |next| && Edge(g, next[i], y) ensures y in next[..i] {
      assert next[..i] == order[..i];
    }
  }

  lemma {:induction false} SortedPathFalls(g: Graph, order: seq<string>, p: seq<string>, i: nat)
    requires Sorted(g, order) && Distinct(order)
    requires IsPath(g, p) && |p| >= 2 && i < |order| && order[i] == p[0]
    ensures p[|p| - 1] in order[..i]
    decreases |p|
  {
    assert Edge(g, p[0], p[1]);
    var j :| 0 <= j < i && order[j] == p[1];
    if |p| > 2 {
      TailIsPath(g, p);
      SortedPathFalls(g, order, p[1..], j);
    }
  }

  /** A graph whose agents can all be put in such an order has no cycle. */
  lemma SortedMeansAcyclic(g: Graph, order: seq<string>)
    requires Sorted(g, order) && Distinct(order)
    requires forall k | k in g :: k in order
    ensures Acyclic(g)
  {
    forall p | IsPath(g, p) && |p| >= 2 ensures p[0] != p[|p| - 1] {
      assert Edge(g, p[0], p[1]);
      var i :| 0 <= i < |order| && order[i] == p[0];
      SortedPathFalls(g, order, p, i);
    }
  }

  ghost predicate Closed(g: Graph) {
    forall a, b | Edge(g, a, b) :: b in g
  }

  lemma PathGrows(g: Graph, p: seq<string>, y: string)
    requires IsPath(g, p) && Edge(g, p[|p| - 1], y)
    ensures IsPath(g, p + [y])
  {
    var q := p + [y];
    forall m | 0 <= m < |q| - 1 ensures Edge(g, q[m], q[m + 1]) {
      if m < |p| - 1 {
        assert Edge(g, p[m], p[m + 1]);
      }
    }
  }

  // ---- Colours

  /** 1: visiting, 2: visited, absent: unvisited */
  type Colours = map<string, int>

  function ColourIn(c: Colours, n: string): int {
    if n in c then c[n] else 0
  }

  function Unvisited(g: Graph, c: Colours): set<string> {
    set n | n in g && ColourIn(c, n) == 0
  }

  /** Visited agents are exactly those in the order, each after its fallbacks. */
  ghost predicate ColoursOk(g: Graph, c: Colours, order: seq<string>) {
    && (forall n | n in c :: n in g && 1 <= c[n] <= 2)
    && (forall n :: ColourIn(c, n) == 2 <==> n in order)
    && Distinct(order) && Sorted(g, order)
  }

  predicate Distinct(order: seq<string>) {
    forall i, j | 0 <= i < j < |order| :: order[i] != order[j]
  }

  /** Exactly the agents on the path are being visited. */
  ghost predicate Visiting(c: Colours, path: seq<string>) {
    forall n :: ColourIn(c, n) == 1 <==> n in path
  }

  /** Visited agents stay visited. */
  ghost predicate KeepsVisited(c: Colours, c': Colours) {
    forall n | ColourIn(c, n) == 2 :: ColourIn(c', n) == 2
  }

  lemma Enter(g: Graph, c: Colours, order: seq<string>, path: seq<string>, node: string)
    requires ColoursOk(g, c, order) && Visiting(c, path) && node in g && ColourIn(c, node) == 0
    ensures ColoursOk(g, c[node := 1], order) && Visiting(c[node := 1], path + [node])
    ensures Unvisited(g, c[node := 1]) < Unvisited(g, c) && KeepsVisited(c, c[node := 1])
    ensures node !in path
  {
    assert node in Unvisited(g, c) && node !in Unvisited(g, c[node := 1]);
  }

  lemma Leave(g: Graph, c: Colours, order: seq<string>, path: seq<string>, node: string)
    requires ColoursOk(g, c, order) && Visiting(c, path + [node]) && node !in path
    requires forall y | Edge(g, node, y) :: ColourIn(c, y) == 2
    ensures ColoursOk(g, c[node := 2], order + [node]) && Visiting(c[node := 2], path)
    ensures Unvisited(g, c[node := 2]) == Unvisited(g, c) && KeepsVisited(c, c[node := 2])
  {
    assert node in path + [node] && ColourIn(c, node) == 1;
    SortedAppend(g, order, node);
    assert forall n | n in path :: n in path + [node];
  }

  class CycleChecker {
    const adj: Graph
    var visitState: Colours
    ghost var order: seq<string>        // the visited agents, in the order they were left

    ghost predicate Valid()
      reads this
    {
      ColoursOk(adj, visitState, order)
    }

    constructor (adj: Graph)
      ensures Valid() && this.adj == adj && order == [] && visitState == map[]
    {
      this.adj := adj;
      visitState, order := map[], [];
    }

    /** Visits node, below the agents on path, which are exactly the ones being visited. */
    method CheckCycle(node: string, path: seq<string>) returns (err: Option<ConfigError>)
      requires Valid() && Closed(adj) && node in adj && ColourIn(visitState, node) == 0
      requires IsPath(adj, path + [node]) && Visiting(visitState, path)
      modifies this
      ensures err.None? ==> Valid() && ColourIn(visitState, node) == 2 && Visiting(visitState, path)
      ensures err.None? ==> KeepsVisited(old(visitState), visitState)
      ensures err.None? ==> Unvisited(adj, visitState) < Unvisited(adj, old(visitState))
      ensures err.Some? ==> err.value.CyclicFallback? && RealCycle(adj, err.value.path, err.value.neighbor)
      decreases Unvisited(adj, visitState)
    {
      Enter(adj, visitState, order, path, node);
      visitState := visitState[node := 1];
      var here := path + [node];
      for i := 0 to |adj[node]|
        invariant Valid() && Visiting(visitState, here) && KeepsVisited(old(visitState), visitState)
        invariant Unvisited(adj, visitState) < Unvisited(adj, old(visitState))
        invariant forall m | 0 <= m < i :: ColourIn(visitState, adj[node][m]) == 2
      {
        var neighbor := adj[node][i];
        assert Edge(adj, node, neighbor);
        if ColourIn(visitState, neighbor) == 1 {
          return Some(CyclicFallback(here, neighbor));
        }
        if ColourIn(visitState, neighbor) == 0 {
          PathGrows(adj, here, neighbor);
          var e := CheckCycle(neighbor, here);
          if e.Some? {
            return e;
          }
        }
      }
      Leave(adj, visitState, order, path, node);
      visitState := visitState[node := 2];
      order := order + [node];
      return None;
    }
  }

  predicate NonEmptyIds(agents: seq<Agent>) {
    forall i | 0 <= i < |agents| :: agents[i].id != ""
  }

  predicate ReferencesExist(agents: seq<Agent>) {
    forall i, fb | 0 <= i < |agents| && fb in agents[i].fallbacks :: exists j | 0 <= j < |agents| :: agents[j].id == fb
  }

  predicate NoSelfFallbacks(agents: seq<Agent>) {
    forall i | 0 <= i < |agents| :: agents[i].id !in agents[i].fallbacks
  }

  /** The configuration has the fault that the error names. */
  ghost predicate Justified(agents: seq<Agent>, err: ConfigError) {
    match err
    case EmptyId => exists i | 0 <= i < |agents| :: agents[i].id == ""
    case DuplicateId(id) => exists i, j | 0 <= i < j < |agents| :: agents[i].id == id && agents[j].id == id
    case UnknownFallback(id, fallback) =>
      && (exists i | 0 <= i < |agents| :: agents[i].id == id && fallback in agents[i].fallbacks)
      && forall j | 0 <= j < |agents| :: agents[j].id != fallback
    case SelfFallback(id) => exists i | 0 <= i < |agents| :: agents[i].id == id && id in agents[i].fallbacks
    case CyclicFallback(path, neighbor) => RealCycle(GraphOf(agents), path, neighbor)
  }

  /** The first loop of Validate: ids are present and unique. */
  method CheckIds(agents: seq<Agent>) returns (err: Option<ConfigError>, ids: set<string>)
    ensures err.None? <==> NonEmptyIds(agents) && UniqueIds(agents)
    ensures err.Some? ==> (err.value.EmptyId? || err.value.DuplicateId?) && Justified(agents, err.value)
    ensures err.None? ==> forall k :: k in ids <==> exists j | 0 <= j < |agents| :: agents[j].id == k
  {
    ids := {};
    for i := 0 to |agents|
      invariant NonEmptyIds(agents[..i]) && UniqueIds(agents[..i])
      invariant forall k :: k in ids <==> exists j | 0 <= j < i :: agents[j].id == k
    {
      if agents[i].id == "" {
        return Some(EmptyId), ids;
      }
      if agents[i].id in ids {
        return Some(DuplicateId(agents[i].id)), ids;
      }
      ids := ids + {agents[i].id};
      assert agents[..i + 1] == agents[..i] + [agents[i]];
    }
    assert agents[..|agents|] == agents;
    err := None;
  }

  predicate GoodFallbacks(a: Agent, ids: set<string>) {
    forall fb | fb in a.fallbacks :: fb in ids && fb != a.id
  }

  method CheckAgent(a: Agent, ids: set<string>) returns (err: Option<ConfigError>)
    ensures err.None? <==> GoodFallbacks(a, ids)
    ensures err.Some? ==>
              (exists fb :: fb in a.fallbacks && fb !in ids && err.value == UnknownFallback(a.id, fb))
              || (a.id in a.fallbacks && err.value == SelfFallback(a.id))
  {
    for m := 0 to |a.fallbacks|
      invariant forall k | 0 <= k < m :: a.fallbacks[k] in ids && a.fallbacks[k] != a.id
    {
      var fb := a.fallbacks[m];
      if fb !in ids {
        return Some(UnknownFallback(a.id, fb));
      }
      if fb == a.id {
        return Some(SelfFallback(a.id));
      }
    }
    err := None;
  }

  lemma GoodMeansExisting(agents: seq<Agent>, ids: set<string>)
    requires forall k :: k in ids <==> exists j | 0 <= j < |agents| :: agents[j].id == k
    ensures (forall j | 0 <= j < |agents| :: GoodFallbacks(agents[j], ids))
            <==> ReferencesExist(agents) && NoSelfFallbacks(agents)
  {
  }

  /** The second loop: every fallback exists and is another agent. */
  method CheckReferences(agents: seq<Agent>, ids: set<string>) returns (err: Option<ConfigError>, adj: Graph)
    requires forall k :: k in ids <==> exists j | 0 <= j < |agents| :: agents[j].id == k
    ensures err.None? <==> ReferencesExist(agents) && NoSelfFallbacks(agents)
    ensures err.Some? ==> (err.value.UnknownFallback? || err.value.SelfFallback?) && Justified(agents, err.value)
    ensures err.None? ==> adj == GraphOf(agents)
  {
    GoodMeansExisting(agents, ids);
    adj := map[];
    for i := 0 to |agents|
      invariant forall j | 0 <= j < i :: GoodFallbacks(agents[j], ids)
      invariant adj == GraphOf(agents[..i])
    {
      err := CheckAgent(agents[i], ids);
      if err.Some? {
        return;
      }
      assert agents[..i + 1][..i] == agents[..i];
      adj := adj[agents[i].id := agents[i].fallbacks];
    }
    assert agents[..|agents|] == agents;
    err := None;
  }

  lemma GraphIsClosed(agents: seq<Agent>)
    requires ReferencesExist(agents)
    ensures Closed(GraphOf(agents))
  {
    var g := GraphOf(agents);
    forall a, b | Edge(g, a, b) ensures b in g {
      var i := AgentOf(agents, a);
      assert b in agents[i].fallbacks;
      var j :| 0 <= j < |agents| && agents[j].id == b;
      GraphHasAgent(agents, j);
    }
  }

  /** The third loop: search from every agent that is still unvisited. */
  method FindCycle(agents: seq<Agent>, adj: Graph) returns (err: Option<ConfigError>)
    requires adj == GraphOf(agents) && Closed(adj)
    ensures err.None? <==> Acyclic(adj)
    ensures err.Some? ==> err.value.CyclicFallback? && RealCycle(adj, err.value.path, err.value.neighbor)
  {
    var checker := new CycleChecker(adj);
    for i := 0 to |agents|
      invariant checker.Valid() && checker.adj == adj
      invariant Visiting(checker.visitState, [])
      invariant forall j | 0 <= j < i :: ColourIn(checker.visitState, agents[j].id) == 2
    {
      if ColourIn(checker.visitState, agents[i].id) == 0 {
        assert [] + [agents[i].id] == [agents[i].id];
        GraphHasAgent(agents, i);
        err := checker.CheckCycle(agents[i].id, []);
        if err.Some? {
          var cycle := RealCycleIsCycle(adj, err.value.path, err.value.neighbor);
          return;
        }
      } else {
        assert ColourIn(checker.visitState, agents[i].id) != 1;
      }
    }
    forall k | k in adj ensures k in checker.order {
      var j := AgentOf(agents, k);
    }
    SortedMeansAcyclic(adj, checker.order);
    err := None;
  }

  /** VALIDATOR. The checks accept exactly the acyclic configurations, and a reported path
      shows a real cycle. */
  method Validate(agents: seq<Agent>) returns (err: Option<ConfigError>)
    ensures err.None? <==>
              NonEmptyIds(agents) && UniqueIds(agents) && ReferencesExist(agents) && NoSelfFallbacks(agents)
              && Acyclic(GraphOf(agents))
    ensures err.Some? && err.value.CyclicFallback? <==>
              NonEmptyIds(agents) && UniqueIds(agents) && ReferencesExist(agents) && NoSelfFallbacks(agents)
              && !Acyclic(GraphOf(agents))
    ensures err.Some? ==> Justified(agents, err.value)
    ensures err.None? ==>
              && (forall i | 0 <= i < |agents| :: agents[i].id != "")
              && (forall i, j | 0 <= i < j < |agents| :: agents[i].id != agents[j].id)
              && forall i, fb | 0 <= i < |agents| && fb in agents[i].fallbacks ::
                   fb != agents[i].id && exists j | 0 <= j < |agents| :: agents[j].id == fb
  {
    var ids, adj;
    err, ids := CheckIds(agents);
    if err.Some? {
      return err;
    }
    err, adj := CheckReferences(agents, ids);
    if err.Some? {
      return err;
    }
    GraphIsClosed(agents);
    err := FindCycle(agents, adj);
  }
}
