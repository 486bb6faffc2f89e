/** Agents, the graph of their fallbacks, and the order in which a depth-first search meets
    them. Nothing here knows about requests, retries or contexts. */
module FallbackGraph {
  import opened Wrappers

  datatype Agent = Agent(
    id: string,
    adapterType: string,
    capabilities: seq<string>,
    retries: int,
    fallbacks: seq<string>)

  /** The retries of the copy of an agent that DispatchSingleAttempt invokes. */
  const SINGLE_ATTEMPT_RETRIES: nat := 0

  /** Agent id to fallback ids, in configuration order. */
  type Graph = map<string, seq<string>>

  predicate UniqueIds(agents: seq<Agent>) {
    forall i, j | 0 <= i < j < |agents| :: agents[i].id != agents[j].id
  }

  function GraphOf(agents: seq<Agent>): Graph {
    if agents == [] then map[]
    else
      var last := agents[|agents| - 1];
      GraphOf(agents[..|agents| - 1])[last.id := last.fallbacks]
  }

  lemma {:induction false} GraphHasAgent(agents: seq<Agent>, i: nat)
    requires i < |agents|
    ensures agents[i].id in GraphOf(agents)
    ensures UniqueIds(agents) ==> GraphOf(agents)[agents[i].id] == agents[i].fallbacks
  {
    if i < |agents| - 1 {
      GraphHasAgent(agents[..|agents| - 1], i);
    }
  }

  lemma {:induction false} AgentOf(agents: seq<Agent>, k: string) returns (i: nat)
    requires k in GraphOf(agents)
    ensures i < |agents| && agents[i].id == k && agents[i].fallbacks == GraphOf(agents)[k]
  {
    var n := |agents| - 1;
    if agents[n].id == k {
      i := n;
    } else {
      i := AgentOf(agents[..n], k);
    }
  }

  // ---- Paths

  predicate Edge(g: Graph, a: string, b: string) {
    a in g && b in g[a]
  }

  /** A walk along fallback references. */
  predicate IsPath(g: Graph, p: seq<string>) {
    p != [] && forall i | 0 <= i < |p| - 1 :: Edge(g, p[i], p[i + 1])
  }

  ghost predicate Acyclic(g: Graph) {
    forall p | IsPath(g, p) && |p| >= 2 :: p[0] != p[|p| - 1]
  }

  /** Some walk over configured agents leads from a to b. */
  ghost predicate Reachable(g: Graph, a: string, b: string) {
    exists p :: Leads(g, p, a, b)
  }

  predicate Leads(g: Graph, p: seq<string>, a: string, b: string) {
    IsPath(g, p) && p[0] == a && p[|p| - 1] == b && forall x | x in p :: x in g
  }

  // ---- Depth-first preorder

  /** The agents met by a depth-first search that starts from the ids in turn and skips what
      is visited or not configured, together with everything visited in the end. */
  function Preorder(g: Graph, ids: seq<string>, visited: set<string>): (r: (seq<string>, set<string>))
    ensures visited <= r.1
    decreases |g.Keys - visited|, |ids|
  {
    if ids == [] then ([], visited)
    else
      var (met, seen) := Preorder(g, ids[..|ids| - 1], visited);
      var x := ids[|ids| - 1];
      if x in seen || x !in g then (met, seen)
      else
        Shrinks(g, visited, seen, x);
        var (below, seen') := Preorder(g, g[x], seen + {x});
        (met + [x] + below, seen')
  }

  lemma Shrinks(g: Graph, visited: set<string>, seen: set<string>, x: string)
    requires visited <= seen && x in g && x !in seen
    ensures |g.Keys - (seen + {x})| < |g.Keys - visited|
  {
    var a, b := g.Keys - (seen + {x}), g.Keys - visited;
    assert a <= b - {x};
    SizeOfSubset(a, b - {x});
  }

  /** What is visited in the end is what was visited before plus what was met: configured
      agents that were not visited. */
  lemma {:induction false} PreorderVisits(g: Graph, ids: seq<string>, visited: set<string>, y: string)
    ensures var (met, seen) := Preorder(g, ids, visited);
            && (y in met ==> y in g && y !in visited)
            && (y in seen <==> y in visited || y in met)
    decreases |g.Keys - visited|, |ids|
  {
    if ids != [] {
      var front, x := ids[..|ids| - 1], ids[|ids| - 1];
      PreorderVisits(g, front, visited, y);
      var (met, seen) := Preorder(g, front, visited);
      if x !in seen && x in g {
        Shrinks(g, visited, seen, x);
        PreorderVisits(g, g[x], seen + {x}, y);
      }
    }
  }

  /** Nobody is met twice. */
  lemma {:induction false} PreorderMeetsOnce(g: Graph, ids: seq<string>, visited: set<string>, i: nat, j: nat)
    requires i < j < |Preorder(g, ids, visited).0|
    ensures Preorder(g, ids, visited).0[i] != Preorder(g, ids, visited).0[j]
    decreases |g.Keys - visited|, |ids|
  {
    var front, x := ids[..|ids| - 1], ids[|ids| - 1];
    var (met, seen) := Preorder(g, front, visited);
    var n := |met|;
    if j < n {
      PreorderMeetsOnce(g, front, visited, i, j);
    } else {
      Shrinks(g, visited, seen, x);
      var below := Preorder(g, g[x], seen + {x}).0;
      if i > n {
        PreorderMeetsOnce(g, g[x], seen + {x}, i - n - 1, j - n - 1);
      } else {
        var y := if i < n then met[i] else x;
        PreorderVisits(g, front, visited, y);
        if j > n {
          PreorderVisits(g, g[x], seen + {x}, below[j - n - 1]);
        }
      }
    }
  }

  /** The search leaves no configured successor behind. */
  lemma {:induction false} PreorderIsClosed(g: Graph, ids: seq<string>, visited: set<string>)
    ensures var (met, seen) := Preorder(g, ids, visited);
            && (forall x | x in ids && x in g :: x in seen)
            && (forall x, y | x in met && Edge(g, x, y) && y in g :: y in seen)
    decreases |g.Keys - visited|, |ids|
  {
    if ids != [] {
      var x := ids[|ids| - 1];
      var front := ids[..|ids| - 1];
      PreorderIsClosed(g, front, visited);
      var (met, seen) := Preorder(g, front, visited);
      assert forall y | y in ids :: y in front || y == x;
      if x !in seen && x in g {
        Shrinks(g, visited, seen, x);
        PreorderIsClosed(g, g[x], seen + {x});
      }
    }
  }

  /** Everyone met can be reached from one of the starting ids. */
  lemma {:induction false} PreorderIsReachable(g: Graph, ids: seq<string>, visited: set<string>, y: string) returns (p: seq<string>)
    requires y in Preorder(g, ids, visited).0
    ensures IsPath(g, p) && p[0] in ids && p[|p| - 1] == y && forall x | x in p :: x in g
    decreases |g.Keys - visited|, |ids|
  {
    var x := ids[|ids| - 1];
    var (met, seen) := Preorder(g, ids[..|ids| - 1], visited);
    if y in met {
      p := PreorderIsReachable(g, ids[..|ids| - 1], visited, y);
    } else if y == x {
      p := [x];
    } else {
      Shrinks(g, visited, seen, x);
      p := PreorderIsReachable(g, g[x], seen + {x}, y);
      p := [x] + p;
    }
  }

  lemma {:induction false} PathStaysInside(g: Graph, inside: set<string>, p: seq<string>)
    requires IsPath(g, p) && p[0] in inside && forall x | x in p :: x in g
    requires forall x, y | x in inside && Edge(g, x, y) && y in g :: y in inside
    ensures p[|p| - 1] in inside
    decreases |p|
  {
    if |p| > 1 {
      assert Edge(g, p[0], p[1]);
      PathStaysInside(g, inside, p[1..]);
    }
  }

  /** A search from one configured agent meets exactly the configured agents reachable from it. */
  lemma PreorderIsExact(g: Graph, start: string, y: string)
    requires start in g
    ensures y in Preorder(g, [start], {}).0 <==> Reachable(g, start, y)
  {
    var (met, seen) := Preorder(g, [start], {});
    PreorderIsClosed(g, [start], {});
    forall x ensures x in seen <==> x in met {
      PreorderVisits(g, [start], {}, x);
    }
    if y in met {
      var p := PreorderIsReachable(g, [start], {}, y);
      assert Leads(g, p, start, y);
    }
    if Reachable(g, start, y) {
      var p :| Leads(g, p, start, y);
      PathStaysInside(g, seen, p);
    }
  }

  /** Searching more starting ids only appends to what was met. */
  lemma {:induction false} PreorderGrows(g: Graph, ids: seq<string>, visited: set<string>, i: nat)
    requires i <= |ids|
    ensures Preorder(g, ids[..i], visited).0 <= Preorder(g, ids, visited).0
    decreases |ids|
  {
    if i < |ids| {
      var front := ids[..|ids| - 1];
      PreorderGrows(g, front, visited, i);
      assert front[..i] == ids[..i];
    } else {
      assert ids[..i] == ids;
    }
  }

  /** The same search with an explicit stack of ids still to look at. */
  function StackSearch(g: Graph, stack: seq<string>, visited: set<string>): seq<string>
    decreases |g.Keys - visited|, |stack|
  {
    if stack == [] then []
    else if stack[0] in visited || stack[0] !in g then StackSearch(g, stack[1..], visited)
    else
      Shrinks(g, visited, visited, stack[0]);
      [stack[0]] + StackSearch(g, g[stack[0]] + stack[1..], visited + {stack[0]})
  }

  lemma Reassociate(a: seq<string>, b: seq<string>, c: seq<string>, d: seq<string>)
    ensures a + (b + (c + d)) == a + b + c + d
  {
  }

  lemma {:induction false} StackSearchSplits(g: Graph, ids: seq<string>, rest: seq<string>, visited: set<string>)
    ensures StackSearch(g, ids + rest, visited)
            == Preorder(g, ids, visited).0 + StackSearch(g, rest, Preorder(g, ids, visited).1)
    decreases |g.Keys - visited|, |ids|
  {
    if ids == [] {
      assert ids + rest == rest;
    } else {
      var front, x := ids[..|ids| - 1], ids[|ids| - 1];
      var (met, seen) := Preorder(g, front, visited);
      assert ids + rest == front + ([x] + rest);
      StackSearchSplits(g, front, [x] + rest, visited);
      assert ([x] + rest)[1..] == rest;
      if x !in seen && x in g {
        Shrinks(g, visited, seen, x);
        StackSearchSplits(g, g[x], rest, seen + {x});
        var (below, after) := Preorder(g, g[x], seen + {x});
        Reassociate(met, [x], below, StackSearch(g, rest, after));
      }
    }
  }

  /** The recursive preorder is the order of a plain stack-based depth-first search. */
  lemma PreorderIsStackSearch(g: Graph, ids: seq<string>)
    ensures Preorder(g, ids, {}).0 == StackSearch(g, ids, {})
  {
    StackSearchSplits(g, ids, [], {});
    assert ids + [] == ids;
  }
}
