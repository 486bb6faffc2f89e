/** MemoryTaskStore (pkg/storage/memory.go): a map from key to list element beside the linked
    list of entries, proved to behave as the ordered sequence of TaskOrder. */
module TaskStore {
  import opened Wrappers
  import opened LinkedList
  import opened TaskOrder

  datatype TaskError = NilTaskResponse | EmptyTaskId | ContextCanceled | CapacityExceeded | TaskNotFound

  const DEFAULT_MAX_TASKS := 10000

  const NO_ENTRY := Entry("", Response("", ""))

  /** The map leads from every id to the node of its entry, and nowhere else. */
  ghost predicate Indexed(tasks: map<string, Element<Entry>>, nodes: seq<Element<Entry>>, values: seq<Entry>) {
    && |tasks| == |nodes| == |values|
    && forall i | 0 <= i < |values| :: values[i].id in tasks && tasks[values[i].id] == nodes[i]
  }

  ghost function IdSet(s: seq<Entry>): set<string> {
    set i | 0 <= i < |s| :: s[i].id
  }

  lemma {:induction false} IdSetSize(s: seq<Entry>)
    requires DistinctIds(s)
    ensures |IdSet(s)| == |s|
  {
    if s != [] {
      var front := s[..|s| - 1];
      IdSetSize(front);
      assert IdSet(s) == IdSet(front) + {s[|s| - 1].id};
    }
  }

  lemma SubsetOfSameSize(a: set<string>, b: set<string>)
    requires a <= b && |a| == |b|
    ensures a == b
  {
    assert |b - a| == |b| - |a|;
  }

  /** There are as many nodes as keys, all with different ids, so every key has its node. */
  lemma IndexedKeys(tasks: map<string, Element<Entry>>, nodes: seq<Element<Entry>>, values: seq<Entry>)
    requires Indexed(tasks, nodes, values)
    requires forall i, j | 0 <= i < j < |nodes| :: nodes[i] != nodes[j]
    ensures DistinctIds(values)
    ensures forall k :: k in tasks <==> HasId(values, k)
  {
    IdSetSize(values);
    SubsetOfSameSize(IdSet(values), tasks.Keys);
    forall k ensures k in tasks <==> HasId(values, k) {
      assert k in IdSet(values) <==> HasId(values, k);
    }
  }

  /** Moving a node to the back, with a new value for the same id, keeps the map right. */
  lemma IndexedAfterMove(tasks: map<string, Element<Entry>>, nodes: seq<Element<Entry>>, values: seq<Entry>, i: nat, e: Entry)
    requires Indexed(tasks, nodes, values) && i < |nodes| && e.id == values[i].id
    ensures Indexed(tasks, nodes[..i] + nodes[i + 1..] + [nodes[i]], values[..i] + values[i + 1..] + [e])
  {
  }

  /** Dropping the first node and its id keeps the map right. */
  lemma FirstIsDropped(tasks: map<string, Element<Entry>>, nodes: seq<Element<Entry>>, values: seq<Entry>)
    requires Indexed(tasks, nodes, values) && values != []
    requires forall i, j | 0 <= i < j < |nodes| :: nodes[i] != nodes[j]
    ensures Indexed(tasks - {values[0].id}, nodes[1..], values[1..])
    ensures |tasks - {values[0].id}| == |tasks| - 1
  {
    var id := values[0].id;
    assert (tasks - {id}).Keys == tasks.Keys - {id};
    forall i | 0 <= i < |values| - 1
      ensures values[1..][i].id in tasks - {id} && (tasks - {id})[values[1..][i].id] == nodes[1..][i]
    {
      assert nodes[i + 1] != nodes[0];
    }
  }

  lemma DropFirst<T>(s: seq<T>)
    requires s != []
    ensures s[..0] + s[1..] == s[1..]
  {
  }

  lemma DropOneMore<T>(s: seq<T>, n: nat)
    requires n <= |s|
    ensures n < |s| ==> s[n..][1..] == s[n + 1..]
  {
  }

  predicate AllNew(keys: seq<string>, had: set<string>) {
    forall i | 0 <= i < |keys| :: keys[i] !in had
  }

  class MemoryTaskStore {
    const maxTasks: nat
    var tasks: map<string, Element<Entry>>
    const ll: List<Entry>

    /** The map and the list agree. */
    ghost predicate Valid()
      reads this, ll, ll.Repr
    {
      && ll.Valid() && this !in ll.Repr
      && 1 <= maxTasks && |tasks| <= maxTasks
      && Indexed(tasks, ll.nodes, ll.values)
    }

    /** What the store stands for: its entries, oldest first. */
    ghost function Contents(): seq<Entry>
      reads ll
    {
      ll.values
    }

    lemma KeysAreIds()
      requires Valid()
      ensures DistinctIds(Contents()) && |Contents()| == |tasks|
      ensures forall k :: k in tasks <==> HasId(Contents(), k)
    {
      IndexedKeys(tasks, ll.nodes, ll.values);
    }

    constructor (maxTasks: int)
      ensures Valid() && fresh(ll.Repr) && Contents() == []
      ensures this.maxTasks == if maxTasks <= 0 then DEFAULT_MAX_TASKS else maxTasks
    {
      this.maxTasks := if maxTasks <= 0 then DEFAULT_MAX_TASKS else maxTasks;
      tasks := map[];
      ll := new List(NO_ENTRY);
    }

    /** One turn of the update loop: new response, newest position. */
    method Touch(k: string, response: Response)
      requires Valid() && k in tasks
      modifies ll.Repr
      ensures Valid() && Contents() == Others(old(Contents()), {k}) + [Entry(k, response)]
      ensures ll.Repr == old(ll.Repr)
    {
      KeysAreIds();
      var elem := tasks[k];
      ghost var was := Contents();
      ghost var i :| 0 <= i < |was| && was[i].id == k;
      RemoveOne(was, i);
      IndexedAfterMove(tasks, ll.nodes, was, i, Entry(k, response));
      ll.SetValue(elem, Entry(k, response), i);
      assert ll.values[..i] == was[..i] && ll.values[i + 1..] == was[i + 1..];
      ll.MoveToBack(elem, i);
    }

    /** One turn of the eviction loop: the oldest entry goes. */
    method EvictFront()
      requires Valid() && Contents() != []
      modifies this`tasks, ll.Repr
      ensures Valid() && Contents() == old(Contents())[1..] && tasks.Keys <= old(tasks).Keys
      ensures ll.Repr == old(ll.Repr)
    {
      ghost var nodes, values := ll.nodes, ll.values;
      var front := ll.Front();
      assert front.value == values[0];
      FirstIsDropped(tasks, nodes, values);
      tasks := tasks - {front.value.id};
      ll.Unlink(front, 0);
      assert ll.nodes == nodes[1..] && ll.values == values[1..] by {
        DropFirst(nodes);
        DropFirst(values);
      }
    }

    /** One turn of the insertion loop. */
    method Append(k: string, response: Response)
      requires Valid() && k !in tasks && |tasks| < maxTasks
      modifies this`tasks, ll.Repr
      ensures Valid() && Contents() == old(Contents()) + [Entry(k, response)]
      ensures tasks.Keys == old(tasks).Keys + {k}
      ensures fresh(ll.Repr - old(ll.Repr))
    {
      var elem := ll.PushBack(Entry(k, response));
      tasks := tasks[k := elem];
    }

    /** The keys of the batch, without repetition. */
    static method Deduplicate(taskId: string, aliases: seq<string>) returns (keys: seq<string>)
      ensures keys == BatchKeys(taskId, aliases)
    {
      var seen := {taskId};
      keys := [taskId];
      for n := 0 to |aliases|
        invariant keys == BatchKeys(taskId, aliases[..n])
        invariant forall k :: k in seen <==> k in keys
      {
        assert aliases[..n + 1][..|aliases[..n + 1]| - 1] == aliases[..n];
        var a := aliases[n];
        if a != "" && a !in seen {
          seen := seen + {a};
          keys := keys + [a];
        }
      }
      assert aliases[..|aliases|] == aliases;
    }

    /** MEMORY STORE. Save refines the ordered sequence; every error leaves it alone. */
    method Save(contextLive: bool, response: Option<Response>, aliases: seq<string>) returns (r: Result<(), TaskError>)
      requires Valid()
      modifies this`tasks, ll.Repr
      ensures Valid()
      ensures r == if response.None? then Err(NilTaskResponse)
                   else if response.value.taskId == "" then Err(EmptyTaskId)
                   else if !contextLive then Err(ContextCanceled)
                   else if |BatchKeys(response.value.taskId, aliases)| > maxTasks then Err(CapacityExceeded)
                   else Ok(())
      ensures r.Err? ==> Contents() == old(Contents()) && tasks == old(tasks)
      ensures r.Ok? ==>
                Contents() == Saved(old(Contents()), BatchKeys(response.value.taskId, aliases), response.value, maxTasks)
    {
      if response.None? {
        return Err(NilTaskResponse);
      }
      var resp := response.value;
      if resp.taskId == "" {
        return Err(EmptyTaskId);
      }
      if !contextLive {
        return Err(ContextCanceled);
      }
      var keys := Deduplicate(resp.taskId, aliases);
      BatchKeysAreRight(resp.taskId, aliases);
      if |keys| > maxTasks {
        return Err(CapacityExceeded);
      }
      Store(keys, resp);
      return Ok(());
    }

    /** The three loops of Save. */
    method Store(keys: seq<string>, response: Response)
      requires Valid() && Distinct(keys) && |keys| <= maxTasks
      modifies this`tasks, ll.Repr
      ensures Valid() && Contents() == Saved(old(Contents()), keys, response, maxTasks)
    {
      ghost var before, had := Contents(), tasks.Keys;
      KeysAreIds();
      var newKeys := UpdatePresent(keys, response);
      ghost var updated := Contents();
      assert AllNew(newKeys, had) && |newKeys| <= maxTasks && Distinct(newKeys) by {
        SaveSplits(before, keys, response, maxTasks);
      }
      MakeRoom(|newKeys|);
      InsertNew(newKeys, response);
      SaveSplits(before, keys, response, maxTasks);
    }

    /** The update loop of Save. */
    method UpdatePresent(keys: seq<string>, response: Response) returns (newKeys: seq<string>)
      requires Valid() && Distinct(keys)
      modifies ll.Repr
      ensures Valid() && newKeys == Among(old(Contents()), keys, false)
      ensures Contents() == Others(old(Contents()), Ids(keys)) + Entries(Among(old(Contents()), keys, true), response)
      ensures ll.Repr == old(ll.Repr)
    {
      ghost var before := Contents();
      KeysAreIds();
      newKeys := [];
      OthersOfOutside(before, {});
      assert Ids(keys[..0]) == {};
      for j := 0 to |keys|
        invariant Valid() && newKeys == Among(before, keys[..j], false)
        invariant Contents() == Others(before, Ids(keys[..j])) + Entries(Among(before, keys[..j], true), response)
        invariant ll.Repr == old(ll.Repr)
      {
        var k := keys[j];
        if k in tasks {
          PresentKeyStep(before, keys, j, response);
          Touch(k, response);
        } else {
          AbsentKeyStep(before, keys, j);
          newKeys := newKeys + [k];
        }
      }
      assert keys[..|keys|] == keys;
    }

    /** The eviction loop of Save. */
    method MakeRoom(needed: nat)
      requires Valid() && needed <= maxTasks
      modifies this`tasks, ll.Repr
      ensures Valid() && |tasks| + needed <= maxTasks
      ensures var size := |old(Contents())|;
              var n := if size + needed > maxTasks then size + needed - maxTasks else 0;
              n <= size && Contents() == old(Contents())[n..]
      ensures tasks.Keys <= old(tasks).Keys
      ensures ll.Repr == old(ll.Repr)
    {
      ghost var before, n := Contents(), 0;
      while |tasks| + needed > maxTasks && ll.length > 0
        invariant Valid() && n <= |before| && Contents() == before[n..]
        invariant n > 0 ==> |before| - n + needed >= maxTasks
        invariant tasks.Keys <= old(tasks).Keys
        invariant ll.Repr == old(ll.Repr)
        decreases |tasks|
      {
        DropOneMore(before, n);
        EvictFront();
        n := n + 1;
      }
    }

    /** The insertion loop of Save. */
    method InsertNew(newKeys: seq<string>, response: Response)
      requires Valid() && |tasks| + |newKeys| <= maxTasks && Distinct(newKeys)
      requires forall i | 0 <= i < |newKeys| :: newKeys[i] !in tasks
      modifies this`tasks, ll.Repr
      ensures Valid() && Contents() == old(Contents()) + Entries(newKeys, response)
    {
      for j := 0 to |newKeys|
        invariant Valid() && |tasks| == |old(tasks)| + j
        invariant Contents() == old(Contents()) + Entries(newKeys[..j], response)
        invariant forall i | j <= i < |newKeys| :: newKeys[i] !in tasks
        invariant fresh(ll.Repr - old(ll.Repr))
      {
        Append(newKeys[j], response);
        assert newKeys[..j + 1] == newKeys[..j] + [newKeys[j]];
        assert Entries(newKeys[..j + 1], response) == Entries(newKeys[..j], response) + [Entry(newKeys[j], response)];
      }
      assert newKeys[..|newKeys|] == newKeys;
    }

    /** Load finds exactly what the sequence holds. */
    method Load(contextLive: bool, id: string) returns (r: Result<Response, TaskError>)
      requires Valid()
      ensures !contextLive ==> r == Err(ContextCanceled)
      ensures contextLive && r.Ok? ==> id != "" && Entry(id, r.value) in Contents()
      ensures contextLive && r.Err? ==> r.error == TaskNotFound && (id == "" || !HasId(Contents(), id))
    {
      if !contextLive {
        return Err(ContextCanceled);
      }
      if id == "" {
        return Err(TaskNotFound);
      }
      KeysAreIds();
      if id !in tasks {
        return Err(TaskNotFound);
      }
      ghost var i :| 0 <= i < |Contents()| && Contents()[i].id == id;
      assert tasks[id] == ll.nodes[i];
      return Ok(tasks[id].value.response);
    }

    method Len() returns (n: nat)
      requires Valid()
      ensures n == |Contents()| <= maxTasks
    {
      KeysAreIds();
      return |tasks|;
    }
  }
}
