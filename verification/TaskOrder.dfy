/** The ordered sequence that the bounded task store stands for: entries with distinct ids,
    oldest first, and what a save makes of it. */
module TaskOrder {

  /** A task response, as far as the store looks into it. */
  datatype Response = Response(taskId: string, body: string)

  datatype Entry = Entry(id: string, response: Response)

  predicate DistinctIds(s: seq<Entry>) {
    forall i, j | 0 <= i < j < |s| :: s[i].id != s[j].id
  }

  predicate Distinct(keys: seq<string>) {
    forall i, j | 0 <= i < j < |keys| :: keys[i] != keys[j]
  }

  predicate HasId(s: seq<Entry>, id: string) {
    exists i | 0 <= i < |s| :: s[i].id == id
  }

  /** The entries whose id is not among the keys, in order. */
  function Others(s: seq<Entry>, keys: set<string>): seq<Entry> {
    if s == [] then []
    else Others(s[..|s| - 1], keys) + if s[|s| - 1].id in keys then [] else [s[|s| - 1]]
  }

  /** The keys that have an entry already, or that have none, in order. */
  function Among(s: seq<Entry>, keys: seq<string>, present: bool): seq<string> {
    if keys == [] then []
    else
      Among(s, keys[..|keys| - 1], present)
      + if HasId(s, keys[|keys| - 1]) == present then [keys[|keys| - 1]] else []
  }

  function Entries(keys: seq<string>, response: Response): (r: seq<Entry>)
    ensures |r| == |keys| && forall i | 0 <= i < |r| :: r[i] == Entry(keys[i], response)
  {
    seq(|keys|, i requires 0 <= i < |keys| => Entry(keys[i], response))
  }

  /** How many of the oldest entries must go. */
  function Overflow(s: seq<Entry>, keys: seq<string>, limit: nat): nat {
    var size := |Others(s, Ids(keys))| + |keys|;
    if size > limit then size - limit else 0
  }

  function Ids(keys: seq<string>): set<string> {
    set k | k in keys
  }

  /** A save of one response under the given keys: the oldest entries outside the batch give
      way, the others keep their order, then come the keys that were present already, then
      the new ones. */
  function Saved(s: seq<Entry>, keys: seq<string>, response: Response, limit: nat): seq<Entry>
    requires |keys| <= limit
  {
    Others(s, Ids(keys))[Overflow(s, keys, limit)..]
    + Entries(Among(s, keys, true), response) + Entries(Among(s, keys, false), response)
  }

  lemma {:induction false} OthersMembers(s: seq<Entry>, keys: set<string>, e: Entry)
    ensures e in Others(s, keys) <==> e in s && e.id !in keys
  {
    if s != [] {
      OthersMembers(s[..|s| - 1], keys, e);
    }
  }

  lemma {:induction false} AmongMembers(s: seq<Entry>, keys: seq<string>, present: bool, k: string)
    ensures k in Among(s, keys, present) <==> k in keys && HasId(s, k) == present
  {
    if keys != [] {
      AmongMembers(s, keys[..|keys| - 1], present, k);
    }
  }

  lemma {:induction false} OthersOfConcat(a: seq<Entry>, b: seq<Entry>, keys: set<string>)
    ensures Others(a + b, keys) == Others(a, keys) + Others(b, keys)
  {
    if b == [] {
      assert a + b == a;
    } else {
      var front, last := b[..|b| - 1], b[|b| - 1];
      OthersOfConcat(a, front, keys);
      assert (a + b)[..|a + b| - 1] == a + front && (a + b)[|a + b| - 1] == last;
    }
  }

  lemma OthersOfSingle(e: Entry, keys: set<string>)
    ensures Others([e], keys) == if e.id in keys then [] else [e]
  {
    assert [e][..0] == [];
  }

  lemma {:induction false} OthersOfOutside(s: seq<Entry>, keys: set<string>)
    requires forall i | 0 <= i < |s| :: s[i].id !in keys
    ensures Others(s, keys) == s
  {
    if s != [] {
      OthersOfOutside(s[..|s| - 1], keys);
      assert s == s[..|s| - 1] + [s[|s| - 1]];
    }
  }

  lemma {:induction false} OthersTwice(s: seq<Entry>, keys: set<string>, k: string)
    ensures Others(Others(s, keys), {k}) == Others(s, keys + {k})
  {
    if s != [] {
      var front, last := s[..|s| - 1], s[|s| - 1];
      OthersTwice(front, keys, k);
      OthersOfConcat(Others(front, keys), [last], {k});
      OthersOfSingle(last, {k});
      if last.id in keys {
        assert Others(s, keys) == Others(front, keys);
        assert Others(s, keys + {k}) == Others(front, keys + {k});
      } else {
        assert Others(s, keys) == Others(front, keys) + [last];
      }
    }
  }

  predicate Lacks(s: seq<Entry>, id: string) {
    forall i | 0 <= i < |s| :: s[i].id != id
  }

  /** Filtering one id out of entries among which it occurs once. */
  lemma OthersOfOne(a: seq<Entry>, e: Entry, b: seq<Entry>)
    requires Lacks(a, e.id) && Lacks(b, e.id)
    ensures Others(a + [e] + b, {e.id}) == a + b
  {
    var keys := {e.id};
    OthersOfSingle(e, keys);
    OthersOfOutside(a, keys);
    OthersOfOutside(b, keys);
    calc {
      Others(a + [e] + b, keys);
    == { OthersOfConcat(a + [e], b, keys); }
      Others(a + [e], keys) + b;
    == { OthersOfConcat(a, [e], keys); }
      a + [] + b;
    == { assert a + [] == a; }
      a + b;
    }
  }

  lemma {:induction false} AmongCovers(s: seq<Entry>, keys: seq<string>)
    ensures |Among(s, keys, true)| + |Among(s, keys, false)| == |keys|
  {
    if keys != [] {
      AmongCovers(s, keys[..|keys| - 1]);
    }
  }

  lemma {:induction false} AmongDistinct(s: seq<Entry>, keys: seq<string>, present: bool)
    requires Distinct(keys)
    ensures Distinct(Among(s, keys, present))
  {
    if keys != [] {
      var front, last := keys[..|keys| - 1], keys[|keys| - 1];
      AmongDistinct(s, front, present);
      AmongMembers(s, front, present, last);
    }
  }

  lemma {:induction false} OthersDistinct(s: seq<Entry>, keys: set<string>)
    requires DistinctIds(s)
    ensures DistinctIds(Others(s, keys))
  {
    if s != [] {
      var front, last := s[..|s| - 1], s[|s| - 1];
      OthersDistinct(front, keys);
      forall e | e in Others(front, keys) ensures e.id != last.id {
        OthersMembers(front, keys, e);
      }
    }
  }

  lemma SavedSize(s: seq<Entry>, keys: seq<string>, response: Response, limit: nat)
    requires |keys| <= limit
    ensures var others := Others(s, Ids(keys));
            |Saved(s, keys, response, limit)| == if |others| + |keys| <= limit then |others| + |keys| else limit
  {
    AmongCovers(s, keys);
  }

  /** Ids of the one are not ids of the other. */
  predicate Apart(a: seq<Entry>, b: seq<Entry>) {
    forall i, j | 0 <= i < |a| && 0 <= j < |b| :: a[i].id != b[j].id
  }

  lemma ApartBoth(a: seq<Entry>, b: seq<Entry>)
    requires DistinctIds(a) && DistinctIds(b) && Apart(a, b)
    ensures DistinctIds(a + b)
  {
  }

  lemma OthersApart(s: seq<Entry>, keys: seq<string>, n: nat, some: seq<string>, response: Response)
    requires n <= |Others(s, Ids(keys))| && forall i | 0 <= i < |some| :: some[i] in keys
    ensures Apart(Others(s, Ids(keys))[n..], Entries(some, response))
  {
    var others := Others(s, Ids(keys));
    forall i | n <= i < |others| ensures others[i].id !in keys {
      OthersMembers(s, Ids(keys), others[i]);
    }
  }

  lemma PresentApart(s: seq<Entry>, keys: seq<string>, response: Response)
    ensures Apart(Entries(Among(s, keys, true), response), Entries(Among(s, keys, false), response))
  {
    var present, added := Among(s, keys, true), Among(s, keys, false);
    forall i, j | 0 <= i < |present| && 0 <= j < |added| ensures present[i] != added[j] {
      AmongMembers(s, keys, true, present[i]);
      AmongMembers(s, keys, false, added[j]);
    }
  }

  lemma DistinctEntries(s: seq<Entry>, keys: seq<string>, present: bool, response: Response)
    requires Distinct(keys)
    ensures DistinctIds(Entries(Among(s, keys, present), response))
    ensures forall i | 0 <= i < |Among(s, keys, present)| :: Among(s, keys, present)[i] in keys
  {
    AmongDistinct(s, keys, present);
    var some := Among(s, keys, present);
    forall i | 0 <= i < |some| ensures some[i] in keys {
      AmongMembers(s, keys, present, some[i]);
    }
  }

  lemma DistinctDrop(s: seq<Entry>, n: nat)
    requires DistinctIds(s) && n <= |s|
    ensures DistinctIds(s[n..])
  {
  }

  lemma SavedDistinct(s: seq<Entry>, keys: seq<string>, response: Response, limit: nat)
    requires DistinctIds(s) && Distinct(keys) && |keys| <= limit
    ensures DistinctIds(Saved(s, keys, response, limit))
  {
    var others, n := Others(s, Ids(keys)), Overflow(s, keys, limit);
    var moved, added := Entries(Among(s, keys, true), response), Entries(Among(s, keys, false), response);
    OthersDistinct(s, Ids(keys));
    DistinctDrop(others, n);
    DistinctEntries(s, keys, true, response);
    DistinctEntries(s, keys, false, response);
    OthersApart(s, keys, n, Among(s, keys, true), response);
    OthersApart(s, keys, n, Among(s, keys, false), response);
    PresentApart(s, keys, response);
    ApartBoth(others[n..], moved);
    ApartFromBoth(others[n..], moved, added);
    ApartBoth(others[n..] + moved, added);
  }

  lemma ApartFromBoth(a: seq<Entry>, b: seq<Entry>, c: seq<Entry>)
    requires Apart(a, c) && Apart(b, c)
    ensures Apart(a + b, c)
  {
  }

  /** The first half of what a save promises: the bound is kept and ids stay distinct. */
  lemma SavedKeepsBound(s: seq<Entry>, keys: seq<string>, response: Response, limit: nat)
    requires DistinctIds(s) && Distinct(keys) && |keys| <= limit
    ensures var r, others := Saved(s, keys, response, limit), Others(s, Ids(keys));
            && |r| == (if |others| + |keys| <= limit then |others| + |keys| else limit)
            && DistinctIds(r)
  {
    SavedSize(s, keys, response, limit);
    SavedDistinct(s, keys, response, limit);
  }

  /** The second half: every saved key finds the new response, and an old entry is still there
      exactly when it is outside the batch and not among the oldest that had to go. */
  lemma SavedHolds(s: seq<Entry>, keys: seq<string>, response: Response, limit: nat, e: Entry)
    requires DistinctIds(s) && Distinct(keys) && |keys| <= limit
    ensures e in Saved(s, keys, response, limit) <==>
              || (e.id in keys && e.response == response)
              || e in Others(s, Ids(keys))[Overflow(s, keys, limit)..]
  {
    var others, n := Others(s, Ids(keys)), Overflow(s, keys, limit);
    AmongCovers(s, keys);
    AmongMembers(s, keys, true, e.id);
    AmongMembers(s, keys, false, e.id);
    EntriesMembers(Among(s, keys, true), response, e);
    EntriesMembers(Among(s, keys, false), response, e);
  }

  lemma EntriesMembers(keys: seq<string>, response: Response, e: Entry)
    ensures e in Entries(keys, response) <==> e.id in keys && e.response == response
  {
    if e.id in keys && e.response == response {
      var i :| 0 <= i < |keys| && keys[i] == e.id;
      assert Entries(keys, response)[i] == e;
    }
  }

  // ---- The order after a save

  lemma {:induction false} OthersInOrder(s: seq<Entry>, keys: set<string>, i: nat, j: nat) returns (p: nat, q: nat)
    requires i < j < |Others(s, keys)|
    ensures p < q < |s| && s[p] == Others(s, keys)[i] && s[q] == Others(s, keys)[j]
  {
    var front := s[..|s| - 1];
    if j < |Others(front, keys)| {
      p, q := OthersInOrder(front, keys, i, j);
    } else {
      q := |s| - 1;
      OthersMembers(front, keys, Others(front, keys)[i]);
      p :| 0 <= p < |front| && front[p] == Others(front, keys)[i];
    }
  }

  lemma {:induction false} AmongInOrder(s: seq<Entry>, keys: seq<string>, present: bool, i: nat, j: nat) returns (p: nat, q: nat)
    requires i < j < |Among(s, keys, present)|
    ensures p < q < |keys| && keys[p] == Among(s, keys, present)[i] && keys[q] == Among(s, keys, present)[j]
  {
    var front := keys[..|keys| - 1];
    if j < |Among(s, front, present)| {
      p, q := AmongInOrder(s, front, present, i, j);
    } else {
      q := |keys| - 1;
      AmongMembers(s, front, present, Among(s, front, present)[i]);
      p :| 0 <= p < |front| && front[p] == Among(s, front, present)[i];
    }
  }

  /** Key a comes before key b in the batch. */
  predicate Before(keys: seq<string>, a: string, b: string) {
    exists p, q | 0 <= p < q < |keys| :: keys[p] == a && keys[q] == b
  }

  predicate Older(s: seq<Entry>, a: Entry, b: Entry) {
    exists p, q | 0 <= p < q < |s| :: s[p] == a && s[q] == b
  }

  /** Which of the two parts of the batch an entry after a save belongs to, and where. */
  lemma SavedPart(s: seq<Entry>, keys: seq<string>, response: Response, limit: nat, i: nat)
    requires |keys| <= limit && i < |Saved(s, keys, response, limit)|
    ensures var n, others := Overflow(s, keys, limit), Others(s, Ids(keys));
            var moved, added := Among(s, keys, true), Among(s, keys, false);
            var kept, e := |others| - n, Saved(s, keys, response, limit)[i];
            && n <= |others|
            && (i < kept ==> e == others[n + i] && e.id !in keys)
            && (kept <= i < kept + |moved| ==> e.id == moved[i - kept] && e.id in keys && HasId(s, e.id))
            && (kept + |moved| <= i ==>
                  i < kept + |moved| + |added| && e.id == added[i - kept - |moved|] && e.id in keys && !HasId(s, e.id))
  {
    AmongCovers(s, keys);
    var n, others := Overflow(s, keys, limit), Others(s, Ids(keys));
    var moved, added, kept := Among(s, keys, true), Among(s, keys, false), |others| - n;
    if i < kept {
      OthersMembers(s, Ids(keys), others[n + i]);
    } else if i < kept + |moved| {
      AmongMembers(s, keys, true, moved[i - kept]);
    } else {
      AmongMembers(s, keys, false, added[i - kept - |moved|]);
    }
  }

  /** FIRST IN, FIRST OUT. After a save the entries outside the batch come first, in their old
      order; then the keys that were there before, then the new ones, each in batch order. */
  lemma SavedInOrder(s: seq<Entry>, keys: seq<string>, response: Response, limit: nat, i: nat, j: nat)
    requires |keys| <= limit && i < j < |Saved(s, keys, response, limit)|
    ensures var a, b := Saved(s, keys, response, limit)[i], Saved(s, keys, response, limit)[j];
            && (a.id in keys ==> b.id in keys)
            && (b.id !in keys ==> Older(s, a, b))
            && (a.id in keys ==> (HasId(s, a.id) && !HasId(s, b.id))
                                 || (HasId(s, a.id) == HasId(s, b.id) && Before(keys, a.id, b.id)))
  {
    SavedPart(s, keys, response, limit, i);
    SavedPart(s, keys, response, limit, j);
    var n, kept := Overflow(s, keys, limit), |Others(s, Ids(keys))| - Overflow(s, keys, limit);
    var moved := |Among(s, keys, true)|;
    if j < kept {
      var p, q := OthersInOrder(s, Ids(keys), n + i, n + j);
    } else if kept <= i && j < kept + moved {
      var p, q := AmongInOrder(s, keys, true, i - kept, j - kept);
    } else if kept + moved <= i {
      var p, q := AmongInOrder(s, keys, false, i - kept - moved, j - kept - moved);
    }
  }

  lemma StaysIff(s: seq<Entry>, keys: seq<string>, response: Response, limit: nat, e: Entry)
    requires DistinctIds(s) && Distinct(keys) && |keys| <= limit && e.id !in keys
    ensures Overflow(s, keys, limit) <= |Others(s, Ids(keys))|
    ensures e in Saved(s, keys, response, limit) <==> e in Others(s, Ids(keys))[Overflow(s, keys, limit)..]
  {
    SavedHolds(s, keys, response, limit, e);
  }

  /** An entry that must go is older than every entry outside the batch that stays. */
  lemma EvictsOldest(s: seq<Entry>, keys: seq<string>, response: Response, limit: nat, p: nat, q: nat)
    requires DistinctIds(s) && Distinct(keys) && |keys| <= limit && p < q < |s|
    requires s[p].id !in keys && s[q].id !in keys && s[p] in Saved(s, keys, response, limit)
    ensures s[q] in Saved(s, keys, response, limit)
  {
    var n, others := Overflow(s, keys, limit), Others(s, Ids(keys));
    StaysIff(s, keys, response, limit, s[p]);
    StaysIff(s, keys, response, limit, s[q]);
    var i := PositionIn(s, Ids(keys), p);
    var j := PositionIn(s, Ids(keys), q);
    PositionsGrow(s, Ids(keys), p, q);
    OthersDistinct(s, Ids(keys));
    KeptFrom(others, n, i);
    assert others[n..][j - n] == s[q];
  }

  lemma KeptFrom(s: seq<Entry>, n: nat, i: nat)
    requires DistinctIds(s) && n <= |s| && i < |s| && s[i] in s[n..]
    ensures n <= i
  {
    var m :| 0 <= m < |s[n..]| && s[n..][m] == s[i];
    assert s[n + m] == s[i];
  }

  /** Where an entry is among the others: after those before it. */
  lemma PositionIn(s: seq<Entry>, keys: set<string>, p: nat) returns (i: nat)
    requires p < |s| && s[p].id !in keys
    ensures i == |Others(s[..p], keys)| < |Others(s, keys)| && Others(s, keys)[i] == s[p]
  {
    i := |Others(s[..p], keys)|;
    SplitAt(s, p);
    OthersOfConcat(s[..p] + [s[p]], s[p + 1..], keys);
    OthersOfConcat(s[..p], [s[p]], keys);
    OthersOfSingle(s[p], keys);
  }

  lemma PositionsGrow(s: seq<Entry>, keys: set<string>, p: nat, q: nat)
    requires p < q < |s| && s[p].id !in keys
    ensures |Others(s[..p], keys)| < |Others(s[..q], keys)|
  {
    var i := PositionIn(s[..q], keys, p);
    assert s[..q][..p] == s[..p];
  }

  // ---- Steps of the save loop

  lemma IdsOfNext(keys: seq<string>, j: nat)
    requires j < |keys|
    ensures Ids(keys[..j + 1]) == Ids(keys[..j]) + {keys[j]}
    ensures keys[..j + 1] == keys[..j] + [keys[j]] && keys[..j + 1][..|keys[..j + 1]| - 1] == keys[..j]
  {
  }

  /** Moving a present key to the back, with the new response. */
  lemma PresentKeyStep(s: seq<Entry>, keys: seq<string>, j: nat, response: Response)
    requires Distinct(keys) && j < |keys| && HasId(s, keys[j])
    ensures Others(Others(s, Ids(keys[..j])) + Entries(Among(s, keys[..j], true), response), {keys[j]})
              + [Entry(keys[j], response)]
            == Others(s, Ids(keys[..j + 1])) + Entries(Among(s, keys[..j + 1], true), response)
    ensures Among(s, keys[..j + 1], false) == Among(s, keys[..j], false)
  {
    var k, done, next := keys[j], keys[..j], keys[..j + 1];
    IdsOfNext(keys, j);
    MoveIsNext(s, done, k, response);
    assert Among(s, next, true) == Among(s, done, true) + [k];
    assert Among(s, next, false) == Among(s, done, false) + [];
  }

  lemma MoveIsNext(s: seq<Entry>, done: seq<string>, k: string, response: Response)
    requires k !in done
    ensures Others(Others(s, Ids(done)) + Entries(Among(s, done, true), response), {k}) + [Entry(k, response)]
            == Others(s, Ids(done) + {k}) + Entries(Among(s, done, true) + [k], response)
  {
    var present := Among(s, done, true);
    var moved := Entries(present, response);
    OthersOfConcat(Others(s, Ids(done)), moved, {k});
    OthersTwice(s, Ids(done), k);
    AmongMembers(s, done, true, k);
    OthersOfOutside(moved, {k});
    EntriesOfNext(present, k, response);
    Reassociate(Others(s, Ids(done) + {k}), moved, Entry(k, response));
  }

  lemma EntriesOfNext(keys: seq<string>, k: string, response: Response)
    ensures Entries(keys + [k], response) == Entries(keys, response) + [Entry(k, response)]
  {
  }

  lemma Reassociate(a: seq<Entry>, b: seq<Entry>, e: Entry)
    ensures (a + b) + [e] == a + (b + [e])
  {
  }

  /** Setting an absent key aside. */
  lemma AbsentKeyStep(s: seq<Entry>, keys: seq<string>, j: nat)
    requires j < |keys| && !HasId(s, keys[j])
    ensures Others(s, Ids(keys[..j + 1])) == Others(s, Ids(keys[..j]))
    ensures Among(s, keys[..j + 1], true) == Among(s, keys[..j], true)
    ensures Among(s, keys[..j + 1], false) == Among(s, keys[..j], false) + [keys[j]]
  {
    IdsOfNext(keys, j);
    var others := Others(s, Ids(keys[..j]));
    OthersTwice(s, Ids(keys[..j]), keys[j]);
    forall i | 0 <= i < |others| ensures others[i].id != keys[j] {
      OthersMembers(s, Ids(keys[..j]), others[i]);
    }
    OthersOfOutside(others, {keys[j]});
  }

  // ---- The batch of keys

  /** The canonical id, then every alias that is neither empty nor seen before. */
  function BatchKeys(taskId: string, aliases: seq<string>): seq<string> {
    if aliases == [] then [taskId]
    else
      var keys, a := BatchKeys(taskId, aliases[..|aliases| - 1]), aliases[|aliases| - 1];
      if a == "" || a in keys then keys else keys + [a]
  }

  lemma {:induction false} BatchKeysAreRight(taskId: string, aliases: seq<string>)
    ensures var keys := BatchKeys(taskId, aliases);
            && Distinct(keys) && keys != [] && keys[0] == taskId
            && forall k :: k in keys <==> k == taskId || (k in aliases && k != "")
  {
    if aliases != [] {
      BatchKeysAreRight(taskId, aliases[..|aliases| - 1]);
      assert aliases == aliases[..|aliases| - 1] + [aliases[|aliases| - 1]];
    }
  }

  /** Aliases keep the order in which they first occur. */
  lemma {:induction false} BatchInOrder(taskId: string, aliases: seq<string>, a: string, b: string)
    requires Before(BatchKeys(taskId, aliases), a, b) && a != taskId
    ensures exists i | 0 <= i < |aliases| :: aliases[i] == a && b in aliases && b !in aliases[..i]
  {
    var keys := BatchKeys(taskId, aliases);
    var p, q :| 0 <= p < q < |keys| && keys[p] == a && keys[q] == b;
    var front, last := aliases[..|aliases| - 1], aliases[|aliases| - 1];
    BatchKeysAreRight(taskId, aliases);
    BatchKeysAreRight(taskId, front);
    var before := BatchKeys(taskId, front);
    if q < |before| {
      assert before[p] == a && before[q] == b;
      BatchInOrder(taskId, front, a, b);
      var i :| 0 <= i < |front| && front[i] == a && b in front && b !in front[..i];
      assert aliases[i] == a && aliases[..i] == front[..i];
    } else {
      assert a in before && a in front && b == last && b !in before;
      var i :| 0 <= i < |front| && front[i] == a;
      assert aliases[i] == a && aliases[..i] == front[..i];
    }
  }

  lemma SplitAt(s: seq<Entry>, i: nat)
    requires i < |s|
    ensures s == s[..i] + [s[i]] + s[i + 1..]
  {
  }

  lemma OthersHaveOtherIds(s: seq<Entry>, i: nat)
    requires DistinctIds(s) && i < |s|
    ensures Lacks(s[..i], s[i].id) && Lacks(s[i + 1..], s[i].id)
  {
    var b := s[i + 1..];
    forall j | 0 <= j < |b| ensures b[j].id != s[i].id {
      assert b[j] == s[i + 1 + j];
    }
  }

  /** Removing position i is filtering its id out. */
  lemma RemoveOne(s: seq<Entry>, i: nat)
    requires DistinctIds(s) && i < |s|
    ensures Others(s, {s[i].id}) == s[..i] + s[i + 1..]
  {
    OthersHaveOtherIds(s, i);
    OthersOfOne(s[..i], s[i], s[i + 1..]);
    SplitAt(s, i);
  }

  /** The three loops of a save, seen on the sequence: update, drop from the front, append. */
  lemma SaveSplits(s: seq<Entry>, keys: seq<string>, response: Response, limit: nat)
    requires Distinct(keys) && |keys| <= limit
    ensures var updated := Others(s, Ids(keys)) + Entries(Among(s, keys, true), response);
            var added := Among(s, keys, false);
            && |added| <= limit && Distinct(added)
            && (forall i | 0 <= i < |added| :: !HasId(s, added[i]))
            && var n := if |updated| + |added| > limit then |updated| + |added| - limit else 0;
               n <= |updated| && Saved(s, keys, response, limit) == updated[n..] + Entries(added, response)
  {
    AmongCovers(s, keys);
    AmongDistinct(s, keys, false);
    var others, moved, added := Others(s, Ids(keys)), Entries(Among(s, keys, true), response), Among(s, keys, false);
    forall i | 0 <= i < |added| ensures !HasId(s, added[i]) {
      AmongMembers(s, keys, false, added[i]);
    }
    DropFromFront(others, moved, Overflow(s, keys, limit));
  }

  lemma DropFromFront(a: seq<Entry>, b: seq<Entry>, n: nat)
    requires n <= |a|
    ensures (a + b)[n..] == a[n..] + b
  {
  }
}
