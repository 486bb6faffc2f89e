/** The ORDER BY of the batch statements and the sort that AcquireLeases applies afterwards. */
module LeaseOrder {
  import opened JobModel

  /** ORDER BY next_run_at ASC, created_at ASC */
  function LeaseRank(r: Job): (int, int) {
    (r.nextRunAt, r.createdAt)
  }

  predicate RankLe(a: (int, int), b: (int, int)) {
    a.0 < b.0 || (a.0 == b.0 && a.1 <= b.1)
  }

  /** Lexicographic order on text, as the < of Go strings has it. */
  predicate StringLe(s: string, t: string) {
    s == "" || (t != "" && (s[0] < t[0] || (s[0] == t[0] && StringLe(s[1..], t[1..]))))
  }

  /** One text comes before another if it is the beginning of it, or smaller where they first
      differ. */
  lemma {:induction false} StringLeIff(s: string, t: string)
    ensures StringLe(s, t) <==> s <= t || exists i | 0 <= i < |s| && i < |t| :: s[..i] == t[..i] && s[i] < t[i]
  {
    if s != "" && t != "" && s[0] == t[0] {
      StringLeIff(s[1..], t[1..]);
      if s[1..] <= t[1..] {
        assert s <= t;
      }
      if i :| 0 <= i < |s[1..]| && i < |t[1..]| && s[1..][..i] == t[1..][..i] && s[1..][i] < t[1..][i] {
        SameFront(s, t, i);
      }
      if i :| 0 <= i < |s| && i < |t| && s[..i] == t[..i] && s[i] < t[i] {
        SameFront(s, t, i - 1);
      }
    } else if s != "" && t != "" {
      assert s[..0] == t[..0];
      if i :| 0 <= i < |s| && i < |t| && s[..i] == t[..i] && s[i] < t[i] {
        assert i > 0 ==> s[..i][0] == t[..i][0];
      }
    }
  }

  lemma SameFront(s: string, t: string, i: nat)
    requires i < |s| - 1 && i < |t| - 1 && s[0] == t[0]
    ensures s[..i + 1] == t[..i + 1] <==> s[1..][..i] == t[1..][..i]
    ensures s[i + 1] == s[1..][i] && t[i + 1] == t[1..][i]
  {
    assert s[..i + 1] == [s[0]] + s[1..][..i];
    assert t[..i + 1] == [t[0]] + t[1..][..i];
    assert s[1..][..i] == s[..i + 1][1..] && t[1..][..i] == t[..i + 1][1..];
  }

  lemma {:induction false} StringLeTotal(s: string, t: string)
    ensures StringLe(s, t) || StringLe(t, s)
  {
    if s != "" && t != "" && s[0] == t[0] {
      StringLeTotal(s[1..], t[1..]);
    }
  }

  lemma {:induction false} StringLeTransitive(s: string, t: string, u: string)
    requires StringLe(s, t) && StringLe(t, u)
    ensures StringLe(s, u)
  {
    if s != "" && s[0] == t[0] == u[0] {
      StringLeTransitive(s[1..], t[1..], u[1..]);
    }
  }

  /** Not after: by next_run_at, then created_at, then id. */
  predicate NotAfter(a: Snapshot, b: Snapshot) {
    if a.job.nextRunAt != b.job.nextRunAt then a.job.nextRunAt < b.job.nextRunAt
    else if a.job.createdAt != b.job.createdAt then a.job.createdAt < b.job.createdAt
    else StringLe(a.key.id, b.key.id)
  }

  lemma NotAfterTransitive(a: Snapshot, b: Snapshot, c: Snapshot)
    requires NotAfter(a, b) && NotAfter(b, c)
    ensures NotAfter(a, c)
  {
    if LeaseRank(a.job) == LeaseRank(b.job) == LeaseRank(c.job) {
      StringLeTransitive(a.key.id, b.key.id, c.key.id);
    }
  }

  ghost predicate Sorted(jobs: seq<Snapshot>) {
    forall i, j | 0 <= i < j < |jobs| :: NotAfter(jobs[i], jobs[j])
  }

  /** The minimum of a non-empty set of keys. */
  method Smallest(candidates: set<Key>, rank: map<Key, (int, int)>) returns (k: Key)
    requires candidates != {} && candidates <= rank.Keys
    ensures k in candidates
    ensures forall c | c in candidates :: RankLe(rank[k], rank[c])
  {
    k :| k in candidates;
    var rest := candidates - {k};
    while rest != {}
      invariant k in candidates && rest <= candidates
      invariant forall c | c in candidates - rest :: RankLe(rank[k], rank[c])
      decreases |rest|
    {
      var c :| c in rest;
      if !RankLe(rank[k], rank[c]) {
        k := c;
      }
      rest := rest - {c};
    }
  }

  /** ORDER BY rank LIMIT n: the n smallest keys, or all of them if there are fewer. */
  method SelectSmallest(candidates: set<Key>, rank: map<Key, (int, int)>, limit: int) returns (batch: set<Key>)
    requires limit >= 0 && candidates <= rank.Keys
    ensures batch <= candidates && |batch| == if limit <= |candidates| then limit else |candidates|
    ensures forall b, c | b in batch && c in candidates - batch :: RankLe(rank[b], rank[c])
  {
    batch := {};
    var rest := candidates;
    while |batch| < limit && rest != {}
      invariant batch + rest == candidates && batch !! rest
      invariant |batch| + |rest| == |candidates| && |batch| <= limit
      invariant forall b, c | b in batch && c in rest :: RankLe(rank[b], rank[c])
      decreases |rest|
    {
      var k := Smallest(rest, rank);
      batch, rest := batch + {k}, rest - {k};
    }
  }

  /** RETURNING: one snapshot for each updated row, in no particular order. */
  method Returning(batch: set<Key>, rows: map<Key, Job>) returns (jobs: seq<Snapshot>)
    requires batch <= rows.Keys
    ensures |jobs| == |batch| && (set s | s in jobs :: s.key) == batch
    ensures forall s | s in jobs :: s.key in batch && s.job == rows[s.key]
    ensures forall i, j | 0 <= i < j < |jobs| :: jobs[i].key != jobs[j].key
  {
    jobs := [];
    var rest := batch;
    while rest != {}
      invariant rest <= batch && |jobs| + |rest| == |batch|
      invariant forall s | s in jobs :: s.key in batch - rest && s.job == rows[s.key]
      invariant forall k | k in batch - rest :: Snapshot(k, rows[k]) in jobs
      invariant forall i, j | 0 <= i < j < |jobs| :: jobs[i].key != jobs[j].key
      decreases |rest|
    {
      var k :| k in rest;
      jobs, rest := jobs + [Snapshot(k, rows[k])], rest - {k};
    }
    assert forall k | k in batch :: Snapshot(k, rows[k]) in jobs;
  }

  lemma NotAfterTotal(a: Snapshot, b: Snapshot)
    ensures NotAfter(a, b) || NotAfter(b, a)
  {
    StringLeTotal(a.key.id, b.key.id);
  }

  /** What stands before position i is not after s if its neighbour is not. */
  lemma PrefixNotAfter(sorted: seq<Snapshot>, i: nat, s: Snapshot, j: nat)
    requires Sorted(sorted) && j < i <= |sorted| && NotAfter(sorted[i - 1], s)
    ensures NotAfter(sorted[j], s)
  {
    if j < i - 1 {
      NotAfterTransitive(sorted[j], sorted[i - 1], s);
    }
  }

  function Inserted(sorted: seq<Snapshot>, i: nat, s: Snapshot): seq<Snapshot>
    requires i <= |sorted|
  {
    sorted[..i] + [s] + sorted[i..]
  }

  lemma InsertedIsSorted(sorted: seq<Snapshot>, i: nat, s: Snapshot)
    requires Sorted(sorted) && i <= |sorted|
    requires forall j | 0 <= j < i :: NotAfter(sorted[j], s)
    requires forall j | i <= j < |sorted| :: NotAfter(s, sorted[j])
    ensures Sorted(Inserted(sorted, i, s))
  {
    var r := Inserted(sorted, i, s);
    forall p, q | 0 <= p < q < |r| ensures NotAfter(r[p], r[q]) {
      if p == i {
        assert r[p] == s && r[q] == sorted[q - 1];
      } else if q == i {
        assert r[p] == sorted[p] && r[q] == s;
      } else {
        var p', q' := if p < i then p else p - 1, if q < i then q else q - 1;
        assert r[p] == sorted[p'] && r[q] == sorted[q'];
      }
    }
  }

  lemma InsertedAddsOne(sorted: seq<Snapshot>, i: nat, s: Snapshot)
    requires i <= |sorted|
    ensures multiset(Inserted(sorted, i, s)) == multiset(sorted) + multiset{s}
  {
    assert sorted == sorted[..i] + sorted[i..];
  }

  method InsertSorted(sorted: seq<Snapshot>, s: Snapshot) returns (r: seq<Snapshot>)
    requires Sorted(sorted)
    ensures Sorted(r) && multiset(r) == multiset(sorted) + multiset{s}
  {
    var i := |sorted|;
    while i > 0 && !NotAfter(sorted[i - 1], s)
      invariant 0 <= i <= |sorted|
      invariant forall j | i <= j < |sorted| :: NotAfter(s, sorted[j])
    {
      NotAfterTotal(sorted[i - 1], s);
      i := i - 1;
    }
    forall j | 0 <= j < i ensures NotAfter(sorted[j], s) {
      PrefixNotAfter(sorted, i, s, j);
    }
    InsertedIsSorted(sorted, i, s);
    InsertedAddsOne(sorted, i, s);
    r := Inserted(sorted, i, s);
  }

  method SortJobs(jobs: seq<Snapshot>) returns (sorted: seq<Snapshot>)
    ensures Sorted(sorted) && multiset(sorted) == multiset(jobs)
    ensures forall i, j | 0 <= i < j < |sorted| ::
              var a, b := sorted[i].job, sorted[j].job;
              || a.nextRunAt < b.nextRunAt
              || (a.nextRunAt == b.nextRunAt && a.createdAt < b.createdAt)
              || (a.nextRunAt == b.nextRunAt && a.createdAt == b.createdAt && StringLe(sorted[i].key.id, sorted[j].key.id))
    ensures |sorted| == |jobs| && forall s :: s in sorted <==> s in jobs
    ensures (forall i, j | 0 <= i < j < |jobs| :: jobs[i].key != jobs[j].key) ==>
              forall i, j | 0 <= i < j < |sorted| :: sorted[i].key != sorted[j].key
  {
    sorted := [];
    for n := 0 to |jobs|
      invariant Sorted(sorted) && multiset(sorted) == multiset(jobs[..n])
    {
      sorted := InsertSorted(sorted, jobs[n]);
      assert jobs[..n + 1] == jobs[..n] + [jobs[n]];
    }
    assert jobs[..|jobs|] == jobs;
    assert |multiset(sorted)| == |multiset(jobs)|;
    SameElements(jobs, sorted);
  }

  lemma SameElements(a: seq<Snapshot>, b: seq<Snapshot>)
    requires multiset(a) == multiset(b)
    ensures forall s :: s in a <==> s in b
    ensures (forall i, j | 0 <= i < j < |a| :: a[i].key != a[j].key) ==>
              forall i, j | 0 <= i < j < |b| :: b[i].key != b[j].key
  {
    forall s ensures s in a <==> s in b {
      assert s in multiset(a) <==> s in multiset(b);
    }
    if forall i, j | 0 <= i < j < |a| :: a[i].key != a[j].key {
      forall i, j | 0 <= i < j < |b| ensures b[i].key != b[j].key {
        if b[i].key == b[j].key {
          DistinctOnce(a, b[i]);
          DistinctOnce(a, b[j]);
          assert b[i] in a && b[j] in a;
          assert b[i] == b[j];
          TwiceCounted(b, i, j);
          assert false;
        }
      }
    }
  }

  /** In a sequence without repeated keys every element occurs at most once. */
  lemma {:induction false} DistinctOnce(a: seq<Snapshot>, s: Snapshot)
    requires forall i, j | 0 <= i < j < |a| :: a[i].key != a[j].key
    ensures multiset(a)[s] <= 1
  {
    if a != [] {
      assert a == [a[0]] + a[1..];
      DistinctOnce(a[1..], s);
      if a[0] == s {
        assert s !in a[1..];
      }
    }
  }

  lemma TwiceCounted(b: seq<Snapshot>, i: nat, j: nat)
    requires i < j < |b| && b[i] == b[j]
    ensures multiset(b)[b[i]] >= 2
  {
    assert b == b[..i] + [b[i]] + b[i + 1..j] + [b[j]] + b[j + 1..];
  }
}
