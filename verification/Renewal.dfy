/** Timely renewal (runLeaseRenewal in pkg/worker/worker.go). The one result that needs the
    clock: with lease L and renewal interval R, a holder whose renewals each land less than
    L - R after their tick never loses the lease. */
module Renewal {
  import opened Wrappers
  import opened JobModel
  import opened Ledger
  import opened LedgerRuns

  /** A lease handed out by statement i of a run, and how its holder means to renew it. */
  datatype Watch = Watch(run: Run, i: nat, f: Fence, L: int, R: int) {
    ghost predicate Valid() {
      && IsRun(run) && Issues(run, i, f) && run.steps[i].lease == L
      && 0 < R <= L
      && ClockMonotone()
      && RenewalsUseL()
    }

    ghost predicate ClockMonotone() {
      forall a, b | i <= a <= b < |run.steps| :: run.steps[a].now <= run.steps[b].now
    }

    ghost predicate RenewalsUseL() {
      forall p | i < p < |run.steps| && run.steps[p].Renew? && run.steps[p].fence == f :: run.steps[p].lease == L
    }

    function Start(): int
      requires i < |run.steps|
    {
      run.steps[i].now
    }

    /** Statement p renews the lease and lands at or after tick q. */
    predicate Renews(p: nat, q: nat)
      requires i < |run.steps|
    {
      && i < p < |run.steps| && run.steps[p].Renew? && run.steps[p].fence == f
      && Start() + q * R <= run.steps[p].now
    }

    /** Before statement m and at time now: every tick that came L - R ago or earlier has been
        answered by a renewal. Ticks are counted from the acquire. */
    ghost predicate TimelyAt(m: nat, now: int)
      requires i < |run.steps|
    {
      forall q: nat | q >= 1 && Start() + q * R + (L - R) <= now :: exists p | i < p < m :: Renews(p, q)
    }

    /** The renewals have kept up at every statement before m. */
    ghost predicate TimelyUntil(m: nat)
      requires i < |run.steps|
    {
      forall p | i < p < m && p < |run.steps| :: TimelyAt(p, run.steps[p].now)
    }

    /** The holder itself has not ended the lease. */
    predicate NotReleased(m: nat) {
      forall p | i < p < m && p < |run.steps| ::
        (run.steps[p].Complete? || run.steps[p].Fail? || run.steps[p].Acknowledge?) ==> run.steps[p].fence != f
    }

    /** The lease runs at least L past the acquire and past every renewal before m. */
    ghost predicate ExpiresLate(m: nat)
      requires i < |run.steps| && run.HasJob(m, f.key)
    {
      var r := run.JobAt(m, f.key);
      && r.leaseExpiresAt.Some? && r.leaseExpiresAt.value >= Start() + L
      && forall p | i < p < m && p < |run.steps| && run.steps[p].Renew? && run.steps[p].fence == f ::
           r.leaseExpiresAt.value >= run.steps[p].now + L
    }
  }

  /** The last tick that is due at time now, if any. */
  lemma LastDueTick(elapsed: int, L: int, R: int) returns (q: int)
    requires 0 < R <= L
    ensures q * R + (L - R) <= elapsed < (q + 1) * R + (L - R)
  {
    q := (elapsed - (L - R)) / R;
    assert (elapsed - (L - R)) == q * R + (elapsed - (L - R)) % R;
    assert (q + 1) * R == q * R + R;
  }

  /** Renewals that kept up leave the lease live. */
  lemma TimelyIsLive(w: Watch, m: nat, now: int)
    requires w.Valid() && w.i < m <= |w.run.steps| && w.run.HasJob(m, w.f.key)
    requires w.ExpiresLate(m) && w.TimelyAt(m, now)
    ensures w.run.JobAt(m, w.f.key).leaseExpiresAt.value > now
  {
    var q := LastDueTick(now - w.Start(), w.L, w.R);
    if q >= 1 {
      var p :| w.i < p < m && w.Renews(p, q);
      assert (q + 1) * w.R == q * w.R + w.R;
    } else {
      assert (q + 1) * w.R <= w.R by {
        assert q * w.R <= 0;
        assert (q + 1) * w.R == q * w.R + w.R;
      }
    }
  }

  /** What one statement does to a row whose lease is live and not being released. */
  lemma LiveRowStep(s: Statement, k: Key, r: Job, f: Fence)
    requires RowOk(r) && f.key == k && HeldLive(r, f, s.now)
    requires (s.Complete? || s.Fail? || s.Acknowledge?) ==> s.fence != f
    ensures !MovesLease(s, k, r)
    ensures OnRow(s, k, r).leaseExpiresAt == if s.Renew? && s.fence == f then Some(s.now + s.lease) else r.leaseExpiresAt
  {
  }

  lemma KeptAtFirst(w: Watch)
    requires w.Valid()
    ensures w.run.HasJob(w.i + 1, w.f.key) && Held(w.run.JobAt(w.i + 1, w.f.key), w.f) && w.ExpiresLate(w.i + 1)
  {
    LeaseStep(w.run, w.i, w.f);
    assert WellFormed(w.run.steps[w.i]);
  }

  /** The expiry that one more statement leaves. */
  lemma KeptByStep(w: Watch, m: nat)
    requires w.Valid() && w.i < m < |w.run.steps| && w.NotReleased(m + 1)
    requires w.run.HasJob(m, w.f.key) && HeldLive(w.run.JobAt(m, w.f.key), w.f, w.run.steps[m].now)
    ensures var s := w.run.steps[m];
            && w.run.HasJob(m + 1, w.f.key) && Held(w.run.JobAt(m + 1, w.f.key), w.f)
            && w.run.JobAt(m + 1, w.f.key).leaseExpiresAt
               == if s.Renew? && s.fence == w.f then Some(s.now + w.L) else w.run.JobAt(m, w.f.key).leaseExpiresAt
  {
    var r, s := w.run.JobAt(m, w.f.key), w.run.steps[m];
    StatesKeepShape(w.run, m);
    LiveRowStep(s, w.f.key, r, w.f);
    LeaseStep(w.run, m, w.f);
  }

  lemma {:induction false} KeptUntil(w: Watch, m: nat)
    requires w.Valid() && w.i < m <= |w.run.steps| && w.TimelyUntil(m) && w.NotReleased(m)
    ensures w.run.HasJob(m, w.f.key) && Held(w.run.JobAt(m, w.f.key), w.f) && w.ExpiresLate(m)
    decreases m
  {
    if m == w.i + 1 {
      KeptAtFirst(w);
    } else {
      KeptUntil(w, m - 1);
      TimelyIsLive(w, m - 1, w.run.steps[m - 1].now);
      KeptByStep(w, m - 1);
    }
  }

  /** TIMELY RENEWAL. At every instant up to which the renewals have kept up, the lease is
      live: no reclaim can take the job, and a completion or failure sent then is accepted. */
  lemma TimelyRenewalKeepsLease(w: Watch, m: nat, now: int)
    requires w.Valid() && w.i < m <= |w.run.steps|
    requires w.TimelyUntil(m) && w.NotReleased(m) && w.TimelyAt(m, now)
    ensures w.run.HasJob(m, w.f.key)
    ensures var r := w.run.JobAt(m, w.f.key);
            && HeldLive(r, w.f, now) && !Expired(r, now)
            && (forall s: Statement | s.Reclaim? && s.now == now :: OnRow(s, w.f.key, r) == r)
            && (forall s: Statement | (s.Complete? || s.Fail?) && s.fence == w.f && s.now == now :: Accepts(s, r))
    ensures Unmoved(w.run, w.i, m, w.f.key)
  {
    KeptUntil(w, m);
    TimelyIsLive(w, m, now);
    HeldIffNotMoved(w.run, w.i, m, w.f);
  }
}
