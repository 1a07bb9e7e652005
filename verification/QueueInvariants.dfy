/** Invariants of the leased queue: the rows, the claims and the leases. Each group has one lemma
    saying that every action keeps it. */
module QueueInvariants {
  import opened Domain
  import opened Statements
  import opened System
  import opened Effects
  import Worker

  /** Everything that mentions a job mentions one that exists; ids are never reused. */
  ghost predicate Tidy(s: State) {
    && (forall j <- s.tables.jobs :: j < s.tables.nextJob)
    && s.log.claims.Keys <= s.tables.jobs.Keys
    && s.log.grants.Keys <= s.tables.jobs.Keys
    && s.log.closes.Keys <= s.tables.jobs.Keys
    && (forall id <- s.procs :: s.procs[id].job in s.tables.jobs)
  }

  lemma TidyStep(s: State, s': State, e: Effect, m: Motion)
    requires Tidy(s) && Stepped(s, s', e, m)
    ensures Tidy(s')
    ensures s.tables.jobs.Keys <= s'.tables.jobs.Keys
  {
    RowsAfter(s, s', e);
    assert s'.log.claims.Keys <= s'.tables.jobs.Keys;
    assert s'.log.grants.Keys <= s'.tables.jobs.Keys;
    assert s'.log.closes.Keys <= s'.tables.jobs.Keys;
  }

  ghost predicate RowOk(row: Job, claims: nat, closes: nat) {
    && !row.status.RetryWait?
    && !row.status.NeedsReconcile?
    && row.lockGeneration == row.attempt == claims
    && closes == (if row.status.Completed? || row.status.Failed? then 1 else 0)
    && (row.status.Pending? ==> claims == 0)
    && (row.status.Running? ==> claims > 0 && row.lockedBy.Some? && row.lockedUntil.Some?)
    && (row.status.Completed? || row.status.Failed? ==> claims > 0 && row.lockedBy.None? && row.lockedUntil.None?)
  }

  ghost predicate RowsOk(s: State) {
    forall j <- s.tables.jobs :: RowOk(s.tables.jobs[j], |Of(s.log.claims, j)|, |Of(s.log.closes, j)|)
  }

  lemma RowsStep(s: State, s': State, e: Effect)
    requires Tidy(s) && RowsOk(s) && Moved(s, s', e)
    ensures RowsOk(s')
  {
    forall j | j in s'.tables.jobs
      ensures RowOk(s'.tables.jobs[j], |Of(s'.log.claims, j)|, |Of(s'.log.closes, j)|)
    {
      if j in s.tables.jobs {
        assert RowOk(s.tables.jobs[j], |Of(s.log.claims, j)|, |Of(s.log.closes, j)|);
      }
    }
  }

  /** Generation g+1 of a job belongs to the process that made the (g+1)-th claim on it. */
  ghost predicate Claimant(s: State, id: ProcId) {
    id in s.procs && s.procs[id].job in s.tables.jobs &&
    var p := s.procs[id];
    var cs := Of(s.log.claims, p.job);
    1 <= p.generation <= |cs| && cs[p.generation - 1] == Some(id)
  }

  ghost predicate ClaimKnown(s: State, j: JobId, g: nat) {
    g < |Of(s.log.claims, j)| &&
    var c := Of(s.log.claims, j)[g];
    c.Some? ==> c.value in s.procs && s.procs[c.value].job == j && s.procs[c.value].generation == g + 1
  }

  ghost predicate ClaimsOk(s: State) {
    && (forall id <- s.procs :: Claimant(s, id))
    && (forall j, g: nat | g < |Of(s.log.claims, j)| :: ClaimKnown(s, j, g))
  }

  lemma IdentityKept(s: State, s': State, m: Motion, id: ProcId)
    requires ProcsMoved(s, s', m) && id in s.procs
    ensures id in s'.procs
    ensures Worker.TokenOf(s'.procs[id]) == Worker.TokenOf(s.procs[id])
    ensures s'.procs[id].lease == s.procs[id].lease
    ensures s'.procs[id].repo == s.procs[id].repo && s'.procs[id].dryRun == s.procs[id].dryRun
  {
  }

  /** The part of a step that matters to the claims. */
  ghost predicate ClaimsMoved(s: State, s': State, m: Motion) {
    && ProcsMoved(s, s', m)
    && s.tables.jobs.Keys <= s'.tables.jobs.Keys
    && forall j :: Of(s.log.claims, j) <= Of(s'.log.claims, j)
  }

  lemma ClaimsGrow(s: State, s': State, e: Effect)
    requires Moved(s, s', e)
    ensures s.tables.jobs.Keys <= s'.tables.jobs.Keys
    ensures forall j :: Of(s.log.claims, j) <= Of(s'.log.claims, j)
    ensures forall j, g: nat | |Of(s.log.claims, j)| <= g < |Of(s'.log.claims, j)| ::
              e.Taking? && e.job == j && g == |Of(s.log.claims, j)| &&
              Of(s'.log.claims, j)[g] == if e.told then Some(e.proc) else None
  {
  }

  lemma ClaimantKept(s: State, s': State, m: Motion, id: ProcId)
    requires ClaimsMoved(s, s', m) && Claimant(s, id)
    ensures Claimant(s', id)
  {
    IdentityKept(s, s', m, id);
    var j := s.procs[id].job;
    assert Of(s.log.claims, j) <= Of(s'.log.claims, j);
  }

  lemma ClaimKnownKept(s: State, s': State, m: Motion, j: JobId, g: nat)
    requires ClaimsMoved(s, s', m) && ClaimKnown(s, j, g)
    ensures ClaimKnown(s', j, g)
  {
    assert Of(s.log.claims, j) <= Of(s'.log.claims, j);
    var c := Of(s.log.claims, j)[g];
    if c.Some? { IdentityKept(s, s', m, c.value); }
  }

  lemma BornClaimant(s: State, s': State, m: Motion)
    requires RowsOk(s) && ProcsMoved(s, s', m) && m.Born?
    ensures Claimant(s', m.proc)
    ensures ClaimKnown(s', m.job, |Of(s.log.claims, m.job)|)
  {
    assert RowOk(s.tables.jobs[m.job], |Of(s.log.claims, m.job)|, |Of(s.log.closes, m.job)|);
  }

  lemma ClaimsStep(s: State, s': State, e: Effect, m: Motion)
    requires Tidy(s) && RowsOk(s) && ClaimsOk(s) && Stepped(s, s', e, m)
    ensures ClaimsOk(s')
  {
    ClaimsGrow(s, s', e);
    if m.Born? { BornClaimant(s, s', m); }
    forall id | id in s'.procs ensures Claimant(s', id) {
      if id in s.procs { ClaimantKept(s, s', m, id); }
    }
    forall j, g: nat | g < |Of(s'.log.claims, j)| ensures ClaimKnown(s', j, g) {
      if g < |Of(s.log.claims, j)| { ClaimKnownKept(s, s', m, j, g); }
    }
  }

  /** Two processes that hold the same job are one. */
  lemma OneHolder(s: State, p: ProcId, q: ProcId)
    requires ClaimsOk(s) && p in s.procs && q in s.procs
    requires s.procs[p].job == s.procs[q].job && s.procs[p].generation == s.procs[q].generation
    ensures p == q
  {
    assert Claimant(s, p) && Claimant(s, q);
  }

  /** A row that a process holds after a step that was not its own statement it held before, with
      the same blobs. */
  lemma HeldRowKept(s: State, s': State, e: Effect, id: ProcId)
    requires Tidy(s) && ClaimsOk(s) && Moved(s, s', e) && id in s.procs
    requires s.procs[id].job in s.tables.jobs
    requires s.tables.jobs[s.procs[id].job].lockGeneration >= s.procs[id].generation
    requires e.Writing? && !e.write.Beat? ==> e.proc != id
    ensures Holds(s'.tables.jobs, Worker.TokenOf(s.procs[id])) ==>
              && Holds(s.tables.jobs, Worker.TokenOf(s.procs[id]))
              && var j := s.procs[id].job;
                 var row, row' := s.tables.jobs[j], s'.tables.jobs[j];
              row'.contextBlob == row.contextBlob && row'.resultBlob == row.resultBlob && row'.promptVersion == row.promptVersion
  {
    OneRowAfter(s, s', e, s.procs[id].job);
    if e.Writing? && s.procs[e.proc].job == s.procs[id].job && s.procs[e.proc].generation == s.procs[id].generation {
      OneHolder(s, e.proc, id);
    }
  }

  /** No step touches a finished row or its log. */
  lemma TerminalRowKept(s: State, s': State, e: Effect, j: JobId)
    requires Tidy(s) && Moved(s, s', e) && j in s.tables.jobs && s.tables.jobs[j].status.Terminal()
    ensures j in s'.tables.jobs && s'.tables.jobs[j] == s.tables.jobs[j]
    ensures Of(s'.log.claims, j) == Of(s.log.claims, j)
    ensures Of(s'.log.grants, j) == Of(s.log.grants, j)
    ensures Of(s'.log.closes, j) == Of(s.log.closes, j)
  {
    OneRowAfter(s, s', e, j);
  }

  /** The generation of a process is one its job's row has reached. */
  lemma GenerationReached(s: State, id: ProcId)
    requires RowsOk(s) && ClaimsOk(s) && id in s.procs
    ensures s.procs[id].job in s.tables.jobs
    ensures 1 <= s.procs[id].generation <= s.tables.jobs[s.procs[id].job].lockGeneration
  {
    assert Claimant(s, id);
    var j := s.procs[id].job;
    assert RowOk(s.tables.jobs[j], |Of(s.log.claims, j)|, |Of(s.log.closes, j)|);
  }

  /** A lease still in force never ends later than the owner's next beat would make it end. */
  ghost predicate Renewable(s: State, id: ProcId) {
    id in s.procs &&
    (Holds(s.tables.jobs, Worker.TokenOf(s.procs[id])) ==>
       var until := s.tables.jobs[s.procs[id].job].lockedUntil;
       until.Some? && until.value <= s.tables.now + s.procs[id].lease)
  }

  ghost predicate RenewablesOk(s: State) {
    forall id <- s.procs :: Renewable(s, id)
  }

  /** A step that is neither the process's own beat nor a claim on its job leaves its lease at
      least as it was, or takes it away. */
  lemma RenewableKept(s: State, s': State, e: Effect, m: Motion, id: ProcId)
    requires Moved(s, s', e) && ProcsMoved(s, s', m) && ClaimsOk(s) && id in s.procs && Renewable(s, id)
    requires s.procs[id].job in s.tables.jobs && s.tables.jobs[s.procs[id].job].lockGeneration >= s.procs[id].generation
    ensures Renewable(s', id)
  {
    IdentityKept(s, s', m, id);
    if e.Writing? && Worker.TokenOf(s.procs[e.proc]) == Worker.TokenOf(s.procs[id]) {
      OneHolder(s, e.proc, id);
    }
  }

  lemma RenewablesStep(s: State, s': State, e: Effect, m: Motion)
    requires Tidy(s) && RowsOk(s) && ClaimsOk(s) && RenewablesOk(s) && Stepped(s, s', e, m)
    ensures RenewablesOk(s')
  {
    forall id | id in s'.procs ensures Renewable(s', id) {
      if id in s.procs {
        assert Claimant(s, id) && Renewable(s, id);
        var j := s.procs[id].job;
        assert RowOk(s.tables.jobs[j], |Of(s.log.claims, j)|, |Of(s.log.closes, j)|);
        RenewableKept(s, s', e, m, id);
      }
    }
  }

  ghost predicate GrantOk(row: Job, g: Grant, now: Time) {
    && 1 <= g.generation <= row.lockGeneration
    && g.from <= now
    && (g.generation < row.lockGeneration ==> g.until < now)
    && (g.generation == row.lockGeneration && row.status.Running? ==>
      row.lockedUntil.Some? && g.until <= row.lockedUntil.value && row.lockedBy == Some(g.worker))
  }

  /** Of two leases of one job, the later is a renewal by the same worker, or starts only after
      the earlier has run out. */
  ghost predicate InTurn(g: Grant, h: Grant) {
    || (g.generation == h.generation && g.worker == h.worker && g.from <= h.from && g.until <= h.until)
    || (g.generation < h.generation && g.until < h.from)
  }

  ghost predicate LeasesInTurn(gs: seq<Grant>) {
    forall i, k | 0 <= i < k < |gs| :: InTurn(gs[i], gs[k])
  }

  /** The row's lock is this lease. */
  ghost predicate InForce(row: Job, g: Grant) {
    && row.lockGeneration == g.generation
    && row.lockedBy == Some(g.worker)
    && row.lockedUntil == Some(g.until)
  }

  ghost predicate GrantsOk(row: Job, gs: seq<Grant>, now: Time) {
    && (forall i | 0 <= i < |gs| :: GrantOk(row, gs[i], now))
    && LeasesInTurn(gs)
    && (row.status.Running? ==> |gs| > 0 && InForce(row, gs[|gs| - 1]))
  }

  ghost predicate LeasesOk(s: State) {
    forall j <- s.tables.jobs :: GrantsOk(s.tables.jobs[j], Of(s.log.grants, j), s.tables.now)
  }

  lemma GrantAppended(row: Job, row': Job, gs: seq<Grant>, g: Grant, now: Time)
    requires GrantsOk(row, gs, now)
    requires row'.status.Running? && row'.lockGeneration == g.generation >= 1
    requires row'.lockedUntil == Some(g.until) && row'.lockedBy == Some(g.worker) && g.from == now
    requires
      || (row.status.Running? && row.lockGeneration == g.generation && row.lockedBy == Some(g.worker)
          && row.lockedUntil.Some? && row.lockedUntil.value <= g.until)
      || (row.lockGeneration < g.generation && row.status.Running? && row.lockedUntil.Some? && row.lockedUntil.value < now)
      || row.lockGeneration == 0
    ensures GrantsOk(row', gs + [g], now)
  {
    forall i | 0 <= i < |gs|
      ensures InTurn(gs[i], g) && GrantOk(row', gs[i], now)
    {
      assert GrantOk(row, gs[i], now);
    }
    forall i, k | 0 <= i < k < |gs + [g]| ensures InTurn((gs + [g])[i], (gs + [g])[k]) {
      if k < |gs| { assert InTurn(gs[i], gs[k]); }
    }
  }

  lemma GrantsKept(row: Job, row': Job, gs: seq<Grant>, now: Time, now': Time)
    requires GrantsOk(row, gs, now) && now <= now'
    requires row'.lockGeneration == row.lockGeneration
    requires row'.status.Running? ==> row.status.Running? && row'.lockedBy == row.lockedBy && row'.lockedUntil == row.lockedUntil
    ensures GrantsOk(row', gs, now')
  {
    forall i | 0 <= i < |gs| ensures GrantOk(row', gs[i], now') {
      assert GrantOk(row, gs[i], now);
    }
  }

  lemma GrantsAfterClaim(s: State, s': State, e: Effect)
    requires RowsOk(s) && LeasesOk(s) && Moved(s, s', e) && e.Taking?
    ensures GrantsOk(s'.tables.jobs[e.job], Of(s'.log.grants, e.job), s'.tables.now)
  {
    var j, now := e.job, s.tables.now;
    var row, gs := s.tables.jobs[j], Of(s.log.grants, j);
    assert RowOk(row, |Of(s.log.claims, j)|, |Of(s.log.closes, j)|);
    GrantAppended(row, s'.tables.jobs[j], gs, Grant(row.lockGeneration + 1, e.worker, now, now + e.lease), now);
  }

  lemma GrantsAfterBeat(s: State, s': State, e: Effect)
    requires RenewablesOk(s) && ClaimsOk(s) && LeasesOk(s) && Moved(s, s', e) && e.Writing? && e.write.Beat?
    ensures GrantsOk(s'.tables.jobs[s.procs[e.proc].job], Of(s'.log.grants, s.procs[e.proc].job), s'.tables.now)
  {
    var p, now := s.procs[e.proc], s.tables.now;
    assert Renewable(s, e.proc) && Claimant(s, e.proc);
    GrantAppended(s.tables.jobs[p.job], s'.tables.jobs[p.job], Of(s.log.grants, p.job),
                  Grant(p.generation, p.worker, now, e.write.until), now);
  }

  lemma GrantsElsewhere(s: State, s': State, e: Effect, j: JobId)
    requires Tidy(s) && LeasesOk(s) && Moved(s, s', e) && j in s.tables.jobs
    requires e.Taking? ==> e.job != j
    requires e.Writing? && e.write.Beat? ==> s.procs[e.proc].job != j
    ensures GrantsOk(s'.tables.jobs[j], Of(s'.log.grants, j), s'.tables.now)
  {
    OneRowAfter(s, s', e, j);
    GrantsKept(s.tables.jobs[j], s'.tables.jobs[j], Of(s.log.grants, j), s.tables.now, s'.tables.now);
  }

  lemma LeasesStep(s: State, s': State, e: Effect)
    requires Tidy(s) && RowsOk(s) && ClaimsOk(s) && RenewablesOk(s) && LeasesOk(s) && Moved(s, s', e)
    ensures LeasesOk(s')
  {
    forall j | j in s'.tables.jobs
      ensures GrantsOk(s'.tables.jobs[j], Of(s'.log.grants, j), s'.tables.now)
    {
      if j in s.tables.jobs {
        if e.Taking? && e.job == j {
          GrantsAfterClaim(s, s', e);
        } else if e.Writing? && e.write.Beat? && s.procs[e.proc].job == j {
          GrantsAfterBeat(s, s', e);
        } else {
          GrantsElsewhere(s, s', e, j);
        }
      } else {
        NewbornUngranted(s, s', e, j);
      }
    }
  }

  lemma NewbornUngranted(s: State, s': State, e: Effect, j: JobId)
    requires Tidy(s) && Moved(s, s', e) && j in s'.tables.jobs && j !in s.tables.jobs
    ensures Of(s'.log.grants, j) == []
  {
  }

  ghost predicate QueueInv(s: State) {
    Tidy(s) && RowsOk(s) && ClaimsOk(s) && RenewablesOk(s) && LeasesOk(s)
  }

  lemma QueueInvStep(s: State, s': State, e: Effect, m: Motion)
    requires QueueInv(s) && Stepped(s, s', e, m)
    ensures QueueInv(s')
  {
    TidyStep(s, s', e, m);
    RowsStep(s, s', e);
    ClaimsStep(s, s', e, m);
    RenewablesStep(s, s', e, m);
    LeasesStep(s, s', e);
  }
}
