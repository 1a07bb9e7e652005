/** What the leased queue guarantees in every reachable state and along every run. */
module QueueTheorems {
  import opened Domain
  import opened Statements
  import opened System
  import opened Effects
  import opened QueueInvariants
  import opened PublicationInvariants
  import opened ResultInvariants
  import opened Reachability
  import Worker

  lemma RowFacts(s: State, j: JobId)
    requires QueueInv(s) && j in s.tables.jobs
    ensures RowOk(s.tables.jobs[j], |Of(s.log.claims, j)|, |Of(s.log.closes, j)|)
    ensures GrantsOk(s.tables.jobs[j], Of(s.log.grants, j), s.tables.now)
  {
  }

  lemma LogHasRow(s: State, j: JobId)
    requires QueueInv(s) && Of(s.log.grants, j) != []
    ensures j in s.tables.jobs
  {
  }

  /** Of two leases of one job, given in this order: within one generation the later renews the
      earlier for the same worker; a later generation starts strictly after every deadline ever set
      for an earlier one. So no beat of an old generation follows the claim of a new one. */
  lemma LeasesNeverOverlap(s: State, j: JobId, i: nat, k: nat)
    requires Reachable(s) && i < k < |Of(s.log.grants, j)|
    ensures var g, h := Of(s.log.grants, j)[i], Of(s.log.grants, j)[k];
            && g.generation <= h.generation
            && (g.generation == h.generation ==> g.worker == h.worker && g.from <= h.from && g.until <= h.until)
            && (g.generation < h.generation ==> g.until < h.from)
  {
    InvariantsHold(s);
    LogHasRow(s, j);
    RowFacts(s, j);
    assert InTurn(Of(s.log.grants, j)[i], Of(s.log.grants, j)[k]);
  }

  /** At any instant at most one worker, under one generation, has an unexpired lease on a job. */
  lemma OneLeaseAtATime(s: State, j: JobId, g: Grant, h: Grant, at: Time)
    requires Reachable(s)
    requires g in Of(s.log.grants, j) && h in Of(s.log.grants, j)
    requires g.from <= at <= g.until && h.from <= at <= h.until
    ensures g.generation == h.generation && g.worker == h.worker
  {
    var gs := Of(s.log.grants, j);
    var i :| 0 <= i < |gs| && gs[i] == g;
    var k :| 0 <= k < |gs| && gs[k] == h;
    if i < k { LeasesNeverOverlap(s, j, i, k); }
    if k < i { LeasesNeverOverlap(s, j, k, i); }
  }

  /** A running row carries exactly the last lease that was handed out. */
  lemma RunningRowHasLastLease(s: State, j: JobId)
    requires Reachable(s) && j in s.tables.jobs && s.tables.jobs[j].status.Running?
    ensures var row, gs := s.tables.jobs[j], Of(s.log.grants, j);
            && |gs| > 0
            && row.lockGeneration == gs[|gs| - 1].generation
            && row.lockedBy == Some(gs[|gs| - 1].worker)
            && row.lockedUntil == Some(gs[|gs| - 1].until)
  {
    InvariantsHold(s);
    RowFacts(s, j);
  }

  /** The generation is the attempt is the number of claims; a completed or failed row carries no
      lock and was closed by exactly one CompleteJob or FailJob, any other row by none; and the two
      statuses that no statement produces never appear. */
  lemma GenerationCountsClaims(s: State, j: JobId)
    requires Reachable(s) && j in s.tables.jobs
    ensures var row := s.tables.jobs[j];
            && row.lockGeneration == row.attempt == |Of(s.log.claims, j)|
            && |Of(s.log.closes, j)| == (if row.status.Completed? || row.status.Failed? then 1 else 0)
            && (row.status.Completed? || row.status.Failed? ==> row.lockedBy.None? && row.lockedUntil.None?)
            && !row.status.RetryWait? && !row.status.NeedsReconcile?
  {
    InvariantsHold(s);
    RowFacts(s, j);
  }

  /** A finished row never changes again in any column, whatever happens next. */
  lemma {:induction false} FinishedIsFrozen(s: State, run: seq<Action>, j: JobId)
    requires Reachable(s) && j in s.tables.jobs && s.tables.jobs[j].status.Terminal()
    ensures j in Exec(s, run).tables.jobs && Exec(s, run).tables.jobs[j] == s.tables.jobs[j]
  {
    if run != [] {
      var n := |run| - 1;
      FinishedIsFrozen(s, run[..n], j);
      StillReachable(s, run[..n]);
      var m := Exec(s, run[..n]);
      InvariantsHold(m);
      EffectOfAction(m, run[n]);
      TerminalRowKept(m, Apply(m, run[n]), EffectOf(m, run[n]), j);
    }
  }

  /** In any state, a process whose generation is not the row's changes no row, under whatever
      worker id; and no process ever changes a row other than its job's. */
  lemma StaleNeverWrites(s: State, a: Action, id: ProcId, j: JobId)
    requires (a.Work? || a.Heartbeat?) && a.proc == id && id in s.procs && j in s.tables.jobs
    requires s.procs[id].job != j || s.procs[id].generation != s.tables.jobs[j].lockGeneration
    ensures j in Apply(s, a).tables.jobs && Apply(s, a).tables.jobs[j] == s.tables.jobs[j]
  {
    EffectOfAction(s, a);
    var e := EffectOf(s, a);
    assert e.Quiet? || (e.Writing? && e.proc == id);
  }

  lemma CompletedFacts(s: State, j: JobId) returns (id: ProcId)
    requires QueueInv(s) && ResultInv(s)
    requires j in s.tables.jobs && s.tables.jobs[j].status.Completed?
    ensures Of(s.log.closes, j) == [id] && ClosedBy(s, j, id)
    ensures |Of(s.log.claims, j)| == s.tables.jobs[j].lockGeneration > 0
    ensures Of(s.log.claims, j)[|Of(s.log.claims, j)| - 1] == Some(id)
  {
    RowFacts(s, j);
    assert ClosedOk(s, j);
    id := Of(s.log.closes, j)[0];
    assert Claimant(s, id);
  }

  /** What a completed row holds was computed, context and result, by the one process that made the
      job's last claim, and that process had seen its Publish return nil. */
  lemma CompletedIsLastClaimants(s: State, j: JobId) returns (id: ProcId)
    requires Reachable(s) && j in s.tables.jobs && s.tables.jobs[j].status.Completed?
    ensures |Of(s.log.claims, j)| == s.tables.jobs[j].lockGeneration > 0
    ensures Of(s.log.claims, j)[s.tables.jobs[j].lockGeneration - 1] == Some(id)
    ensures Of(s.log.closes, j) == [id]
    ensures id in s.procs && s.procs[id].published
    ensures s.procs[id].result.Some? && s.tables.jobs[j].resultBlob == s.procs[id].result
    ensures s.procs[id].context == Some(s.tables.jobs[j].contextBlob)
    ensures s.tables.jobs[j].promptVersion == Some("critic-v1")
  {
    InvariantsHold(s);
    id := CompletedFacts(s, j);
  }

  /** A live row can be claimed exactly when it is pending or its deadline has passed; a running row
      always has an owner and a deadline. */
  lemma ClaimableExactly(s: State, j: JobId)
    requires Reachable(s) && j in s.tables.jobs && s.tables.jobs[j].status.Live()
    ensures var row := s.tables.jobs[j];
            && (row.status.Pending? || (row.lockedUntil.Some? && row.lockedBy.Some?))
            && (Claimable(row, s.tables.now) <==> row.status.Pending? || row.lockedUntil.value < s.tables.now)
  {
    InvariantsHold(s);
    RowFacts(s, j);
  }

  /** A claim that is allowed makes its process the only holder of the job. */
  lemma ClaimTakesOver(s: State, a: Action)
    requires QueueInv(s) && a.Claim? && a.fault.Delivered? && a.proc !in s.procs && a.job in s.tables.jobs
    requires Claimable(s.tables.jobs[a.job], s.tables.now)
    ensures var s' := Apply(s, a);
            && a.proc in s'.procs
            && Holds(s'.tables.jobs, Worker.TokenOf(s'.procs[a.proc]))
            && s'.procs[a.proc].job == a.job
            && s'.procs[a.proc].generation == s.tables.jobs[a.job].lockGeneration + 1
            && s'.procs[a.proc].worker == a.worker && s'.procs[a.proc].lease == a.lease && s'.procs[a.proc].dryRun == a.dryRun
            && s'.procs[a.proc].repo == s.tables.jobs[a.job].pr.repo
            && s'.procs[a.proc].beating && !s'.procs[a.proc].cancelled
            && s'.tables.jobs[a.job].lockedUntil == Some(s.tables.now + a.lease)
            && forall id <- s.procs :: s.procs[id].job == a.job ==> !Holds(s'.tables.jobs, Worker.TokenOf(s.procs[id]))
  {
    forall id | id in s.procs && s.procs[id].job == a.job
      ensures s.procs[id].generation <= s.tables.jobs[a.job].lockGeneration
    {
      GenerationReached(s, id);
    }
  }

  /** No live job is stranded: after some wait any worker can take it over, whoever held it. */
  lemma AbandonedIsReclaimed(s: State, j: JobId, a: Action) returns (wait: nat)
    requires Reachable(s) && j in s.tables.jobs && s.tables.jobs[j].status.Live()
    requires a.Claim? && a.fault.Delivered? && a.job == j && a.proc !in s.procs
    ensures var later := Apply(s, Tick(wait));
            var s' := Apply(later, a);
            && a.proc in s'.procs
            && Holds(s'.tables.jobs, Worker.TokenOf(s'.procs[a.proc]))
            && s'.procs[a.proc].generation == s.tables.jobs[j].lockGeneration + 1
            && forall id <- s.procs :: s.procs[id].job == j ==> !Holds(s'.tables.jobs, Worker.TokenOf(s.procs[id]))
  {
    ClaimableExactly(s, j);
    var row := s.tables.jobs[j];
    wait := if Claimable(row, s.tables.now) then 0 else row.lockedUntil.value - s.tables.now + 1;
    OneMore(Init(), s, Tick(wait));
    InvariantsHold(Apply(s, Tick(wait)));
    ClaimTakesOver(Apply(s, Tick(wait)), a);
  }

  /** The time since a process's last delivered beat, along a run from `s`. */
  function Silence(s: State, id: ProcId, since: int, run: seq<Action>): int {
    if run == [] then since
    else
      var n := |run| - 1;
      Quieter(Exec(s, run[..n]), id, Silence(s, id, since, run[..n]), run[n])
  }

  function Quieter(s: State, id: ProcId, silence: int, a: Action): int {
    if a.Tick? then silence + a.elapsed
    else if a.Heartbeat? && a.proc == id && a.fault.Delivered? && id in s.procs && s.procs[id].beating then 0
    else silence
  }

  /** Successive beats come no more than a lease apart. */
  ghost predicate OnTime(s: State, id: ProcId, since: int, run: seq<Action>, lease: int) {
    forall k | 0 <= k <= |run| :: Silence(s, id, since, run[..k]) <= lease
  }

  /** The row is still of this generation; while it runs it is this worker's, until `deadline` at
      least. */
  ghost predicate Keeps(s: State, t: Token, deadline: Time) {
    && t.job in s.tables.jobs
    && var row := s.tables.jobs[t.job];
    && row.lockGeneration == t.generation
    && (row.status.Running? || row.status.Terminal())
    && (row.status.Running? ==>
      && row.lockedBy == Some(t.worker)
      && row.lockedUntil.Some?
      && row.lockedUntil.value >= deadline)
  }

  lemma KeepsOthers(s: State, a: Action, id: ProcId, deadline: Time)
    requires Tidy(s) && ClaimsOk(s) && id in s.procs
    requires Keeps(s, Worker.TokenOf(s.procs[id]), deadline) && deadline >= s.tables.now
    requires !(EffectOf(s, a).Writing? && EffectOf(s, a).proc == id)
    ensures Keeps(Apply(s, a), Worker.TokenOf(s.procs[id]), deadline)
  {
    var e, s' := EffectOf(s, a), Apply(s, a);
    EffectOfAction(s, a);
    RowsAfter(s, s', e);
    if e.Writing? && s.procs[e.proc].job == s.procs[id].job && s.procs[e.proc].generation == s.procs[id].generation {
      OneHolder(s, e.proc, id);
    }
  }

  lemma KeepsOwn(s: State, a: Action, id: ProcId, deadline: Time)
    requires Tidy(s) && RenewablesOk(s) && id in s.procs
    requires Keeps(s, Worker.TokenOf(s.procs[id]), deadline)
    requires EffectOf(s, a).Writing? && EffectOf(s, a).proc == id
    ensures Keeps(Apply(s, a), Worker.TokenOf(s.procs[id]), deadline)
    ensures EffectOf(s, a).write.Beat? ==>
              Keeps(Apply(s, a), Worker.TokenOf(s.procs[id]), s.tables.now + s.procs[id].lease)
  {
    var e, s' := EffectOf(s, a), Apply(s, a);
    EffectOfAction(s, a);
    RowsAfter(s, s', e);
    assert Renewable(s, id);
  }

  lemma KeepsStep(s: State, a: Action, id: ProcId, silence: int)
    requires Tidy(s) && ClaimsOk(s) && RenewablesOk(s) && id in s.procs && silence <= s.procs[id].lease
    requires Keeps(s, Worker.TokenOf(s.procs[id]), s.tables.now + s.procs[id].lease - silence)
    ensures Keeps(Apply(s, a), Worker.TokenOf(s.procs[id]),
                  Apply(s, a).tables.now + s.procs[id].lease - Quieter(s, id, silence, a))
  {
    var deadline := s.tables.now + s.procs[id].lease - silence;
    TimeOnlyTicks(s, a);
    if EffectOf(s, a).Writing? && EffectOf(s, a).proc == id {
      KeepsOwn(s, a, id, deadline);
    } else {
      KeepsOthers(s, a, id, deadline);
    }
  }

  lemma TimeOnlyTicks(s: State, a: Action)
    ensures Apply(s, a).tables.now == s.tables.now + (if a.Tick? then a.elapsed else 0)
  {
    match a
    case Work(_, _, _) =>
    case Handle(_, _) =>
    case _ =>
  }

  lemma {:induction false} KeepsAlong(s: State, id: ProcId, silence: int, run: seq<Action>)
    requires Reachable(s) && id in s.procs
    requires Keeps(s, Worker.TokenOf(s.procs[id]), s.tables.now + s.procs[id].lease - silence)
    requires OnTime(s, id, silence, run, s.procs[id].lease)
    ensures id in Exec(s, run).procs && SameIdentity(s.procs[id], Exec(s, run).procs[id])
    ensures Keeps(Exec(s, run), Worker.TokenOf(s.procs[id]),
                  Exec(s, run).tables.now + s.procs[id].lease - Silence(s, id, silence, run))
  {
    if run != [] {
      var n := |run| - 1;
      assert OnTime(s, id, silence, run[..n], s.procs[id].lease) by {
        forall k | 0 <= k <= n ensures Silence(s, id, silence, run[..n][..k]) <= s.procs[id].lease {
          assert run[..n][..k] == run[..k];
        }
      }
      KeepsAlong(s, id, silence, run[..n]);
      var m := Exec(s, run[..n]);
      StillReachable(s, run[..n]);
      InvariantsHold(m);
      MotionOfAction(m, run[n]);
      IdentityKept(m, Apply(m, run[n]), MotionOf(m, run[n]), id);
      KeepsStep(m, run[n], id, Silence(s, id, silence, run[..n]));
    }
  }

  /** From the moment a process holds a job, as long as its beats come no more than one lease apart
      nobody else gets to claim the job: no claim is enabled, and the generation stands still. */
  lemma BeatingKeepsTheJob(s: State, id: ProcId, run: seq<Action>)
    requires Reachable(s) && id in s.procs && Holds(s.tables.jobs, Worker.TokenOf(s.procs[id]))
    requires s.tables.jobs[s.procs[id].job].lockedUntil.Some?
    requires var p := s.procs[id];
             OnTime(s, id, s.tables.now + p.lease - s.tables.jobs[p.job].lockedUntil.value, run, p.lease)
    ensures var j, s' := s.procs[id].job, Exec(s, run);
            && j in s'.tables.jobs
            && s'.tables.jobs[j].lockGeneration == s.procs[id].generation
            && !Claimable(s'.tables.jobs[j], s'.tables.now)
            && (s'.tables.jobs[j].status.Running? ==> Holds(s'.tables.jobs, Worker.TokenOf(s.procs[id])))
  {
    var p := s.procs[id];
    KeepsAlong(s, id, s.tables.now + p.lease - s.tables.jobs[p.job].lockedUntil.value, run);
    assert run[..|run|] == run;
  }

  /** The heartbeat goroutine has ended before the job is finalised in the database. */
  lemma NoBeatDuringFinalisation(s: State, id: ProcId, fault: Fault)
    requires Reachable(s) && id in s.procs
    requires var pc := s.procs[id].pc; pc.Deciding? || pc.Failing? || pc.Completing? || pc.Stopped?
    ensures Apply(s, Heartbeat(id, fault)) == s
  {
    InvariantsHold(s);
    assert LocalOk(s.procs[id]);
  }
}
