/** Exactly which live jobs can still be completed: with dry runs allowed to help, and for real. */
module Completion {
  import opened Domain
  import opened Statements
  import opened System
  import opened Effects
  import opened QueueInvariants
  import opened PublicationInvariants
  import opened ResultInvariants
  import opened Reachability
  import Progress
  import PublicationTheorems
  import QueueTheorems
  import Worker

  /** A process works on the repository of its job's row. */
  ghost predicate ReposOk(s: State) {
    forall id <- s.procs :: s.procs[id].job in s.tables.jobs && s.procs[id].repo == s.tables.jobs[s.procs[id].job].pr.repo
  }

  lemma PullRequestKept(s: State, s': State, e: Effect, j: JobId)
    requires Tidy(s) && Moved(s, s', e) && j in s.tables.jobs
    ensures j in s'.tables.jobs && s'.tables.jobs[j].pr == s.tables.jobs[j].pr
  {
    OneRowAfter(s, s', e, j);
  }

  lemma ReposStep(s: State, s': State, e: Effect, m: Motion)
    requires Tidy(s) && ReposOk(s) && Stepped(s, s', e, m)
    ensures ReposOk(s')
  {
    forall id | id in s'.procs
      ensures s'.procs[id].job in s'.tables.jobs && s'.procs[id].repo == s'.tables.jobs[s'.procs[id].job].pr.repo
    {
      if id in s.procs {
        IdentityKept(s, s', m, id);
        assert Worker.TokenOf(s'.procs[id]).job == s.procs[id].job;
        PullRequestKept(s, s', e, s.procs[id].job);
      }
    }
  }

  lemma {:induction false} ReposAlong(run: seq<Action>)
    ensures ReposOk(Exec(Init(), run))
  {
    if run != [] {
      var n := |run| - 1;
      ReposAlong(run[..n]);
      InvAlong(run[..n]);
      var m := Exec(Init(), run[..n]);
      EveryAction(m, run[n]);
      ReposStep(m, Apply(m, run[n]), EffectOf(m, run[n]), MotionOf(m, run[n]));
    }
  }

  lemma ReposHold(s: State)
    requires Reachable(s)
    ensures ReposOk(s)
  {
    var run: seq<Action> :| Exec(Init(), run) == s;
    ReposAlong(run);
  }

  lemma {:induction false} RowStaysAlong(s: State, run: seq<Action>, j: JobId)
    requires Reachable(s) && j in s.tables.jobs
    ensures j in Exec(s, run).tables.jobs && Exec(s, run).tables.jobs[j].pr == s.tables.jobs[j].pr
  {
    if run != [] {
      var n := |run| - 1;
      RowStaysAlong(s, run[..n], j);
      StillReachable(s, run[..n]);
      var m := Exec(s, run[..n]);
      InvariantsHold(m);
      EffectOfAction(m, run[n]);
      PullRequestKept(m, Apply(m, run[n]), EffectOf(m, run[n]), j);
    }
  }

  lemma CompletedIsWellNamed(s: State, j: JobId)
    requires Reachable(s) && j in s.tables.jobs && s.tables.jobs[j].status.Completed?
    ensures Worker.ValidRepo(s.tables.jobs[j].pr.repo)
  {
    ReposHold(s);
    InvariantsHold(s);
    var id := QueueTheorems.CompletedFacts(s, j);
    assert LocalOk(s.procs[id]);
  }

  lemma {:induction false} SomeFreshProcess(ids: set<ProcId>) returns (id: ProcId)
    ensures forall x <- ids :: x < id
    decreases ids
  {
    id := 0;
    if ids != {} {
      var x :| x in ids;
      var bound := SomeFreshProcess(ids - {x});
      id := if x < bound then bound else x + 1;
      assert forall y <- ids :: y == x || y in ids - {x};
    }
  }

  /** As long as dry runs may claim it, a live job can still be completed if and only if its repository
      name is well formed: then from every reachable state some run completes it, otherwise no run
      ever does. The run may need a dry run's claim; the next theorem is about doing without. */
  lemma CompletableExactly(s: State, j: JobId)
    requires Reachable(s) && j in s.tables.jobs && s.tables.jobs[j].status.Live()
    ensures Worker.ValidRepo(s.tables.jobs[j].pr.repo) <==>
            exists s' :: Leads(s, s') && j in s'.tables.jobs && s'.tables.jobs[j].status.Completed?
  {
    if Worker.ValidRepo(s.tables.jobs[j].pr.repo) {
      var s' := CanStillComplete(s, j);
    } else {
      forall s' | Leads(s, s') && j in s'.tables.jobs && s'.tables.jobs[j].status.Completed? ensures false {
        NamesOfCompleted(s, s', j);
      }
    }
  }

  lemma NamesOfCompleted(s: State, s': State, j: JobId)
    requires Reachable(s) && j in s.tables.jobs && Leads(s, s')
    requires j in s'.tables.jobs && s'.tables.jobs[j].status.Completed?
    ensures Worker.ValidRepo(s.tables.jobs[j].pr.repo)
  {
    var run: seq<Action> :| Exec(s, run) == s';
    RowStaysAlong(s, run, j);
    StillReachable(s, run);
    CompletedIsWellNamed(s', j);
  }

  /** A dry run completes any live job with a well-formed repository name. */
  lemma CanStillComplete(s: State, j: JobId) returns (s': State)
    requires Reachable(s) && j in s.tables.jobs && s.tables.jobs[j].status.Live()
    requires Worker.ValidRepo(s.tables.jobs[j].pr.repo)
    ensures Leads(s, s') && j in s'.tables.jobs && s'.tables.jobs[j].status.Completed?
  {
    var id := SomeFreshProcess(s.procs.Keys);
    var m := Progress.GetsClaimed(s, j, id, true);
    s' := Progress.RunCompletes(m, m, id);
    LeadsOn(s, m, s');
  }

  ghost predicate HasFailed(s: State, j: JobId) {
    j in s.tables.publications && s.tables.publications[j].state.PublicationFailed?
  }

  /** Some process that holds the job now can finish it whatever its publication says. */
  ghost predicate SomeoneCanFinish(s: State, j: JobId) {
    exists id <- s.procs :: s.procs[id].job == j && CanFinishNow(s, id)
  }

  ghost predicate CanFinishNow(s: State, id: ProcId)
    requires id in s.procs
  {
    Holds(s.tables.jobs, Worker.TokenOf(s.procs[id])) && Progress.CanFinish(s.procs[id])
  }

  /** The publication has failed, the job is not completed, and nobody can finish it any more. */
  ghost predicate Stuck(s: State, j: JobId) {
    && j in s.tables.jobs && !s.tables.jobs[j].status.Completed?
    && HasFailed(s, j)
    && !SomeoneCanFinish(s, j)
  }

  /** A step does not bring a process within reach of the end, once the publication has failed. */
  lemma StaysOutOfReach(p: Worker.Proc, r: Worker.Reply)
    requires LocalOk(p) && Worker.Fits(Worker.Ask(p), r) && !Progress.CanFinish(p) && Level(p.pc) != 5
    requires p.pc.CtxCheck? && p.cancelled ==> r.Error?
    requires p.pc.Beginning? ==> !r.Done?
    requires p.pc.DryBeginning? ==> !r.Done?
    requires p.pc.Reading? && r.PublicationRow? && r.publication.Some? ==> r.publication.value.state.PublicationFailed?
    ensures !Progress.CanFinish(Worker.Resume(p, r))
  {
    LevelAfter(p, r);
    match p.pc
    case CtxCheck(stage) =>
    case DbCheck(stage) =>
    case _ =>
  }

  /** A process that holds its job after a step held it before. */
  lemma HeldBefore(s: State, s': State, e: Effect, id: ProcId)
    requires Tidy(s) && RowsOk(s) && ClaimsOk(s) && Moved(s, s', e) && id in s.procs
    requires Holds(s'.tables.jobs, Worker.TokenOf(s.procs[id]))
    ensures Holds(s.tables.jobs, Worker.TokenOf(s.procs[id]))
  {
    if !(e.Writing? && !e.write.Beat? && e.proc == id) {
      GenerationReached(s, id);
      HeldRowKept(s, s', e, id);
    }
  }

  lemma ResumedOutOfReach(s: State, s': State, e: Effect, m: Motion, u: Publishing)
    requires PublicationInv(s) && ProcsMoved(s, s', m) && Followed(s, e, m)
    requires PubsMoved(s, s', u) && PublishingFollowed(s, m, u)
    requires m.Resumed? && HasFailed(s, s.procs[m.proc].job) && !Progress.CanFinish(s.procs[m.proc])
    ensures !Progress.CanFinish(s'.procs[m.proc])
  {
    var p := s.procs[m.proc];
    assert LocalOk(p) && FenceOk(s, m.proc) && PublicationOk(s, p.job);
    StaysOutOfReach(p, m.reply);
  }

  lemma OthersOutOfReach(s: State, s': State, m: Motion, id: ProcId)
    requires ProcsMoved(s, s', m) && id in s.procs && !(m.Resumed? && m.proc == id)
    requires !Progress.CanFinish(s.procs[id])
    ensures id in s'.procs && !Progress.CanFinish(s'.procs[id])
  {
  }

  lemma StaysAway(s: State, s': State, e: Effect, m: Motion, u: Publishing, id: ProcId)
    requires Tidy(s) && RowsOk(s) && ClaimsOk(s) && PublicationInv(s)
    requires Moved(s, s', e) && ProcsMoved(s, s', m) && Followed(s, e, m)
    requires PubsMoved(s, s', u) && PublishingFollowed(s, m, u)
    requires id in s.procs && HasFailed(s, s.procs[id].job) && !CanFinishNow(s, id)
    ensures id in s'.procs && !CanFinishNow(s', id)
  {
    IdentityKept(s, s', m, id);
    if Holds(s'.tables.jobs, Worker.TokenOf(s'.procs[id])) {
      HeldBefore(s, s', e, id);
      if m.Resumed? && m.proc == id {
        ResumedOutOfReach(s, s', e, m, u);
      } else {
        OthersOutOfReach(s, s', m, id);
      }
    }
  }

  /** Who claims a job for real starts out of reach. */
  lemma NewbornsAreAway(s: State, s': State, m: Motion, id: ProcId, j: JobId)
    requires ProcsMoved(s, s', m) && (m.Born? && m.job == j ==> !m.dryRun)
    requires id in s'.procs && id !in s.procs && s'.procs[id].job == j
    ensures !Progress.CanFinish(s'.procs[id])
  {
  }

  /** No process comes within reach in a step that claims the job for real or not at all. */
  lemma NobodyComesWithinReach(s: State, s': State, e: Effect, m: Motion, u: Publishing, j: JobId)
    requires Tidy(s) && RowsOk(s) && ClaimsOk(s) && PublicationInv(s)
    requires Moved(s, s', e) && ProcsMoved(s, s', m) && Followed(s, e, m)
    requires PubsMoved(s, s', u) && PublishingFollowed(s, m, u)
    requires m.Born? && m.job == j ==> !m.dryRun
    requires Stuck(s, j)
    ensures !SomeoneCanFinish(s', j)
  {
    forall id | id in s'.procs && s'.procs[id].job == j ensures !CanFinishNow(s', id) {
      if id in s.procs {
        IdentityKept(s, s', m, id);
        assert s.procs[id].job == Worker.TokenOf(s'.procs[id]).job;
        StaysAway(s, s', e, m, u, id);
      } else {
        NewbornsAreAway(s, s', m, id, j);
      }
    }
  }

  /** Only a process within reach of the end completes the job. */
  lemma NotCompletedEither(s: State, s': State, e: Effect, m: Motion, j: JobId)
    requires Tidy(s) && Moved(s, s', e) && Followed(s, e, m) && Stuck(s, j)
    ensures j in s'.tables.jobs && !s'.tables.jobs[j].status.Completed?
  {
    OneRowAfter(s, s', e, j);
    if e.Writing? && e.write.Complete? && s.procs[e.proc].job == j {
      assert CanFinishNow(s, e.proc);
    }
  }

  lemma ClaimsForReal(s: State, a: Action, j: JobId)
    requires a.Claim? && a.job == j ==> !a.dryRun
    ensures var m := MotionOf(s, a); m.Born? && m.job == j ==> !m.dryRun
  {
  }

  lemma StillFailed(s: State, s': State, m: Motion, u: Publishing, j: JobId)
    requires PublicationInv(s) && PubsMoved(s, s', u) && PublishingFollowed(s, m, u) && HasFailed(s, j)
    ensures HasFailed(s', j)
  {
    assert PublicationOk(s, j);
    if !u.Untouched? { assert FenceOk(s, u.proc); }
    PublicationTheorems.SettlingMove(s, s', m, u, j);
  }

  lemma StuckStep(s: State, a: Action, j: JobId)
    requires Inv(s) && Stuck(s, j) && (a.Claim? && a.job == j ==> !a.dryRun)
    ensures Stuck(Apply(s, a), j)
  {
    var s', e, m, u := Apply(s, a), EffectOf(s, a), MotionOf(s, a), PublishingOf(s, a);
    EveryAction(s, a);
    ProgramFollowed(s, a);
    PublishingOfAction(s, a);
    PublishingCoupled(s, a);
    ClaimsForReal(s, a, j);
    StillStuck(s, s', e, m, u, j);
  }

  lemma StillStuck(s: State, s': State, e: Effect, m: Motion, u: Publishing, j: JobId)
    requires Tidy(s) && RowsOk(s) && ClaimsOk(s) && PublicationInv(s)
    requires Moved(s, s', e) && ProcsMoved(s, s', m) && Followed(s, e, m)
    requires PubsMoved(s, s', u) && PublishingFollowed(s, m, u)
    requires m.Born? && m.job == j ==> !m.dryRun
    requires Stuck(s, j)
    ensures Stuck(s', j)
  {
    NobodyComesWithinReach(s, s', e, m, u, j);
    NotCompletedEither(s, s', e, m, j);
    StillFailed(s, s', m, u, j);
  }

  lemma {:induction false} StuckAlong(s: State, run: seq<Action>, j: JobId)
    requires Reachable(s) && Stuck(s, j) && ForReal(run, j)
    ensures Stuck(Exec(s, run), j)
  {
    if run != [] {
      var n := |run| - 1;
      assert run[n] in run;
      StuckAlong(s, run[..n], j);
      StillReachable(s, run[..n]);
      InvariantsHold(Exec(s, run[..n]));
      StuckStep(Exec(s, run[..n]), run[n], j);
    }
  }

  lemma CompletesForReal(s: State, j: JobId) returns (s': State)
    requires Reachable(s) && j in s.tables.jobs && s.tables.jobs[j].status.Live()
    requires Worker.ValidRepo(s.tables.jobs[j].pr.repo) && (HasFailed(s, j) ==> SomeoneCanFinish(s, j))
    ensures LeadsForReal(s, s', j) && j in s'.tables.jobs && s'.tables.jobs[j].status.Completed?
  {
    if HasFailed(s, j) {
      var id :| id in s.procs && s.procs[id].job == j && CanFinishNow(s, id);
      InvariantsHold(s);
      assert LocalOk(s.procs[id]);
      ReposHold(s);
      s' := Progress.Finishes(s, id);
      ForRealToItself(s, j);
      LeadsOnForReal(s, s, s', j);
    } else {
      var id := SomeFreshProcess(s.procs.Keys);
      var m := Progress.GetsClaimed(s, j, id, false);
      s' := Progress.RunCompletes(m, m, id);
      LeadsOnForReal(s, m, s', j);
    }
  }

  /** If every further claim on it is for real, a live job can still be completed if and only if its
      repository name is well formed and its publication has not failed, or a process that holds the
      job now is already past Publish, or is a dry run on its way. Otherwise every process that claims
      it for real runs into the failed row, for ever. */
  lemma CompletableForRealExactly(s: State, j: JobId)
    requires Reachable(s) && j in s.tables.jobs && s.tables.jobs[j].status.Live()
    ensures (exists s' :: LeadsForReal(s, s', j) && j in s'.tables.jobs && s'.tables.jobs[j].status.Completed?) <==>
            Worker.ValidRepo(s.tables.jobs[j].pr.repo) && (!HasFailed(s, j) || SomeoneCanFinish(s, j))
  {
    if Worker.ValidRepo(s.tables.jobs[j].pr.repo) && (!HasFailed(s, j) || SomeoneCanFinish(s, j)) {
      var s' := CompletesForReal(s, j);
    } else {
      forall s' | LeadsForReal(s, s', j) && j in s'.tables.jobs && s'.tables.jobs[j].status.Completed? ensures false {
        var run: seq<Action> :| ForReal(run, j) && Exec(s, run) == s';
        NamesOfCompleted(s, s', j);
        StuckAlong(s, run, j);
      }
    }
  }

  /** A well-formed repository name is an owner and a repository with one slash between them. */
  lemma WellNamedExactly(name: string)
    ensures Worker.ValidRepo(name) <==>
            exists i | 0 <= i < |name| :: name[i] == '/' && '/' !in name[..i] && '/' !in name[i + 1..]
  {
    if Worker.ValidRepo(name) {
      var i := FirstSlash(name);
      assert name == name[..i] + name[i..];
      SlashesJoin(name[..i], name[i..]);
      SlashFree(name[..i]);
      SlashFree(name[i + 1..]);
    }
    if i :| 0 <= i < |name| && name[i] == '/' && '/' !in name[..i] && '/' !in name[i + 1..] {
      assert name == name[..i] + name[i..];
      SlashesJoin(name[..i], name[i..]);
      SlashFree(name[..i]);
      SlashFree(name[i + 1..]);
      assert name[i..][1..] == name[i + 1..];
    }
  }

  lemma {:induction false} SlashFree(name: string)
    ensures Worker.Slashes(name) == 0 <==> '/' !in name
  {
    if name != "" { SlashFree(name[1..]); }
  }

  lemma {:induction false} SlashesJoin(a: string, b: string)
    ensures Worker.Slashes(a + b) == Worker.Slashes(a) + Worker.Slashes(b)
  {
    if a == "" {
      assert a + b == b;
    } else {
      SlashesJoin(a[1..], b);
      assert (a + b)[1..] == a[1..] + b;
    }
  }

  lemma {:induction false} FirstSlash(name: string) returns (i: nat)
    requires Worker.Slashes(name) > 0
    ensures i < |name| && name[i] == '/' && '/' !in name[..i] && name[i..][1..] == name[i + 1..]
  {
    if name[0] == '/' {
      i := 0;
    } else {
      i := FirstSlash(name[1..]);
      assert name[..i + 1] == [name[0]] + name[1..][..i];
      i := i + 1;
      assert name[i..][1..] == name[i + 1..];
    }
  }
}
