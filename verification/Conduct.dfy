/** What a process does with the answers it gets, said of the system's actions: when it may enter a
    stage, when it may post, how it fails its job, and when it walks away. */
module Conduct {
  import opened Domain
  import opened Statements
  import opened System
  import opened Worker
  import opened Effects
  import opened QueueInvariants
  import opened PublicationInvariants
  import opened Reachability
  import Completion
  import QueueTheorems
  import SampleRuns

  /** The counters behind an ownership check. */
  predicate Entered(pc: PC) {
    pc.Building? || pc.Pausing? || pc.Reviewing? || pc.DryBeginning? || pc.Resolving? || pc == Returning(Success)
  }

  function Behind(stage: Stage, dryRun: bool): PC {
    match stage
    case Detective => Building
    case Memory => Pausing
    case Critic => Reviewing
    case Diplomat => if dryRun then DryBeginning else Resolving
    case Final => Returning(Success)
  }

  /** A stage is entered, and the pipeline ends well, if and only if the row could be read and is still
      held under this job, generation and worker. */
  lemma EnteredExactly(s: State, id: ProcId, fault: Fault, answer: Reply)
    requires id in s.procs && s.procs[id].pc.DbCheck? && Enabled(s.procs[id], fault, answer)
    ensures var p, q := s.procs[id], Apply(s, Work(id, fault, answer)).procs[id];
            && (Entered(q.pc) <==> fault.Delivered? && Holds(s.tables.jobs, TokenOf(p)))
            && (Entered(q.pc) ==> q.pc == Behind(p.pc.stage, p.dryRun))
            && (!Entered(q.pc) ==> q.pc == Returning(Failure(false, "job cancelled in database")))
  {
  }

  /** The check before it lets a process pass if and only if its context is not cancelled. */
  lemma ContextCheckedExactly(s: State, id: ProcId, fault: Fault, answer: Reply)
    requires id in s.procs && s.procs[id].pc.CtxCheck? && Enabled(s.procs[id], fault, answer)
    ensures var p, q := s.procs[id], Apply(s, Work(id, fault, answer)).procs[id];
            q.pc == if p.cancelled then Returning(Failure(true, "context canceled")) else DbCheck(p.pc.stage)
  {
  }

  lemma PassesChecks(s: State, p: Proc, fault: Fault, answer: Reply)
    requires Enabled(p, fault, answer)
    ensures var pc := Next(p, ReplyTo(s.tables, p, fault, answer));
            && (Entered(pc) && !p.pc.FailingPublication? ==> p.pc.DbCheck? && fault.Delivered? && Holds(s.tables.jobs, TokenOf(p)))
            && (pc.DbCheck? ==> p.pc == CtxCheck(pc.stage) && !p.cancelled)
  {
    match p.pc
    case DbCheck(stage) => match stage { case Detective => case Memory => case Critic => case Diplomat => case Final => }
    case _ =>
  }

  lemma SkipsNoStage(s: State, p: Proc, fault: Fault, answer: Reply)
    requires Enabled(p, fault, answer)
    ensures var pc := Next(p, ReplyTo(s.tables, p, fault, answer));
            pc.CtxCheck? ==>
              match pc.stage
              case Detective => false
              case Memory => p.pc.SavingContext?
              case Critic => p.pc.Pausing?
              case Diplomat => p.pc.SavingResult?
              case Final => p.pc.DryReading? || p.pc.DryFinalizing? || p.pc.Reading? || p.pc.Finalizing?
  {
    match p.pc
    case DbCheck(stage) => match stage { case Detective => case Memory => case Critic => case Diplomat => case Final => }
    case _ =>
  }

  /** There is no way round the checks, and no stage is skipped: whoever enters a stage has just passed the
      row's check, whoever comes to that has just passed the context's, and comes to that from the last
      call of the stage before. */
  lemma ChecksComeFirst(s: State, id: ProcId, fault: Fault, answer: Reply)
    requires id in s.procs && Enabled(s.procs[id], fault, answer)
    ensures var p, q := s.procs[id], Apply(s, Work(id, fault, answer)).procs[id];
            && (Entered(q.pc) && !p.pc.FailingPublication? ==> p.pc.DbCheck? && fault.Delivered? && Holds(s.tables.jobs, TokenOf(p)))
            && (q.pc.DbCheck? ==> p.pc == CtxCheck(q.pc.stage) && !p.cancelled)
            && (q.pc.CtxCheck? ==>
              match q.pc.stage
              case Detective => false
              case Memory => p.pc.SavingContext?
              case Critic => p.pc.Pausing?
              case Diplomat => p.pc.SavingResult?
              case Final => p.pc.DryReading? || p.pc.DryFinalizing? || p.pc.Reading? || p.pc.Finalizing?)
  {
    PassesChecks(s, s.procs[id], fault, answer);
    SkipsNoStage(s, s.procs[id], fault, answer);
  }

  /** The calls of the pipeline and of Publish whose errors end the pipeline. */
  predicate Calling(pc: PC) {
    || pc.Building? || pc.SavingContext? || pc.Pausing? || pc.Reviewing? || pc.SavingResult?
    || pc.DryBeginning? || pc.DryFinalizing? || pc.Resolving? || pc.Beginning? || pc.Reading? || pc.Finalizing?
  }

  /** An error ends the pipeline with that error; a refused post is recorded first. */
  lemma ErrorsAreReported(s: State, id: ProcId, fault: Fault, answer: Reply)
    requires id in s.procs && Enabled(s.procs[id], fault, answer)
    ensures var p, q := s.procs[id], Apply(s, Work(id, fault, answer)).procs[id];
            && (Calling(p.pc) && fault.Lost? ==> q.pc == Returning(Failure(fault.cancelled, fault.message)))
            && (p.pc.Posting? && fault.Lost? ==> q.pc == FailingPublication(Failure(fault.cancelled, fault.message)))
            && (p.pc.FailingPublication? ==> q.pc == Returning(p.pc.cause))
            && (p.pc.DryReading? && fault.Lost? ==> q.pc == Returning(Failure(false, "publication already exists for this job")))
            && ((p.pc.SavingContext? || p.pc.SavingResult?) && fault.Delivered? && !Holds(s.tables.jobs, TokenOf(p)) ==>
              q.pc == Returning(Failure(false, "lost ownership or job not running")))
  {
  }

  lemma ResolvingBegins(s: State, p: Proc, fault: Fault, answer: Reply)
    requires Enabled(p, fault, answer)
    ensures var pc := Next(p, ReplyTo(s.tables, p, fault, answer));
            && (pc.Beginning? <==> p.pc.Resolving? && fault.Delivered?)
            && (pc.Beginning? ==> answer == Identity(pc.account, pc.kind))
  {
    match p.pc
    case DbCheck(stage) => match stage { case Detective => case Memory => case Critic => case Diplomat => case Final => }
    case _ =>
  }

  /** A publication is begun only with the identity that the token resolution has delivered. */
  lemma TokenIsNeeded(s: State, id: ProcId, fault: Fault, answer: Reply)
    requires id in s.procs && Enabled(s.procs[id], fault, answer)
    ensures var p, q := s.procs[id], Apply(s, Work(id, fault, answer)).procs[id];
            && (q.pc.Beginning? <==> p.pc.Resolving? && fault.Delivered?)
            && (q.pc.Beginning? ==> answer == Identity(q.pc.account, q.pc.kind))
  {
    ResolvingBegins(s, s.procs[id], fault, answer);
  }

  /** A heartbeat moves the deadline of a held row to a lease from now, and the process goes on if and only
      if it has learnt so; otherwise its context is cancelled and it beats no more. */
  lemma HeartbeatExactly(s: State, id: ProcId, fault: Fault)
    requires id in s.procs && s.procs[id].beating
    ensures var p, s' := s.procs[id], Apply(s, Heartbeat(id, fault));
            && (if Holds(s.tables.jobs, TokenOf(p)) && (fault.Delivered? || fault.applied)
                then s'.tables.jobs == s.tables.jobs[p.job := s.tables.jobs[p.job].(lockedUntil := Some(s.tables.now + p.lease))]
                else s'.tables.jobs == s.tables.jobs)
            && (if Holds(s.tables.jobs, TokenOf(p)) && fault.Delivered?
                then s'.procs == s.procs
                else s'.procs == s.procs[id := p.(beating := false, cancelled := true)])
  {
  }

  // Posting

  /** The counters from which a process may still come to post. */
  predicate CanStillPost(pc: PC) {
    pc.Resolving? || pc.Beginning? || pc.Splitting? || pc.Posting?
  }

  lemma NoWayToPost(s: State, a: Action, id: ProcId)
    requires id in s.procs && !Holds(s.tables.jobs, TokenOf(s.procs[id])) && !CanStillPost(s.procs[id].pc)
    ensures id in Apply(s, a).procs && !CanStillPost(Apply(s, a).procs[id].pc)
  {
    MotionOfAction(s, a);
    if a.Work? && a.proc == id && Enabled(s.procs[id], a.fault, a.answer) {
      NoStepToPost(s, s.procs[id], a.fault, a.answer);
    }
  }

  lemma NoStepToPost(s: State, p: Proc, fault: Fault, answer: Reply)
    requires Enabled(p, fault, answer) && !Holds(s.tables.jobs, TokenOf(p)) && !CanStillPost(p.pc)
    ensures !CanStillPost(Next(p, ReplyTo(s.tables, p, fault, answer)))
  {
    match p.pc
    case DbCheck(stage) => match stage { case Detective => case Memory => case Critic => case Diplomat => case Final => }
    case _ =>
  }

  /** Only a process that stands at its post posts. */
  lemma PostsComeFromPosting(s: State, a: Action, j: JobId)
    ensures || Of(Apply(s, a).log.posts, j) == Of(s.log.posts, j)
            || (exists post :: Of(Apply(s, a).log.posts, j) == Of(s.log.posts, j) + [post] &&
                               post.proc in s.procs && s.procs[post.proc].job == j && s.procs[post.proc].pc.Posting?)
  {
    PublishingOfAction(s, a);
    PublishingCoupled(s, a);
    var u := PublishingOf(s, a);
    if u.Called? && s.procs[u.proc].job == j {
      assert Of(Apply(s, a).log.posts, j) == Of(s.log.posts, j) + [u.post];
    }
  }

  lemma StillNotHeld(s: State, a: Action, id: ProcId)
    requires Inv(s) && id in s.procs && !Holds(s.tables.jobs, TokenOf(s.procs[id]))
    ensures id in Apply(s, a).procs && TokenOf(Apply(s, a).procs[id]) == TokenOf(s.procs[id])
    ensures !Holds(Apply(s, a).tables.jobs, TokenOf(s.procs[id]))
  {
    MotionOfAction(s, a);
    IdentityKept(s, Apply(s, a), MotionOf(s, a), id);
    EffectOfAction(s, a);
    if Holds(Apply(s, a).tables.jobs, TokenOf(s.procs[id])) {
      Completion.HeldBefore(s, Apply(s, a), EffectOf(s, a), id);
    }
  }

  /** The posts that came after `before`. */
  ghost predicate NotAmongNew(before: seq<Post>, after: seq<Post>, id: ProcId) {
    before <= after && forall k | |before| <= k < |after| :: after[k].proc != id
  }

  lemma NewPostIsAnothers(s: State, a: Action, id: ProcId, j: JobId, before: seq<Post>)
    requires id in s.procs && !CanStillPost(s.procs[id].pc) && NotAmongNew(before, Of(s.log.posts, j), id)
    ensures NotAmongNew(before, Of(Apply(s, a).log.posts, j), id)
  {
    PostsComeFromPosting(s, a, j);
  }

  /** Once a process has lost its job, to a cancellation, a reclaim or anything else, it never holds it again,
      and it posts only if it was already past the check before Publish. */
  lemma {:induction false} LostNeverPosts(s: State, run: seq<Action>, id: ProcId)
    requires Reachable(s) && id in s.procs && !Holds(s.tables.jobs, TokenOf(s.procs[id])) && !CanStillPost(s.procs[id].pc)
    ensures var s' := Exec(s, run);
            && id in s'.procs && TokenOf(s'.procs[id]) == TokenOf(s.procs[id])
            && !Holds(s'.tables.jobs, TokenOf(s.procs[id])) && !CanStillPost(s'.procs[id].pc)
            && NotAmongNew(Of(s.log.posts, s.procs[id].job), Of(s'.log.posts, s.procs[id].job), id)
  {
    if run != [] {
      var n := |run| - 1;
      LostNeverPosts(s, run[..n], id);
      StillReachable(s, run[..n]);
      var m := Exec(s, run[..n]);
      InvariantsHold(m);
      StillNotHeld(m, run[n], id);
      NoWayToPost(m, run[n], id);
      NewPostIsAnothers(m, run[n], id, s.procs[id].job, Of(s.log.posts, s.procs[id].job));
    }
  }

  /** Every post for the job that came after `s0` is by a process that could still post then. */
  ghost predicate PostedFromBeyond(s0: State, s: State, j: JobId) {
    && Of(s0.log.posts, j) <= Of(s.log.posts, j)
    && (forall k | |Of(s0.log.posts, j)| <= k < |Of(s.log.posts, j)| ::
          var id := Of(s.log.posts, j)[k].proc;
          id in s0.procs && s0.procs[id].job == j && CanStillPost(s0.procs[id].pc))
    && (forall id <- s.procs | s.procs[id].job == j && CanStillPost(s.procs[id].pc) ::
          id in s0.procs && s0.procs[id].job == j && CanStillPost(s0.procs[id].pc))
  }

  /** A process of a finished job that can post after a step could post before it. */
  lemma NobodyNewCanPost(s: State, a: Action, j: JobId, id: ProcId)
    requires j in s.tables.jobs && s.tables.jobs[j].status.Terminal()
    requires id in Apply(s, a).procs && Apply(s, a).procs[id].job == j && CanStillPost(Apply(s, a).procs[id].pc)
    ensures id in s.procs && s.procs[id].job == j && CanStillPost(s.procs[id].pc)
  {
    MotionOfAction(s, a);
    if id in s.procs {
      IdentityKept(s, Apply(s, a), MotionOf(s, a), id);
      assert TokenOf(Apply(s, a).procs[id]).job == s.procs[id].job;
      if !CanStillPost(s.procs[id].pc) { NoWayToPost(s, a, id); }
    }
  }

  lemma BeyondStep(s0: State, s: State, a: Action, j: JobId)
    requires PostedFromBeyond(s0, s, j) && j in s.tables.jobs && s.tables.jobs[j].status.Terminal()
    ensures PostedFromBeyond(s0, Apply(s, a), j)
  {
    var s' := Apply(s, a);
    PostsComeFromPosting(s, a, j);
    forall id | id in s'.procs && s'.procs[id].job == j && CanStillPost(s'.procs[id].pc)
      ensures id in s.procs && s.procs[id].job == j && CanStillPost(s.procs[id].pc)
    {
      NobodyNewCanPost(s, a, j, id);
    }
  }

  /** Once a job is cancelled, or finished in any other way, whatever happens: every review posted for it is
      posted by a process that was already past the check before Publish. */
  lemma {:induction false} FinishedPostsOnlyFromBeyond(s: State, run: seq<Action>, j: JobId)
    requires Reachable(s) && j in s.tables.jobs && s.tables.jobs[j].status.Terminal()
    ensures PostedFromBeyond(s, Exec(s, run), j)
  {
    if run != [] {
      var n := |run| - 1;
      FinishedPostsOnlyFromBeyond(s, run[..n], j);
      QueueTheorems.FinishedIsFrozen(s, run[..n], j);
      BeyondStep(s, Exec(s, run[..n]), run[n], j);
    }
  }

  // Finalisation

  /** When a pipeline has failed, the job is failed if and only if the row could be read and is still held. */
  lemma FailsExactly(s: State, id: ProcId, fault: Fault, answer: Reply)
    requires id in s.procs && s.procs[id].pc.Deciding? && Enabled(s.procs[id], fault, answer)
    ensures var p, s' := s.procs[id], Apply(s, Work(id, fault, answer));
            && s'.procs[id].pc == (if fault.Delivered? && Holds(s.tables.jobs, TokenOf(p)) then Failing(p.pc.message) else Stopped)
            && s'.tables == s.tables
  {
  }

  /** A process that was cancelled walks away: it stops, and changes nothing. */
  lemma WalksAway(s: State, id: ProcId, fault: Fault, answer: Reply)
    requires id in s.procs && Enabled(s.procs[id], fault, answer)
    requires s.procs[id].pc.Joining? && s.procs[id].pc.outcome.Failure? && s.procs[id].pc.outcome.cancelled
    ensures var s' := Apply(s, Work(id, fault, answer));
            s' == s.(procs := s.procs[id := s.procs[id].(pc := Stopped)])
  {
  }

  lemma StoppedForGood(s: State, id: ProcId, fault: Fault, answer: Reply)
    requires id in s.procs && s.procs[id].pc.Stopped?
    ensures Apply(s, Work(id, fault, answer)) == s
  {
  }

  lemma LostChangesNoRow(s: State, id: ProcId, fault: Fault, answer: Reply)
    requires id in s.procs && !Holds(s.tables.jobs, TokenOf(s.procs[id]))
    ensures Apply(s, Work(id, fault, answer)).tables.jobs == s.tables.jobs
  {
    EffectOfAction(s, Work(id, fault, answer));
  }

  /** A process's next request, delivered. */
  function NextRequest(id: ProcId): Action {
    Work(id, Delivered, Done)
  }

  /** The job's row after its process has failed it. */
  ghost predicate FailedBy(s: State, s': State, id: ProcId, message: string)
    requires id in s.procs && s.procs[id].job in s.tables.jobs
  {
    var j := s.procs[id].job;
    && s'.tables == s.tables.(jobs := s'.tables.jobs)
    && s'.tables.jobs == s.tables.jobs[j := s.tables.jobs[j].(status := Failed, lastError := Some(message), lockedBy := None, lockedUntil := None)]
    && id in s'.procs && s'.procs[id].pc.Stopped?
    && Of(s'.log.closes, j) == Of(s.log.closes, j) + [id]
  }

  lemma FailingFails(s: State, id: ProcId, message: string)
    requires id in s.procs && Holds(s.tables.jobs, TokenOf(s.procs[id])) && s.procs[id].pc == Failing(message)
    ensures FailedBy(s, Apply(s, NextRequest(id)), id, message)
  {
  }

  lemma JoiningDecides(s: State, id: ProcId, message: string)
    requires id in s.procs && s.procs[id].pc == Joining(Failure(false, message)) && !s.procs[id].beating
    ensures Apply(s, NextRequest(id)) == s.(procs := s.procs[id := s.procs[id].(pc := Deciding(message))])
  {
  }

  lemma DecidingFails(s: State, id: ProcId, message: string)
    requires id in s.procs && Holds(s.tables.jobs, TokenOf(s.procs[id])) && s.procs[id].pc == Deciding(message)
    ensures Apply(s, NextRequest(id)) == s.(procs := s.procs[id := s.procs[id].(pc := Failing(message))])
  {
    assert !SeesCancelled(s.procs[id], Some(s.tables.jobs[s.procs[id].job]));
  }

  lemma ExecThree(s: State, a: Action)
    ensures Exec(s, [a, a, a]) == Apply(Apply(Apply(s, a), a), a)
  {
    assert [a, a, a][..2] == [a, a] && [a, a][..1] == [a] && [a][..0] == [];
    assert Exec(s, []) == s && Exec(s, [a]) == Apply(s, a) && Exec(s, [a, a]) == Apply(Apply(s, a), a);
  }

  /** A process that still holds its job and whose pipeline has failed, not by cancellation, fails the job:
      in three delivered requests the row is failed, with the pipeline's error, without a lock, closed by
      this process alone, and no other row is touched. */
  lemma FailsTheJob(s: State, id: ProcId, message: string)
    requires Reachable(s) && id in s.procs && Holds(s.tables.jobs, TokenOf(s.procs[id]))
    requires s.procs[id].pc == Joining(Failure(false, message)) && !s.procs[id].beating
    ensures var s' := Exec(s, [NextRequest(id), NextRequest(id), NextRequest(id)]);
            && FailedBy(s, s', id, message)
            && Of(s'.log.closes, s.procs[id].job) == [id]
  {
    QueueTheorems.GenerationCountsClaims(s, s.procs[id].job);
    ThreeSteps(s, id, message);
  }

  lemma ThreeSteps(s: State, id: ProcId, message: string)
    requires id in s.procs && Holds(s.tables.jobs, TokenOf(s.procs[id]))
    requires s.procs[id].pc == Joining(Failure(false, message)) && !s.procs[id].beating
    ensures FailedBy(s, Exec(s, [NextRequest(id), NextRequest(id), NextRequest(id)]), id, message)
  {
    var w := NextRequest(id);
    ExecThree(s, w);
    JoiningDecides(s, id, message);
    var s1 := Apply(s, w);
    DecidingFails(s1, id, message);
    var s2 := Apply(s1, w);
    FailingFails(s2, id, message);
  }

  lemma ReturnsFailure(s: State, id: ProcId, message: string) returns (s': State)
    requires Reachable(s) && id in s.procs && s.procs[id].pc == Returning(Failure(false, message))
    ensures Reachable(s')
    ensures s' == s.(procs := s.procs[id := s.procs[id].(pc := Joining(Failure(false, message)), cancelled := true, beating := false)])
  {
    var m := Apply(s, NextRequest(id));
    OneMore(Init(), s, NextRequest(id));
    assert m == s.(procs := s.procs[id := s.procs[id].(pc := Joining(Failure(false, message)), cancelled := true)]);
    s' := Apply(m, HeartbeatExit(id));
    OneMore(Init(), m, HeartbeatExit(id));
  }

  /** Jobs do fail: a process whose review was refused fails its job with GitHub's error. */
  lemma SomeJobFails() returns (s: State, j: JobId)
    ensures Reachable(s) && j in s.tables.jobs && s.tables.jobs[j].status.Failed?
    ensures s.tables.jobs[j].lastError == Some("refused") && Of(s.log.closes, j) == [1]
  {
    var q;
    q, j := SampleRuns.OneJobQueued();
    var m := SampleRuns.FirstIsPosting(q, j, None, AppBot);
    m := SampleRuns.PostIsRefused(m, 1);
    m := ReturnsFailure(m, 1, "refused");
    FailsTheJob(m, 1, "refused");
    var run := [NextRequest(1), NextRequest(1), NextRequest(1)];
    StillReachable(m, run);
    s := Exec(m, run);
  }
}
