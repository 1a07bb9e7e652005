/** Invariants of the publication fence. The updates that finish a publication do not look at the
    row's state; that only the winner of the insert ever issues one rests on where every process
    is in its program. */
module PublicationInvariants {
  import opened Domain
  import opened Statements
  import opened System
  import opened Effects
  import opened Worker

  /** How far a process has come: 1 the context is built, 2 it is saved, 3 the result is
      computed, 4 it is saved, 5 the insert is won, 6 Publish has returned nil, 7 the pipeline has
      failed or the process has ended. */
  function Level(pc: PC): nat {
    match pc
    case CtxCheck(stage) => StageLevel(stage)
    case DbCheck(stage) => StageLevel(stage)
    case Building => 0
    case SavingContext => 1
    case Pausing => 2
    case Reviewing => 2
    case SavingResult => 3
    case DryBeginning => 4
    case DryReading => 4
    case DryFinalizing => 5
    case Resolving => 4
    case Beginning(_, _) => 4
    case Reading => 4
    case Splitting => 5
    case Posting => 5
    case FailingPublication(_) => 5
    case Finalizing(_) => 5
    case Returning(outcome) => if outcome.Success? then 6 else 7
    case Joining(outcome) => if outcome.Success? then 6 else 7
    case Deciding(_) => 7
    case Failing(_) => 7
    case Completing => 6
    case Stopped => 7
  }

  function StageLevel(stage: Stage): nat {
    match stage
    case Detective => 0
    case Memory => 2
    case Critic => 2
    case Diplomat => 4
    case Final => 6
  }

  /** What a process has in hand at each level. */
  ghost predicate Carries(p: Proc) {
    && (1 <= Level(p.pc) <= 6 ==> p.context.Some? && ValidRepo(p.repo))
    && (3 <= Level(p.pc) <= 6 ==> p.result.Some?)
    && (Level(p.pc) == 6 ==> p.published)
    && (p.published ==> p.context.Some? && p.result.Some? && ValidRepo(p.repo) && Level(p.pc) >= 6)
  }

  /** What a process knows about itself at each counter. */
  ghost predicate LocalOk(p: Proc) {
    && Carries(p)
    && (p.pc.DryBeginning? || p.pc.DryReading? || p.pc.DryFinalizing? ==> p.dryRun)
    && (p.pc.Resolving? || p.pc.Beginning? || p.pc.Reading? || p.pc.Splitting? || p.pc.Posting? || p.pc.FailingPublication? || p.pc.Finalizing? ==> !p.dryRun)
    && (p.pc.Beginning? ==> Publishable(p.pc.account, p.pc.kind))
    && (p.pc.FailingPublication? ==> p.pc.cause.Failure?)
    && (p.pc.Deciding? || p.pc.Failing? || p.pc.Completing? || p.pc.Stopped? ==> !p.beating)
  }

  /** Levels only rise, and only a nil Publish enters level 6. */
  lemma LevelAfter(p: Proc, r: Reply)
    requires Fits(Ask(p), r)
    requires p.pc.FailingPublication? ==> p.pc.cause.Failure?
    ensures Level(p.pc) <= Level(Next(p, r)) <= 7
    ensures Level(p.pc) < 6 ==> (Level(Next(p, r)) == 6 <==> Next(p, r) == PUBLISHED_NIL)
    ensures Level(p.pc) >= 6 ==> Next(p, r) != PUBLISHED_NIL
    ensures Level(p.pc) < 5 && Level(Next(p, r)) == 5 ==> r.Done? && (p.pc.DryBeginning? || p.pc.Beginning?)
    ensures Level(p.pc) < 1 && 1 <= Level(Next(p, r)) <= 6 ==> p.pc.Building? && r.Bytes?
    ensures Level(p.pc) < 3 && 3 <= Level(Next(p, r)) <= 6 ==> p.pc.Reviewing? && r.Bytes?
  {
    match p.pc
    case CtxCheck(stage) => match stage { case Detective => case Memory => case Critic => case Diplomat => case Final => }
    case DbCheck(stage) => match stage { case Detective => case Memory => case Critic => case Diplomat => case Final => }
    case Joining(_) =>
    case Returning(_) =>
    case _ =>
  }

  lemma CarriesOn(p: Proc, r: Reply)
    requires Carries(p) && Fits(Ask(p), r)
    requires p.pc.FailingPublication? ==> p.pc.cause.Failure?
    requires p.pc.Building? && !r.Error? ==> ValidRepo(p.repo)
    ensures Carries(Resume(p, r))
  {
    LevelAfter(p, r);
  }

  lemma LocalResume(p: Proc, r: Reply)
    requires LocalOk(p) && Fits(Ask(p), r)
    requires p.pc.Building? && !r.Error? ==> ValidRepo(p.repo)
    requires p.pc.Joining? ==> !p.beating
    ensures LocalOk(Resume(p, r))
  {
    CarriesOn(p, r);
    match p.pc
    case DbCheck(_) =>
    case Joining(_) =>
    case _ =>
  }

  ghost predicate LocalsOk(s: State) {
    forall id <- s.procs :: LocalOk(s.procs[id])
  }

  lemma LocalsStep(s: State, s': State, e: Effect, m: Motion)
    requires LocalsOk(s) && ProcsMoved(s, s', m) && Followed(s, e, m)
    ensures LocalsOk(s')
  {
    if m.Resumed? { LocalResume(s.procs[m.proc], m.reply); }
  }

  /** The row and the posts of one job, as the winner's counter determines them. */
  ghost predicate WinnerOk(id: ProcId, p: Proc, pub: Publication, posts: seq<Post>) {
    && Level(p.pc) >= 5
    && (p.dryRun <==> !Publishable(pub.account, pub.kind))
    && (p.dryRun ==> !pub.state.PublicationFailed?)
    && |posts| <= 1
    && (posts != [] ==>
      && !p.dryRun
      && posts[0].proc == id
      && p.result == Some(posts[0].body)
      && (posts[0].reported.Some? ==> posts[0].landed))
    && (Level(p.pc) == 5 ==> pub.state.PendingGithub?)
    && (p.pc.DryFinalizing? || p.pc.Splitting? || p.pc.Posting? ==> posts == [])
    && (p.pc.FailingPublication? ==> |posts| == 1 && posts[0].reported.None?)
    && (p.pc.Finalizing? ==> |posts| == 1 && posts[0].reported == Some(p.pc.reviewId))
    && (pub.state.Published? ==>
      if p.dryRun then pub.reviewId.None? && posts == []
      else pub.reviewId.Some? && |posts| == 1 && posts[0].reported == pub.reviewId)
    && (pub.state.PublicationFailed? ==> |posts| == 1 && posts[0].reported.None?)
    && (!pub.state.Published? ==> pub.reviewId.None?)
    && (p.published ==> pub.state.Published?)
  }

  ghost predicate PublicationOk(s: State, j: JobId) {
    if j in s.tables.publications then
      && j in s.log.winners
      && var id := s.log.winners[j];
      && id in s.procs && s.procs[id].job == j
      && WinnerOk(id, s.procs[id], s.tables.publications[j], Of(s.log.posts, j))
    else j !in s.log.winners && Of(s.log.posts, j) == []
  }

  ghost predicate FenceOk(s: State, id: ProcId) {
    id in s.procs &&
    var p := s.procs[id];
    && (Level(p.pc) == 5 ==> p.job in s.log.winners && s.log.winners[p.job] == id)
    && (p.published ==> p.job in s.tables.publications)
  }

  ghost predicate PublicationInv(s: State) {
    && LocalsOk(s)
    && (forall j: JobId :: PublicationOk(s, j))
    && (forall id <- s.procs :: FenceOk(s, id))
  }

  /** Only a process of the job's own touches a job's publication. */
  lemma PublicationElsewhere(s: State, s': State, m: Motion, u: Publishing, j: JobId)
    requires ProcsMoved(s, s', m) && PubsMoved(s, s', u) && PublicationOk(s, j)
    requires u.Untouched? || (m.Resumed? && m.proc == u.proc)
    requires m.Resumed? ==> s.procs[m.proc].job != j
    ensures PublicationOk(s', j)
  {
  }

  /** The flags and the halt of a process do not matter to its publication. */
  lemma PublicationFlags(s: State, s': State, m: Motion, u: Publishing, j: JobId)
    requires ProcsMoved(s, s', m) && PubsMoved(s, s', u) && PublicationOk(s, j)
    requires u.Untouched? && !m.Resumed?
    ensures PublicationOk(s', j)
  {
  }

  lemma WinnerResumes(id: ProcId, p: Proc, r: Reply, pub: Publication, posts: seq<Post>)
    requires WinnerOk(id, p, pub, posts) && LocalOk(p) && Fits(Ask(p), r)
    requires !p.pc.Posting? && (p.pc.DryFinalizing? || p.pc.Finalizing? ==> r.Error?)
    requires !p.pc.Stopped?
    requires p.pc.Splitting? ==> (r.Error? <==> !ValidRepo(p.repo))
    ensures WinnerOk(id, Resume(p, r), pub, posts)
  {
    LevelAfter(p, r);
    match p.pc
    case Splitting =>
    case FailingPublication(_) =>
    case _ =>
  }

  lemma WinnerFinalizes(id: ProcId, p: Proc, r: Reply, pub: Publication, posts: seq<Post>, reviewId: Option<int>)
    requires WinnerOk(id, p, pub, posts) && LocalOk(p) && Fits(Ask(p), r)
    requires (p.pc.DryFinalizing? && reviewId == None) || (p.pc.Finalizing? && reviewId == Some(p.pc.reviewId))
    ensures WinnerOk(id, Resume(p, r), pub.(state := Published, reviewId := reviewId), posts)
  {
  }

  lemma WinnerGivesUp(id: ProcId, p: Proc, r: Reply, pub: Publication, posts: seq<Post>)
    requires WinnerOk(id, p, pub, posts) && LocalOk(p) && Fits(Ask(p), r) && p.pc.FailingPublication?
    ensures WinnerOk(id, Resume(p, r), pub.(state := PublicationFailed), posts)
  {
  }

  lemma WinnerPosts(id: ProcId, p: Proc, r: Reply, pub: Publication, posts: seq<Post>, post: Post)
    requires WinnerOk(id, p, pub, posts) && LocalOk(p) && Fits(Ask(p), r) && p.pc.Posting?
    requires post.proc == id && post.body == OrEmpty(p.result)
    requires post.reported == (if r.Posted? then Some(r.reviewId) else None)
    requires post.reported.Some? ==> post.landed
    ensures WinnerOk(id, Resume(p, r), pub, posts + [post])
  {
  }

  lemma WinnerBorn(id: ProcId, p: Proc, r: Reply, account: Option<nat>, kind: PublisherKind)
    requires LocalOk(p) && Fits(Ask(p), r) && !r.AlreadyExists? && Ask(p) == BeginPublication(account, kind)
    ensures WinnerOk(id, Resume(p, r), Publication(account, kind, PendingGithub, None), [])
  {
  }

  /** A process of the job takes a step. */
  lemma PublicationResumed(s: State, s': State, e: Effect, m: Motion, u: Publishing)
    requires PublicationInv(s) && ProcsMoved(s, s', m) && Followed(s, e, m)
    requires PubsMoved(s, s', u) && PublishingFollowed(s, m, u) && m.Resumed?
    ensures PublicationOk(s', s.procs[m.proc].job)
  {
    var id, p, r := m.proc, s.procs[m.proc], m.reply;
    var j := p.job;
    assert PublicationOk(s, j) && FenceOk(s, id) && LocalOk(p);
    if u.Won? {
      WinnerBorn(id, p, r, u.account, u.kind);
    } else if j in s.tables.publications && s.log.winners[j] == id {
      var pub, posts := s.tables.publications[j], Of(s.log.posts, j);
      match u
      case Finalised(_, reviewId) => WinnerFinalizes(id, p, r, pub, posts, reviewId);
      case GaveUp(_) => WinnerGivesUp(id, p, r, pub, posts);
      case Called(_, post) => WinnerPosts(id, p, r, pub, posts, post);
      case Untouched => WinnerResumes(id, p, r, pub, posts);
      case Won(_, _, _) =>
    }
  }

  lemma PublicationsStep(s: State, s': State, e: Effect, m: Motion, u: Publishing)
    requires PublicationInv(s) && ProcsMoved(s, s', m) && Followed(s, e, m)
    requires PubsMoved(s, s', u) && PublishingFollowed(s, m, u)
    ensures forall j: JobId :: PublicationOk(s', j)
  {
    forall j: JobId ensures PublicationOk(s', j) {
      assert PublicationOk(s, j);
      if !m.Resumed? {
        PublicationFlags(s, s', m, u, j);
      } else if s.procs[m.proc].job == j {
        PublicationResumed(s, s', e, m, u);
      } else {
        PublicationElsewhere(s, s', m, u, j);
      }
    }
  }

  lemma FenceOthers(s: State, s': State, m: Motion, u: Publishing, id: ProcId)
    requires PublicationInv(s) && ProcsMoved(s, s', m) && PubsMoved(s, s', u)
    requires id in s.procs && (m.Resumed? ==> m.proc != id)
    ensures FenceOk(s', id)
  {
    assert FenceOk(s, id) && PublicationOk(s, s.procs[id].job);
    if u.Won? { assert PublicationOk(s, s.procs[u.proc].job); }
  }

  lemma FenceResumed(s: State, s': State, e: Effect, m: Motion, u: Publishing)
    requires PublicationInv(s) && ProcsMoved(s, s', m) && Followed(s, e, m)
    requires PubsMoved(s, s', u) && PublishingFollowed(s, m, u) && m.Resumed?
    ensures FenceOk(s', m.proc)
  {
    var p := s.procs[m.proc];
    assert FenceOk(s, m.proc) && LocalOk(p) && PublicationOk(s, p.job);
    LevelAfter(p, m.reply);
  }

  lemma PublicationInvStep(s: State, s': State, e: Effect, m: Motion, u: Publishing)
    requires PublicationInv(s) && ProcsMoved(s, s', m) && Followed(s, e, m)
    requires PubsMoved(s, s', u) && PublishingFollowed(s, m, u)
    ensures PublicationInv(s')
  {
    LocalsStep(s, s', e, m);
    PublicationsStep(s, s', e, m, u);
    forall id | id in s'.procs ensures FenceOk(s', id) {
      if m.Resumed? && m.proc == id {
        FenceResumed(s, s', e, m, u);
      } else if id in s.procs {
        FenceOthers(s, s', m, u, id);
      }
    }
  }
}
