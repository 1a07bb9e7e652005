/** What the publication fence guarantees, over all workers, reclaims, crashes and mixed modes, and
    what it does not. */
module PublicationTheorems {
  import opened Domain
  import opened Statements
  import opened System
  import opened Effects
  import opened QueueInvariants
  import opened PublicationInvariants
  import opened ResultInvariants
  import opened Reachability
  import QueueTheorems
  import Worker

  lemma PublicationFacts(s: State, j: JobId)
    requires Reachable(s)
    ensures PublicationOk(s, j)
  {
    InvariantsHold(s);
  }

  /** CreatePullReview is called at most once for a job, over the whole run and whether or not the
      call is reported to have worked; the caller is the process that won the insert, and posts the
      result it computed itself. */
  lemma PostedAtMostOnce(s: State, j: JobId)
    requires Reachable(s)
    ensures |Of(s.log.posts, j)| <= 1
    ensures forall post <- Of(s.log.posts, j) ::
              && j in s.log.winners && s.log.winners[j] == post.proc
              && post.proc in s.procs && !s.procs[post.proc].dryRun
              && s.procs[post.proc].result == Some(post.body)
  {
    PublicationFacts(s, j);
  }

  /** A published row with a review id stands for one successful post with that id; one without an
      id for a dry-run winner, and then nothing was ever posted. */
  lemma PublishedMeans(s: State, j: JobId)
    requires Reachable(s) && j in s.tables.publications && s.tables.publications[j].state.Published?
    ensures var id, posts := s.tables.publications[j].reviewId, Of(s.log.posts, j);
            && (id.Some? ==> |posts| == 1 && posts[0].reported == id && posts[0].landed)
            && (id.None? ==> posts == [] && j in s.log.winners && s.log.winners[j] in s.procs && s.procs[s.log.winners[j]].dryRun)
  {
    PublicationFacts(s, j);
  }

  /** A failed row stands for one post that was reported as an error. */
  lemma FailedMeansRefused(s: State, j: JobId)
    requires Reachable(s) && j in s.tables.publications && s.tables.publications[j].state.PublicationFailed?
    ensures |Of(s.log.posts, j)| == 1 && Of(s.log.posts, j)[0].reported.None?
    ensures s.tables.publications[j].reviewId.None?
  {
    PublicationFacts(s, j);
  }

  /** A publication row as it is now and as it may be later. */
  ghost predicate Settling(s: State, s': State, j: JobId) {
    && j in s.tables.publications && j in s'.tables.publications
    && j in s.log.winners && j in s'.log.winners
    && s'.log.winners[j] == s.log.winners[j]
    && var pub, pub' := s.tables.publications[j], s'.tables.publications[j];
    && pub'.account == pub.account && pub'.kind == pub.kind
    && (!pub.state.PendingGithub? ==> pub' == pub)
  }

  lemma SettlingMove(s: State, s': State, m: Motion, u: Publishing, j: JobId)
    requires PubsMoved(s, s', u) && PublishingFollowed(s, m, u)
    requires j in s.tables.publications && PublicationOk(s, j)
    requires !u.Untouched? ==> FenceOk(s, u.proc)
    ensures Settling(s, s', j)
  {
  }

  lemma SettlingStep(s: State, a: Action, j: JobId)
    requires PublicationInv(s) && j in s.tables.publications
    ensures Settling(s, Apply(s, a), j)
  {
    PublishingOfAction(s, a);
    PublishingCoupled(s, a);
    assert PublicationOk(s, j);
    SettlingMove(s, Apply(s, a), MotionOf(s, a), PublishingOf(s, a), j);
  }

  /** Although the finishing updates do not look at the state, a publication moves at most once,
      from pending to published or failed, and then stays as it is in every column; its winner, its
      account and its kind are settled by the insert. */
  lemma {:induction false} PublicationMovesOnce(s: State, run: seq<Action>, j: JobId)
    requires Reachable(s) && j in s.tables.publications
    ensures Settling(s, Exec(s, run), j)
  {
    if run == [] {
      InvariantsHold(s);
      assert PublicationOk(s, j);
    } else {
      var n := |run| - 1;
      PublicationMovesOnce(s, run[..n], j);
      StillReachable(s, run[..n]);
      InvariantsHold(Exec(s, run[..n]));
      SettlingStep(Exec(s, run[..n]), run[n], j);
    }
  }

  /** Whoever completes a job, and whatever modes its claimants ran in, the job has a publication
      row. */
  lemma CompletedHasPublication(s: State, j: JobId)
    requires Reachable(s) && j in s.tables.jobs && s.tables.jobs[j].status.Completed?
    ensures j in s.tables.publications && j in s.log.winners
  {
    var id := QueueTheorems.CompletedIsLastClaimants(s, j);
    InvariantsHold(s);
    assert ClosedOk(s, j) && FenceOk(s, id) && PublicationOk(s, j);
  }

  /** A review of the job is on GitHub. */
  ghost predicate Landed(s: State, j: JobId) {
    exists post <- Of(s.log.posts, j) :: post.landed
  }

  /** A review made from the stored result is on GitHub. */
  ghost predicate StoredIsPosted(s: State, j: JobId)
    requires j in s.tables.jobs
  {
    exists post <- Of(s.log.posts, j) :: post.landed && s.tables.jobs[j].resultBlob == Some(post.body)
  }

  /** The job was completed by a process that does not run dry. */
  ghost predicate CompletedForReal(s: State, j: JobId) {
    && Reachable(s)
    && j in s.tables.jobs && s.tables.jobs[j].status.Completed?
    && |Of(s.log.closes, j)| == 1
    && Closer(s, j) in s.procs && !s.procs[Closer(s, j)].dryRun
  }

  ghost function Closer(s: State, j: JobId): ProcId
    requires |Of(s.log.closes, j)| == 1
  {
    Of(s.log.closes, j)[0]
  }

  /** The rows that occur. A dry run's row names no account and no bot, is never failed and never has a
      review id; any other row has one exactly when it is published. */
  predicate Possible(pub: Publication) {
    if Worker.Publishable(pub.account, pub.kind)
    then pub.state.Published? <==> pub.reviewId.Some?
    else !pub.state.PublicationFailed? && pub.reviewId.None?
  }

  /** Every row is of that kind, and tells whether a dry run made it. */
  lemma RowsArePossible(s: State, j: JobId)
    requires Reachable(s) && j in s.tables.publications
    ensures Possible(s.tables.publications[j])
    ensures j in s.log.winners && s.log.winners[j] in s.procs
    ensures s.procs[s.log.winners[j]].dryRun <==>
            !Worker.Publishable(s.tables.publications[j].account, s.tables.publications[j].kind)
  {
    PublicationFacts(s, j);
  }

  /** A winner that gets as far as completing the job has posted its result, unless it runs dry. */
  lemma WinnerPosted(s: State, j: JobId, id: ProcId)
    requires j in s.tables.jobs && j in s.tables.publications && PublicationOk(s, j)
    requires id in s.procs && s.procs[id].published && s.procs[id].result == s.tables.jobs[j].resultBlob
    ensures s.log.winners[j] == id ==> s.tables.publications[j].state.Published?
    ensures s.log.winners[j] == id && s.procs[id].dryRun ==> Of(s.log.posts, j) == []
    ensures s.log.winners[j] == id && !s.procs[id].dryRun ==> StoredIsPosted(s, j)
  {
    var posts := Of(s.log.posts, j);
    if s.log.winners[j] == id && !s.procs[id].dryRun {
      assert posts[0] in posts && posts[0].landed;
    }
  }

  /** The stored result of a job completed for real is what is posted if and only if the completing
      process won the insert, or the winner's review is on GitHub and the winner happens to have
      computed the same result. */
  lemma CompletedIsPostedExactly(s: State, j: JobId)
    requires CompletedForReal(s, j)
    ensures j in s.tables.publications && j in s.log.winners && s.log.winners[j] in s.procs
    ensures s.log.winners[j] == Closer(s, j) ==> s.tables.publications[j].state.Published?
    ensures StoredIsPosted(s, j) <==>
            || s.log.winners[j] == Closer(s, j)
            || (Landed(s, j) && s.procs[s.log.winners[j]].result == s.tables.jobs[j].resultBlob)
  {
    CompletedHasPublication(s, j);
    RowsArePossible(s, j);
    PostedAtMostOnce(s, j);
    var id := QueueTheorems.CompletedIsLastClaimants(s, j);
    PublicationFacts(s, j);
    WinnerPosted(s, j, id);
  }

  /** The same of a dry run: if it completes a job whose insert it has won, nothing is ever posted. */
  lemma CompletedDryIsNotPosted(s: State, j: JobId, id: ProcId)
    requires Reachable(s) && j in s.tables.jobs && s.tables.jobs[j].status.Completed?
    requires Of(s.log.closes, j) == [id] && id in s.procs && s.procs[id].dryRun
    requires j in s.log.winners && s.log.winners[j] == id
    ensures j in s.tables.publications && s.tables.publications[j].state.Published? && Of(s.log.posts, j) == []
  {
    CompletedHasPublication(s, j);
    var closer := QueueTheorems.CompletedIsLastClaimants(s, j);
    PublicationFacts(s, j);
    WinnerPosted(s, j, id);
  }

  /** The branch of Publish for a malformed repository name is never entered: a process that is about to
      split the name has a well-formed one, and no step takes it from there to failing the
      publication. */
  lemma SplittingNeverFails(s: State, a: Action, id: ProcId)
    requires Reachable(s) && id in s.procs && s.procs[id].pc.Splitting?
    ensures Worker.ValidRepo(s.procs[id].repo)
    ensures id in Apply(s, a).procs && !Apply(s, a).procs[id].pc.FailingPublication?
  {
    LocalFacts(s, id);
    SplitMoves(s, a, id);
  }

  lemma LocalFacts(s: State, id: ProcId)
    requires Reachable(s) && id in s.procs
    ensures LocalOk(s.procs[id])
  {
    InvariantsHold(s);
  }

  lemma FenceFacts(s: State, id: ProcId)
    requires Reachable(s) && id in s.procs
    ensures LocalOk(s.procs[id]) && FenceOk(s, id) && PublicationOk(s, s.procs[id].job)
  {
    InvariantsHold(s);
  }

  lemma SplitMoves(s: State, a: Action, id: ProcId)
    requires id in s.procs && s.procs[id].pc.Splitting? && Worker.ValidRepo(s.procs[id].repo)
    ensures id in Apply(s, a).procs && !Apply(s, a).procs[id].pc.FailingPublication?
  {
    MotionOfAction(s, a);
    ProgramFollowed(s, a);
    SplitFollowed(s, Apply(s, a), EffectOf(s, a), MotionOf(s, a), id);
  }

  lemma SplitFollowed(s: State, s': State, e: Effect, m: Motion, id: ProcId)
    requires ProcsMoved(s, s', m) && Followed(s, e, m)
    requires id in s.procs && s.procs[id].pc.Splitting? && Worker.ValidRepo(s.procs[id].repo)
    ensures id in s'.procs && !s'.procs[id].pc.FailingPublication?
  {
  }
}
