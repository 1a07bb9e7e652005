/** Three things a reader might expect that are false, each with a run that shows it: a completed job
    has had its review posted, a reopened pull request has a job waiting for it, and retrying for real
    gets every job done in the end. */
module Counterexamples {
  import opened Domain
  import opened Statements
  import opened System
  import opened Worker
  import Enqueuer
  import opened Reachability
  import opened Progress
  import opened SampleRuns
  import PublicationTheorems
  import Completion
  import Guarantees

  /** "A completed job has had its review posted" is false: the first process wins the insert and does
      not get to post, its lease runs out, and the second, for real too, takes the pending row for a
      review in flight and completes the job. */
  lemma CompletedWithoutReview() returns (s: State, j: JobId)
    ensures PublicationTheorems.CompletedForReal(s, j)
    ensures j in s.tables.publications && s.tables.publications[j].state.PendingGithub?
    ensures Of(s.log.posts, j) == []
  {
    s, j := Guarantees.CompletedPending(None, AppBot);
  }

  lemma Closes(o: State, s: State, j: JobId) returns (s': State)
    requires Leads(o, s) && s.handler.Idle? && j in s.tables.jobs && s.tables.jobs[j].status.Pending?
    requires 5 in s.tables.installations && s.tables.jobs == map[j := s.tables.jobs[j]]
    requires s.tables.jobs[j].pr == PullRequest(s.tables.installations[5].id, "o/r", 7)
    ensures Leads(o, s') && s'.handler.Idle? && s'.tables.installations == s.tables.installations
    ensures s'.tables.jobs == map[j := s.tables.jobs[j].(status := Cancelled)]
  {
    var e, h := SampleEvent("closed"), Handle(Delivered, None);
    var s1 := Apply(s, Deliver(e));
    OneMore(o, s, Deliver(e));
    assert s1.handler == Enqueuer.Looking(e);
    var s2 := Apply(s1, h);
    OneMore(o, s1, h);
    assert s2.handler == Enqueuer.CancellingOpen(s.tables.jobs[j].pr);
    s' := Apply(s2, h);
    OneMore(o, s2, h);
    assert Selected(s.tables.jobs[j], s.tables.jobs[j].pr, None);
  }

  lemma ReopenRouted(o: State, s: State) returns (s': State)
    requires Leads(o, s) && s.handler.Idle?
    requires 5 in s.tables.installations && s.tables.installations[5].suspendedAt.None?
    ensures Leads(o, s') && s'.tables == s.tables
    ensures s'.handler == Enqueuer.Superseding(Enqueuer.OrderFor(SampleEvent("reopened"), s.tables.installations[5]))
  {
    var e, h := SampleEvent("reopened"), Handle(Delivered, None);
    assert Enqueuer.Allowed("reopened");
    var m := Apply(s, Deliver(e));
    OneMore(o, s, Deliver(e));
    assert m.handler == Enqueuer.Looking(e);
    s' := Apply(m, h);
    OneMore(o, m, h);
  }

  /** Every job of the order's pull request is the cancelled one under the order's own key. */
  lemma NothingToCreate(o: State, s: State, order: Enqueuer.Order, j: JobId) returns (s': State)
    requires Leads(o, s) && s.handler == Enqueuer.Superseding(order)
    requires j in s.tables.jobs && s.tables.jobs == map[j := s.tables.jobs[j]] && s.tables.jobs[j].status.Cancelled?
    requires s.tables.jobs[j].pr == order.pr && s.tables.jobs[j].headSha == order.headSha && order.account.None?
    ensures Leads(o, s') && s'.handler == Enqueuer.Idle(Enqueuer.EnqueuedNoop) && s'.tables.jobs == s.tables.jobs
  {
    var h := Handle(Delivered, None);
    var s1 := Apply(s, h);
    OneMore(o, s, h);
    assert s1.handler == Enqueuer.LookingAccount(order) && s1.tables.jobs == s.tables.jobs;
    var s2 := Apply(s1, h);
    OneMore(o, s1, h);
    assert s2.handler == Enqueuer.Creating(order) && s2.tables.jobs == s.tables.jobs;
    s' := Apply(s2, h);
    OneMore(o, s2, h);
    assert KeyTaken(s.tables.jobs, order.pr, order.headSha);
  }

  /** "After a successful delivery the pull request has a live job for its head" is false: opened,
      closed, reopened, with the same head, ends in "enqueued_noop" and nothing to run. */
  lemma ReopenedWithoutJob() returns (s: State, j: JobId)
    ensures Reachable(s) && s.handler == Enqueuer.Idle(Enqueuer.EnqueuedNoop)
    ensures j in s.tables.jobs && forall k <- s.tables.jobs :: k == j && s.tables.jobs[k].status.Cancelled?
  {
    s, j := OneJobQueued();
    s := Closes(Init(), s, j);
    s := ReopenRouted(Init(), s);
    s := NothingToCreate(Init(), s, s.handler.order, j);
  }

  /** "A failed job is done again" is false of jobs whose review was refused: the first process has
      marked the publication as failed and has not failed the job yet; if it dies there, the job will be
      claimed again. It is live and its name well formed, but no run that claims it for real only ever
      completes it. */
  lemma RetriedInVain() returns (s: State, j: JobId)
    ensures Reachable(s) && j in s.tables.jobs && s.tables.jobs[j].status.Live()
    ensures ValidRepo(s.tables.jobs[j].pr.repo)
    ensures !exists s' :: LeadsForReal(s, s', j) && j in s'.tables.jobs && s'.tables.jobs[j].status.Completed?
  {
    SlashesOfSample();
    var q;
    q, j := OneJobQueued();
    var m := FirstIsPosting(q, j, None, AppBot);
    s := PostIsRefused(m, 1);
    assert Completion.HasFailed(s, j);
    forall id | id in s.procs ensures !CanFinish(s.procs[id]) {
      assert id in m.procs - {1} || id == 1;
    }
    Completion.CompletableForRealExactly(s, j);
  }
}
