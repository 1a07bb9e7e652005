/** Sample runs: a job is queued, a first process gets somewhere, its lease runs out, and a second one
    takes over. */
module SampleRuns {
  import opened Domain
  import opened Statements
  import opened System
  import opened Worker
  import Enqueuer
  import QueueTheorems
  import PublicationTheorems
  import opened Reachability
  import opened Progress

  function SampleEvent(action: string): (e: Enqueuer.Event)
    ensures Enqueuer.NeedsInstallation(e) && Enqueuer.GidOf(e) == 5
  {
    var pull := Enqueuer.PrPayload(7, "open", false, "h", "b", Some("alice"));
    Enqueuer.PullRequestEvent(Some(Enqueuer.Account(5, "o", "User")), Some("o/r"), Some(pull), action, "{}")
  }

  /** A webhook for a pull request of a new installation writes a stub and goes on to supersede. */
  lemma OpenRouted(o: State) returns (s: State)
    requires o.handler.Idle? && o.tables.installations == map[] && o.tables.nextInstallation == 1
    ensures Leads(o, s) && s == o.(tables := s.tables, handler := s.handler)
    ensures s.tables == o.tables.(installations := s.tables.installations, nextInstallation := 2)
    ensures s.tables.installations == map[5 := Installation(1, "o", "User", None)]
    ensures s.handler == Enqueuer.Superseding(Enqueuer.OrderFor(SampleEvent("opened"), s.tables.installations[5]))
  {
    var e, h := SampleEvent("opened"), Handle(Delivered, None);
    LeadsToItself(o);
    var s0 := Apply(o, Deliver(e));
    OneMore(o, o, Deliver(e));
    assert s0.handler == Enqueuer.Looking(e);
    var s1 := Apply(s0, h);
    OneMore(o, s0, h);
    assert s1.handler == Enqueuer.Stubbing(e);
    assert Enqueuer.Allowed("opened");
    s := Apply(s1, h);
    OneMore(o, s1, h);
  }

  /** With no job in the way the order becomes a pending job. */
  lemma OrderPlaced(o: State, s: State, order: Enqueuer.Order) returns (s': State, j: JobId)
    requires Leads(o, s) && s.handler == Enqueuer.Superseding(order) && s.tables.jobs == map[] && order.account.None?
    ensures Leads(o, s') && s' == s.(tables := s'.tables, handler := Enqueuer.Idle(Enqueuer.Enqueued))
    ensures s'.tables == s.tables.(jobs := s'.tables.jobs, nextJob := s'.tables.nextJob)
    ensures s'.tables.jobs == map[j := Enqueuer.NewJob(order).(createdAt := s.tables.now)]
  {
    var h := Handle(Delivered, None);
    var s1 := Apply(s, h);
    OneMore(o, s, h);
    assert s1.handler == Enqueuer.LookingAccount(order) && s1.tables.jobs == map[];
    var s2 := Apply(s1, h);
    OneMore(o, s1, h);
    assert s2.handler == Enqueuer.Creating(order) && s2.tables.jobs == map[];
    s' := Apply(s2, h);
    OneMore(o, s2, h);
    j := s2.tables.nextJob;
  }

  /** A webhook for a new pull request of a new installation leaves a pending job. */
  lemma OneJobQueued() returns (s: State, j: JobId)
    ensures Reachable(s) && j in s.tables.jobs && s.tables.jobs[j].status.Pending?
    ensures s.tables.jobs[j].pr.repo == "o/r"
    ensures s.handler == Enqueuer.Idle(Enqueuer.Enqueued)
    ensures 5 in s.tables.installations && s.tables.installations[5].suspendedAt.None?
    ensures s.tables.jobs == map[j := s.tables.jobs[j]]
    ensures s.tables.jobs[j].pr == PullRequest(s.tables.installations[5].id, "o/r", 7) && s.tables.jobs[j].headSha == "h"
    ensures Fresh(s) && Sample(s, j)
  {
    s := OpenRouted(Init());
    s, j := OrderPlaced(Init(), s, s.handler.order);
  }

  lemma SlashesOfSample()
    ensures Slashes("o/r") == 1
  {
    assert "o/r"[1..] == "/r";
    assert "/r"[1..] == "r";
    assert "r"[1..] == "";
  }

  /** The process holds its job and stands at this counter of a real run. */
  ghost predicate Here(s: State, id: ProcId, pc: PC) {
    Reachable(s) && At(s, s, id, pc)
  }

  lemma NowHere(o: State, s: State, id: ProcId, pc: PC)
    requires Reachable(o) && At(o, s, id, pc)
    ensures Here(s, id, pc)
  {
    LeadsOn(Init(), o, s);
    UnclaimedToItself(s);
  }

  lemma StillReached(o: State, s: State)
    requires Reachable(o) && LeadsUnclaimed(o, s)
    ensures Reachable(s)
  {
    LeadsOn(Init(), o, s);
  }

  /** The sample job is still there to be claimed, now or once the lease has run out. */
  ghost predicate Sample(s: State, j: JobId) {
    && Reachable(s)
    && j in s.tables.jobs
    && s.tables.jobs[j].pr.repo == "o/r"
    && (s.tables.jobs[j].status.Pending? ||
        (s.tables.jobs[j].status.Running? && s.tables.jobs[j].lockedUntil == Some(s.tables.now + 10)))
  }

  ghost predicate Fresh(s: State) {
    s.procs == map[] && s.tables.publications == map[] && s.log.posts == map[]
  }

  /** What a new process finds and leaves as it was. */
  ghost predicate Joined(s: State, s': State, j: JobId, id: ProcId) {
    && Sample(s', j) && s'.tables.jobs[j].status.Running?
    && id in s'.procs && s'.procs[id].job == j
    && s'.procs - {id} == s.procs
    && s'.tables.publications == s.tables.publications && s'.log.posts == s.log.posts
  }

  /** The lease, if there is one, runs out. */
  lemma RunsOut(s: State, j: JobId) returns (s': State)
    requires Sample(s, j)
    ensures Reachable(s') && s' == s.(tables := s.tables.(now := s.tables.now + 11))
    ensures Claimable(s'.tables.jobs[j], s'.tables.now)
  {
    s' := Apply(s, Tick(11));
    OneMore(Init(), s, Tick(11));
  }

  lemma IsClaimed(s: State, j: JobId, id: ProcId, dryRun: bool) returns (s': State)
    requires Sample(s, j) && id !in s.procs
    ensures Here(s', id, CtxCheck(Detective)) && Joined(s, s', j, id)
    ensures s'.procs[id].dryRun == dryRun && s'.procs[id].repo == "o/r"
  {
    var m := RunsOut(s, j);
    var claim := Claim(id, j, "w", 10, dryRun, Delivered);
    s' := ClaimStands(m, claim);
    OneMore(Init(), m, claim);
    NowHere(s', s', id, CtxCheck(Detective));
  }

  /** Claim the job and get to the door of Publish. */
  lemma Starts(s: State, j: JobId, id: ProcId, dryRun: bool, blob: Blob) returns (s': State)
    requires Sample(s, j) && id !in s.procs
    ensures Here(s', id, if dryRun then DryBeginning else Resolving) && Joined(s, s', j, id)
    ensures s'.procs[id].dryRun == dryRun && s'.procs[id].repo == "o/r" && s'.procs[id].result == Some(blob)
  {
    SlashesOfSample();
    var m := IsClaimed(s, j, id, dryRun);
    s' := Sails(m, m, id, CtxCheck(Detective), Luck(blob, None, AppBot, 0));
    SameView(m, s', id, if dryRun then DryBeginning else Resolving, ViewOf(m, id).(result := Some(blob)));
  }

  /** What a view says about the sample job. */
  lemma SameView(o: State, s: State, id: ProcId, pc: PC, v: View)
    requires Reachable(o) && At(o, s, id, pc) && ViewOf(s, id) == v
    requires v.lockedUntil == Some(v.now + 10) && v.pr.repo == "o/r"
    ensures Here(s, id, pc) && Sample(s, v.token.job) && s.tables.jobs[v.token.job].status.Running?
    ensures s.procs[id].job == v.token.job && s.procs[id].dryRun == v.dryRun && s.procs[id].repo == v.repo
    ensures s.procs[id].result == v.result && s.procs - {id} == v.others
    ensures s.tables.publications == v.publications && s.log.posts == v.posts
  {
    NowHere(o, s, id, pc);
  }

  /** The first process, for real: it has won the insert and is about to post. */
  lemma FirstIsPosting(s: State, j: JobId, account: Option<nat>, kind: PublisherKind) returns (s': State)
    requires Sample(s, j) && Fresh(s) && Publishable(account, kind)
    ensures Here(s', 1, Posting) && Sample(s', j) && s'.tables.jobs[j].status.Running?
    ensures 1 in s'.procs && s'.procs - {1} == map[] && s'.procs[1].job == j && !s'.procs[1].dryRun
    ensures s'.tables.publications == map[j := Publication(account, kind, PendingGithub, None)] && s'.log.posts == map[]
  {
    SlashesOfSample();
    var m := Starts(s, j, 1, false, "x");
    var r := Resolves(m, m, 1, account, kind);
    SameView(m, r, 1, Beginning(account, kind), ViewOf(m, 1));
    s' := WinsAndSplits(r, r, 1, account, kind);
    SameView(r, s', 1, Posting, ViewOf(r, 1).(publications := map[j := Publication(account, kind, PendingGithub, None)]));
  }

  lemma FirstLogged(j: JobId, post: Post)
    ensures Logged(map[], j, post) == map[j := [post]]
  {
    assert Of(map[], j) + [post] == [post];
  }

  /** The first process, for real: it has posted and recorded its review. */
  lemma FirstHasPublished(s: State, j: JobId, account: Option<nat>, kind: PublisherKind, reviewId: int) returns (s': State)
    requires Sample(s, j) && Fresh(s) && Publishable(account, kind)
    ensures Here(s', 1, PUBLISHED_NIL) && Sample(s', j) && s'.tables.jobs[j].status.Running?
    ensures 1 in s'.procs && s'.procs - {1} == map[] && s'.procs[1].job == j && !s'.procs[1].dryRun && s'.procs[1].result == Some("x")
    ensures s'.tables.publications == map[j := Publication(account, kind, Published, Some(reviewId))]
    ensures s'.log.posts == map[j := [Post(1, Some(reviewId), true, "x")]]
  {
    SlashesOfSample();
    var m := Starts(s, j, 1, false, "x");
    var r := Resolves(m, m, 1, account, kind);
    SameView(m, r, 1, Beginning(account, kind), ViewOf(m, 1));
    s' := Publishes(r, r, 1, account, kind, reviewId);
    FirstLogged(j, Post(1, Some(reviewId), true, "x"));
    SameView(r, s', 1, PUBLISHED_NIL,
             ViewOf(r, 1).(
               publications := map[j := Publication(account, kind, Published, Some(reviewId))],
               posts := map[j := [Post(1, Some(reviewId), true, "x")]]));
  }

  /** The first process, dry: it has won the insert. */
  lemma FirstWinsDry(s: State, j: JobId) returns (s': State)
    requires Sample(s, j) && Fresh(s)
    ensures Here(s', 1, DryFinalizing) && Sample(s', j) && s'.tables.jobs[j].status.Running?
    ensures s'.procs - {1} == map[] && s'.procs[1].job == j
    ensures s'.tables.publications == map[j := Publication(None, User, PendingGithub, None)] && s'.log.posts == map[]
  {
    var m := Starts(s, j, 1, true, "x");
    s' := DryWins(m, m, 1);
    SameView(m, s', 1, DryFinalizing, ViewOf(m, 1).(publications := map[j := Publication(None, User, PendingGithub, None)]));
  }

  /** ... and has recorded that there is nothing to post. */
  lemma FirstIsDoneDry(s: State, j: JobId) returns (s': State)
    requires Sample(s, j) && Fresh(s)
    ensures Sample(s', j) && s'.procs - {1} == map[] && s'.log.posts == map[]
    ensures s'.tables.publications == map[j := Publication(None, User, Published, None)]
  {
    var m := FirstWinsDry(s, j);
    s' := DryFinalizes(m, m, 1);
    SameView(m, s', 1, PUBLISHED_NIL, ViewOf(m, 1).(publications := map[j := Publication(None, User, Published, None)]));
  }

  /** The second process, for real: it has found the publication row and is about to read it. */
  lemma SecondIsReading(s: State, j: JobId) returns (s': State)
    requires Sample(s, j) && 2 !in s.procs && j in s.tables.publications
    ensures Here(s', 2, Reading) && Joined(s, s', j, 2)
    ensures !s'.procs[2].dryRun && s'.procs[2].result == Some("y")
  {
    var m := Starts(s, j, 2, false, "y");
    var r := Resolves(m, m, 2, None, AppBot);
    SameView(m, r, 2, Beginning(None, AppBot), ViewOf(m, 2));
    s' := FindsRow(r, r, 2, None, AppBot);
    SameView(r, s', 2, Reading, ViewOf(r, 2));
  }

  /** A process that is through with Publish completes the job for real. */
  lemma EndsForReal(s: State, id: ProcId) returns (s': State)
    requires Here(s, id, PUBLISHED_NIL) && !s.procs[id].dryRun
    ensures PublicationTheorems.CompletedForReal(s', s.procs[id].job)
    ensures PublicationTheorems.Closer(s', s.procs[id].job) == id
    ensures id in s'.procs && s'.procs[id].result == s.procs[id].result && s'.procs - {id} == s.procs - {id}
    ensures s'.tables.publications == s.tables.publications && s'.log.posts == s.log.posts
  {
    s' := EndsWell(s, s, id);
    StillReached(s, s');
    QueueTheorems.GenerationCountsClaims(s', s.procs[id].job);
  }

  /** The second process takes the row for done and completes the job. */
  lemma SecondCompletes(s: State, j: JobId) returns (s': State)
    requires Here(s, 2, Reading) && !s.procs[2].dryRun && s.procs[2].job == j && Acceptable(s, j)
    ensures PublicationTheorems.CompletedForReal(s', j) && PublicationTheorems.Closer(s', j) == 2
    ensures 2 in s'.procs && s'.procs[2].result == s.procs[2].result && s'.procs - {2} == s.procs - {2}
    ensures s'.tables.publications == s.tables.publications && s'.log.posts == s.log.posts
  {
    var m := TakesRow(s, s, 2);
    NowHere(s, m, 2, PUBLISHED_NIL);
    var v := ViewOf(m, 2);
    assert v == ViewOf(s, 2);
    assert m.procs[2].job == v.token.job && m.procs[2].dryRun == v.dryRun && m.procs[2].result == v.result;
    s' := EndsForReal(m, 2);
  }

  /** A post is refused, and the publication is marked as failed; the lease does not matter. */
  lemma PostIsRefused(s: State, id: ProcId) returns (s': State)
    requires Reachable(s) && id in s.procs && s.procs[id].pc == Posting && s.procs[id].job in s.tables.publications
    ensures Reachable(s') && s' == s.(tables := s'.tables, procs := s'.procs, log := s'.log)
    ensures s'.tables == s.tables.(publications := FailPublication(s.tables.publications, s.procs[id].job))
    ensures s'.procs == s.procs[id := s.procs[id].(pc := Returning(Failure(false, "refused")))]
    ensures s'.log.posts ==
            Logged(s.log.posts, s.procs[id].job, Post(id, None, false, OrEmpty(s.procs[id].result)))
    ensures s'.log == s.log.(posts := s'.log.posts)
  {
    var m := CallFails(s, id);
    s' := GivesUp(m, id);
  }

  lemma GivesUp(s: State, id: ProcId) returns (s': State)
    requires Reachable(s) && id in s.procs && s.procs[id].pc == FailingPublication(Failure(false, "refused"))
    ensures Reachable(s') && s' == s.(tables := s'.tables, procs := s'.procs)
    ensures s'.tables == s.tables.(publications := FailPublication(s.tables.publications, s.procs[id].job))
    ensures s'.procs == s.procs[id := s.procs[id].(pc := Returning(Failure(false, "refused")))]
  {
    s' := Apply(s, Work(id, Delivered, Done));
    OneMore(Init(), s, Work(id, Delivered, Done));
  }

  lemma CallFails(s: State, id: ProcId) returns (s': State)
    requires Reachable(s) && id in s.procs && s.procs[id].pc == Posting
    ensures Reachable(s') && s' == s.(procs := s'.procs, log := s'.log)
    ensures s'.procs == s.procs[id := s.procs[id].(pc := FailingPublication(Failure(false, "refused")))]
    ensures s'.log ==
            s.log.(posts := Logged(s.log.posts, s.procs[id].job, Post(id, None, false, OrEmpty(s.procs[id].result))))
  {
    var a := Work(id, Lost(false, false, "refused"), Done);
    s' := Apply(s, a);
    OneMore(Init(), s, a);
  }
}
