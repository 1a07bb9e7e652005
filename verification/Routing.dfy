/** Which webhooks lead to what: the decision about every event, and what has changed in the tables, when
    the handler runs to its end and every statement is delivered. Stated of the events themselves. */
module Routing {
  import opened Domain
  import opened Statements
  import opened System
  import opened Enqueuer
  import opened Reachability

  /** The delivery, and as many of the handler's statements as it can need. */
  function Handling(e: Event, account: Option<nat>): seq<Action> {
    var h := Handle(Delivered, account);
    [Deliver(e), h, h, h, h, h]
  }

  function Step(s: State, account: Option<nat>): State {
    Apply(s, Handle(Delivered, account))
  }

  lemma ExecHandling(s: State, e: Event, account: Option<nat>)
    ensures Exec(s, Handling(e, account)) ==
            Step(Step(Step(Step(Step(Apply(s, Deliver(e)), account), account), account), account), account)
  {
    var h := Handle(Delivered, account);
    var run := Handling(e, account);
    assert run[..5] == [Deliver(e), h, h, h, h] && run[..5][..4] == [Deliver(e), h, h, h];
    assert run[..5][..4][..3] == [Deliver(e), h, h] && run[..5][..4][..3][..2] == [Deliver(e), h];
    assert run[..5][..4][..3][..2][..1] == [Deliver(e)] && [Deliver(e)][..0] == [];
    var x0 := Apply(s, Deliver(e));
    assert Exec(s, []) == s && Exec(s, [Deliver(e)]) == x0;
    assert Exec(s, [Deliver(e), h]) == Step(x0, account);
    assert Exec(s, [Deliver(e), h, h]) == Step(Step(x0, account), account);
    assert Exec(s, [Deliver(e), h, h, h]) == Step(Step(Step(x0, account), account), account);
    assert Exec(s, [Deliver(e), h, h, h, h]) == Step(Step(Step(Step(x0, account), account), account), account);
  }

  lemma IdleStays(s: State, account: Option<nat>)
    requires s.handler.Idle?
    ensures Step(s, account) == s
  {
  }

  // What an event asks for

  predicate Complete(e: Event) {
    e.PullRequestEvent? && e.installation.Some? && e.repo.Some? && e.pull.Some?
  }

  predicate Closes(e: Event)
    requires Complete(e)
  {
    e.action == "closed" || e.pull.value.state == "closed" || e.action == "converted_to_draft"
  }

  predicate Reviewable(action: string) {
    || action == "opened" || action == "reopened" || action == "synchronize"
    || action == "ready_for_review" || action == "assigned"
  }

  predicate Drafted(e: Event)
    requires Complete(e)
  {
    e.pull.value.draft && e.action != "ready_for_review"
  }

  /** The installation that the handler goes by: the stored one, or a stub. */
  function InstallationOf(t: Tables, a: Account): Installation {
    if a.id in t.installations then t.installations[a.id]
    else
      Installation(
        t.nextInstallation,
        if a.login == "" then "unknown-stub" else a.login,
        if a.login == "" then "Organization" else a.kind,
        None)
  }

  /** The tables once the installation is there. */
  ghost predicate Ensured(t: Tables, t': Tables, a: Account) {
    if a.id in t.installations then t' == t
    else t' == t.(installations := t.installations[a.id := InstallationOf(t, a)], nextInstallation := t.nextInstallation + 1)
  }

  /** How the five decisions about a complete event split the cases. */
  lemma RoutedExactly(e: Event, row: Installation)
    requires Complete(e)
    ensures var h, p := Route(e, row), e.pull.value;
            && (h.CancellingOpen? <==> Closes(e))
            && (h == Idle(SkippedSuspended) <==> !Closes(e) && row.suspendedAt.Some?)
            && (h == Idle(Ignored) <==> !Closes(e) && row.suspendedAt.None? && !Reviewable(e.action))
            && (h == Idle(Skipped) <==>
              !Closes(e) && row.suspendedAt.None? && Reviewable(e.action) && (Drafted(e) || p.reviewer.None?))
            && (h.Superseding? <==>
              !Closes(e) && row.suspendedAt.None? && Reviewable(e.action) && !Drafted(e) && p.reviewer.Some?)
            && (h.Idle? || h.CancellingOpen? || h.Superseding?)
    ensures var h, p := Route(e, row), e.pull.value;
            && (h.CancellingOpen? ==> h.pr == PullRequest(row.id, e.repo.value, p.number))
            && (h.Superseding? ==>
              h.order == Order(e.installation.value.id, PullRequest(row.id, e.repo.value, p.number),
                               p.headSha, p.baseSha, None, p.reviewer.value, e.raw))
  {
  }

  /** Two statements at most, and the handler has the installation's row. */
  lemma Arrives(s: State, e: Event, account: Option<nat>) returns (s': State)
    requires s.handler == Looking(e) && NeedsInstallation(e)
    ensures s' == s.(tables := s'.tables, handler := Route(e, InstallationOf(s.tables, e.installation.value)))
    ensures Ensured(s.tables, s'.tables, e.installation.value)
    ensures s' == (if e.installation.value.id in s.tables.installations then Step(s, account) else Step(Step(s, account), account))
  {
    s' := Step(s, account);
    if e.installation.value.id !in s.tables.installations {
      assert s' == s.(handler := Stubbing(e));
      s' := Step(s', account);
    }
  }

  lemma Settles(s: State, account: Option<nat>)
    requires s.handler.Idle? || s.handler.CancellingOpen? || s.handler.Superseding?
    ensures Step(Step(Step(s, account), account), account).handler.Idle?
    ensures s.handler.Idle? ==> Step(Step(Step(s, account), account), account) == s
    ensures s.handler.CancellingOpen? ==>
              Step(Step(Step(s, account), account), account) ==
              s.(tables := s.tables.(jobs := Cancel(s.tables.jobs, s.handler.pr, None)), handler := Idle(CancelledOpen))
    ensures s.handler.Superseding? ==>
              var x := Step(Step(Step(s, account), account), account);
              Placed(s, x, s.handler.order, account)
  {
    if s.handler.Superseding? { PlacesOrder(s, account); }
  }

  /** Older jobs of the pull request are cancelled; then the key is found taken, or the job is inserted. */
  ghost predicate Placed(s: State, s': State, o: Order, account: Option<nat>) {
    var jobs := Cancel(s.tables.jobs, o.pr, Some(o.headSha));
    if KeyTaken(jobs, o.pr, o.headSha)
    then s' == s.(tables := s.tables.(jobs := jobs), handler := Idle(EnqueuedNoop))
    else
      s' == s.(
        tables := s.tables.(
          jobs := jobs[s.tables.nextJob :=
                       Job(o.pr, o.headSha, o.baseSha, account, o.login, Pending, 0, None, None, 0, None, o.raw, None, None, s.tables.now)],
          nextJob := s.tables.nextJob + 1),
        handler := Idle(Enqueued))
  }

  lemma PlacesOrder(s: State, account: Option<nat>)
    requires s.handler.Superseding?
    ensures Placed(s, Step(Step(Step(s, account), account), account), s.handler.order, account)
  {
    var o := s.handler.order;
    var s1 := Step(s, account);
    assert s1 == s.(tables := s.tables.(jobs := Cancel(s.tables.jobs, o.pr, Some(o.headSha))), handler := LookingAccount(o));
    var s2 := Step(s1, account);
    assert s2 == s1.(handler := Creating(o.(account := account)));
  }

  /** The state in which a complete event leaves the system. */
  lemma Outcome(s: State, e: Event, account: Option<nat>) returns (m: State)
    requires s.handler.Idle? && NeedsInstallation(e)
    ensures m == s.(tables := m.tables, handler := Route(e, InstallationOf(s.tables, e.installation.value)))
    ensures Ensured(s.tables, m.tables, e.installation.value)
    ensures m.handler.Idle? || m.handler.CancellingOpen? || m.handler.Superseding? ==>
              Exec(s, Handling(e, account)) == Step(Step(Step(m, account), account), account)
  {
    ExecHandling(s, e, account);
    var x := Apply(s, Deliver(e));
    assert x == s.(handler := Looking(e));
    m := Arrives(x, e, account);
    var y := Step(Step(Step(m, account), account), account);
    if m.handler.Idle? || m.handler.CancellingOpen? || m.handler.Superseding? {
      Settles(m, account);
      IdleStays(y, account);
    }
  }

  /** The decision about a complete pull_request event, from any reachable idle state: all five cases. */
  lemma DecidedExactly(s: State, e: Event, account: Option<nat>)
    requires Reachable(s) && s.handler.Idle? && Complete(e)
    ensures var h := Exec(s, Handling(e, account)).handler;
            var gid, p := e.installation.value.id, e.pull.value;
            var suspended := gid in s.tables.installations && s.tables.installations[gid].suspendedAt.Some?;
            && h.Idle?
            && (h.last.CancelledOpen? <==> Closes(e))
            && (h.last.SkippedSuspended? <==> !Closes(e) && suspended)
            && (h.last.Ignored? <==> !Closes(e) && !suspended && !Reviewable(e.action))
            && (h.last.Skipped? <==> !Closes(e) && !suspended && Reviewable(e.action) && (Drafted(e) || p.reviewer.None?))
            && (h.last.Enqueued? || h.last.EnqueuedNoop? <==>
              !Closes(e) && !suspended && Reviewable(e.action) && !Drafted(e) && p.reviewer.Some?)
  {
    var m := Outcome(s, e, account);
    RoutedExactly(e, InstallationOf(s.tables, e.installation.value));
    Settles(m, account);
  }

  /** What the event has changed: an installation that was missing is there; a closing event has cancelled
      the live jobs of its pull request; a wanted one has cancelled those for other heads and, unless the
      key was taken, inserted a job with the event's heads, reviewer and payload; any other has changed no
      job. */
  lemma ChangedExactly(s: State, e: Event, account: Option<nat>)
    requires Reachable(s) && s.handler.Idle? && Complete(e)
    ensures var s' := Exec(s, Handling(e, account));
            var row, p := InstallationOf(s.tables, e.installation.value), e.pull.value;
            var pr := PullRequest(row.id, e.repo.value, p.number);
            && s' == s.(tables := s'.tables, handler := s'.handler) && s'.handler.Idle?
            && Ensured(s.tables, s'.tables.(jobs := s.tables.jobs, nextJob := s.tables.nextJob), e.installation.value)
            && (s'.handler == Idle(CancelledOpen) ==> s'.tables.jobs == Cancel(s.tables.jobs, pr, None))
            && (s'.handler == Idle(EnqueuedNoop) ==>
              && s'.tables.jobs == Cancel(s.tables.jobs, pr, Some(p.headSha))
              && exists j <- s.tables.jobs :: s.tables.jobs[j].pr == pr && s.tables.jobs[j].headSha == p.headSha)
            && (s'.handler == Idle(Enqueued) ==>
              && p.reviewer.Some?
              && s'.tables.jobs ==
                 Cancel(s.tables.jobs, pr, Some(p.headSha))[s.tables.nextJob :=
                   Job(pr, p.headSha, p.baseSha, account, p.reviewer.value, Pending, 0, None, None, 0, None, e.raw, None, None, s.tables.now)]
              && !exists j <- s.tables.jobs :: s.tables.jobs[j].pr == pr && s.tables.jobs[j].headSha == p.headSha)
            && (s'.handler.last.SkippedSuspended? || s'.handler.last.Ignored? || s'.handler.last.Skipped? ==>
              s'.tables.jobs == s.tables.jobs)
  {
    var m := Outcome(s, e, account);
    RoutedExactly(e, InstallationOf(s.tables, e.installation.value));
    Settles(m, account);
    if m.handler.Superseding? {
      KeyStays(m.tables.jobs, m.handler.order.pr, m.handler.order.headSha);
    }
  }

  /** Cancelling other heads does not touch the keys. */
  lemma KeyStays(jobs: map<JobId, Job>, pr: PullRequest, headSha: string)
    ensures KeyTaken(Cancel(jobs, pr, Some(headSha)), pr, headSha) <==>
            exists j <- jobs :: jobs[j].pr == pr && jobs[j].headSha == headSha
  {
    var jobs' := Cancel(jobs, pr, Some(headSha));
    if KeyTaken(jobs', pr, headSha) {
      var j :| j in jobs' && jobs'[j].pr == pr && jobs'[j].headSha == headSha;
      assert j in jobs && jobs[j].pr == pr && jobs[j].headSha == headSha;
    }
    if j :| j in jobs && jobs[j].pr == pr && jobs[j].headSha == headSha {
      assert j in jobs' && jobs'[j].pr == pr && jobs'[j].headSha == headSha;
    }
  }

  /** A cancelled row is one of the pull request's that were pending, running or waiting, except those of
      the spared head; nothing else changes in it, and no other row changes. */
  lemma CancelExactly(jobs: map<JobId, Job>, pr: PullRequest, except: Option<string>)
    ensures Cancel(jobs, pr, except).Keys == jobs.Keys
    ensures forall j <- jobs ::
              var row := jobs[j];
              Cancel(jobs, pr, except)[j] ==
              (if row.pr == pr && (row.status.Pending? || row.status.Running? || row.status.RetryWait?) && except != Some(row.headSha)
               then Job(row.pr, row.headSha, row.baseSha, row.account, row.login, Cancelled, row.lockGeneration, row.lockedUntil,
                        row.lockedBy, row.attempt, row.lastError, row.contextBlob, row.resultBlob, row.promptVersion, row.createdAt)
               else row)
  {
  }

  /** A comment never changes a job: it is ignored off pull requests, and otherwise skipped, with the reason. */
  lemma CommentDecided(s: State, e: Event, account: Option<nat>)
    requires Reachable(s) && s.handler.Idle? && e.CommentEvent?
    requires e.installation.Some? && e.repo.Some? && e.issue.Some? && e.mention.Some?
    ensures var s' := Exec(s, Handling(e, account));
            var gid := e.installation.value.id;
            var suspended := gid in s.tables.installations && s.tables.installations[gid].suspendedAt.Some?;
            && s'.tables.jobs == s.tables.jobs
            && s'.handler == Idle(
                 if !e.issue.value.onPullRequest then Ignored
                 else if suspended then SkippedSuspended
                 else if e.mention.value.None? then Skipped
                 else SkippedNoSha)
  {
    if e.issue.value.onPullRequest {
      var m := Outcome(s, e, account);
      Settles(m, account);
    } else {
      FinishesAtOnce(s, e, account, Ignored);
    }
  }

  lemma FinishesAtOnce(s: State, e: Event, account: Option<nat>, d: Decision)
    requires s.handler.Idle? && Start(e) == Idle(d)
    ensures Exec(s, Handling(e, account)) == s.(handler := Idle(d))
  {
    ExecHandling(s, e, account);
    IdleStays(s.(handler := Idle(d)), account);
  }

  /** Pings and events of other kinds are ignored; an event with a part missing is malformed. Neither
      changes anything. */
  lemma TurnedAway(s: State, e: Event, account: Option<nat>)
    requires Reachable(s) && s.handler.Idle?
    requires
      || e.Ping? || e.OtherEvent?
      || (e.InstallationEvent? && e.installation.None?)
      || (e.PullRequestEvent? && !Complete(e))
      || (e.CommentEvent? && (e.installation.None? || e.repo.None? || e.issue.None? || e.mention.None?))
    ensures Exec(s, Handling(e, account)) == s.(handler := Idle(if e.Ping? || e.OtherEvent? then Ignored else Malformed))
  {
    FinishesAtOnce(s, e, account, if e.Ping? || e.OtherEvent? then Ignored else Malformed);
  }

  /** An installation event stores login and kind, and the time of its suspension if it is one; any other
      action clears it. */
  lemma InstallationDecided(s: State, e: Event, account: Option<nat>)
    requires Reachable(s) && s.handler.Idle? && e.InstallationEvent? && e.installation.Some?
    ensures var s', a := Exec(s, Handling(e, account)), e.installation.value;
            var id := if a.id in s.tables.installations then s.tables.installations[a.id].id else s.tables.nextInstallation;
            var suspendedAt := if e.action == "suspend" || e.action == "deleted" then Some(e.at) else None;
            && s'.handler == Idle(Processed)
            && s'.tables.installations == s.tables.installations[a.id := Installation(id, a.login, a.kind, suspendedAt)]
            && s'.tables.jobs == s.tables.jobs && s'.tables.publications == s.tables.publications
  {
    ExecHandling(s, e, account);
    var x := Step(Apply(s, Deliver(e)), account);
    assert x.handler == Idle(Processed);
    IdleStays(x, account);
  }

  /** A statement that is lost breaks the delivery off. */
  lemma TroubleBreaksOff(s: State, a: Action)
    requires Reachable(s) && !s.handler.Idle? && a.Handle? && a.fault.Lost?
    ensures Apply(s, a).handler == Idle(Broken)
  {
    InvariantsHold(s);
  }
}
