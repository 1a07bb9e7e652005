/** What the enqueuer guarantees over every history of webhooks, with workers stepping anywhere in
    between. */
module EnqueuerTheorems {
  import opened Domain
  import opened Statements
  import opened System
  import opened Effects
  import opened QueueInvariants
  import opened EnqueuerInvariants
  import opened Reachability
  import opened Enqueuer
  import QueueTheorems

  /** No pull request ever has two live jobs. */
  lemma OneLiveJob(s: State, j: JobId, k: JobId)
    requires Reachable(s) && j in s.tables.jobs && k in s.tables.jobs
    requires s.tables.jobs[j].pr == s.tables.jobs[k].pr
    requires s.tables.jobs[j].status.Live() && s.tables.jobs[k].status.Live()
    ensures j == k
  {
    InvariantsHold(s);
  }

  /** A job is only ever created for an active installation, and as the pull request's only live
      job. */
  lemma CreatedForActiveInstallation(s: State, a: Action, j: JobId)
    requires Reachable(s) && j in Apply(s, a).tables.jobs && j !in s.tables.jobs
    ensures exists gid <- s.tables.installations ::
              && s.tables.installations[gid].id == Apply(s, a).tables.jobs[j].pr.installation
              && s.tables.installations[gid].suspendedAt.None?
    ensures Apply(s, a).tables.jobs[j].status.Pending?
    ensures forall k <- s.tables.jobs :: s.tables.jobs[k].pr == Apply(s, a).tables.jobs[j].pr ==> !s.tables.jobs[k].status.Live()
  {
    InvariantsHold(s);
    EffectOfAction(s, a);
    var e := EffectOf(s, a);
    RowsAfter(s, Apply(s, a), e);
    assert e.Adding? && s.handler == Creating(e.order);
    assert Active(s.tables, e.order);
  }

  predicate IsPull(e: Event) {
    e.PullRequestEvent? && NeedsInstallation(e)
  }

  ghost predicate NoneLive(jobs: map<JobId, Job>, pr: PullRequest) {
    forall j <- jobs | jobs[j].pr == pr :: !jobs[j].status.Live()
  }

  /** The event asks for a review and its installation lets it have one. */
  predicate Wanted(e: Event, row: Installation)
    requires IsPull(e)
  {
    Route(e, row).Superseding?
  }

  /** There is nothing left for a delivery of `e` to do: a closing event finds no live job, any
      other finds a row under its key and no live job for another head. */
  ghost predicate Settled(t: Tables, e: Event) {
    && IsPull(e)
    && GidOf(e) in t.installations
    && var row := t.installations[GidOf(e)];
    && var pr := Target(e, row);
    if Closing(e.action, e.pull.value) then NoneLive(t.jobs, pr)
    else Wanted(e, row) && KeyTaken(t.jobs, pr, e.pull.value.headSha) && OnlyHead(t.jobs, pr, e.pull.value.headSha)
  }

  /** The handler is working on a delivery of `e`. */
  ghost predicate WorkingOn(t: Tables, h: Handler, e: Event) {
    match h
    case Idle(d) =>
      (d.Enqueued? || d.EnqueuedNoop? || d.CancelledOpen? ==>
        Settled(t, e) && (d.CancelledOpen? <==> Closing(e.action, e.pull.value)))
    case Installing(_, _, _) => e.InstallationEvent?
    case Looking(x) => x == e
    case Stubbing(x) => x == e
    case CancellingOpen(pr) =>
      && IsPull(e) && GidOf(e) in t.installations
      && Closing(e.action, e.pull.value)
      && pr == Target(e, t.installations[GidOf(e)])
    case Superseding(o) => OrderedFor(t, o, e)
    case LookingAccount(o) => OrderedFor(t, o, e)
    case Creating(o) => OrderedFor(t, o, e)
  }

  ghost predicate OrderedFor(t: Tables, o: Order, e: Event) {
    && IsPull(e) && GidOf(e) in t.installations
    && Wanted(e, t.installations[GidOf(e)])
    && o.(account := None) == OrderFor(e, t.installations[GidOf(e)])
  }

  lemma StartWorks(t: Tables, e: Event)
    ensures WorkingOn(t, Start(e), e)
  {
  }

  lemma RouteWorks(t: Tables, e: Event)
    requires NeedsInstallation(e) && GidOf(e) in t.installations
    ensures WorkingOn(t, Route(e, t.installations[GidOf(e)]), e)
  {
  }

  lemma SettledKept(s: State, s': State, e: Effect, ev: Event)
    requires Tidy(s) && RowsOk(s) && Moved(s, s', e) && !e.Adding?
    requires s'.tables.installations == s.tables.installations
    requires Settled(s.tables, ev)
    ensures Settled(s'.tables, ev)
  {
    RowsAge(s, s', e);
    if !Closing(ev.action, ev.pull.value) {
      var pr := Target(ev, s.tables.installations[GidOf(ev)]);
      var j :| j in s.tables.jobs && s.tables.jobs[j].pr == pr && s.tables.jobs[j].headSha == ev.pull.value.headSha;
      assert j in s'.tables.jobs && s'.tables.jobs[j].pr == pr && s'.tables.jobs[j].headSha == ev.pull.value.headSha;
    }
  }

  lemma WorkingThroughWorker(s: State, a: Action, e: Event)
    requires Tidy(s) && RowsOk(s) && a.ByWorker() && WorkingOn(s.tables, s.handler, e)
    ensures WorkingOn(Apply(s, a).tables, Apply(s, a).handler, e)
  {
    WorkerLeavesHandler(s, a);
    EffectOfAction(s, a);
    if Settled(s.tables, e) { SettledKept(s, Apply(s, a), EffectOf(s, a), e); }
  }

  lemma AfterCancelling(s: State, a: Action, e: Event)
    requires a.Handle? && s.handler.CancellingOpen? && WorkingOn(s.tables, s.handler, e)
    ensures WorkingOn(Apply(s, a).tables, Apply(s, a).handler, e)
  {
  }

  lemma AfterCreating(s: State, a: Action, e: Event)
    requires a.Handle? && s.handler.Creating? && WorkingOn(s.tables, s.handler, e)
    requires HandlerOk(s.tables, s.handler)
    ensures WorkingOn(Apply(s, a).tables, Apply(s, a).handler, e)
  {
    var o, s' := s.handler.order, Apply(s, a);
    if a.fault.Delivered? {
      var pr := o.pr;
      if KeyTaken(s.tables.jobs, pr, o.headSha) {
        assert s'.tables == s.tables;
      } else {
        assert s.tables.nextJob in s'.tables.jobs;
        assert s'.tables.jobs[s.tables.nextJob].pr == pr;
      }
      assert KeyTaken(s'.tables.jobs, pr, o.headSha);
      assert OnlyHead(s'.tables.jobs, pr, o.headSha);
    }
  }

  lemma WorkingThroughHandle(s: State, a: Action, e: Event)
    requires a.Handle? && EnqueuerInv(s) && WorkingOn(s.tables, s.handler, e)
    ensures WorkingOn(Apply(s, a).tables, Apply(s, a).handler, e)
  {
    match s.handler
    case Looking(x) =>
      if a.fault.Delivered? && GidOf(x) in s.tables.installations { RouteWorks(s.tables, x); }
    case Stubbing(x) =>
      if a.fault.Delivered? { RouteWorks(Apply(s, a).tables, x); }
    case CancellingOpen(_) => AfterCancelling(s, a, e);
    case Creating(_) => AfterCreating(s, a, e);
    case _ =>
  }

  /** No other webhook arrives. */
  ghost predicate NoDelivery(run: seq<Action>) {
    forall a <- run :: !a.Deliver?
  }

  lemma {:induction false} WorkingAlong(s: State, e: Event, run: seq<Action>)
    requires Reachable(s) && WorkingOn(s.tables, s.handler, e) && NoDelivery(run)
    ensures WorkingOn(Exec(s, run).tables, Exec(s, run).handler, e)
  {
    if run != [] {
      var n := |run| - 1;
      assert run[n] in run;
      WorkingAlong(s, e, run[..n]);
      var m := Exec(s, run[..n]);
      StillReachable(s, run[..n]);
      InvariantsHold(m);
      if run[n].Handle? { WorkingThroughHandle(m, run[n], e); } else { WorkingThroughWorker(m, run[n], e); }
    }
  }

  /** What the three successful decisions about pull requests mean, as long as no other webhook
      arrives and whatever the workers do: after "enqueued" or "enqueued_noop" there is a row for
      the event's head and any live job of the pull request is for that head; after "cancelled"
      the pull request has no live job. */
  lemma DecisionMeans(s: State, e: Event, run: seq<Action>)
    requires Reachable(s) && s.handler.Idle? && NoDelivery(run)
    requires var s' := Exec(Apply(s, Deliver(e)), run);
             s'.handler.Idle? && (s'.handler.last.Enqueued? || s'.handler.last.EnqueuedNoop? || s'.handler.last.CancelledOpen?)
    ensures var s' := Exec(Apply(s, Deliver(e)), run);
            && Settled(s'.tables, e)
            && (s'.handler.last.CancelledOpen? <==> Closing(e.action, e.pull.value))
  {
    OneMore(Init(), s, Deliver(e));
    StartWorks(s.tables, e);
    WorkingAlong(Apply(s, Deliver(e)), e, run);
  }

  /** The workers' part of a run. */
  function Workers(run: seq<Action>): seq<Action> {
    if run == [] then []
    else
      var n := |run| - 1;
      Workers(run[..n]) + if run[n].ByWorker() then [run[n]] else []
  }

  /** Equal but for the handler. */
  ghost predicate SameButHandler(s: State, x: State) {
    s == x.(handler := s.handler)
  }

  /** Where a second delivery of a settled event can stand. */
  ghost predicate Redelivering(t: Tables, h: Handler, e: Event)
    requires IsPull(e) && GidOf(e) in t.installations
  {
    match h
    case Idle(d) => d.Broken? || d == if Closing(e.action, e.pull.value) then CancelledOpen else EnqueuedNoop
    case Looking(x) => x == e
    case CancellingOpen(pr) => Closing(e.action, e.pull.value) && pr == Target(e, t.installations[GidOf(e)])
    case Superseding(o) => !Closing(e.action, e.pull.value) && OrderedFor(t, o, e)
    case LookingAccount(o) => !Closing(e.action, e.pull.value) && OrderedFor(t, o, e)
    case Creating(o) => !Closing(e.action, e.pull.value) && OrderedFor(t, o, e)
    case _ => false
  }

  lemma WorkersDoNotSeeHandler(s: State, h: Handler, a: Action)
    requires a.ByWorker()
    ensures Apply(s.(handler := h), a) == Apply(s, a).(handler := h)
  {
    match a
    case Work(_, _, _) =>
      if a.proc in s.procs && Enabled(s.procs[a.proc], a.fault, a.answer) {
        assert Record(s.(handler := h), a.proc, s.procs[a.proc], a.fault, a.answer) ==
               Record(s, a.proc, s.procs[a.proc], a.fault, a.answer);
      }
    case _ =>
  }

  /** A settled event's statements change nothing. */
  lemma HandleChangesNothing(s: State, a: Action, e: Event)
    requires a.Handle? && IsPull(e) && Settled(s.tables, e) && Redelivering(s.tables, s.handler, e)
    ensures Apply(s, a) == s.(handler := Apply(s, a).handler)
    ensures Redelivering(s.tables, Apply(s, a).handler, e)
  {
    var row := s.tables.installations[GidOf(e)];
    match s.handler
    case CancellingOpen(pr) => assert Cancel(s.tables.jobs, pr, None) == s.tables.jobs;
    case Superseding(o) => assert Cancel(s.tables.jobs, o.pr, Some(o.headSha)) == s.tables.jobs;
    case _ =>
  }

  lemma {:induction false} RedeliveryAlong(s: State, h: Handler, e: Event, run: seq<Action>)
    requires Reachable(s) && Settled(s.tables, e) && Redelivering(s.tables, h, e) && NoDelivery(run)
    ensures var s', x := Exec(s.(handler := h), run), Exec(s, Workers(run));
            SameButHandler(s', x) && Settled(x.tables, e) && Redelivering(x.tables, s'.handler, e)
  {
    if run != [] {
      var n := |run| - 1;
      var a := run[n];
      assert a in run;
      RedeliveryAlong(s, h, e, run[..n]);
      var m, x := Exec(s.(handler := h), run[..n]), Exec(s, Workers(run[..n]));
      StillReachable(s, Workers(run[..n]));
      InvariantsHold(x);
      if a.ByWorker() {
        WorkersDoNotSeeHandler(x, m.handler, a);
        assert (Workers(run[..n]) + [a])[..|Workers(run[..n])|] == Workers(run[..n]);
        WorkerLeavesHandler(x, a);
        EffectOfAction(x, a);
        SettledKept(x, Apply(x, a), EffectOf(x, a), e);
      } else {
        assert Workers(run) == Workers(run[..n]);
        HandleChangesNothing(m, a, e);
      }
    }
  }

  /** Redelivery is invisible. Deliver `e` and let it be handled with one of the three successful
      decisions; then deliver it again, with workers stepping anywhere and statements failing
      anywhere, but no other webhook in between. The second delivery leaves every table, process
      and log as the workers alone would have left them, and decides "enqueued_noop" (or
      "cancelled" again) unless it fails. */
  lemma RedeliveryIsInvisible(s: State, e: Event, first: seq<Action>, second: seq<Action>)
    requires Reachable(s) && s.handler.Idle? && NoDelivery(first) && NoDelivery(second)
    requires var s1 := Exec(Apply(s, Deliver(e)), first);
             s1.handler.Idle? && (s1.handler.last.Enqueued? || s1.handler.last.EnqueuedNoop? || s1.handler.last.CancelledOpen?)
    ensures var s1 := Exec(Apply(s, Deliver(e)), first);
            var s2 := Exec(Apply(s1, Deliver(e)), second);
            && SameButHandler(s2, Exec(s1, Workers(second)))
            && (s2.handler.Idle? ==>
              s2.handler.last.Broken? || s2.handler.last == if s1.handler.last.CancelledOpen? then CancelledOpen else EnqueuedNoop)
  {
    DecisionMeans(s, e, first);
    OneMore(Init(), s, Deliver(e));
    StillReachable(Apply(s, Deliver(e)), first);
    var s1 := Exec(Apply(s, Deliver(e)), first);
    RedeliveryAlong(s1, Looking(e), e, second);
  }

  /** A "cancelled" decision is final for the jobs it found: whatever happens afterwards, no row the
      pull request had then is ever live, or changes in any way, again. So it has no live job until
      a new one is created, and every beat, save, completion and failure of the processes that had
      claimed the old ones is without effect. */
  lemma ClosingIsFinal(s: State, e: Event, handled: seq<Action>, more: seq<Action>, j: JobId)
    requires Reachable(s) && s.handler.Idle? && NoDelivery(handled)
    requires Exec(Apply(s, Deliver(e)), handled).handler == Idle(CancelledOpen)
    requires IsPull(e) && GidOf(e) in Exec(Apply(s, Deliver(e)), handled).tables.installations
    requires var t := Exec(Apply(s, Deliver(e)), handled).tables;
             j in t.jobs && t.jobs[j].pr == Target(e, t.installations[GidOf(e)])
    ensures var s1 := Exec(Apply(s, Deliver(e)), handled);
            && !s1.tables.jobs[j].status.Live()
            && j in Exec(s1, more).tables.jobs
            && Exec(s1, more).tables.jobs[j] == s1.tables.jobs[j]
  {
    DecisionMeans(s, e, handled);
    OneMore(Init(), s, Deliver(e));
    StillReachable(Apply(s, Deliver(e)), handled);
    var s1 := Exec(Apply(s, Deliver(e)), handled);
    QueueTheorems.GenerationCountsClaims(s1, j);
    QueueTheorems.FinishedIsFrozen(s1, more, j);
  }

  lemma CreatedExactly(s: State, job: Job)
    requires KeysOk(s) && job.status.Live()
    requires forall j <- s.tables.jobs :: s.tables.jobs[j].status.Live() || s.tables.jobs[j].status.Terminal()
    ensures var jobs, jobs' := s.tables.jobs, Create(s.tables, job).jobs;
            (exists j <- jobs' :: jobs'[j].pr == job.pr && jobs'[j].headSha == job.headSha && jobs'[j].status.Live())
            <==> !(exists j <- jobs :: jobs[j].pr == job.pr && jobs[j].headSha == job.headSha && jobs[j].status.Terminal())
  {
    var jobs, jobs' := s.tables.jobs, Create(s.tables, job).jobs;
    if KeyTaken(jobs, job.pr, job.headSha) {
      var j :| j in jobs && jobs[j].pr == job.pr && jobs[j].headSha == job.headSha;
      assert jobs' == jobs;
      assert jobs[j].status.Live() || jobs[j].status.Terminal();
    } else {
      assert s.tables.nextJob in jobs' && jobs'[s.tables.nextJob] == job;
    }
  }

  lemma LiveOrFinished(s: State)
    requires Reachable(s)
    ensures forall j <- s.tables.jobs :: s.tables.jobs[j].status.Live() || s.tables.jobs[j].status.Terminal()
  {
    forall j <- s.tables.jobs ensures s.tables.jobs[j].status.Live() || s.tables.jobs[j].status.Terminal() {
      QueueTheorems.GenerationCountsClaims(s, j);
    }
  }

  /** When the last statement of a delivery goes through, there is a live job for the head if and
      only if the table held no finished row under its key. */
  lemma ScheduledExactly(s: State, a: Action)
    requires Reachable(s) && s.handler.Creating? && a.Handle? && a.fault.Delivered?
    ensures var o, jobs, jobs' := s.handler.order, s.tables.jobs, Apply(s, a).tables.jobs;
            (exists j <- jobs' :: jobs'[j].pr == o.pr && jobs'[j].headSha == o.headSha && jobs'[j].status.Live())
            <==> !(exists j <- jobs :: jobs[j].pr == o.pr && jobs[j].headSha == o.headSha && jobs[j].status.Terminal())
    ensures Apply(s, a).handler == Idle(if KeyTaken(s.tables.jobs, s.handler.order.pr, s.handler.order.headSha) then EnqueuedNoop else Enqueued)
  {
    LiveOrFinished(s);
    InvariantsHold(s);
    var job := NewJob(s.handler.order).(createdAt := s.tables.now);
    assert Apply(s, a).tables == Create(s.tables, job);
    CreatedExactly(s, job);
  }

  /** The action of the last installation event that reached the table, along a run. */
  function LastInstallationAction(s: State, run: seq<Action>, gid: int): Option<string> {
    if run == [] then None
    else
      var n := |run| - 1;
      var h := Exec(s, run[..n]).handler;
      if run[n].Handle? && run[n].fault.Applied() && h.Installing? && h.payload.id == gid then Some(h.action)
      else LastInstallationAction(s, run[..n], gid)
  }

  ghost predicate SuspensionIs(t: Tables, gid: int, last: Option<string>) {
    if gid in t.installations
    then t.installations[gid].suspendedAt.Some? <==> last.Some? && (last.value == "suspend" || last.value == "deleted")
    else last.None?
  }

  lemma SuspensionStep(s: State, a: Action, gid: int, last: Option<string>)
    requires HandlerOk(s.tables, s.handler) && SuspensionIs(s.tables, gid, last)
    ensures SuspensionIs(Apply(s, a).tables, gid,
                         if a.Handle? && a.fault.Applied() && s.handler.Installing? && s.handler.payload.id == gid
                         then Some(s.handler.action) else last)
  {
    if a.ByWorker() { WorkerLeavesHandler(s, a); }
  }

  /** Over every history, an installation is suspended exactly when the last installation event
      applied to it was "suspend" or "deleted"; any other action, known or not, clears it. */
  lemma {:induction false} SuspendedExactly(run: seq<Action>, gid: int)
    ensures SuspensionIs(Exec(Init(), run).tables, gid, LastInstallationAction(Init(), run, gid))
  {
    if run != [] {
      var n := |run| - 1;
      SuspendedExactly(run[..n], gid);
      LeadsToItself(Init());
      StillReachable(Init(), run[..n]);
      InvariantsHold(Exec(Init(), run[..n]));
      SuspensionStep(Exec(Init(), run[..n]), run[n], gid, LastInstallationAction(Init(), run[..n], gid));
    }
  }
}
