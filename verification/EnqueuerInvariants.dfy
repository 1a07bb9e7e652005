/** Invariants of the enqueuer: unique keys, one live job per pull request, and what a handler may
    rely on between its statements, whatever the workers do meanwhile. */
module EnqueuerInvariants {
  import opened Domain
  import opened Statements
  import opened System
  import opened Effects
  import opened QueueInvariants
  import opened Enqueuer
  import Worker

  ghost predicate KeysOk(s: State) {
    forall j, k | j in s.tables.jobs && k in s.tables.jobs &&
                  s.tables.jobs[j].pr == s.tables.jobs[k].pr && s.tables.jobs[j].headSha == s.tables.jobs[k].headSha ::
      j == k
  }

  /** Every live job of a pull request is for this head. */
  ghost predicate OnlyHead(jobs: map<JobId, Job>, pr: PullRequest, headSha: string) {
    forall j <- jobs | jobs[j].pr == pr && jobs[j].status.Live() :: jobs[j].headSha == headSha
  }

  ghost predicate OneLive(jobs: map<JobId, Job>) {
    forall j, k | j in jobs && k in jobs && jobs[j].pr == jobs[k].pr && jobs[j].status.Live() && jobs[k].status.Live() ::
      j == k
  }

  ghost predicate InstallationsOk(t: Tables) {
    && (forall g <- t.installations :: t.installations[g].id < t.nextInstallation)
    && (forall g, h | g in t.installations && h in t.installations && t.installations[g].id == t.installations[h].id ::
          g == h)
  }

  /** The installation an order was routed for is still there, under the same id, and active. */
  ghost predicate Active(t: Tables, o: Order) {
    && o.gid in t.installations
    && t.installations[o.gid].id == o.pr.installation
    && t.installations[o.gid].suspendedAt.None?
  }

  ghost predicate HandlerOk(t: Tables, h: Handler) {
    && WellFormed(h)
    && match h
       case Stubbing(e) => GidOf(e) !in t.installations
       case Superseding(o) => Active(t, o)
       case LookingAccount(o) => Active(t, o) && OnlyHead(t.jobs, o.pr, o.headSha)
       case Creating(o) => Active(t, o) && OnlyHead(t.jobs, o.pr, o.headSha)
       case _ => true
  }

  ghost predicate EnqueuerInv(s: State) {
    KeysOk(s) && OneLive(s.tables.jobs) && InstallationsOk(s.tables) && HandlerOk(s.tables, s.handler)
  }

  ghost predicate Aged(row: Job, row': Job) {
    && row'.pr == row.pr
    && row'.headSha == row.headSha
    && (row'.status.Live() ==> row.status.Live())
  }

  lemma RowAges(s: State, e: Effect, j: JobId)
    requires j in s.tables.jobs && !s.tables.jobs[j].status.NeedsReconcile?
    requires e.Writing? ==> e.proc in s.procs && Holds(s.tables.jobs, Worker.TokenOf(s.procs[e.proc]))
    requires e.Taking? ==> e.job in s.tables.jobs && Claimable(s.tables.jobs[e.job], s.tables.now)
    ensures Aged(s.tables.jobs[j], RowAfter(s, e, j))
  {
  }

  /** Rows keep their keys, and none comes to life: only a new row is newly live. */
  lemma RowsAge(s: State, s': State, e: Effect)
    requires Tidy(s) && RowsOk(s) && Moved(s, s', e)
    ensures forall j <- s.tables.jobs :: j in s'.tables.jobs && Aged(s.tables.jobs[j], s'.tables.jobs[j])
    ensures forall j <- s'.tables.jobs :: j in s.tables.jobs || (e.Adding? && j == s.tables.nextJob)
  {
    RowsAfter(s, s', e);
    forall j | j in s.tables.jobs ensures Aged(s.tables.jobs[j], RowAfter(s, e, j)) {
      assert RowOk(s.tables.jobs[j], |Of(s.log.claims, j)|, |Of(s.log.closes, j)|);
      RowAges(s, e, j);
    }
  }

  lemma KeysStep(s: State, s': State, e: Effect)
    requires Tidy(s) && RowsOk(s) && Moved(s, s', e) && KeysOk(s)
    ensures KeysOk(s')
  {
    RowsAge(s, s', e);
  }

  lemma OneLiveStep(s: State, s': State, e: Effect)
    requires Tidy(s) && RowsOk(s) && Moved(s, s', e) && OneLive(s.tables.jobs)
    requires e.Adding? ==> OnlyHead(s.tables.jobs, e.order.pr, e.order.headSha)
    ensures OneLive(s'.tables.jobs)
  {
    RowsAge(s, s', e);
  }

  lemma OnlyHeadStep(s: State, s': State, e: Effect, pr: PullRequest, headSha: string)
    requires Tidy(s) && RowsOk(s) && Moved(s, s', e) && !e.Adding?
    requires OnlyHead(s.tables.jobs, pr, headSha) || e == Dropping(pr, Some(headSha))
    ensures OnlyHead(s'.tables.jobs, pr, headSha)
  {
    RowsAge(s, s', e);
  }

  /** What an action does to the handler and the installations. */
  lemma WorkerLeavesHandler(s: State, a: Action)
    requires a.ByWorker()
    ensures Apply(s, a).handler == s.handler
    ensures Apply(s, a).tables.installations == s.tables.installations
    ensures Apply(s, a).tables.nextInstallation == s.tables.nextInstallation
    ensures !EffectOf(s, a).Adding? && !EffectOf(s, a).Dropping?
  {
    match a
    case Work(_, _, _) =>
      if a.proc in s.procs && Enabled(s.procs[a.proc], a.fault, a.answer) {}
    case _ =>
  }

  lemma DeliverKeeps(s: State, a: Action)
    requires EnqueuerInv(s) && a.Deliver?
    ensures EnqueuerInv(Apply(s, a))
  {
    if s.handler.Idle? { assert HandlerOk(s.tables, Start(a.event)); }
  }

  lemma UpsertKeeps(t: Tables, gid: int, login: string, kind: string, at: Option<Time>)
    requires InstallationsOk(t)
    ensures InstallationsOk(Upsert(t, gid, login, kind, at))
  {
  }

  lemma RouteOk(t: Tables, e: Event)
    requires NeedsInstallation(e) && GidOf(e) in t.installations
    ensures HandlerOk(t, Route(e, t.installations[GidOf(e)]))
  {
  }

  lemma HandleKeepsInstallations(s: State, a: Action)
    requires InstallationsOk(s.tables) && HandlerOk(s.tables, s.handler) && a.Handle?
    ensures InstallationsOk(Apply(s, a).tables)
  {
    match s.handler
    case Installing(p, action, at) =>
      UpsertKeeps(s.tables, p.id, p.login, p.kind, if Suspending(action) then Some(at) else None);
    case Stubbing(e) =>
      var (login, kind) := StubLogin(e.installation.value);
      UpsertKeeps(s.tables, GidOf(e), login, kind, None);
    case _ =>
  }

  lemma HandleKeepsHandler(s: State, a: Action)
    requires Tidy(s) && RowsOk(s) && EnqueuerInv(s) && a.Handle?
    ensures HandlerOk(Apply(s, a).tables, Apply(s, a).handler)
  {
    var s' := Apply(s, a);
    EffectOfAction(s, a);
    match s.handler
    case Looking(e) =>
      if a.fault.Delivered? && GidOf(e) in s.tables.installations { RouteOk(s.tables, e); }
    case Stubbing(e) =>
      if a.fault.Delivered? { RouteOk(s'.tables, e); }
    case Superseding(o) =>
      if a.fault.Delivered? { OnlyHeadStep(s, s', EffectOf(s, a), o.pr, o.headSha); }
    case _ =>
  }

  lemma EnqueuerInvStep(s: State, a: Action)
    requires QueueInv(s) && EnqueuerInv(s)
    ensures EnqueuerInv(Apply(s, a))
  {
    var s', e := Apply(s, a), EffectOf(s, a);
    EffectOfAction(s, a);
    KeysStep(s, s', e);
    if a.ByWorker() {
      WorkerLeavesHandler(s, a);
      OneLiveStep(s, s', e);
      if s.handler.LookingAccount? || s.handler.Creating? {
        OnlyHeadStep(s, s', e, s.handler.order.pr, s.handler.order.headSha);
      }
    } else if a.Deliver? {
      DeliverKeeps(s, a);
    } else {
      assert e.Adding? ==> s.handler == Creating(e.order);
      OneLiveStep(s, s', e);
      HandleKeepsInstallations(s, a);
      HandleKeepsHandler(s, a);
    }
  }
}
