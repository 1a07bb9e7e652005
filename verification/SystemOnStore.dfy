/** The store object under a run: whatever workers and handler do, calling the store's methods takes
    the object through exactly the tables of the system's states. A call that is lost before it is
    applied is not made. */
module SystemOnStore {
  import opened Domain
  import opened Statements
  import opened System
  import opened QueueInvariants
  import opened Reachability
  import Worker
  import Enqueuer
  import opened StoreObject

  method PerformClaim(store: Store, ghost s: State, a: Action)
    requires store.View() == s.tables && a.Claim?
    requires a.proc !in s.procs
    modifies store`jobs
    ensures store.View() == Apply(s, a).tables
  {
    if a.fault.Applied() && a.job in store.jobs && Claimable(store.jobs[a.job], store.now) {
      // The claim that found this job found every other claimable row locked.
      var locked := store.jobs.Keys - {a.job};
      var claimed := store.ClaimJob(a.worker, a.lease, locked);
      assert claimed.Some?;
    }
  }

  method PerformUpdate(store: Store, t: Token, w: Write)
    modifies store`jobs
    ensures store.jobs == Fenced(old(store.jobs), t, w)
  {
    match w {
      case Beat(until) =>
        var _ := store.HeartbeatJob(t, until - store.now);
      case SaveContext(blob) =>
        var _ := store.UpdateJobContext(t, blob);
      case SaveResult(blob, version) =>
        var _ := store.UpdateJobResult(t, blob, version);
      case Complete(blob) =>
        var _ := store.CompleteJob(t, blob);
      case Fail(message) =>
        var _ := store.FailJob(t, message);
    }
  }

  method PerformRequest(store: Store, p: Worker.Proc)
    modifies store`jobs, store`publications
    ensures store.View() == Effect(old(store.View()), p)
  {
    match Worker.Ask(p) {
      case Update(w) =>
        PerformUpdate(store, Worker.TokenOf(p), w);
      case BeginPublication(account, kind) =>
        var _ := store.BeginPublication(p.job, account, kind);
      case FinalizePublication(id) =>
        store.FinalizePublication(p.job, id, id.None?);
      case FailThePublication =>
        store.FailPublicationRow(p.job);
      case _ =>
    }
  }

  method PerformQuestion(store: Store, q: Enqueuer.Question)
    requires store.nextJob !in store.jobs
    modifies store`jobs, store`nextJob, store`installations, store`nextInstallation
    ensures store.View() == HandlerEffect(old(store.View()), q)
  {
    match q {
      case UpsertInstallation(gid, login, kind, suspendedAt) =>
        var _ := store.UpsertInstallation(gid, login, kind, suspendedAt);
      case CancelJobs(pr, except) =>
        if except.Some? {
          var _ := store.CancelJobsForPR(pr, except.value);
        } else {
          var _ := store.CancelOpenJobsForPR(pr);
        }
      case CreateJob(job) =>
        var _ := store.CreateJob(job);
      case _ =>
    }
  }

  /** One action on the object. */
  method Perform(store: Store, s: State, a: Action)
    requires store.View() == s.tables && Tidy(s)
    modifies store
    ensures store.View() == Apply(s, a).tables
  {
    match a {
      case Tick(elapsed) =>
        store.now := store.now + elapsed;
      case Claim(_, _, _, _, _, _) =>
        if a.proc !in s.procs {
          PerformClaim(store, s, a);
        }
      case Heartbeat(id, fault) =>
        if id in s.procs && s.procs[id].beating && fault.Applied() {
          PerformUpdate(store, Worker.TokenOf(s.procs[id]), Beat(store.now + s.procs[id].lease));
        }
      case Work(id, fault, answer) =>
        if id in s.procs && Enabled(s.procs[id], fault, answer) && fault.Applied() {
          PerformRequest(store, s.procs[id]);
        }
      case Handle(fault, _) =>
        if Enqueuer.WellFormed(s.handler) && !s.handler.Idle? && fault.Applied() {
          PerformQuestion(store, Enqueuer.Ask(s.handler));
        }
      case _ =>
    }
  }

  /** A whole run on a new store. */
  method Run(run: seq<Action>) returns (store: Store, s: State)
    ensures s == Exec(Init(), run) && Reachable(s)
    ensures fresh(store) && store.View() == s.tables
  {
    store := new Store(0);
    s := Init();
    LeadsToItself(s);
    for i := 0 to |run|
      invariant fresh(store)
      invariant s == Exec(Init(), run[..i]) && Reachable(s)
      invariant store.View() == s.tables
    {
      InvariantsHold(s);
      assert run[..i + 1][..i] == run[..i];
      Perform(store, s, run[i]);
      OneMore(Init(), s, run[i]);
      s := Apply(s, run[i]);
    }
    assert run[..|run|] == run;
  }
}
