/** The whole system: the tables, every process that ever claimed a job, the webhook handler,
    and a log of what has happened. Workers interleave freely with each other and with the
    handler; handlers are serialised against each other. An action that is not enabled leaves
    the state alone, so every sequence of actions is a run. */
module System {
  import opened Domain
  import opened Statements
  import Worker
  import Enqueuer

  type ProcId = nat

  /** A lease handed out by a claim or a heartbeat. */
  datatype Grant = Grant(generation: nat, worker: WorkerId, from: Time, until: Time)

  /** A call of CreatePullReview: what the caller was told, whether GitHub has the review, and
      the result it was made from. */
  datatype Post = Post(proc: ProcId, reported: Option<int>, landed: bool, body: Blob)

  /** Per job: claimants in order (None where the claimant never saw the answer), leases, posts,
      the processes whose CompleteJob or FailJob took effect, and the process whose insert made
      the publication row. */
  datatype Log = Log(
    claims: map<JobId, seq<Option<ProcId>>>,
    grants: map<JobId, seq<Grant>>,
    posts: map<JobId, seq<Post>>,
    closes: map<JobId, seq<ProcId>>,
    winners: map<JobId, ProcId>)

  datatype State = State(
    tables: Tables,
    procs: map<ProcId, Worker.Proc>,
    handler: Enqueuer.Handler,
    log: Log)

  /** A call is delivered, or its caller sees an error, whether or not it took effect. */
  datatype Fault = Delivered | Lost(applied: bool, cancelled: bool, message: string)
  {
    predicate Applied() {
      Delivered? || applied
    }
  }

  datatype Action =
    | Tick(elapsed: nat)
    | Claim(proc: ProcId, job: JobId, worker: WorkerId, lease: int, dryRun: bool, fault: Fault)
    | Work(proc: ProcId, fault: Fault, answer: Worker.Reply)
    | Heartbeat(proc: ProcId, fault: Fault)
    | HeartbeatExit(proc: ProcId)
    | Shutdown(proc: ProcId)
    | Crash(proc: ProcId)
    | Deliver(event: Enqueuer.Event)
    | Handle(fault: Fault, account: Option<nat>)
  {
    predicate ByWorker() {
      !Deliver? && !Handle?
    }
  }

  function Of<T>(m: map<JobId, seq<T>>, j: JobId): seq<T> {
    if j in m then m[j] else []
  }

  function Logged<T>(m: map<JobId, seq<T>>, j: JobId, x: T): map<JobId, seq<T>> {
    m[j := Of(m, j) + [x]]
  }

  function Init(): State {
    State(
      Tables(0, map[], map[], map[], 1, 1),
      map[],
      Enqueuer.Idle(Enqueuer.Fresh),
      Log(map[], map[], map[], map[], map[]))
  }

  function DoClaim(s: State, a: Action): State
    requires a.Claim?
  {
    var t := s.tables;
    if a.proc in s.procs || a.job !in t.jobs || !Claimable(t.jobs[a.job], t.now) || !a.fault.Applied() then s
    else
      var row := Claimed(t.jobs[a.job], a.worker, t.now + a.lease);
      var told := a.fault.Delivered?;
      s.(
        tables := t.(jobs := t.jobs[a.job := row]),
        procs := if told then s.procs[a.proc := Worker.Launch(a.job, row, a.worker, a.lease, a.dryRun)] else s.procs,
        log := s.log.(
          claims := Logged(s.log.claims, a.job, if told then Some(a.proc) else None),
          grants := Logged(s.log.grants, a.job, Grant(row.lockGeneration, a.worker, t.now, t.now + a.lease))))
  }

  function DoHeartbeat(s: State, a: Action): State
    requires a.Heartbeat?
  {
    if a.proc !in s.procs || !s.procs[a.proc].beating then s
    else
      var p := s.procs[a.proc];
      var t := s.tables;
      var held := Holds(t.jobs, Worker.TokenOf(p));
      var kept := held && a.fault.Delivered?;
      s.(
        tables := if a.fault.Applied() then t.(jobs := Fenced(t.jobs, Worker.TokenOf(p), Beat(t.now + p.lease))) else t,
        procs := if kept then s.procs else s.procs[a.proc := p.(beating := false, cancelled := true)],
        log := if held && a.fault.Applied()
          then s.log.(grants := Logged(s.log.grants, p.job, Grant(p.generation, p.worker, t.now, t.now + p.lease)))
          else s.log)
  }

  /** Requests answered by something other than the database: GitHub, the model, a timer. */
  predicate External(q: Worker.Request) {
    q.BuildContext? || q.Pause? || q.Review? || q.ResolveToken? || q.PostReview?
  }

  predicate Enabled(p: Worker.Proc, fault: Fault, answer: Worker.Reply) {
    match Worker.Ask(p)
    case Nothing => false
    case JoinHeartbeat => !p.beating
    case BuildContext => fault.Delivered? ==> answer.Bytes? && Worker.ValidRepo(p.repo)
    case Pause => if fault.Delivered? then answer.Done? else p.cancelled
    case Review => fault.Delivered? ==> answer.Bytes?
    case ResolveToken => fault.Delivered? ==> answer.Identity? && Worker.Publishable(answer.account, answer.kind)
    case PostReview => fault.Delivered? ==> answer.Posted?
    case _ => true
  }

  /** What the database would answer. */
  function Answered(t: Tables, p: Worker.Proc): Worker.Reply {
    match Worker.Ask(p)
    case ReadJob => Worker.Row(if p.job in t.jobs then Some(t.jobs[p.job]) else None)
    case Update(_) =>
      if Holds(t.jobs, Worker.TokenOf(p)) then Worker.Done else Worker.Error(false, Worker.LOST_OWNERSHIP)
    case BeginPublication(_, _) => if p.job in t.publications then Worker.AlreadyExists else Worker.Done
    case ReadPublication =>
      Worker.PublicationRow(if p.job in t.publications then Some(t.publications[p.job]) else None)
    case _ => Worker.Done
  }

  function ReplyTo(t: Tables, p: Worker.Proc, fault: Fault, answer: Worker.Reply): (r: Worker.Reply)
    requires Enabled(p, fault, answer)
    ensures Worker.Fits(Worker.Ask(p), r)
  {
    match Worker.Ask(p)
    case CheckContext => if p.cancelled then Worker.Error(true, "context canceled") else Worker.Done
    case SplitRepository =>
      if Worker.ValidRepo(p.repo) then Worker.Done else Worker.Error(false, "invalid repository format")
    case CancelContext => Worker.Done
    case JoinHeartbeat => Worker.Done
    case q =>
      if fault.Lost? then Worker.Error(fault.cancelled, fault.message)
      else if External(q) then answer
      else Answered(t, p)
  }

  /** The effect of a process's statement on the tables. */
  function Effect(t: Tables, p: Worker.Proc): Tables {
    match Worker.Ask(p)
    case Update(w) => t.(jobs := Fenced(t.jobs, Worker.TokenOf(p), w))
    case BeginPublication(account, kind) => t.(publications := Begin(t.publications, p.job, account, kind))
    case FinalizePublication(id) => t.(publications := Finalize(t.publications, p.job, id))
    case FailThePublication => t.(publications := FailPublication(t.publications, p.job))
    case _ => t
  }

  function Record(s: State, id: ProcId, p: Worker.Proc, fault: Fault, answer: Worker.Reply): Log {
    match Worker.Ask(p)
    case Update(w) =>
      if (w.Complete? || w.Fail?) && Holds(s.tables.jobs, Worker.TokenOf(p)) && fault.Applied()
      then s.log.(closes := Logged(s.log.closes, p.job, id))
      else s.log
    case BeginPublication(_, _) =>
      if p.job !in s.tables.publications && fault.Applied()
      then s.log.(winners := s.log.winners[p.job := id])
      else s.log
    case PostReview =>
      var reported := if fault.Delivered? && answer.Posted? then Some(answer.reviewId) else None;
      s.log.(posts := Logged(s.log.posts, p.job, Post(id, reported, fault.Applied(), Worker.OrEmpty(p.result))))
    case _ => s.log
  }

  function DoWork(s: State, a: Action): State
    requires a.Work?
  {
    if a.proc !in s.procs || !Enabled(s.procs[a.proc], a.fault, a.answer) then s
    else
      var p := s.procs[a.proc];
      var r := ReplyTo(s.tables, p, a.fault, a.answer);
      State(
        if a.fault.Applied() then Effect(s.tables, p) else s.tables,
        s.procs[a.proc := Worker.Resume(p, r)],
        s.handler,
        Record(s, a.proc, p, a.fault, a.answer))
  }

  /** What the database answers the handler. Accounts are not modelled: any id may come back. */
  function HandlerAnswer(t: Tables, q: Enqueuer.Question, account: Option<nat>): (r: Enqueuer.Answer)
    ensures Enqueuer.Fits(q, r)
  {
    match q
    case LookInstallation(gid) =>
      Enqueuer.Found(if gid in t.installations then Some(t.installations[gid]) else None)
    case UpsertInstallation(gid, login, kind, suspendedAt) =>
      Enqueuer.Upserted(Upsert(t, gid, login, kind, suspendedAt).installations[gid])
    case CancelJobs(_, _) => Enqueuer.Ok
    case LookAccount(_) => Enqueuer.AccountId(account)
    case CreateJob(job) => if KeyTaken(t.jobs, job.pr, job.headSha) then Enqueuer.KeyExists else Enqueuer.Ok
    case NoQuestion => Enqueuer.Ok
  }

  function HandlerEffect(t: Tables, q: Enqueuer.Question): Tables {
    match q
    case UpsertInstallation(gid, login, kind, suspendedAt) => Upsert(t, gid, login, kind, suspendedAt)
    case CancelJobs(pr, except) => t.(jobs := Cancel(t.jobs, pr, except))
    case CreateJob(job) => Create(t, job.(createdAt := t.now))
    case _ => t
  }

  function DoHandle(s: State, a: Action): State
    requires a.Handle?
  {
    if !Enqueuer.WellFormed(s.handler) || s.handler.Idle? then s
    else
      var q := Enqueuer.Ask(s.handler);
      var r := if a.fault.Lost? then Enqueuer.Trouble else HandlerAnswer(s.tables, q, a.account);
      s.(
        tables := if a.fault.Applied() then HandlerEffect(s.tables, q) else s.tables,
        handler := Enqueuer.Resume(s.handler, r))
  }

  function Apply(s: State, a: Action): State {
    match a
    case Tick(elapsed) => s.(tables := s.tables.(now := s.tables.now + elapsed))
    case Claim(_, _, _, _, _, _) => DoClaim(s, a)
    case Work(_, _, _) => DoWork(s, a)
    case Heartbeat(_, _) => DoHeartbeat(s, a)
    case HeartbeatExit(p) =>
      if p in s.procs && s.procs[p].cancelled then s.(procs := s.procs[p := s.procs[p].(beating := false)]) else s
    case Shutdown(p) =>
      if p in s.procs then s.(procs := s.procs[p := s.procs[p].(cancelled := true)]) else s
    case Crash(p) =>
      if p in s.procs then s.(procs := s.procs[p := s.procs[p].(pc := Worker.Stopped, beating := false)]) else s
    case Deliver(e) => if s.handler.Idle? then s.(handler := Enqueuer.Start(e)) else s
    case Handle(_, _) => DoHandle(s, a)
  }

  function Exec(s: State, run: seq<Action>): State {
    if run == [] then s else Apply(Exec(s, run[..|run| - 1]), run[|run| - 1])
  }

  /** Some run goes from one state to the other. */
  ghost predicate Leads(s: State, s': State) {
    exists run: seq<Action> :: Exec(s, run) == s'
  }

  ghost predicate Reachable(s: State) {
    Leads(Init(), s)
  }

  /** Some run without a claim goes from one state to the other. */
  ghost predicate LeadsUnclaimed(s: State, s': State) {
    exists run: seq<Action> :: (forall a <- run :: !a.Claim?) && Exec(s, run) == s'
  }

  /** No dry run claims the job. */
  ghost predicate ForReal(run: seq<Action>, j: JobId) {
    forall a <- run | a.Claim? && a.job == j :: !a.dryRun
  }

  /** Some run that claims the job for real only goes from one state to the other. */
  ghost predicate LeadsForReal(s: State, s': State, j: JobId) {
    exists run: seq<Action> :: ForReal(run, j) && Exec(s, run) == s'
  }
}
