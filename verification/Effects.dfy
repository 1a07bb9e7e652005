/** A coarser view of one action, in which most of the proofs are made: what it does to the job
    table and its log (Effect), to the processes (Motion), and to the publications (Publishing).
    Seen this way an action changes at most one process and, cancellations apart, at most one
    job. */
module Effects {
  import opened Domain
  import opened Statements
  import opened System
  import Worker
  import Enqueuer

  datatype Effect =
    | Quiet
    | Dropping(pr: PullRequest, except: Option<string>)
    | Adding(order: Enqueuer.Order)
    | Taking(proc: ProcId, job: JobId, worker: WorkerId, lease: int, told: bool)
    | Writing(proc: ProcId, write: Write)

  ghost predicate SameJobLog(s: State, s': State) {
    && s'.log.claims == s.log.claims
    && s'.log.grants == s.log.grants
    && s'.log.closes == s.log.closes
  }

  ghost predicate Moved(s: State, s': State, e: Effect) {
    var t, t' := s.tables, s'.tables;
    && t.now <= t'.now
    && (t.now < t'.now ==> e.Quiet?)
    && (!e.Adding? ==> t'.nextJob == t.nextJob)
    && match e
       case Quiet => t'.jobs == t.jobs && SameJobLog(s, s')
       case Dropping(pr, except) => t'.jobs == Cancel(t.jobs, pr, except) && SameJobLog(s, s')
       case Adding(o) =>
         && !KeyTaken(t.jobs, o.pr, o.headSha)
         && t'.jobs == t.jobs[t.nextJob := Enqueuer.NewJob(o).(createdAt := t.now)]
         && t'.nextJob == t.nextJob + 1
         && SameJobLog(s, s')
       case Taking(id, j, worker, lease, told) =>
         && id !in s.procs
         && j in t.jobs
         && Claimable(t.jobs[j], t.now)
         && t'.jobs == t.jobs[j := Claimed(t.jobs[j], worker, t.now + lease)]
         && s'.log.claims == Logged(s.log.claims, j, if told then Some(id) else None)
         && s'.log.grants ==
            Logged(s.log.grants, j, Grant(t.jobs[j].lockGeneration + 1, worker, t.now, t.now + lease))
         && s'.log.closes == s.log.closes
       case Writing(id, w) =>
         && id in s.procs
         && var p := s.procs[id];
         && Holds(t.jobs, Worker.TokenOf(p))
         && t'.jobs == t.jobs[p.job := Updated(t.jobs[p.job], w)]
         && s'.log.claims == s.log.claims
         && (w.Beat? ==> w.until == t.now + p.lease)
         && (if w.Beat?
             then s'.log.grants == Logged(s.log.grants, p.job, Grant(p.generation, p.worker, t.now, w.until))
             else s'.log.grants == s.log.grants)
         && (if w.Complete? || w.Fail?
             then s'.log.closes == Logged(s.log.closes, p.job, id)
             else s'.log.closes == s.log.closes)
  }

  function EffectOf(s: State, a: Action): Effect {
    match a
    case Claim(id, j, worker, lease, _, fault) =>
      if id in s.procs || j !in s.tables.jobs || !Claimable(s.tables.jobs[j], s.tables.now) || !fault.Applied()
      then Quiet else Taking(id, j, worker, lease, fault.Delivered?)
    case Heartbeat(id, fault) =>
      if id in s.procs && s.procs[id].beating && fault.Applied() && Holds(s.tables.jobs, Worker.TokenOf(s.procs[id]))
      then Writing(id, Beat(s.tables.now + s.procs[id].lease)) else Quiet
    case Work(id, fault, answer) =>
      if id in s.procs && Enabled(s.procs[id], fault, answer) && fault.Applied() &&
         Worker.Ask(s.procs[id]).Update? && Holds(s.tables.jobs, Worker.TokenOf(s.procs[id]))
      then Writing(id, Worker.Ask(s.procs[id]).write) else Quiet
    case Handle(fault, _) =>
      if !fault.Applied() then Quiet
      else (match s.handler
            case CancellingOpen(pr) => Dropping(pr, None)
            case Superseding(o) => Dropping(o.pr, Some(o.headSha))
            case Creating(o) => if KeyTaken(s.tables.jobs, o.pr, o.headSha) then Quiet else Adding(o)
            case _ => Quiet)
    case _ => Quiet
  }

  lemma EffectOfClaim(s: State, a: Action)
    requires a.Claim?
    ensures Moved(s, Apply(s, a), EffectOf(s, a))
  {
  }

  lemma EffectOfHeartbeat(s: State, a: Action)
    requires a.Heartbeat?
    ensures Moved(s, Apply(s, a), EffectOf(s, a))
  {
  }

  lemma EffectOfWork(s: State, a: Action)
    requires a.Work?
    ensures Moved(s, Apply(s, a), EffectOf(s, a))
  {
    if a.proc in s.procs && Enabled(s.procs[a.proc], a.fault, a.answer) {
      var q := Worker.Ask(s.procs[a.proc]);
      match q
      case Update(w) =>
      case _ =>
    }
  }

  lemma EffectOfHandle(s: State, a: Action)
    requires a.Handle?
    ensures Moved(s, Apply(s, a), EffectOf(s, a))
  {
  }

  lemma EffectOfAction(s: State, a: Action)
    ensures Moved(s, Apply(s, a), EffectOf(s, a))
  {
    match a
    case Claim(_, _, _, _, _, _) => EffectOfClaim(s, a);
    case Heartbeat(_, _) => EffectOfHeartbeat(s, a);
    case Work(_, _, _) => EffectOfWork(s, a);
    case Handle(_, _) => EffectOfHandle(s, a);
    case _ =>
  }

  /** What became of one row. */
  function RowAfter(s: State, e: Effect, j: JobId): Job
    requires j in s.tables.jobs
    requires e.Writing? ==> e.proc in s.procs
  {
    var row := s.tables.jobs[j];
    match e
    case Quiet => row
    case Dropping(pr, except) => if Selected(row, pr, except) then row.(status := Cancelled) else row
    case Adding(_) => row
    case Taking(_, k, worker, lease, _) => if k == j then Claimed(row, worker, s.tables.now + lease) else row
    case Writing(id, w) => if s.procs[id].job == j then Updated(row, w) else row
  }

  /** The same, of one row. */
  lemma OneRowAfter(s: State, s': State, e: Effect, j: JobId)
    requires Moved(s, s', e) && j in s.tables.jobs && j < s.tables.nextJob
    ensures j in s'.tables.jobs && s'.tables.jobs[j] == RowAfter(s, e, j)
  {
  }

  /** Rows are added, never removed. */
  lemma RowsAfter(s: State, s': State, e: Effect)
    requires Moved(s, s', e)
    requires forall j <- s.tables.jobs :: j < s.tables.nextJob
    ensures s.tables.jobs.Keys <= s'.tables.jobs.Keys
    ensures forall j <- s.tables.jobs :: s'.tables.jobs[j] == RowAfter(s, e, j)
    ensures forall j <- s'.tables.jobs :: j in s.tables.jobs || (e.Adding? && j == s.tables.nextJob)
  {
    match e
    case Quiet =>
    case Dropping(_, _) =>
    case Adding(_) =>
    case Taking(_, _, _, _, _) =>
    case Writing(_, _) =>
  }

  datatype Motion =
    | Still
    | Born(proc: ProcId, job: JobId, worker: WorkerId, lease: int, dryRun: bool)
    | Resumed(proc: ProcId, reply: Worker.Reply, next: Worker.Proc)
    | Flagged(proc: ProcId, beating: bool, cancelled: bool)
    | Halted(proc: ProcId)

  /** The parts of a process that are fixed when it is launched. */
  ghost predicate SameIdentity(p: Worker.Proc, q: Worker.Proc) {
    && q.job == p.job
    && q.generation == p.generation
    && q.worker == p.worker
    && q.lease == p.lease
    && q.repo == p.repo
    && q.dryRun == p.dryRun
  }

  ghost predicate ProcsMoved(s: State, s': State, m: Motion) {
    match m
    case Still => s'.procs == s.procs
    case Born(id, j, worker, lease, dryRun) =>
      && id !in s.procs
      && j in s.tables.jobs
      && Claimable(s.tables.jobs[j], s.tables.now)
      && s'.procs == s.procs[id := Worker.Launch(j, Claimed(s.tables.jobs[j], worker, s.tables.now + lease), worker, lease, dryRun)]
      && s'.tables.jobs == s.tables.jobs[j := Claimed(s.tables.jobs[j], worker, s.tables.now + lease)]
      && s'.log.claims == Logged(s.log.claims, j, Some(id))
    case Resumed(id, _, next) =>
      && id in s.procs
      && SameIdentity(s.procs[id], next)
      && s'.procs == s.procs[id := next]
    case Flagged(id, beating, cancelled) =>
      && id in s.procs
      && (beating ==> s.procs[id].beating)
      && (s.procs[id].cancelled ==> cancelled)
      && s'.procs == s.procs[id := s.procs[id].(beating := beating, cancelled := cancelled)]
    case Halted(id) =>
      && id in s.procs
      && s'.procs == s.procs[id := s.procs[id].(pc := Worker.Stopped, beating := false)]
  }

  function MotionOf(s: State, a: Action): Motion {
    match a
    case Claim(id, j, worker, lease, dryRun, fault) =>
      if id in s.procs || j !in s.tables.jobs || !Claimable(s.tables.jobs[j], s.tables.now) || !fault.Delivered?
      then Still else Born(id, j, worker, lease, dryRun)
    case Heartbeat(id, fault) =>
      if id in s.procs && s.procs[id].beating &&
         !(fault.Delivered? && Holds(s.tables.jobs, Worker.TokenOf(s.procs[id])))
      then Flagged(id, false, true) else Still
    case Work(id, fault, answer) =>
      if id in s.procs && Enabled(s.procs[id], fault, answer)
      then
        var r := ReplyTo(s.tables, s.procs[id], fault, answer);
        Resumed(id, r, Worker.Resume(s.procs[id], r))
      else Still
    case HeartbeatExit(id) =>
      if id in s.procs && s.procs[id].cancelled then Flagged(id, false, true) else Still
    case Shutdown(id) =>
      if id in s.procs then Flagged(id, s.procs[id].beating, true) else Still
    case Crash(id) => if id in s.procs then Halted(id) else Still
    case _ => Still
  }

  lemma ResumeKeepsIdentity(p: Worker.Proc, r: Worker.Reply)
    requires Worker.Fits(Worker.Ask(p), r)
    ensures SameIdentity(p, Worker.Resume(p, r))
  {
  }

  lemma MotionOfAction(s: State, a: Action)
    ensures ProcsMoved(s, Apply(s, a), MotionOf(s, a))
  {
    if a.Work? && a.proc in s.procs && Enabled(s.procs[a.proc], a.fault, a.answer) {
      ResumeKeepsIdentity(s.procs[a.proc], ReplyTo(s.tables, s.procs[a.proc], a.fault, a.answer));
    }
  }

  /** How the two views of one action fit together. */
  ghost predicate Coupled(s: State, e: Effect, m: Motion) {
    && (e.Taking? && e.told <==> m.Born?)
    && (m.Born? ==> e.proc == m.proc && e.job == m.job && e.worker == m.worker && e.lease == m.lease)
    && (e.Writing? && !e.write.Beat? ==> m.Resumed? && m.proc == e.proc)
    && (e.Writing? && e.write.Beat? ==> m.Still? || (m.Flagged? && m.proc == e.proc))
  }

  /** The process that resumes follows its program, and a fenced statement that it sees succeed
      has taken effect. */
  ghost predicate Followed(s: State, e: Effect, m: Motion) {
    && (m.Resumed? && m.proc in s.procs ==>
      var p := s.procs[m.proc];
      && !p.pc.Stopped?
      && Worker.Fits(Worker.Ask(p), m.reply)
      && m.next == Worker.Resume(p, m.reply)
      && (p.pc.Building? && !m.reply.Error? ==> Worker.ValidRepo(p.repo))
      && (p.pc.CtxCheck? && p.cancelled ==> m.reply.Error?)
      && (p.pc.Joining? ==> !p.beating)
      && (p.pc.Splitting? ==> (m.reply.Error? <==> !Worker.ValidRepo(p.repo)))
      && (Worker.Ask(p).Update? && !m.reply.Error? ==> e == Writing(m.proc, Worker.Ask(p).write)))
    && (e.Writing? && e.proc in s.procs && !e.write.Beat? ==>
      Worker.Ask(s.procs[e.proc]) == Worker.Update(e.write))
  }

  lemma ProgramFollowed(s: State, a: Action)
    ensures Followed(s, EffectOf(s, a), MotionOf(s, a))
  {
    match a
    case Work(_, _, _) =>
    case _ =>
  }

  lemma ViewsCoupled(s: State, a: Action)
    ensures Coupled(s, EffectOf(s, a), MotionOf(s, a))
  {
    match a
    case Work(_, _, _) =>
    case _ =>
  }

  /** One action, seen both ways. */
  ghost predicate Stepped(s: State, s': State, e: Effect, m: Motion) {
    Moved(s, s', e) && ProcsMoved(s, s', m) && Coupled(s, e, m)
  }

  lemma EveryAction(s: State, a: Action)
    ensures Stepped(s, Apply(s, a), EffectOf(s, a), MotionOf(s, a))
  {
    EffectOfAction(s, a);
    MotionOfAction(s, a);
    ViewsCoupled(s, a);
  }

  /** What an action does to the publications, their winners and the posts. */
  datatype Publishing =
    | Untouched
    | Won(proc: ProcId, account: Option<nat>, kind: PublisherKind)
    | Finalised(proc: ProcId, reviewId: Option<int>)
    | GaveUp(proc: ProcId)
    | Called(proc: ProcId, post: Post)

  ghost predicate PubsMoved(s: State, s': State, u: Publishing) {
    var pubs, pubs' := s.tables.publications, s'.tables.publications;
    match u
    case Untouched => pubs' == pubs && s'.log.posts == s.log.posts && s'.log.winners == s.log.winners
    case Won(id, account, kind) =>
      && id in s.procs
      && s.procs[id].job !in pubs
      && pubs' == pubs[s.procs[id].job := Publication(account, kind, PendingGithub, None)]
      && s'.log.winners == s.log.winners[s.procs[id].job := id]
      && s'.log.posts == s.log.posts
    case Finalised(id, reviewId) =>
      && id in s.procs
      && pubs' == Finalize(pubs, s.procs[id].job, reviewId)
      && s'.log.posts == s.log.posts && s'.log.winners == s.log.winners
    case GaveUp(id) =>
      && id in s.procs
      && pubs' == FailPublication(pubs, s.procs[id].job)
      && s'.log.posts == s.log.posts && s'.log.winners == s.log.winners
    case Called(id, post) =>
      && id in s.procs
      && pubs' == pubs
      && s'.log.posts == Logged(s.log.posts, s.procs[id].job, post)
      && s'.log.winners == s.log.winners
  }

  function PublishingOf(s: State, a: Action): Publishing {
    if !a.Work? || a.proc !in s.procs || !Enabled(s.procs[a.proc], a.fault, a.answer) then Untouched
    else
      var p := s.procs[a.proc];
      match Worker.Ask(p)
      case BeginPublication(account, kind) =>
        if a.fault.Applied() && p.job !in s.tables.publications then Won(a.proc, account, kind) else Untouched
      case FinalizePublication(id) => if a.fault.Applied() then Finalised(a.proc, id) else Untouched
      case FailThePublication => if a.fault.Applied() then GaveUp(a.proc) else Untouched
      case PostReview =>
        var reported := if a.fault.Delivered? && a.answer.Posted? then Some(a.answer.reviewId) else None;
        Called(a.proc, Post(a.proc, reported, a.fault.Applied(), Worker.OrEmpty(p.result)))
      case _ => Untouched
  }

  lemma PublishingOfAction(s: State, a: Action)
    ensures PubsMoved(s, Apply(s, a), PublishingOf(s, a))
  {
    match a
    case Work(_, _, _) =>
      if a.proc in s.procs && Enabled(s.procs[a.proc], a.fault, a.answer) {
        match Worker.Ask(s.procs[a.proc])
        case BeginPublication(_, _) =>
        case FinalizePublication(_) =>
        case FailThePublication =>
        case PostReview =>
        case _ =>
      }
    case _ =>
  }

  /** The counter a change of the publication comes from. */
  ghost predicate CameFrom(p: Worker.Proc, r: Worker.Reply, u: Publishing) {
    match u
    case Untouched => true
    case Won(_, account, kind) => Worker.Ask(p) == Worker.BeginPublication(account, kind) && !r.AlreadyExists?
    case Finalised(_, id) => (p.pc.DryFinalizing? && id == None) || (p.pc.Finalizing? && id == Some(p.pc.reviewId))
    case GaveUp(_) => p.pc.FailingPublication?
    case Called(id, post) =>
      && p.pc.Posting?
      && post.proc == id
      && post.body == Worker.OrEmpty(p.result)
      && post.reported == (if r.Posted? then Some(r.reviewId) else None)
      && (post.reported.Some? ==> post.landed)
  }

  /** What a resuming process has learnt about the publication agrees with what happened to it,
      and only the statement it was at can have happened. */
  ghost predicate PublishingFollowed(s: State, m: Motion, u: Publishing) {
    && (!u.Untouched? ==> m.Resumed? && m.proc == u.proc && u.proc in s.procs && CameFrom(s.procs[u.proc], m.reply, u))
    && (m.Resumed? && m.proc in s.procs ==>
      var p := s.procs[m.proc];
      match p.pc
      case DryBeginning => if m.reply.Done? then u.Won? else m.reply.AlreadyExists? ==> p.job in s.tables.publications
      case Beginning(_, _) => if m.reply.Done? then u.Won? else m.reply.AlreadyExists? ==> p.job in s.tables.publications
      case DryReading => m.reply.PublicationRow? && m.reply.publication.Some? ==> p.job in s.tables.publications
      case Reading =>
        m.reply.PublicationRow? && m.reply.publication.Some? ==>
          p.job in s.tables.publications && m.reply.publication.value == s.tables.publications[p.job]
      case DryFinalizing => m.reply.Done? ==> u.Finalised?
      case Finalizing(_) => m.reply.Done? ==> u.Finalised?
      case Posting => u.Called?
      case _ => true)
  }

  lemma PublishingCoupled(s: State, a: Action)
    ensures PublishingFollowed(s, MotionOf(s, a), PublishingOf(s, a))
  {
    if a.Work? && a.proc in s.procs && Enabled(s.procs[a.proc], a.fault, a.answer) {
      match Worker.Ask(s.procs[a.proc])
      case BeginPublication(_, _) =>
      case FinalizePublication(_) =>
      case FailThePublication =>
      case PostReview =>
      case ReadPublication =>
      case _ =>
    }
  }
}
