/** Runs of one process: the requests that take it from where it stands to the completion of its job
    when nothing goes wrong. What they say about the job is in Completion and Guarantees. */
module Progress {
  import opened Domain
  import opened Statements
  import opened System
  import opened Worker
  import opened Reachability
  import opened PublicationInvariants
  import QueueTheorems

  /** The process holds its job and stands at this counter; no claim was needed to get there. */
  ghost predicate Stands(o: State, s: State, id: ProcId, pc: PC) {
    && LeadsUnclaimed(o, s)
    && id in s.procs
    && Holds(s.tables.jobs, TokenOf(s.procs[id]))
    && s.procs[id].pc == pc
  }

  /** The same, with a context that is not cancelled. */
  ghost predicate At(o: State, s: State, id: ProcId, pc: PC) {
    Stands(o, s, id, pc) && !s.procs[id].cancelled
  }

  /** What a run of one process may care about, its counter aside. */
  datatype View = View(
    token: Token,
    repo: string,
    dryRun: bool,
    beating: bool,
    result: Option<Blob>,
    now: Time,
    lockedUntil: Option<Time>,
    publications: map<JobId, Publication>,
    posts: map<JobId, seq<Post>>,
    pr: PullRequest,
    others: map<ProcId, Proc>)

  function ViewOf(s: State, id: ProcId): View
    requires id in s.procs && s.procs[id].job in s.tables.jobs
  {
    var p := s.procs[id];
    View(TokenOf(p), p.repo, p.dryRun, p.beating, p.result, s.tables.now, s.tables.jobs[p.job].lockedUntil,
         s.tables.publications, s.log.posts, s.tables.jobs[p.job].pr, s.procs - {id})
  }

  /** Neither the end of the program nor the end of the job. */
  predicate Underway(pc: PC) {
    !pc.Returning? && !pc.Completing? && !pc.Failing? && !pc.Stopped?
  }

  /** Such a request changes at most the publications, and the row that the process holds. */
  lemma SavesAtMost(t: Tables, p: Proc)
    requires Holds(t.jobs, TokenOf(p)) && Underway(p.pc)
    ensures Effect(t, p).(jobs := t.jobs, publications := t.publications) == t && Holds(Effect(t, p).jobs, TokenOf(p))
    ensures Effect(t, p).jobs[p.job].lockedUntil == t.jobs[p.job].lockedUntil
    ensures Effect(t, p).jobs[p.job].pr == t.jobs[p.job].pr
  {
  }

  /** The result that the process has after an answer. */
  function Concluded(p: Proc, answer: Reply): Option<Blob> {
    if p.pc.Reviewing? && answer.Bytes? then Some(answer.blob) else p.result
  }

  lemma KeepsIdentity(p: Proc, r: Reply)
    requires Fits(Ask(p), r) && Underway(p.pc)
    ensures Resume(p, r) ==
            p.(pc := Next(p, r), context := Resume(p, r).context, result := Concluded(p, r), published := Resume(p, r).published)
  {
  }

  /** The step of a process, as far as At and ViewOf can see it. */
  ghost predicate Advanced(s: State, s': State, id: ProcId, next: PC)
    requires id in s.procs
  {
    var p := s.procs[id];
    && id in s'.procs
    && var q := s'.procs[id];
    && s'.procs == s.procs[id := p.(pc := next, context := q.context, result := q.result, published := q.published)]
    && Holds(s.tables.jobs, TokenOf(p)) && Holds(s'.tables.jobs, TokenOf(p))
    && s'.tables.(jobs := s.tables.jobs, publications := s.tables.publications) == s.tables
    && s'.tables.jobs[p.job].lockedUntil == s.tables.jobs[p.job].lockedUntil
    && s'.tables.jobs[p.job].pr == s.tables.jobs[p.job].pr
  }

  lemma Advances(s: State, id: ProcId, answer: Reply)
    requires id in s.procs && Holds(s.tables.jobs, TokenOf(s.procs[id]))
    requires Underway(s.procs[id].pc) && Enabled(s.procs[id], Delivered, answer)
    ensures var p, s' := s.procs[id], Apply(s, Work(id, Delivered, answer));
            && Advanced(s, s', id, Next(p, ReplyTo(s.tables, p, Delivered, answer)))
            && s'.procs[id].result == Concluded(p, answer)
            && s'.tables.publications == Effect(s.tables, p).publications
            && s'.log.posts == Record(s, id, p, Delivered, answer).posts
  {
    var p := s.procs[id];
    SavesAtMost(s.tables, p);
    KeepsIdentity(p, ReplyTo(s.tables, p, Delivered, answer));
  }

  lemma StillAt(o: State, s: State, s': State, id: ProcId, pc: PC, next: PC)
    requires At(o, s, id, pc) && LeadsUnclaimed(o, s') && Advanced(s, s', id, next)
    ensures At(o, s', id, next)
    ensures ViewOf(s', id) ==
            ViewOf(s, id).(result := s'.procs[id].result, publications := s'.tables.publications, posts := s'.log.posts)
  {
    assert s'.procs - {id} == s.procs - {id};
  }

  /** What GitHub and the model answer a process. */
  datatype Luck = Luck(blob: Blob, account: Option<nat>, kind: PublisherKind, reviewId: int)

  function Answer(pc: PC, luck: Luck): Reply {
    match pc
    case Building => Bytes("c")
    case Reviewing => Bytes(luck.blob)
    case Resolving => Identity(luck.account, luck.kind)
    case Posting => Posted(luck.reviewId)
    case _ => Done
  }

  /** Publish returns nil for every row that it finds, unless it is a failed one. */
  ghost predicate Acceptable(s: State, j: JobId) {
    j in s.tables.publications && !s.tables.publications[j].state.PublicationFailed?
  }

  /** Nothing is in the way of the process's next request. */
  ghost predicate Clear(s: State, p: Proc) {
    && Underway(p.pc) && !p.pc.Joining? && !p.pc.Deciding? && !p.pc.FailingPublication?
    && (p.pc.CtxCheck? ==> !p.cancelled)
    && (p.pc.Building? || p.pc.Splitting? ==> ValidRepo(p.repo))
    && (p.pc.DryReading? ==> p.job in s.tables.publications)
    && (p.pc.Reading? ==> Acceptable(s, p.job))
  }

  /** Where the process goes when all goes well. */
  function Onward(p: Proc, found: bool, luck: Luck): PC {
    match p.pc
    case CtxCheck(stage) => DbCheck(stage)
    case DbCheck(stage) => Enter(stage, p.dryRun)
    case Building => SavingContext
    case SavingContext => CtxCheck(Memory)
    case Pausing => CtxCheck(Critic)
    case Reviewing => SavingResult
    case SavingResult => CtxCheck(Diplomat)
    case DryBeginning => if found then DryReading else DryFinalizing
    case Resolving => Beginning(luck.account, luck.kind)
    case Beginning(_, _) => if found then Reading else Splitting
    case Splitting => Posting
    case Posting => Finalizing(luck.reviewId)
    case _ => PUBLISHED_NIL
  }

  lemma OnwardIsNext(s: State, p: Proc, luck: Luck)
    requires Clear(s, p) && Holds(s.tables.jobs, TokenOf(p)) && Publishable(luck.account, luck.kind)
    ensures Enabled(p, Delivered, Answer(p.pc, luck))
    ensures Next(p, ReplyTo(s.tables, p, Delivered, Answer(p.pc, luck))) == Onward(p, p.job in s.tables.publications, luck)
  {
    if p.pc.DbCheck? { assert !SeesCancelled(p, Some(s.tables.jobs[p.job])); }
  }

  /** One delivered request that leaves the job with the process. */
  lemma Goes(o: State, s: State, id: ProcId, pc: PC, luck: Luck) returns (s': State)
    requires At(o, s, id, pc) && Clear(s, s.procs[id]) && Publishable(luck.account, luck.kind)
    ensures At(o, s', id, Onward(s.procs[id], s.procs[id].job in s.tables.publications, luck))
    ensures ViewOf(s', id) ==
            ViewOf(s, id).(
              result := if pc.Reviewing? then Some(luck.blob) else s.procs[id].result,
              publications := Effect(s.tables, s.procs[id]).publications,
              posts := Record(s, id, s.procs[id], Delivered, Answer(pc, luck)).posts)
  {
    var p, a := s.procs[id], Work(id, Delivered, Answer(pc, luck));
    OnwardIsNext(s, p, luck);
    s' := Apply(s, a);
    Advances(s, id, Answer(pc, luck));
    OneMoreUnclaimed(o, s, a);
    StillAt(o, s, s', id, pc, Onward(p, p.job in s.tables.publications, luck));
  }

  // Up to the door of Publish

  /** The counters before Publish; Remaining counts the requests up to its door. */
  predicate BeforePublish(pc: PC) {
    match pc
    case CtxCheck(stage) => !stage.Final?
    case DbCheck(stage) => !stage.Final?
    case _ => pc.Building? || pc.SavingContext? || pc.Pausing? || pc.Reviewing? || pc.SavingResult?
  }

  function Remaining(pc: PC): nat {
    match pc
    case CtxCheck(stage) => RemainingAt(stage)
    case DbCheck(stage) => RemainingAt(stage) - 1
    case Building => 11
    case SavingContext => 10
    case Pausing => 7
    case Reviewing => 4
    case SavingResult => 3
    case _ => 0
  }

  function RemainingAt(stage: Stage): (n: nat)
    ensures n > 0
  {
    match stage
    case Detective => 13
    case Memory => 9
    case Critic => 6
    case Diplomat => 2
    case Final => 1
  }

  function Door(dryRun: bool): PC {
    if dryRun then DryBeginning else Resolving
  }

  /** The result at the door of Publish. */
  function ResultFrom(pc: PC, result: Option<Blob>, blob: Blob): Option<Blob> {
    if BeforePublish(pc) && Level(pc) <= 2 then Some(blob) else result
  }

  lemma OnwardIsCloser(s: State, p: Proc, luck: Luck, found: bool)
    requires BeforePublish(p.pc)
    ensures var pc := Onward(p, found, luck);
            && Remaining(pc) < Remaining(p.pc) && (BeforePublish(pc) || pc == Door(p.dryRun))
            && ResultFrom(pc, if p.pc.Reviewing? then Some(luck.blob) else p.result, luck.blob)
               == ResultFrom(p.pc, p.result, luck.blob)
    ensures Effect(s.tables, p).publications == s.tables.publications
    ensures forall id :: Record(s, id, p, Delivered, Answer(p.pc, luck)).posts == s.log.posts
  {
    match p.pc
    case CtxCheck(stage) => match stage { case Detective => case Memory => case Critic => case Diplomat => }
    case DbCheck(stage) => match stage { case Detective => case Memory => case Critic => case Diplomat => }
    case _ =>
  }

  lemma {:induction false} Sails(o: State, s: State, id: ProcId, pc: PC, luck: Luck) returns (s': State)
    requires At(o, s, id, pc) && (BeforePublish(pc) || pc == Door(s.procs[id].dryRun))
    requires ValidRepo(s.procs[id].repo) && Publishable(luck.account, luck.kind)
    ensures At(o, s', id, Door(s.procs[id].dryRun))
    ensures ViewOf(s', id) == ViewOf(s, id).(result := ResultFrom(pc, s.procs[id].result, luck.blob))
    decreases Remaining(pc)
  {
    if pc == Door(s.procs[id].dryRun) {
      s' := s;
    } else {
      var p, found := s.procs[id], s.procs[id].job in s.tables.publications;
      OnwardIsCloser(s, p, luck, found);
      var m := Goes(o, s, id, pc, luck);
      var v := ViewOf(m, id);
      assert v.repo == p.repo && v.dryRun == p.dryRun;
      s' := Sails(o, m, id, Onward(p, found, luck), luck);
    }
  }

  // Publish

  lemma DryFinds(o: State, s: State, id: ProcId) returns (s': State)
    requires At(o, s, id, DryBeginning) && s.procs[id].job in s.tables.publications
    ensures At(o, s', id, DryReading) && ViewOf(s', id) == ViewOf(s, id)
  {
    s' := Goes(o, s, id, DryBeginning, Luck("", None, AppBot, 0));
  }

  lemma DryTakes(o: State, s: State, id: ProcId) returns (s': State)
    requires At(o, s, id, DryReading) && s.procs[id].job in s.tables.publications
    ensures At(o, s', id, PUBLISHED_NIL) && ViewOf(s', id) == ViewOf(s, id)
  {
    s' := Goes(o, s, id, DryReading, Luck("", None, AppBot, 0));
  }

  lemma DryWins(o: State, s: State, id: ProcId) returns (s': State)
    requires At(o, s, id, DryBeginning) && s.procs[id].job !in s.tables.publications
    ensures At(o, s', id, DryFinalizing)
    ensures ViewOf(s', id) ==
            ViewOf(s, id).(publications := s.tables.publications[s.procs[id].job := Publication(None, User, PendingGithub, None)])
  {
    s' := Goes(o, s, id, DryBeginning, Luck("", None, AppBot, 0));
  }

  lemma DryFinalizes(o: State, s: State, id: ProcId) returns (s': State)
    requires At(o, s, id, DryFinalizing)
    ensures At(o, s', id, PUBLISHED_NIL)
    ensures ViewOf(s', id) == ViewOf(s, id).(publications := Finalize(s.tables.publications, s.procs[id].job, None))
  {
    s' := Goes(o, s, id, DryFinalizing, Luck("", None, AppBot, 0));
  }

  /** A dry run gets through Publish whatever the publication row says. */
  lemma DryPublishes(o: State, s: State, id: ProcId) returns (s': State)
    requires At(o, s, id, DryBeginning)
    ensures At(o, s', id, PUBLISHED_NIL) && TokenOf(s'.procs[id]) == TokenOf(s.procs[id])
  {
    if s.procs[id].job in s.tables.publications {
      s' := DryFinds(o, s, id);
      s' := DryTakes(o, s', id);
    } else {
      s' := DryWins(o, s, id);
      s' := DryFinalizes(o, s', id);
    }
    assert TokenOf(s'.procs[id]) == ViewOf(s', id).token;
  }

  lemma Resolves(o: State, s: State, id: ProcId, account: Option<nat>, kind: PublisherKind) returns (s': State)
    requires At(o, s, id, Resolving) && Publishable(account, kind)
    ensures At(o, s', id, Beginning(account, kind)) && ViewOf(s', id) == ViewOf(s, id)
  {
    s' := Goes(o, s, id, Resolving, Luck("", account, kind, 0));
  }

  lemma FindsRow(o: State, s: State, id: ProcId, account: Option<nat>, kind: PublisherKind) returns (s': State)
    requires At(o, s, id, Beginning(account, kind)) && s.procs[id].job in s.tables.publications
    ensures At(o, s', id, Reading) && ViewOf(s', id) == ViewOf(s, id)
  {
    s' := Goes(o, s, id, Beginning(account, kind), Luck("", None, AppBot, 0));
  }

  lemma TakesRow(o: State, s: State, id: ProcId) returns (s': State)
    requires At(o, s, id, Reading) && Acceptable(s, s.procs[id].job)
    ensures At(o, s', id, PUBLISHED_NIL) && ViewOf(s', id) == ViewOf(s, id)
  {
    s' := Goes(o, s, id, Reading, Luck("", None, AppBot, 0));
  }

  lemma WinsInsert(o: State, s: State, id: ProcId, account: Option<nat>, kind: PublisherKind) returns (s': State)
    requires At(o, s, id, Beginning(account, kind)) && s.procs[id].job !in s.tables.publications
    ensures At(o, s', id, Splitting)
    ensures ViewOf(s', id) ==
            ViewOf(s, id).(publications := s.tables.publications[s.procs[id].job := Publication(account, kind, PendingGithub, None)])
  {
    s' := Goes(o, s, id, Beginning(account, kind), Luck("", None, AppBot, 0));
  }

  lemma Splits(o: State, s: State, id: ProcId) returns (s': State)
    requires At(o, s, id, Splitting) && ValidRepo(s.procs[id].repo)
    ensures At(o, s', id, Posting) && ViewOf(s', id) == ViewOf(s, id)
  {
    s' := Goes(o, s, id, Splitting, Luck("", None, AppBot, 0));
  }

  lemma WinsAndSplits(o: State, s: State, id: ProcId, account: Option<nat>, kind: PublisherKind) returns (s': State)
    requires At(o, s, id, Beginning(account, kind)) && s.procs[id].job !in s.tables.publications && ValidRepo(s.procs[id].repo)
    ensures At(o, s', id, Posting)
    ensures ViewOf(s', id) ==
            ViewOf(s, id).(publications := s.tables.publications[s.procs[id].job := Publication(account, kind, PendingGithub, None)])
  {
    var m := WinsInsert(o, s, id, account, kind);
    assert ViewOf(m, id).repo == s.procs[id].repo;
    s' := Splits(o, m, id);
  }

  lemma Posts(o: State, s: State, id: ProcId, reviewId: int) returns (s': State)
    requires At(o, s, id, Posting)
    ensures At(o, s', id, Finalizing(reviewId))
    ensures ViewOf(s', id) ==
            ViewOf(s, id).(
              posts := Logged(s.log.posts, s.procs[id].job, Post(id, Some(reviewId), true, OrEmpty(s.procs[id].result))))
  {
    s' := Goes(o, s, id, Posting, Luck("", None, AppBot, reviewId));
  }

  lemma Finalizes(o: State, s: State, id: ProcId, reviewId: int) returns (s': State)
    requires At(o, s, id, Finalizing(reviewId))
    ensures At(o, s', id, PUBLISHED_NIL)
    ensures ViewOf(s', id) == ViewOf(s, id).(publications := Finalize(s.tables.publications, s.procs[id].job, Some(reviewId)))
  {
    s' := Goes(o, s, id, Finalizing(reviewId), Luck("", None, AppBot, 0));
  }

  lemma PostsAndFinalizes(o: State, s: State, id: ProcId, reviewId: int) returns (s': State)
    requires At(o, s, id, Posting)
    ensures At(o, s', id, PUBLISHED_NIL)
    ensures ViewOf(s', id) ==
            ViewOf(s, id).(
              publications := Finalize(s.tables.publications, s.procs[id].job, Some(reviewId)),
              posts := Logged(s.log.posts, s.procs[id].job, Post(id, Some(reviewId), true, OrEmpty(s.procs[id].result))))
  {
    var m := Posts(o, s, id, reviewId);
    assert ViewOf(m, id).token == TokenOf(s.procs[id]) && ViewOf(m, id).publications == s.tables.publications;
    s' := Finalizes(o, m, id, reviewId);
  }

  /** The winner of the insert posts its review and records it. */
  lemma Publishes(o: State, s: State, id: ProcId, account: Option<nat>, kind: PublisherKind, reviewId: int) returns (s': State)
    requires At(o, s, id, Beginning(account, kind)) && s.procs[id].job !in s.tables.publications && ValidRepo(s.procs[id].repo)
    ensures At(o, s', id, PUBLISHED_NIL)
    ensures ViewOf(s', id) ==
            ViewOf(s, id).(
              publications := s.tables.publications[s.procs[id].job := Publication(account, kind, Published, Some(reviewId))],
              posts := Logged(s.log.posts, s.procs[id].job, Post(id, Some(reviewId), true, OrEmpty(s.procs[id].result))))
  {
    var m := WinsAndSplits(o, s, id, account, kind);
    var v := ViewOf(m, id);
    assert v.result == s.procs[id].result && v.token == TokenOf(s.procs[id]) && v.posts == s.log.posts;
    assert v.publications == s.tables.publications[s.procs[id].job := Publication(account, kind, PendingGithub, None)];
    s' := PostsAndFinalizes(o, m, id, reviewId);
  }

  /** A process that publishes for real gets through Publish unless the publication has failed. */
  lemma RealPublishes(o: State, s: State, id: ProcId) returns (s': State)
    requires At(o, s, id, Resolving) && ValidRepo(s.procs[id].repo)
    requires s.procs[id].job in s.tables.publications ==> Acceptable(s, s.procs[id].job)
    ensures At(o, s', id, PUBLISHED_NIL) && TokenOf(s'.procs[id]) == TokenOf(s.procs[id])
  {
    s' := Resolves(o, s, id, None, AppBot);
    assert ViewOf(s', id).token == TokenOf(s.procs[id]) && ViewOf(s', id).publications == s.tables.publications;
    assert ViewOf(s', id).repo == s.procs[id].repo;
    if s.procs[id].job in s.tables.publications {
      s' := FindsRow(o, s', id, None, AppBot);
      assert ViewOf(s', id).token == TokenOf(s.procs[id]) && ViewOf(s', id).publications == s.tables.publications;
      s' := TakesRow(o, s', id);
    } else {
      s' := Publishes(o, s', id, None, AppBot, 1);
    }
    assert TokenOf(s'.procs[id]) == ViewOf(s', id).token;
  }

  // After Publish

  /** A check or an internal request moves the process and nothing else. */
  lemma MovesOnlyItself(s: State, id: ProcId)
    requires id in s.procs && Enabled(s.procs[id], Delivered, Done)
    requires var q := Ask(s.procs[id]); q.CheckContext? || q.ReadJob? || q.CancelContext? || q.JoinHeartbeat?
    ensures Apply(s, Work(id, Delivered, Done)) ==
            s.(procs := s.procs[id := Resume(s.procs[id], ReplyTo(s.tables, s.procs[id], Delivered, Done))])
  {
  }

  lemma StillStands(o: State, s: State, s': State, id: ProcId, pc: PC, p: Proc)
    requires Stands(o, s, id, pc) && LeadsUnclaimed(o, s') && TokenOf(p) == TokenOf(s.procs[id])
    requires s' == s.(procs := s.procs[id := p])
    ensures Stands(o, s', id, p.pc)
  {
  }

  lemma LastRowCheck(o: State, s: State, id: ProcId) returns (s': State)
    requires Stands(o, s, id, DbCheck(Final))
    ensures Stands(o, s', id, Returning(Success))
    ensures s' == s.(procs := s.procs[id := s.procs[id].(pc := Returning(Success))])
  {
    s' := Apply(s, Work(id, Delivered, Done));
    MovesOnlyItself(s, id);
    OneMoreUnclaimed(o, s, Work(id, Delivered, Done));
    assert !SeesCancelled(s.procs[id], Some(s.tables.jobs[s.procs[id].job]));
    StillStands(o, s, s', id, DbCheck(Final), s.procs[id].(pc := Returning(Success)));
  }

  lemma CancelsItself(o: State, s: State, id: ProcId) returns (s': State)
    requires Stands(o, s, id, Returning(Success))
    ensures Stands(o, s', id, Joining(Success))
    ensures s' == s.(procs := s.procs[id := s.procs[id].(pc := Joining(Success), cancelled := true)])
  {
    s' := Apply(s, Work(id, Delivered, Done));
    MovesOnlyItself(s, id);
    OneMoreUnclaimed(o, s, Work(id, Delivered, Done));
    StillStands(o, s, s', id, Returning(Success), s.procs[id].(pc := Joining(Success), cancelled := true));
  }

  /** The heartbeat ends, by way of a shutdown if the context is not cancelled yet. */
  lemma StopsBeating(o: State, s: State, id: ProcId) returns (s': State)
    requires Stands(o, s, id, Joining(Success))
    ensures Stands(o, s', id, Joining(Success))
    ensures s' == s.(procs := s.procs[id := s.procs[id].(cancelled := true, beating := false)])
  {
    var m := Apply(s, Shutdown(id));
    OneMoreUnclaimed(o, s, Shutdown(id));
    s' := Apply(m, HeartbeatExit(id));
    OneMoreUnclaimed(o, m, HeartbeatExit(id));
  }

  lemma LeavesJoin(o: State, s: State, id: ProcId) returns (s': State)
    requires Stands(o, s, id, Joining(Success)) && !s.procs[id].beating
    ensures Stands(o, s', id, Completing)
    ensures s' == s.(procs := s.procs[id := s.procs[id].(pc := Completing)])
  {
    s' := Apply(s, Work(id, Delivered, Done));
    MovesOnlyItself(s, id);
    OneMoreUnclaimed(o, s, Work(id, Delivered, Done));
    StillStands(o, s, s', id, Joining(Success), s.procs[id].(pc := Completing));
  }

  /** Whoever completes a job does nothing else. */
  ghost predicate CompletedBy(s: State, s': State, id: ProcId)
    requires id in s.procs
  {
    var j := s.procs[id].job;
    && id in s'.procs
    && s'.procs == s.procs[id := s.procs[id].(pc := Stopped, cancelled := s'.procs[id].cancelled, beating := s'.procs[id].beating)]
    && j in s'.tables.jobs && s'.tables.jobs[j].status.Completed?
    && s'.tables.now == s.tables.now
    && s'.tables.publications == s.tables.publications && s'.log.posts == s.log.posts
    && |Of(s'.log.closes, j)| > 0 && Of(s'.log.closes, j)[|Of(s'.log.closes, j)| - 1] == id
  }

  lemma Completes(o: State, s: State, id: ProcId) returns (s': State)
    requires Stands(o, s, id, Completing)
    ensures LeadsUnclaimed(o, s') && CompletedBy(s, s', id)
  {
    s' := Apply(s, Work(id, Delivered, Done));
    OneMoreUnclaimed(o, s, Work(id, Delivered, Done));
    assert Of(s'.log.closes, s.procs[id].job) == Of(s.log.closes, s.procs[id].job) + [id];
  }

  lemma JoinsAndCompletes(o: State, s: State, id: ProcId) returns (s': State)
    requires Stands(o, s, id, Joining(Success))
    ensures LeadsUnclaimed(o, s') && CompletedBy(s, s', id)
  {
    var m := StopsBeating(o, s, id);
    m := LeavesJoin(o, m, id);
    s' := Completes(o, m, id);
  }

  lemma ReturnsAndCompletes(o: State, s: State, id: ProcId) returns (s': State)
    requires Stands(o, s, id, Returning(Success))
    ensures LeadsUnclaimed(o, s') && CompletedBy(s, s', id)
  {
    var m := CancelsItself(o, s, id);
    s' := JoinsAndCompletes(o, m, id);
  }

  lemma ChecksAndCompletes(o: State, s: State, id: ProcId) returns (s': State)
    requires Stands(o, s, id, DbCheck(Final))
    ensures LeadsUnclaimed(o, s') && CompletedBy(s, s', id)
  {
    var m := LastRowCheck(o, s, id);
    s' := ReturnsAndCompletes(o, m, id);
  }

  lemma PassesLastContextCheck(o: State, s: State, id: ProcId) returns (s': State)
    requires At(o, s, id, PUBLISHED_NIL)
    ensures Stands(o, s', id, DbCheck(Final)) && s' == s.(procs := s.procs[id := s.procs[id].(pc := DbCheck(Final))])
  {
    s' := Apply(s, Work(id, Delivered, Done));
    MovesOnlyItself(s, id);
    OneMoreUnclaimed(o, s, Work(id, Delivered, Done));
    StillStands(o, s, s', id, PUBLISHED_NIL, s.procs[id].(pc := DbCheck(Final)));
  }

  /** Once Publish has returned nil, only a cancelled context before the last check is in the way. */
  lemma EndsWell(o: State, s: State, id: ProcId) returns (s': State)
    requires At(o, s, id, PUBLISHED_NIL)
    ensures LeadsUnclaimed(o, s') && CompletedBy(s, s', id)
  {
    var m := PassesLastContextCheck(o, s, id);
    s' := ChecksAndCompletes(o, m, id);
  }

  /** What a process needs to finish a job whose publication has failed: it is past Publish, or it is a
      dry run on the way; and no check of its context is left to stop it. */
  predicate CanFinish(p: Proc) {
    if p.pc.CtxCheck? then !p.cancelled && (Level(p.pc) == 6 || p.dryRun)
    else Level(p.pc) == 6 || (p.dryRun && Level(p.pc) <= 4 && !p.cancelled)
  }

  /** A dry run on its way gets through Publish, from wherever it stands. */
  lemma DryEndsPublish(o: State, s: State, id: ProcId, pc: PC) returns (s': State)
    requires At(o, s, id, pc) && s.procs[id].dryRun && ValidRepo(s.procs[id].repo)
    requires BeforePublish(pc) || pc.DryBeginning? || pc.DryReading?
    requires s.procs[id].job in s.tables.publications
    ensures At(o, s', id, PUBLISHED_NIL) && TokenOf(s'.procs[id]) == TokenOf(s.procs[id])
  {
    if pc.DryReading? {
      s' := DryTakes(o, s, id);
    } else {
      var m := Sails(o, s, id, pc, Luck("x", None, AppBot, 1));
      assert ViewOf(m, id).token == TokenOf(s.procs[id]);
      s' := DryPublishes(o, m, id);
    }
    assert TokenOf(s'.procs[id]) == ViewOf(s', id).token;
  }

  /** A holder that can finish finishes. */
  lemma Finishes(s: State, id: ProcId) returns (s': State)
    requires id in s.procs && Holds(s.tables.jobs, TokenOf(s.procs[id])) && CanFinish(s.procs[id])
    requires LocalOk(s.procs[id]) && ValidRepo(s.procs[id].repo) && s.procs[id].job in s.tables.publications
    ensures LeadsUnclaimed(s, s') && s.procs[id].job in s'.tables.jobs && s'.tables.jobs[s.procs[id].job].status.Completed?
  {
    UnclaimedToItself(s);
    var p := s.procs[id];
    match p.pc
    case Returning(_) => s' := ReturnsAndCompletes(s, s, id);
    case Joining(_) => s' := JoinsAndCompletes(s, s, id);
    case Completing => s' := Completes(s, s, id);
    case _ =>
      if p.pc == DbCheck(Final) {
        s' := ChecksAndCompletes(s, s, id);
      } else {
        var m := DrySailsOrIsThere(s, id);
        s' := EndsWell(s, m, id);
      }
  }

  lemma DrySailsOrIsThere(s: State, id: ProcId) returns (s': State)
    requires id in s.procs && Holds(s.tables.jobs, TokenOf(s.procs[id])) && CanFinish(s.procs[id])
    requires LocalOk(s.procs[id]) && ValidRepo(s.procs[id].repo) && s.procs[id].job in s.tables.publications
    requires var pc := s.procs[id].pc; !pc.Returning? && !pc.Joining? && !pc.Completing? && pc != DbCheck(Final)
    ensures At(s, s', id, PUBLISHED_NIL) && TokenOf(s'.procs[id]) == TokenOf(s.procs[id])
  {
    UnclaimedToItself(s);
    if s.procs[id].pc == PUBLISHED_NIL {
      s' := s;
    } else {
      s' := DryEndsPublish(s, s, id, s.procs[id].pc);
    }
  }

  // Claims

  lemma ClaimStands(s: State, a: Action) returns (s': State)
    requires a.Claim? && a.fault.Delivered? && a.proc !in s.procs && a.job in s.tables.jobs
    requires Claimable(s.tables.jobs[a.job], s.tables.now)
    ensures s' == Apply(s, a) && At(s', s', a.proc, CtxCheck(Detective))
    ensures s'.procs[a.proc].job == a.job && s'.procs[a.proc].dryRun == a.dryRun
    ensures s'.procs[a.proc].repo == s.tables.jobs[a.job].pr.repo
    ensures s'.tables.jobs[a.job].lockedUntil == Some(s.tables.now + a.lease)
    ensures s'.tables.jobs[a.job].pr == s.tables.jobs[a.job].pr
    ensures s'.tables.publications == s.tables.publications && s'.log.posts == s.log.posts
    ensures s'.procs - {a.proc} == s.procs && s'.tables.now == s.tables.now
  {
    s' := Apply(s, a);
    UnclaimedToItself(s');
  }

  /** After some wait a live job is claimed, in either mode. */
  lemma GetsClaimed(s: State, j: JobId, id: ProcId, dryRun: bool) returns (s': State)
    requires Reachable(s) && j in s.tables.jobs && s.tables.jobs[j].status.Live() && id !in s.procs
    ensures At(s', s', id, CtxCheck(Detective)) && s'.procs[id].job == j
    ensures s'.procs[id].dryRun == dryRun && s'.procs[id].repo == s.tables.jobs[j].pr.repo
    ensures s'.tables.publications == s.tables.publications
    ensures Leads(s, s') && (!dryRun ==> LeadsForReal(s, s', j))
  {
    QueueTheorems.ClaimableExactly(s, j);
    var wait := if Claimable(s.tables.jobs[j], s.tables.now) then 0 else s.tables.jobs[j].lockedUntil.value - s.tables.now + 1;
    var m, claim := Apply(s, Tick(wait)), Claim(id, j, "w", 10, dryRun, Delivered);
    s' := ClaimStands(m, claim);
    LeadsToItself(s);
    OneMore(s, s, Tick(wait));
    OneMore(s, m, claim);
    if !dryRun {
      ForRealToItself(s, j);
      OneMoreForReal(s, s, Tick(wait), j);
      OneMoreForReal(s, m, claim, j);
    }
  }

  /** A process that starts and is left in peace completes its job: always if it runs dry, and unless
      the publication has failed if it runs for real. */
  lemma RunCompletes(o: State, s: State, id: ProcId) returns (s': State)
    requires At(o, s, id, CtxCheck(Detective)) && ValidRepo(s.procs[id].repo)
    requires s.procs[id].dryRun || s.procs[id].job !in s.tables.publications || Acceptable(s, s.procs[id].job)
    ensures LeadsUnclaimed(o, s') && s.procs[id].job in s'.tables.jobs && s'.tables.jobs[s.procs[id].job].status.Completed?
  {
    var m := Sails(o, s, id, CtxCheck(Detective), Luck("x", None, AppBot, 1));
    var v := ViewOf(m, id);
    assert v.token == TokenOf(s.procs[id]) && v.repo == s.procs[id].repo && v.publications == s.tables.publications;
    if s.procs[id].dryRun {
      m := DryPublishes(o, m, id);
    } else {
      m := RealPublishes(o, m, id);
    }
    assert TokenOf(m.procs[id]).job == v.token.job;
    s' := EndsWell(o, m, id);
  }
}
