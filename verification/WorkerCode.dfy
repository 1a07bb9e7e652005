/** worker.go, pipeline.go and publish.go in their own form. The code below talks to the outside
    through a session; every call must be the request that the program in Worker is at, whatever
    the answers so far have been. So the code and the program make the same requests in the same
    order and end together, for all answers. */
module WorkerCode {
  import opened Domain
  import opened Statements
  import opened Worker

  /** One more request of the program, answered. */
  ghost predicate Turn(p: Proc, q: Request, r: Reply, next: Proc) {
    q == Ask(p) && Fits(Ask(p), r) && next == Resume(p, r)
  }

  /** The program goes along this path, making these requests and getting these answers. */
  ghost predicate Conversation(path: seq<Proc>, asked: seq<Request>, answered: seq<Reply>) {
    && |path| == |answered| + 1
    && |asked| == |answered|
    && forall i {:trigger path[i], answered[i]} | 0 <= i < |answered| :: Turn(path[i], asked[i], answered[i], path[i + 1])
  }

  lemma GoesOn(path: seq<Proc>, asked: seq<Request>, answered: seq<Reply>, q: Request, r: Reply, at: Proc)
    requires Conversation(path, asked, answered) && Turn(path[|answered|], q, r, at)
    ensures Conversation(path + [at], asked + [q], answered + [r])
  {
    var path', asked', answered' := path + [at], asked + [q], answered + [r];
    forall i | 0 <= i < |answered'| ensures Turn(path'[i], asked'[i], answered'[i], path'[i + 1]) {
      if i < |answered| { assert Turn(path[i], asked[i], answered[i], path[i + 1]); }
    }
  }

  class Session {
    ghost var path: seq<Proc>
    ghost var at: Proc
    const world: nat -> Reply
    var asked: seq<Request>
    var answered: seq<Reply>

    ghost predicate Valid()
      reads this
    {
      && Conversation(path, asked, answered)
      && path[|answered|] == at
    }

    constructor (ghost p: Proc, w: nat -> Reply)
      ensures Valid() && at == p && path == [p] && answered == []
    {
      path := [p];
      at := p;
      world := w;
      asked := [];
      answered := [];
    }

    /** Any answer of the right kind may come back. */
    method Call(q: Request) returns (r: Reply)
      requires Valid() && q == Ask(at) && !at.pc.Stopped?
      modifies this
      ensures Valid() && Fits(q, r) && at == Resume(old(at), r)
      ensures asked == old(asked) + [q] && answered == old(answered) + [r] && path == old(path) + [at]
    {
      r := world(|asked|);
      if !Fits(q, r) {
        r := Error(false, "unexpected answer");
      }
      GoesOn(path, asked, answered, q, r, Resume(at, r));
      asked := asked + [q];
      answered := answered + [r];
      at := Resume(at, r);
      path := path + [at];
    }
  }

  /** The conversation has gone on, and it is still the same process. */
  ghost predicate Extends(path: seq<Proc>, at: Proc, path': seq<Proc>, at': Proc) {
    |path| > 0 && |path'| > 0 && path'[0] == path[0] && TokenOf(at') == TokenOf(at) && at'.dryRun == at.dryRun
  }

  /** The answer is a row that is still held under this worker and generation. */
  ghost predicate HeldIn(r: Reply, t: Token) {
    && r.Row? && r.row.Some?
    && r.row.value.status.Running? && r.row.value.lockedBy == Some(t.worker) && r.row.value.lockGeneration == t.generation
  }

  /** How a call's error is passed on. */
  ghost predicate PassesOn(r: Reply, err: Outcome) {
    r.Error? && err == Failure(r.cancelled, r.message)
  }

  /** pipeline.go's cancellation check; true when the row cannot be read. */
  method IsCancelledInDB(s: Session, t: Token) returns (cancelled: bool)
    requires s.Valid() && Ask(s.at) == ReadJob && TokenOf(s.at) == t
    modifies s
    ensures s.Valid() && Extends(old(s.path), old(s.at), s.path, s.at)
    ensures |s.answered| > 0
    ensures var r := s.answered[|s.answered| - 1];
            Fits(ReadJob, r) && s.at == Resume(old(s.at), r) && (cancelled <==> r.Error? || SeesCancelled(old(s.at), r.row))
    ensures s.asked == old(s.asked) + [ReadJob] && |s.answered| == |old(s.answered)| + 1 && old(s.answered) <= s.answered
    ensures cancelled <==> !HeldIn(s.answered[|old(s.answered)|], t)
  {
    var r := s.Call(ReadJob);
    if r.Error? || r.row.None? {
      return true;
    }
    var row := r.row.value;
    if row.status.Cancelled? {
      return true;
    }
    if !row.status.Running? || row.lockedBy.None? || row.lockedBy.value != t.worker || row.lockGeneration != t.generation {
      return true;
    }
    return false;
  }

  /** The check at the start of a stage: the context, then the row. */
  method Boundary(s: Session, t: Token, ghost stage: Stage) returns (err: Outcome)
    requires s.Valid() && s.at.pc == CtxCheck(stage) && TokenOf(s.at) == t
    modifies s
    ensures s.Valid() && Extends(old(s.path), old(s.at), s.path, s.at) && s.at.context == old(s.at.context) && s.at.result == old(s.at.result)
    ensures err.Success? ==> s.at.pc == Enter(stage, s.at.dryRun)
    ensures err.Failure? ==> s.at.pc == Returning(err)
    ensures old(s.answered) < s.answered
    ensures var n := |old(s.answered)|;
            if s.answered[n].Error?
            then s.asked == old(s.asked) + [CheckContext] && PassesOn(s.answered[n], err) && |s.answered| == n + 1
            else
              && s.asked == old(s.asked) + [CheckContext, ReadJob] && |s.answered| == n + 2
              && err == if HeldIn(s.answered[n + 1], t) then Success else Failure(false, "job cancelled in database")
  {
    var r := s.Call(CheckContext);
    if r.Error? {
      return Failure(r.cancelled, r.message);
    }
    var gone := IsCancelledInDB(s, t);
    if gone {
      return Failure(false, JOB_CANCELLED);
    }
    return Success;
  }

  method PublishDry(s: Session) returns (err: Outcome)
    requires s.Valid() && s.at.pc == DryBeginning
    modifies s
    ensures s.Valid() && Extends(old(s.path), old(s.at), s.path, s.at) && s.at.context == old(s.at.context) && s.at.result == old(s.at.result)
    ensures err.Success? ==> s.at.pc == PUBLISHED_NIL
    ensures err.Failure? ==> s.at.pc == Returning(err)
    ensures old(s.answered) < s.answered
    ensures var n := |old(s.answered)|;
            if s.answered[n].Error? then s.asked == old(s.asked) + [BeginPublication(None, User)] && PassesOn(s.answered[n], err)
            else if s.answered[n].AlreadyExists? then
              && s.asked == old(s.asked) + [BeginPublication(None, User), ReadPublication] && |s.answered| == n + 2
              && (err.Success? <==> s.answered[n + 1].PublicationRow? && s.answered[n + 1].publication.Some?)
            else
              && s.asked == old(s.asked) + [BeginPublication(None, User), FinalizePublication(None)] && |s.answered| == n + 2
              && (if s.answered[n + 1].Error? then PassesOn(s.answered[n + 1], err) else err.Success?)
  {
    var r := s.Call(BeginPublication(None, User));
    if r.Error? {
      return Failure(r.cancelled, r.message);
    }
    if r.AlreadyExists? {
      r := s.Call(ReadPublication);
      if r.PublicationRow? && r.publication.Some? {
        return Success;
      }
      return Failure(false, PUBLICATION_EXISTS);
    }
    r := s.Call(FinalizePublication(None));
    if r.Error? {
      return Failure(r.cancelled, r.message);
    }
    return Success;
  }

  method PublishForReal(s: Session) returns (err: Outcome)
    requires s.Valid() && s.at.pc == Resolving
    modifies s
    ensures s.Valid() && Extends(old(s.path), old(s.at), s.path, s.at) && s.at.context == old(s.at.context) && s.at.result == old(s.at.result)
    ensures err.Success? ==> s.at.pc == PUBLISHED_NIL
    ensures err.Failure? ==> s.at.pc == Returning(err)
    ensures old(s.answered) < s.answered
    ensures var n := |old(s.answered)|;
            if s.answered[n].Error? then s.asked == old(s.asked) + [ResolveToken] && PassesOn(s.answered[n], err)
            else
              && s.answered[n].Identity?
              && old(s.asked) + [ResolveToken, BeginPublication(s.answered[n].account, s.answered[n].kind)] <= s.asked
  {
    var r := s.Call(ResolveToken);
    if r.Error? {
      return Failure(r.cancelled, r.message);
    }
    err := Reserve(s, r.account, r.kind);
  }

  /** Publish from the moment the token is there: the insert decides. */
  method Reserve(s: Session, account: Option<nat>, kind: PublisherKind) returns (err: Outcome)
    requires s.Valid() && s.at.pc == Beginning(account, kind)
    modifies s
    ensures s.Valid() && Extends(old(s.path), old(s.at), s.path, s.at) && s.at.context == old(s.at.context) && s.at.result == old(s.at.result)
    ensures err.Success? ==> s.at.pc == PUBLISHED_NIL
    ensures err.Failure? ==> s.at.pc == Returning(err)
    ensures old(s.answered) < s.answered
    ensures var n := |old(s.answered)|;
            var begin := BeginPublication(account, kind);
            if s.answered[n].Error? then s.asked == old(s.asked) + [begin] && PassesOn(s.answered[n], err)
            else if s.answered[n].AlreadyExists? then
              && s.asked == old(s.asked) + [begin, ReadPublication] && |s.answered| == n + 2
              && (err.Success? <==>
                && s.answered[n + 1].PublicationRow? && s.answered[n + 1].publication.Some?
                && !s.answered[n + 1].publication.value.state.PublicationFailed?)
            else old(s.asked) + [begin, SplitRepository] <= s.asked
  {
    var r := s.Call(BeginPublication(account, kind));
    if r.Error? {
      return Failure(r.cancelled, r.message);
    }
    if r.AlreadyExists? {
      r := s.Call(ReadPublication);
      if r.Error? {
        return Failure(r.cancelled, r.message);
      }
      if r.publication.Some? {
        if r.publication.value.state.Published? {
          return Success;
        }
        if r.publication.value.state.PendingGithub? {
          return Success;
        }
      }
      return Failure(false, PUBLICATION_EXISTS);
    }
    err := SplitAndPost(s);
  }

  method GiveUp(s: Session, cause: Outcome)
    requires s.Valid() && s.at.pc == FailingPublication(cause)
    modifies s
    ensures s.Valid() && Extends(old(s.path), old(s.at), s.path, s.at) && s.at.pc == Returning(cause)
    ensures s.at.context == old(s.at.context) && s.at.result == old(s.at.result)
    ensures s.asked == old(s.asked) + [FailThePublication] && old(s.answered) < s.answered
  {
    var _ := s.Call(FailThePublication);
  }

  /** Publish from the moment the insert is won. */
  method SplitAndPost(s: Session) returns (err: Outcome)
    requires s.Valid() && s.at.pc == Splitting
    modifies s
    ensures s.Valid() && Extends(old(s.path), old(s.at), s.path, s.at) && s.at.context == old(s.at.context) && s.at.result == old(s.at.result)
    ensures err.Success? ==> s.at.pc == PUBLISHED_NIL
    ensures err.Failure? ==> s.at.pc == Returning(err)
    ensures old(s.answered) < s.answered
    ensures var n := |old(s.answered)|;
            if s.answered[n].Error?
            then s.asked == old(s.asked) + [SplitRepository, FailThePublication] && PassesOn(s.answered[n], err)
            else old(s.asked) + [SplitRepository, PostReview] <= s.asked
  {
    var r := s.Call(SplitRepository);
    if r.Error? {
      err := Failure(r.cancelled, r.message);
      GiveUp(s, err);
      return;
    }
    err := PostAndFinalize(s);
  }

  /** Post once; record the review, or that there is none. */
  method PostAndFinalize(s: Session) returns (err: Outcome)
    requires s.Valid() && s.at.pc == Posting
    modifies s
    ensures s.Valid() && Extends(old(s.path), old(s.at), s.path, s.at) && s.at.context == old(s.at.context) && s.at.result == old(s.at.result)
    ensures err.Success? ==> s.at.pc == PUBLISHED_NIL
    ensures err.Failure? ==> s.at.pc == Returning(err)
    ensures old(s.answered) < s.answered
    ensures var n := |old(s.answered)|;
            if s.answered[n].Error?
            then s.asked == old(s.asked) + [PostReview, FailThePublication] && PassesOn(s.answered[n], err)
            else
              && s.answered[n].Posted? && |s.answered| == n + 2
              && s.asked == old(s.asked) + [PostReview, FinalizePublication(Some(s.answered[n].reviewId))]
              && (if s.answered[n + 1].Error? then PassesOn(s.answered[n + 1], err) else err.Success?)
  {
    var r := s.Call(PostReview);
    if r.Error? {
      err := Failure(r.cancelled, r.message);
      GiveUp(s, err);
      return;
    }
    r := s.Call(FinalizePublication(Some(r.reviewId)));
    if r.Error? {
      return Failure(r.cancelled, r.message);
    }
    return Success;
  }

  method Publish(s: Session, dryRun: bool) returns (err: Outcome)
    requires s.Valid() && s.at.pc == Enter(Diplomat, dryRun)
    modifies s
    ensures s.Valid() && Extends(old(s.path), old(s.at), s.path, s.at) && s.at.context == old(s.at.context) && s.at.result == old(s.at.result)
    ensures err.Success? ==> s.at.pc == PUBLISHED_NIL
    ensures err.Failure? ==> s.at.pc == Returning(err)
  {
    if dryRun {
      err := PublishDry(s);
    } else {
      err := PublishForReal(s);
    }
  }

  /** The first stage behind its check: build the context and save it. */
  method BuildAndSave(s: Session) returns (err: Outcome)
    requires s.Valid() && s.at.pc == Building
    modifies s
    ensures s.Valid() && Extends(old(s.path), old(s.at), s.path, s.at)
    ensures err.Success? ==> s.at.pc == CtxCheck(Memory)
    ensures err.Failure? ==> s.at.pc == Returning(err)
    ensures old(s.answered) < s.answered
    ensures var n := |old(s.answered)|;
            if s.answered[n].Error? then s.asked == old(s.asked) + [BuildContext] && PassesOn(s.answered[n], err)
            else
              && s.answered[n].Bytes? && |s.answered| == n + 2
              && s.asked == old(s.asked) + [BuildContext, Update(SaveContext(s.answered[n].blob))]
              && (if s.answered[n + 1].Error? then PassesOn(s.answered[n + 1], err) else err.Success?)
  {
    var r := s.Call(BuildContext);
    if r.Error? {
      return Failure(r.cancelled, r.message);
    }
    r := s.Call(Update(SaveContext(r.blob)));
    if r.Error? {
      return Failure(r.cancelled, r.message);
    }
    return Success;
  }

  /** Check, build, save. */
  method FirstStage(s: Session, t: Token) returns (err: Outcome)
    requires s.Valid() && s.at.pc == CtxCheck(Detective) && TokenOf(s.at) == t
    modifies s
    ensures s.Valid() && Extends(old(s.path), old(s.at), s.path, s.at)
    ensures err.Success? ==> s.at.pc == CtxCheck(Memory)
    ensures err.Failure? ==> s.at.pc == Returning(err)
  {
    err := Boundary(s, t, Detective);
    if err.Failure? {
      return;
    }
    err := BuildAndSave(s);
  }

  /** Check, pause. */
  method SecondStage(s: Session, t: Token) returns (err: Outcome)
    requires s.Valid() && s.at.pc == CtxCheck(Memory) && TokenOf(s.at) == t
    modifies s
    ensures s.Valid() && Extends(old(s.path), old(s.at), s.path, s.at)
    ensures err.Success? ==> s.at.pc == CtxCheck(Critic)
    ensures err.Failure? ==> s.at.pc == Returning(err)
  {
    err := Boundary(s, t, Memory);
    if err.Failure? {
      return;
    }
    var r := s.Call(Pause);
    if r.Error? {
      return Failure(r.cancelled, r.message);
    }
  }

  /** The first two stages. */
  method Gather(s: Session, t: Token) returns (err: Outcome)
    requires s.Valid() && s.at.pc == CtxCheck(Detective) && TokenOf(s.at) == t
    modifies s
    ensures s.Valid() && Extends(old(s.path), old(s.at), s.path, s.at)
    ensures err.Success? ==> s.at.pc == CtxCheck(Critic)
    ensures err.Failure? ==> s.at.pc == Returning(err)
  {
    err := FirstStage(s, t);
    if err.Failure? {
      return;
    }
    err := SecondStage(s, t);
  }

  /** The third stage behind its check: compute the result and save it. */
  method ReviewAndSave(s: Session) returns (result: Blob, err: Outcome)
    requires s.Valid() && s.at.pc == Reviewing
    modifies s
    ensures s.Valid() && Extends(old(s.path), old(s.at), s.path, s.at)
    ensures err.Success? ==> s.at.pc == CtxCheck(Diplomat) && s.at.result == Some(result)
    ensures err.Failure? ==> s.at.pc == Returning(err)
    ensures old(s.answered) < s.answered
    ensures var n := |old(s.answered)|;
            if s.answered[n].Error? then s.asked == old(s.asked) + [Review] && PassesOn(s.answered[n], err)
            else
              && s.answered[n] == Bytes(result) && |s.answered| == n + 2
              && s.asked == old(s.asked) + [Review, Update(SaveResult(result, "critic-v1"))]
              && (if s.answered[n + 1].Error? then PassesOn(s.answered[n + 1], err) else err.Success?)
  {
    result, err := "", Success;
    var r := s.Call(Review);
    if r.Error? {
      err := Failure(r.cancelled, r.message);
      return;
    }
    result := r.blob;
    r := s.Call(Update(SaveResult(result, PROMPT_VERSION)));
    if r.Error? {
      err := Failure(r.cancelled, r.message);
    }
  }

  /** The third stage. */
  method Judge(s: Session, t: Token) returns (result: Blob, err: Outcome)
    requires s.Valid() && s.at.pc == CtxCheck(Critic) && TokenOf(s.at) == t
    modifies s
    ensures s.Valid() && Extends(old(s.path), old(s.at), s.path, s.at)
    ensures err.Success? ==> s.at.pc == CtxCheck(Diplomat) && s.at.result == Some(result)
    ensures err.Failure? ==> s.at.pc == Returning(err)
  {
    result := "";
    err := Boundary(s, t, Critic);
    if err.Failure? {
      return;
    }
    result, err := ReviewAndSave(s);
  }

  /** The last stage: check, publish. */
  method LastStage(s: Session, t: Token, dryRun: bool) returns (err: Outcome)
    requires s.Valid() && s.at.pc == CtxCheck(Diplomat) && TokenOf(s.at) == t && s.at.dryRun == dryRun
    modifies s
    ensures s.Valid() && Extends(old(s.path), old(s.at), s.path, s.at) && s.at.result == old(s.at.result)
    ensures err.Success? ==> s.at.pc == PUBLISHED_NIL
    ensures err.Failure? ==> s.at.pc == Returning(err)
  {
    err := Boundary(s, t, Diplomat);
    if err.Failure? {
      return;
    }
    err := Publish(s, dryRun);
  }

  /** The last stage, and the final check. */
  method Deliver(s: Session, t: Token, dryRun: bool) returns (err: Outcome)
    requires s.Valid() && s.at.pc == CtxCheck(Diplomat) && TokenOf(s.at) == t && s.at.dryRun == dryRun
    modifies s
    ensures s.Valid() && Extends(old(s.path), old(s.at), s.path, s.at)
    ensures s.at.pc == Returning(err) && s.at.result == old(s.at.result)
  {
    err := LastStage(s, t, dryRun);
    if err.Failure? {
      return;
    }
    err := Boundary(s, t, Final);
  }

  /** runPipeline; on success the result to be stored. */
  method RunPipeline(s: Session, t: Token, dryRun: bool) returns (result: Blob, err: Outcome)
    requires s.Valid() && s.at.pc == CtxCheck(Detective) && TokenOf(s.at) == t && s.at.dryRun == dryRun
    modifies s
    ensures s.Valid() && Extends(old(s.path), old(s.at), s.path, s.at) && s.at.pc == Returning(err)
    ensures err.Success? ==> s.at.result == Some(result)
  {
    result := "";
    err := Gather(s, t);
    if err.Failure? {
      return;
    }
    result, err := Judge(s, t);
    if err.Failure? {
      return;
    }
    err := Deliver(s, t, dryRun);
  }

  /** Complete the job, fail it, or walk away. */
  method Finalise(s: Session, t: Token, result: Blob, err: Outcome)
    requires s.Valid() && s.at.pc == Joining(err) && TokenOf(s.at) == t
    requires err.Success? ==> s.at.result == Some(result)
    modifies s
    ensures s.Valid() && Extends(old(s.path), old(s.at), s.path, s.at) && s.at.pc.Stopped?
    ensures old(s.answered) < s.answered
    ensures if err.Success? then s.asked == old(s.asked) + [JoinHeartbeat, Update(Complete(result))]
            else if err.cancelled then s.asked == old(s.asked) + [JoinHeartbeat]
            else
              && |s.answered| > |old(s.answered)| + 1
              && s.asked == old(s.asked) + [JoinHeartbeat, ReadJob] +
                            (if HeldIn(s.answered[|old(s.answered)| + 1], t) then [Update(Fail(err.message))] else [])
  {
    var _ := s.Call(JoinHeartbeat);
    if err.Success? {
      var _ := s.Call(Update(Complete(result)));
      return;
    }
    if err.cancelled {
      return;
    }
    FailUnlessCancelled(s, t, err.message);
  }

  method FailUnlessCancelled(s: Session, t: Token, message: string)
    requires s.Valid() && s.at.pc == Deciding(message) && TokenOf(s.at) == t
    modifies s
    ensures s.Valid() && Extends(old(s.path), old(s.at), s.path, s.at) && s.at.pc.Stopped?
    ensures old(s.answered) < s.answered
    ensures s.asked == old(s.asked) + [ReadJob] +
                       (if HeldIn(s.answered[|old(s.answered)|], t) then [Update(Fail(message))] else [])
  {
    var gone := IsCancelledInDB(s, t);
    if gone {
      return;
    }
    var _ := s.Call(Update(Fail(message)));
  }

  /** worker.go's process, its heartbeat goroutine aside: run the pipeline, stop the heartbeat and
      wait for it, then finalise. The session has then made every request of the program, and no
      other. */
  method Process(s: Session, t: Token, dryRun: bool)
    requires s.Valid() && s.answered == []
    requires s.at.pc == CtxCheck(Detective) && TokenOf(s.at) == t && s.at.dryRun == dryRun
    modifies s
    ensures Conversation(s.path, s.asked, s.answered)
    ensures s.path[0] == old(s.at) && s.path[|s.answered|].pc.Stopped?
  {
    var result, err := RunPipeline(s, t, dryRun);
    var _ := s.Call(CancelContext);
    Finalise(s, t, result, err);
  }
}
