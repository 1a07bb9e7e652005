/** A claimed job's process: worker.go's `process`, pipeline.go's `runPipeline` and publish.go's
    `Publish` as one program with an explicit program counter. At each counter the process has
    exactly one request outstanding (Ask); the answer alone decides where it goes next (Resume).
    WorkerCode.dfy proves that the structured code makes exactly these requests. */
module Worker {
  import opened Domain
  import opened Statements

  datatype Stage = Detective | Memory | Critic | Diplomat | Final

  /** How runPipeline returned. `cancelled` is what errors.Is(err, context.Canceled) says. */
  datatype Outcome = Success | Failure(cancelled: bool, message: string)

  datatype PC =
    | CtxCheck(stage: Stage)
    | DbCheck(stage: Stage)
    | Building
    | SavingContext
    | Pausing
    | Reviewing
    | SavingResult
      // Publish, dry run
    | DryBeginning
    | DryReading
    | DryFinalizing
      // Publish, for real
    | Resolving
    | Beginning(account: Option<nat>, kind: PublisherKind)
    | Reading
    | Splitting
    | Posting
    | FailingPublication(cause: Outcome)
    | Finalizing(reviewId: int)
      // back in process
    | Returning(outcome: Outcome)
    | Joining(outcome: Outcome)
    | Deciding(message: string)
    | Failing(message: string)
    | Completing
    | Stopped

  /** `beating` says that the heartbeat goroutine runs, `cancelled` that jobCtx is done. */
  datatype Proc = Proc(
    job: JobId,
    generation: nat,
    worker: WorkerId,
    repo: string,
    lease: int,
    dryRun: bool,
    pc: PC,
    beating: bool,
    cancelled: bool,
    context: Option<Blob>,
    result: Option<Blob>,
    published: bool)

  datatype Request =
    | CheckContext
    | ReadJob
    | BuildContext
    | Pause
    | Review
    | Update(write: Write)
    | BeginPublication(account: Option<nat>, kind: PublisherKind)
    | ReadPublication
    | FinalizePublication(reviewId: Option<int>)
    | FailThePublication
    | ResolveToken
    | SplitRepository
    | PostReview
    | CancelContext
    | JoinHeartbeat
    | Nothing

  datatype Reply =
    | Error(cancelled: bool, message: string)
    | Done
    | Row(row: Option<Job>)
    | Bytes(blob: Blob)
    | Identity(account: Option<nat>, kind: PublisherKind)
    | AlreadyExists
    | PublicationRow(publication: Option<Publication>)
    | Posted(reviewId: int)

  const PROMPT_VERSION := "critic-v1"
  const JOB_CANCELLED := "job cancelled in database"
  const LOST_OWNERSHIP := "lost ownership or job not running"
  const PUBLICATION_EXISTS := "publication already exists for this job"

  function TokenOf(p: Proc): Token {
    Token(p.job, p.generation, p.worker)
  }

  /** strings.Split(name, "/") has exactly two parts. */
  function Slashes(name: string): (n: nat) {
    if name == "" then 0 else (if name[0] == '/' then 1 else 0) + Slashes(name[1..])
  }

  predicate ValidRepo(name: string) {
    Slashes(name) == 1
  }

  /** isCancelledInDB, once the row has been read. */
  predicate SeesCancelled(p: Proc, row: Option<Job>) {
    row.None? || !Owned(row.value, TokenOf(p))
  }

  function Launch(j: JobId, row: Job, worker: WorkerId, lease: int, dryRun: bool): Proc {
    Proc(j, row.lockGeneration, worker, row.pr.repo, lease, dryRun, CtxCheck(Detective), true, false, None, None, false)
  }

  function OrEmpty(b: Option<Blob>): Blob {
    if b.Some? then b.value else ""
  }

  function Ask(p: Proc): Request {
    match p.pc
    case CtxCheck(_) => CheckContext
    case DbCheck(_) => ReadJob
    case Building => BuildContext
    case SavingContext => Update(SaveContext(OrEmpty(p.context)))
    case Pausing => Pause
    case Reviewing => Review
    case SavingResult => Update(SaveResult(OrEmpty(p.result), PROMPT_VERSION))
    case DryBeginning => BeginPublication(None, User)
    case DryReading => ReadPublication
    case DryFinalizing => FinalizePublication(None)
    case Resolving => ResolveToken
    case Beginning(account, kind) => BeginPublication(account, kind)
    case Reading => ReadPublication
    case Splitting => SplitRepository
    case Posting => PostReview
    case FailingPublication(_) => FailThePublication
    case Finalizing(id) => FinalizePublication(Some(id))
    case Returning(_) => CancelContext
    case Joining(_) => JoinHeartbeat
    case Deciding(_) => ReadJob
    case Failing(message) => Update(Fail(message))
    case Completing => Update(Complete(OrEmpty(p.result)))
    case Stopped => Nothing
  }

  function Enter(stage: Stage, dryRun: bool): PC {
    match stage
    case Detective => Building
    case Memory => Pausing
    case Critic => Reviewing
    case Diplomat => if dryRun then DryBeginning else Resolving
    case Final => Returning(Success)
  }

  function Abort(r: Reply): PC
    requires r.Error?
  {
    Returning(Failure(r.cancelled, r.message))
  }

  const SLOT_TAKEN := Returning(Failure(false, PUBLICATION_EXISTS))

  /** Where runPipeline goes when Publish has returned nil. */
  const PUBLISHED_NIL := CtxCheck(Final)

  /** The identities that resolving a token can end with: a personal token always comes with its
      account. TokenResolution proves that these are exactly the outcomes of Resolve. */
  predicate Publishable(account: Option<nat>, kind: PublisherKind) {
    kind.User? ==> account.Some?
  }

  /** The kinds of answer a request can get. */
  predicate Fits(q: Request, r: Reply) {
    r.Error? ||
    match q
    case ReadJob => r.Row?
    case BuildContext => r.Bytes?
    case Review => r.Bytes?
    case BeginPublication(_, _) => r.Done? || r.AlreadyExists?
    case ReadPublication => r.PublicationRow?
    case ResolveToken => r.Identity? && Publishable(r.account, r.kind)
    case PostReview => r.Posted?
    case _ => r.Done?
  }

  function Next(p: Proc, r: Reply): PC
    requires Fits(Ask(p), r)
  {
    match p.pc
    case CtxCheck(stage) => if r.Error? then Abort(r) else DbCheck(stage)
    case DbCheck(stage) =>
      if r.Error? || SeesCancelled(p, r.row) then Returning(Failure(false, JOB_CANCELLED)) else Enter(stage, p.dryRun)
    case Building => if r.Error? then Abort(r) else SavingContext
    case SavingContext => if r.Error? then Abort(r) else CtxCheck(Memory)
    case Pausing => if r.Error? then Abort(r) else CtxCheck(Critic)
    case Reviewing => if r.Error? then Abort(r) else SavingResult
    case SavingResult => if r.Error? then Abort(r) else CtxCheck(Diplomat)
    case DryBeginning => if r.Error? then Abort(r) else if r.AlreadyExists? then DryReading else DryFinalizing
    case DryReading => if r.Error? || r.publication.None? then SLOT_TAKEN else PUBLISHED_NIL
    case DryFinalizing => if r.Error? then Abort(r) else PUBLISHED_NIL
    case Resolving => if r.Error? then Abort(r) else Beginning(r.account, r.kind)
    case Beginning(_, _) => if r.Error? then Abort(r) else if r.AlreadyExists? then Reading else Splitting
    case Reading =>
      if r.Error? then Abort(r)
      else if r.publication.None? || r.publication.value.state.PublicationFailed? then SLOT_TAKEN
      else PUBLISHED_NIL
    case Splitting => if r.Error? then FailingPublication(Failure(r.cancelled, r.message)) else Posting
    case Posting => if r.Error? then FailingPublication(Failure(r.cancelled, r.message)) else Finalizing(r.reviewId)
    case FailingPublication(cause) => Returning(cause)
    case Finalizing(_) => if r.Error? then Abort(r) else PUBLISHED_NIL
    case Returning(outcome) => Joining(outcome)
    case Joining(outcome) =>
      if outcome.Success? then Completing else if outcome.cancelled then Stopped else Deciding(outcome.message)
    case Deciding(message) => if r.Error? || SeesCancelled(p, r.row) then Stopped else Failing(message)
    case Failing(_) => Stopped
    case Completing => Stopped
    case Stopped => Stopped
  }

  /** The answer moves the program counter and fills in what the stages hand on. The only way to
      CtxCheck(Final) is a nil Publish. */
  function Resume(p: Proc, r: Reply): Proc
    requires Fits(Ask(p), r)
  {
    p.(
      pc := Next(p, r),
      cancelled := p.cancelled || p.pc.Returning?,
      context := if p.pc.Building? && r.Bytes? then Some(r.blob) else p.context,
      result := if p.pc.Reviewing? && r.Bytes? then Some(r.blob) else p.result,
      published := p.published || Next(p, r) == PUBLISHED_NIL)
  }
}
