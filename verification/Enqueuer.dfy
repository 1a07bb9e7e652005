/** enqueue.go: one webhook delivery as a program with an explicit counter, in the same
    request/answer form as Worker. EnqueuerCode.dfy proves that the structured handlers make
    exactly these requests. */
module Enqueuer {
  import opened Domain
  import opened Statements

  /** Decision strings; Malformed is "ignored" with an error, Broken is "failed" with an error,
      Fresh means that nothing has been handled yet. */
  datatype Decision =
    | Fresh
    | Ignored
    | Malformed
    | Broken
    | Processed
    | CancelledOpen
    | SkippedSuspended
    | Skipped
    | SkippedNoSha
    | Enqueued
    | EnqueuedNoop

  datatype Account = Account(id: int, login: string, kind: string)

  /** `reviewer` is what matchReviewer makes of the assignees. */
  datatype PrPayload = PrPayload(
    number: int,
    state: string,
    draft: bool,
    headSha: string,
    baseSha: string,
    reviewer: Option<string>)

  datatype IssuePayload = IssuePayload(number: int, onPullRequest: bool)

  /** The parts of a webhook that may be missing are optional. `at` is the handler's own clock,
      `raw` the serialised payload, `mention` what matchReviewer makes of the comment. */
  datatype Event =
    | Ping
    | OtherEvent
    | InstallationEvent(installation: Option<Account>, action: string, at: Time)
    | PullRequestEvent(installation: Option<Account>, repo: Option<string>, pull: Option<PrPayload>,
                       action: string, raw: Blob)
    | CommentEvent(installation: Option<Account>, repo: Option<string>, issue: Option<IssuePayload>,
                   mention: Option<Option<string>>)

  datatype Order = Order(
    gid: int,
    pr: PullRequest,
    headSha: string,
    baseSha: string,
    account: Option<nat>,
    login: string,
    raw: Blob)

  datatype Handler =
    | Idle(last: Decision)
    | Installing(payload: Account, action: string, at: Time)
    | Looking(event: Event)
    | Stubbing(event: Event)
    | CancellingOpen(pr: PullRequest)
    | Superseding(order: Order)
    | LookingAccount(order: Order)
    | Creating(order: Order)

  datatype Question =
    | LookInstallation(gid: int)
    | UpsertInstallation(gid: int, login: string, kind: string, suspendedAt: Option<Time>)
    | CancelJobs(pr: PullRequest, except: Option<string>)
    | LookAccount(login: string)
    | CreateJob(job: Job)
    | NoQuestion

  datatype Answer =
    | Trouble
    | Ok
    | KeyExists
    | Found(installation: Option<Installation>)
    | Upserted(row: Installation)
    | AccountId(account: Option<nat>)

  predicate Suspending(action: string) {
    action == "suspend" || action == "deleted"
  }

  predicate Allowed(action: string) {
    action in ["opened", "reopened", "synchronize", "ready_for_review", "assigned"]
  }

  predicate Closing(action: string, pull: PrPayload) {
    action == "closed" || pull.state == "closed" || action == "converted_to_draft"
  }

  /** Events that get past the checks for missing parts and need the installation's row. */
  predicate NeedsInstallation(e: Event) {
    match e
    case PullRequestEvent(i, r, p, _, _) => i.Some? && r.Some? && p.Some?
    case CommentEvent(i, r, u, c) => i.Some? && r.Some? && u.Some? && c.Some? && u.value.onPullRequest
    case _ => false
  }

  function Start(e: Event): Handler {
    match e
    case Ping => Idle(Ignored)
    case OtherEvent => Idle(Ignored)
    case InstallationEvent(installation, action, at) =>
      if installation.None? then Idle(Malformed) else Installing(installation.value, action, at)
    case PullRequestEvent(_, _, _, _, _) =>
      if NeedsInstallation(e) then Looking(e) else Idle(Malformed)
    case CommentEvent(i, r, u, c) =>
      if i.None? || r.None? || u.None? || c.None? then Idle(Malformed)
      else if !u.value.onPullRequest then Idle(Ignored)
      else Looking(e)
  }

  function Target(e: Event, row: Installation): PullRequest
    requires e.PullRequestEvent? && NeedsInstallation(e)
  {
    PullRequest(row.id, e.repo.value, e.pull.value.number)
  }

  function OrderFor(e: Event, row: Installation): Order
    requires e.PullRequestEvent? && NeedsInstallation(e) && e.pull.value.reviewer.Some?
  {
    var p := e.pull.value;
    Order(e.installation.value.id, Target(e, row), p.headSha, p.baseSha, None, p.reviewer.value, e.raw)
  }

  /** The decisions taken once the installation's row is at hand. */
  function Route(e: Event, row: Installation): Handler
    requires NeedsInstallation(e)
  {
    if e.CommentEvent? then
      if row.suspendedAt.Some? then Idle(SkippedSuspended)
      else if e.mention.value.None? then Idle(Skipped)
      else Idle(SkippedNoSha)
    else
      var p := e.pull.value;
      if Closing(e.action, p) then CancellingOpen(Target(e, row))
      else if row.suspendedAt.Some? then Idle(SkippedSuspended)
      else if !Allowed(e.action) then Idle(Ignored)
      else if p.draft && e.action != "ready_for_review" then Idle(Skipped)
      else if p.reviewer.None? then Idle(Skipped)
      else Superseding(OrderFor(e, row))
  }

  function GidOf(e: Event): int
    requires NeedsInstallation(e)
  {
    e.installation.value.id
  }

  /** The row ensureInstallation writes when there is none. */
  function StubLogin(a: Account): (string, string) {
    if a.login != "" then (a.login, a.kind) else ("unknown-stub", "Organization")
  }

  function NewJob(o: Order): Job {
    Job(o.pr, o.headSha, o.baseSha, o.account, o.login, Pending, 0, None, None, 0, None, o.raw, None, None, 0)
  }

  predicate WellFormed(h: Handler) {
    match h
    case Looking(e) => NeedsInstallation(e)
    case Stubbing(e) => NeedsInstallation(e)
    case _ => true
  }

  function Ask(h: Handler): Question
    requires WellFormed(h)
  {
    match h
    case Idle(_) => NoQuestion
    case Installing(p, action, at) =>
      UpsertInstallation(p.id, p.login, p.kind, if Suspending(action) then Some(at) else None)
    case Looking(e) => LookInstallation(GidOf(e))
    case Stubbing(e) =>
      var (login, kind) := StubLogin(e.installation.value);
      UpsertInstallation(GidOf(e), login, kind, None)
    case CancellingOpen(pr) => CancelJobs(pr, None)
    case Superseding(o) => CancelJobs(o.pr, Some(o.headSha))
    case LookingAccount(o) => LookAccount(o.login)
    case Creating(o) => CreateJob(NewJob(o))
  }

  predicate Fits(q: Question, a: Answer) {
    a.Trouble? ||
    match q
    case LookInstallation(_) => a.Found?
    case UpsertInstallation(_, _, _, _) => a.Upserted?
    case CancelJobs(_, _) => a.Ok?
    case LookAccount(_) => a.AccountId?
    case CreateJob(_) => a.Ok? || a.KeyExists?
    case NoQuestion => a.Ok?
  }

  function Resume(h: Handler, a: Answer): (next: Handler)
    requires WellFormed(h) && Fits(Ask(h), a)
    ensures WellFormed(next)
  {
    if h.Idle? then h
    else if a.Trouble? then Idle(Broken)
    else
      match h
      case Installing(_, _, _) => Idle(Processed)
      case Looking(e) => if a.installation.Some? then Route(e, a.installation.value) else Stubbing(e)
      case Stubbing(e) => Route(e, a.row)
      case CancellingOpen(_) => Idle(CancelledOpen)
      case Superseding(o) => LookingAccount(o)
      case LookingAccount(o) => Creating(o.(account := a.account))
      case Creating(_) => if a.KeyExists? then Idle(EnqueuedNoop) else Idle(Enqueued)
  }
}
