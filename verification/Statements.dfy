/** What each SQL statement of the store does to the tables. A statement is one atomic step;
    NOW() is the field `now`. */
module Statements {
  import opened Domain

  /** `installations` is keyed by GitHub's installation id; the internal id is in the row. */
  datatype Tables = Tables(
    now: Time,
    jobs: map<JobId, Job>,
    publications: map<JobId, Publication>,
    installations: map<int, Installation>,
    nextInstallation: nat,
    nextJob: nat)

  /** What a worker presents with every fenced statement. */
  datatype Token = Token(job: JobId, generation: nat, worker: WorkerId)

  /** The five fenced updates of review_jobs. */
  datatype Write =
    | Beat(until: Time)
    | SaveContext(blob: Blob)
    | SaveResult(blob: Blob, version: string)
    | Complete(blob: Blob)
    | Fail(message: string)

  predicate Owned(row: Job, t: Token) {
    && row.lockGeneration == t.generation
    && row.lockedBy == Some(t.worker)
    && row.status.Running?
  }

  /** The WHERE clause shared by all fenced updates. */
  predicate Holds(jobs: map<JobId, Job>, t: Token) {
    t.job in jobs && Owned(jobs[t.job], t)
  }

  function Updated(row: Job, w: Write): Job {
    match w
    case Beat(until) => row.(lockedUntil := Some(until))
    case SaveContext(blob) => row.(contextBlob := blob)
    case SaveResult(blob, version) => row.(resultBlob := Some(blob), promptVersion := Some(version))
    case Complete(blob) =>
      row.(status := Completed, resultBlob := Some(blob), lockedBy := None, lockedUntil := None)
    case Fail(message) =>
      row.(status := Failed, lastError := Some(message), lockedBy := None, lockedUntil := None)
  }

  function Fenced(jobs: map<JobId, Job>, t: Token, w: Write): map<JobId, Job> {
    if Holds(jobs, t) then jobs[t.job := Updated(jobs[t.job], w)] else jobs
  }

  predicate Claimable(row: Job, now: Time) {
    || row.status.Pending?
    || row.status.RetryWait?
    || row.status.NeedsReconcile?
    || (row.status.Running? && row.lockedUntil.Some? && row.lockedUntil.value < now)
  }

  function Claimed(row: Job, worker: WorkerId, until: Time): Job {
    row.(
      status := Running,
      lockGeneration := row.lockGeneration + 1,
      lockedBy := Some(worker),
      lockedUntil := Some(until),
      attempt := row.attempt + 1)
  }

  /** The rows a cancel statement selects: the pull request's live jobs, sparing `except`. */
  predicate Selected(row: Job, pr: PullRequest, except: Option<string>) {
    row.pr == pr && row.status.Live() && except != Some(row.headSha)
  }

  function Cancel(jobs: map<JobId, Job>, pr: PullRequest, except: Option<string>): map<JobId, Job> {
    map j | j in jobs ::
      if Selected(jobs[j], pr, except) then jobs[j].(status := Cancelled) else jobs[j]
  }

  /** UNIQUE (installation_id, repo_full_name, pr_number, head_sha). */
  predicate KeyTaken(jobs: map<JobId, Job>, pr: PullRequest, headSha: string) {
    exists j | j in jobs :: jobs[j].pr == pr && jobs[j].headSha == headSha
  }

  /** INSERT INTO review_jobs; a taken key leaves the table as it was. */
  function Create(tables: Tables, job: Job): Tables {
    if KeyTaken(tables.jobs, job.pr, job.headSha) then tables
    else tables.(jobs := tables.jobs[tables.nextJob := job], nextJob := tables.nextJob + 1)
  }

  /** INSERT ... ON CONFLICT DO UPDATE: an existing row keeps its internal id. The id sequence
      moves on either way. */
  function Upsert(tables: Tables, gid: int, login: string, kind: string, suspendedAt: Option<Time>): Tables {
    var id := if gid in tables.installations then tables.installations[gid].id else tables.nextInstallation;
    tables.(
      installations := tables.installations[gid := Installation(id, login, kind, suspendedAt)],
      nextInstallation := tables.nextInstallation + 1)
  }

  function Begin(pubs: map<JobId, Publication>, j: JobId, account: Option<nat>, kind: PublisherKind): map<JobId, Publication> {
    if j in pubs then pubs else pubs[j := Publication(account, kind, PendingGithub, None)]
  }

  function Finalize(pubs: map<JobId, Publication>, j: JobId, reviewId: Option<int>): map<JobId, Publication> {
    if j in pubs then pubs[j := pubs[j].(state := Published, reviewId := reviewId)] else pubs
  }

  function FailPublication(pubs: map<JobId, Publication>, j: JobId): map<JobId, Publication> {
    if j in pubs then pubs[j := pubs[j].(state := PublicationFailed)] else pubs
  }
}
