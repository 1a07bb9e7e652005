/** The rows of the database and the values that travel between the components.
    Identifiers are opaque: a job's UUID is a number that is never reused, blobs are compared
    but never read, and a time is a number of microseconds. */
module Domain {

  datatype Option<+T> = None | Some(value: T)

  type JobId = nat
  type WorkerId = string
  type Time = int
  type Blob = string

  datatype JobStatus =
    | Pending
    | Running
    | RetryWait
    | Completed
    | Failed
    | Cancelled
    | NeedsReconcile
  {
    /** The statuses that both cancel statements select. */
    predicate Live() {
      Pending? || Running? || RetryWait?
    }

    predicate Terminal() {
      Completed? || Failed? || Cancelled?
    }
  }

  datatype PullRequest = PullRequest(installation: nat, repo: string, number: int)

  datatype Job = Job(
    pr: PullRequest,
    headSha: string,
    baseSha: string,
    account: Option<nat>,
    login: string,
    status: JobStatus,
    lockGeneration: nat,
    lockedUntil: Option<Time>,
    lockedBy: Option<WorkerId>,
    attempt: nat,
    lastError: Option<string>,
    contextBlob: Blob,
    resultBlob: Option<Blob>,
    promptVersion: Option<string>,
    createdAt: Time)

  datatype PublisherKind = User | AppBot

  datatype PublicationState = PendingGithub | Published | PublicationFailed

  datatype Publication = Publication(
    account: Option<nat>,
    kind: PublisherKind,
    state: PublicationState,
    reviewId: Option<int>)

  datatype Installation = Installation(
    id: nat,
    login: string,
    kind: string,
    suspendedAt: Option<Time>)
}
