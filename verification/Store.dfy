/** store.go: the store's methods, each proved to be the statement that the rest of the model takes
    it for, and to report what its caller is told. */
module StoreObject {
  import opened Domain
  import opened Statements

  /** All rows but this one are as they were, and none is new or gone. */
  ghost predicate OthersKept<V>(rows: map<JobId, V>, rows': map<JobId, V>, j: JobId) {
    rows'.Keys == rows.Keys && forall k <- rows | k != j :: rows'[k] == rows[k]
  }

  /** The columns that are written when the row is inserted, and never again. */
  ghost predicate SameOrigin(row: Job, row': Job) {
    && row'.pr == row.pr && row'.headSha == row.headSha && row'.baseSha == row.baseSha
    && row'.account == row.account && row'.login == row.login && row'.createdAt == row.createdAt
  }

  /** The columns that no fenced statement writes. */
  ghost predicate SameJob(row: Job, row': Job) {
    SameOrigin(row, row') && row'.attempt == row.attempt && row'.lockGeneration == row.lockGeneration
  }

  ghost predicate SameBlobs(row: Job, row': Job) {
    row'.contextBlob == row.contextBlob && row'.resultBlob == row.resultBlob && row'.promptVersion == row.promptVersion
  }

  ghost predicate SameLock(row: Job, row': Job) {
    && row'.status == row.status && row'.lockedBy == row.lockedBy && row'.lockedUntil == row.lockedUntil
    && row'.lastError == row.lastError
  }

  /** A cancelled row keeps its lock, its blobs and everything else but its status. */
  ghost predicate SameCancelled(row: Job, row': Job) {
    && SameJob(row, row') && SameBlobs(row, row')
    && row'.lockedBy == row.lockedBy && row'.lockedUntil == row.lockedUntil && row'.lastError == row.lastError
  }

  ghost predicate Unlocked(row: Job) {
    row.lockedBy.None? && row.lockedUntil.None?
  }

  class Store {
    var now: Time
    var jobs: map<JobId, Job>
    var publications: map<JobId, Publication>
    var installations: map<int, Installation>
    var nextInstallation: nat
    var nextJob: nat

    constructor (start: Time)
      ensures View() == Tables(start, map[], map[], map[], 1, 1)
    {
      now := start;
      jobs := map[];
      publications := map[];
      installations := map[];
      nextInstallation := 1;
      nextJob := 1;
    }

    function View(): Tables
      reads this
    {
      Tables(now, jobs, publications, installations, nextInstallation, nextJob)
    }

    method UpsertInstallation(gid: int, login: string, kind: string, suspendedAt: Option<Time>) returns (row: Installation)
      modifies this`installations, this`nextInstallation
      ensures View() == Upsert(old(View()), gid, login, kind, suspendedAt)
      ensures gid in installations && installations[gid] == row
      ensures old(gid in installations) ==> row.id == old(installations[gid].id)
      ensures row.login == login && row.kind == kind && row.suspendedAt == suspendedAt
      ensures forall g :: g != gid ==> (g in installations <==> old(g in installations))
      ensures forall g :: g != gid && old(g in installations) ==> installations[g] == old(installations[g])
    {
      var id := nextInstallation;
      nextInstallation := nextInstallation + 1;
      if gid in installations {
        id := installations[gid].id;
      }
      row := Installation(id, login, kind, suspendedAt);
      installations := installations[gid := row];
    }

    method GetInstallationByGitHubID(gid: int) returns (row: Option<Installation>)
      ensures row.Some? <==> gid in installations
      ensures row.Some? ==> row.value == installations[gid]
    {
      if gid in installations {
        return Some(installations[gid]);
      }
      return None;
    }

    /** None is ErrJobAlreadyExists. */
    method CreateJob(job: Job) returns (id: Option<JobId>)
      requires nextJob !in jobs
      modifies this`jobs, this`nextJob
      ensures View() == Create(old(View()), job.(createdAt := now))
      ensures id.None? <==> exists j <- old(jobs) :: old(jobs)[j].pr == job.pr && old(jobs)[j].headSha == job.headSha
      ensures id.None? ==> jobs == old(jobs)
      ensures id.Some? ==> id.value !in old(jobs) && jobs == old(jobs)[id.value := job.(createdAt := now)]
    {
      if exists j <- jobs :: jobs[j].pr == job.pr && jobs[j].headSha == job.headSha {
        return None;
      }
      id := Some(nextJob);
      jobs := jobs[nextJob := job.(createdAt := now)];
      nextJob := nextJob + 1;
    }

    method GetJob(id: JobId) returns (row: Option<Job>)
      ensures row.Some? <==> id in jobs
      ensures row.Some? ==> row.value == jobs[id]
    {
      if id in jobs {
        return Some(jobs[id]);
      }
      return None;
    }

    method CancelJobsForPR(pr: PullRequest, exceptHeadSha: string) returns (cancelled: nat)
      modifies this`jobs
      ensures View() == old(View()).(jobs := Cancel(old(jobs), pr, Some(exceptHeadSha)))
      ensures cancelled == |set j | j in old(jobs) && old(jobs)[j].pr == pr && old(jobs)[j].status.Live() && old(jobs)[j].headSha != exceptHeadSha|
      ensures jobs.Keys == old(jobs).Keys
      ensures forall j <- jobs ::
                var row := old(jobs)[j];
                if row.pr == pr && row.headSha != exceptHeadSha && (row.status.Pending? || row.status.Running? || row.status.RetryWait?)
                then jobs[j].status.Cancelled? && SameCancelled(row, jobs[j])
                else jobs[j] == row
    {
      var hit := set j | j in jobs && jobs[j].pr == pr && jobs[j].status.Live() && jobs[j].headSha != exceptHeadSha;
      jobs := map j | j in jobs :: if j in hit then jobs[j].(status := Cancelled) else jobs[j];
      cancelled := |hit|;
    }

    method CancelOpenJobsForPR(pr: PullRequest) returns (cancelled: nat)
      modifies this`jobs
      ensures View() == old(View()).(jobs := Cancel(old(jobs), pr, None))
      ensures cancelled == |set j | j in old(jobs) && old(jobs)[j].pr == pr && old(jobs)[j].status.Live()|
      ensures jobs.Keys == old(jobs).Keys
      ensures forall j <- jobs ::
                var row := old(jobs)[j];
                if row.pr == pr && (row.status.Pending? || row.status.Running? || row.status.RetryWait?)
                then jobs[j].status.Cancelled? && SameCancelled(row, jobs[j])
                else jobs[j] == row
      ensures forall j <- jobs | jobs[j].pr == pr :: !jobs[j].status.Live()
    {
      var hit := set j | j in jobs && jobs[j].pr == pr && jobs[j].status.Live();
      jobs := map j | j in jobs :: if j in hit then jobs[j].(status := Cancelled) else jobs[j];
      cancelled := |hit|;
    }

    /** `locked` are the rows that other transactions hold: SKIP LOCKED passes over them. */
    method ClaimJob(workerId: WorkerId, lease: int, locked: set<JobId>) returns (claimed: Option<(JobId, Job)>)
      modifies this`jobs
      ensures claimed.None? ==> jobs == old(jobs) && forall j <- jobs | Claimable(jobs[j], now) :: j in locked
      ensures claimed.Some? ==>
                var (j, row) := claimed.value;
                && j in old(jobs) && j !in locked && Claimable(old(jobs)[j], now)
                && row == Claimed(old(jobs)[j], workerId, now + lease)
                && jobs == old(jobs)[j := row]
                && forall k <- old(jobs) | k !in locked && Claimable(old(jobs)[k], now) ::
                     old(jobs)[j].createdAt <= old(jobs)[k].createdAt
      ensures claimed.Some? ==>
                var (j, row) := claimed.value;
                var was := old(jobs)[j];
                && OthersKept(old(jobs), jobs, j)
                && SameOrigin(was, row) && SameBlobs(was, row) && row.lastError == was.lastError
                && row.status.Running? && row.lockedBy == Some(workerId) && row.lockedUntil == Some(now + lease)
                && row.lockGeneration == was.lockGeneration + 1 && row.attempt == was.attempt + 1
                && (was.status.Pending? || was.status.RetryWait? || was.status.NeedsReconcile? ||
                    (was.status.Running? && was.lockedUntil.Some? && was.lockedUntil.value < now))
      ensures claimed.None? ==>
                forall j <- jobs | j !in locked ::
                  jobs[j].status.Terminal() ||
                  (jobs[j].status.Running? && (jobs[j].lockedUntil.None? || jobs[j].lockedUntil.value >= now))
    {
      var candidates := set j | j in jobs && j !in locked && Claimable(jobs[j], now);
      if candidates == {} {
        assert forall j <- jobs | Claimable(jobs[j], now) && j !in locked :: j in candidates;
        return None;
      }
      OldestExists(jobs, candidates);
      var j :| j in candidates && forall k <- candidates :: jobs[j].createdAt <= jobs[k].createdAt;
      var row := jobs[j];
      row := row.(
        status := Running,
        lockGeneration := row.lockGeneration + 1,
        lockedBy := Some(workerId),
        lockedUntil := Some(now + lease),
        attempt := row.attempt + 1);
      assert forall k <- jobs | k !in locked && Claimable(jobs[k], now) :: k in candidates;
      jobs := jobs[j := row];
      claimed := Some((j, row));
    }

    method HeartbeatJob(t: Token, lease: int) returns (renewed: bool)
      modifies this`jobs
      ensures renewed <==> Holds(old(jobs), t)
      ensures jobs == Fenced(old(jobs), t, Beat(now + lease))
      ensures OthersKept(old(jobs), jobs, t.job) && (!renewed ==> jobs == old(jobs))
      ensures renewed ==> SameJob(old(jobs)[t.job], jobs[t.job])
      ensures renewed ==>
                var row, row' := old(jobs)[t.job], jobs[t.job];
                && SameBlobs(row, row') && row'.lockedUntil == Some(now + lease)
                && row'.status.Running? && row'.lockedBy == Some(t.worker) && row'.lastError == row.lastError
    {
      renewed := t.job in jobs && Owned(jobs[t.job], t);
      if renewed {
        jobs := jobs[t.job := jobs[t.job].(lockedUntil := Some(now + lease))];
      }
    }

    /** False is the "lost ownership or job not running" error, here and in the next three. */
    method CompleteJob(t: Token, result: Blob) returns (done: bool)
      modifies this`jobs
      ensures done <==> Holds(old(jobs), t)
      ensures jobs == Fenced(old(jobs), t, Complete(result))
      ensures OthersKept(old(jobs), jobs, t.job) && (!done ==> jobs == old(jobs))
      ensures done ==> SameJob(old(jobs)[t.job], jobs[t.job])
      ensures done ==>
                var row, row' := old(jobs)[t.job], jobs[t.job];
                && row'.status.Completed? && Unlocked(row') && row'.lastError == row.lastError
                && row'.resultBlob == Some(result)
                && row'.contextBlob == row.contextBlob && row'.promptVersion == row.promptVersion
    {
      done := t.job in jobs && Owned(jobs[t.job], t);
      if done {
        jobs := jobs[t.job := jobs[t.job].(
          status := Completed,
          resultBlob := Some(result),
          lockedBy := None,
          lockedUntil := None)];
      }
    }

    method FailJob(t: Token, message: string) returns (done: bool)
      modifies this`jobs
      ensures done <==> Holds(old(jobs), t)
      ensures jobs == Fenced(old(jobs), t, Fail(message))
      ensures OthersKept(old(jobs), jobs, t.job) && (!done ==> jobs == old(jobs))
      ensures done ==> SameJob(old(jobs)[t.job], jobs[t.job])
      ensures done ==>
                var row, row' := old(jobs)[t.job], jobs[t.job];
                && row'.status.Failed? && Unlocked(row') && row'.lastError == Some(message) && SameBlobs(row, row')
    {
      done := t.job in jobs && Owned(jobs[t.job], t);
      if done {
        jobs := jobs[t.job := jobs[t.job].(
          status := Failed,
          lastError := Some(message),
          lockedBy := None,
          lockedUntil := None)];
      }
    }

    method UpdateJobContext(t: Token, context: Blob) returns (done: bool)
      modifies this`jobs
      ensures done <==> Holds(old(jobs), t)
      ensures jobs == Fenced(old(jobs), t, SaveContext(context))
      ensures OthersKept(old(jobs), jobs, t.job) && (!done ==> jobs == old(jobs))
      ensures done ==> SameJob(old(jobs)[t.job], jobs[t.job])
      ensures done ==>
                var row, row' := old(jobs)[t.job], jobs[t.job];
                && SameLock(row, row') && row'.contextBlob == context
                && row'.resultBlob == row.resultBlob && row'.promptVersion == row.promptVersion
    {
      done := t.job in jobs && Owned(jobs[t.job], t);
      if done {
        jobs := jobs[t.job := jobs[t.job].(contextBlob := context)];
      }
    }

    method UpdateJobResult(t: Token, result: Blob, promptVersion: string) returns (done: bool)
      modifies this`jobs
      ensures done <==> Holds(old(jobs), t)
      ensures jobs == Fenced(old(jobs), t, SaveResult(result, promptVersion))
      ensures OthersKept(old(jobs), jobs, t.job) && (!done ==> jobs == old(jobs))
      ensures done ==> SameJob(old(jobs)[t.job], jobs[t.job])
      ensures done ==>
                var row, row' := old(jobs)[t.job], jobs[t.job];
                && SameLock(row, row') && row'.contextBlob == row.contextBlob
                && row'.resultBlob == Some(result) && row'.promptVersion == Some(promptVersion)
    {
      done := t.job in jobs && Owned(jobs[t.job], t);
      if done {
        jobs := jobs[t.job := jobs[t.job].(resultBlob := Some(result), promptVersion := Some(promptVersion))];
      }
    }

    /** False is ErrPublicationExists. */
    method BeginPublication(j: JobId, account: Option<nat>, kind: PublisherKind) returns (begun: bool)
      modifies this`publications
      ensures begun <==> j !in old(publications)
      ensures publications == Begin(old(publications), j, account, kind)
      ensures forall k <- old(publications) :: k in publications && publications[k] == old(publications)[k]
      ensures publications.Keys == old(publications).Keys + {j}
      ensures j in publications && (begun ==> publications[j] == Publication(account, kind, PendingGithub, None))
    {
      begun := j !in publications;
      if begun {
        publications := publications[j := Publication(account, kind, PendingGithub, None)];
      }
    }

    method FinalizePublication(j: JobId, reviewId: Option<int>, dryRun: bool)
      modifies this`publications
      ensures publications == Finalize(old(publications), j, if dryRun then None else reviewId)
      ensures OthersKept(old(publications), publications, j)
      ensures j in publications ==>
                var pub, pub' := old(publications)[j], publications[j];
                && pub'.state.Published? && pub'.account == pub.account && pub'.kind == pub.kind
                && pub'.reviewId == (if dryRun then None else reviewId)
    {
      if j in publications {
        if dryRun {
          publications := publications[j := publications[j].(state := Published, reviewId := None)];
        } else {
          publications := publications[j := publications[j].(state := Published, reviewId := reviewId)];
        }
      }
    }

    method FailPublicationRow(j: JobId)
      modifies this`publications
      ensures publications == FailPublication(old(publications), j)
      ensures OthersKept(old(publications), publications, j)
      ensures j in publications ==>
                var pub, pub' := old(publications)[j], publications[j];
                && pub'.state.PublicationFailed? && pub'.account == pub.account && pub'.kind == pub.kind
                && pub'.reviewId == pub.reviewId
    {
      if j in publications {
        publications := publications[j := publications[j].(state := PublicationFailed)];
      }
    }

    method GetPublication(j: JobId) returns (row: Option<Publication>)
      ensures row.Some? <==> j in publications
      ensures row.Some? ==> row.value == publications[j]
    {
      if j in publications {
        return Some(publications[j]);
      }
      return None;
    }
  }

  /** ORDER BY created_at LIMIT 1 finds a row whenever there is one. */
  lemma {:induction false} OldestExists(jobs: map<JobId, Job>, ids: set<JobId>)
    requires ids != {} && ids <= jobs.Keys
    ensures exists j <- ids :: forall k <- ids :: jobs[j].createdAt <= jobs[k].createdAt
    decreases ids
  {
    var x :| x in ids;
    if ids == {x} {
    } else {
      OldestExists(jobs, ids - {x});
      var y :| y in ids - {x} && forall k <- ids - {x} :: jobs[y].createdAt <= jobs[k].createdAt;
      var best := if jobs[x].createdAt <= jobs[y].createdAt then x else y;
      assert forall k <- ids :: k == x || k in ids - {x};
      assert best in ids && forall k <- ids :: jobs[best].createdAt <= jobs[k].createdAt;
    }
  }
}
