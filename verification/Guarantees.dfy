/** What the publication row guarantees about the review on GitHub, and what it does not: for every row
    that can occur, either the guarantee is proved of all states that carry the row, or there is a state
    that carries it and breaks the promise. */
module Guarantees {
  import opened Domain
  import opened Statements
  import opened System
  import opened Worker
  import opened Reachability
  import opened PublicationTheorems
  import opened Progress
  import opened SampleRuns
  import opened PublicationInvariants
  import QueueTheorems

  /** The job was completed for real and its publication is this row. */
  ghost predicate Carries(s: State, j: JobId, pub: Publication) {
    CompletedForReal(s, j) && j in s.tables.publications && s.tables.publications[j] == pub
  }

  /** A process that publishes for real is about to read this row. */
  ghost predicate Reads(s: State, id: ProcId, pub: Publication) {
    && Reachable(s)
    && id in s.procs && !s.procs[id].dryRun && s.procs[id].pc.Reading?
    && s.procs[id].job in s.tables.publications && s.tables.publications[s.procs[id].job] == pub
  }

  predicate PublishedWithId(pub: Publication) {
    pub.state.Published? && pub.reviewId.Some?
  }

  lemma PublishedHasLanded(s: State, j: JobId)
    requires Reachable(s) && j in s.tables.publications && PublishedWithId(s.tables.publications[j])
    ensures Landed(s, j)
  {
    PublishedMeans(s, j);
    assert Of(s.log.posts, j)[0] in Of(s.log.posts, j);
  }

  /** A pending row that the second process finds before anything has been posted. */
  lemma FirstLeavesPending(account: Option<nat>, kind: PublisherKind) returns (s: State, j: JobId)
    requires Publishable(account, kind) || (account.None? && kind.User?)
    ensures Sample(s, j) && 2 !in s.procs && s.log.posts == map[]
    ensures s.tables.publications == map[j := Publication(account, kind, PendingGithub, None)]
    ensures Publishable(account, kind) ==> 1 in s.procs && s.procs[1].pc == Posting && s.procs[1].job == j
  {
    var q;
    q, j := OneJobQueued();
    if Publishable(account, kind) {
      s := FirstIsPosting(q, j, account, kind);
    } else {
      s := FirstWinsDry(q, j);
    }
    assert 2 !in s.procs - {1};
  }

  /** The second process has completed the job over a pending row; the first may still be posting. */
  lemma CompletedPending(account: Option<nat>, kind: PublisherKind) returns (s: State, j: JobId)
    requires Publishable(account, kind) || (account.None? && kind.User?)
    ensures Carries(s, j, Publication(account, kind, PendingGithub, None)) && Of(s.log.posts, j) == []
    ensures Publishable(account, kind) ==> 1 in s.procs && s.procs[1].pc == Posting && s.procs[1].job == j
    ensures Closer(s, j) == 2
  {
    var f;
    f, j := FirstLeavesPending(account, kind);
    var m := SecondIsReading(f, j);
    s := SecondCompletes(m, j);
    if Publishable(account, kind) {
      assert 1 in m.procs - {2} && (m.procs - {2})[1] == f.procs[1];
      assert 1 in s.procs - {2} && (s.procs - {2})[1] == f.procs[1];
    }
  }

  /** ... and then its post is refused. */
  lemma CompletedFailed(account: Option<nat>, kind: PublisherKind) returns (s: State, j: JobId)
    requires Publishable(account, kind)
    ensures Carries(s, j, Publication(account, kind, PublicationFailed, None)) && !Landed(s, j)
  {
    var m;
    m, j := CompletedPending(account, kind);
    s := PostIsRefused(m, 1);
    assert Of(s.log.posts, j) == [Post(1, None, false, OrEmpty(m.procs[1].result))];
  }

  lemma CompletedAfterDryRun() returns (s: State, j: JobId)
    ensures Carries(s, j, Publication(None, User, Published, None)) && Of(s.log.posts, j) == []
  {
    var q;
    q, j := OneJobQueued();
    var f := FirstIsDoneDry(q, j);
    assert 2 !in f.procs - {1};
    var m := SecondIsReading(f, j);
    s := SecondCompletes(m, j);
  }

  /** One process posts and completes. */
  lemma CompletedAndPosted(account: Option<nat>, kind: PublisherKind, reviewId: int) returns (s: State, j: JobId)
    requires Publishable(account, kind)
    ensures Carries(s, j, Publication(account, kind, Published, Some(reviewId))) && WonByCloser(s, j)
  {
    var q;
    q, j := OneJobQueued();
    var m := FirstHasPublished(q, j, account, kind, reviewId);
    s := EndsForReal(m, 1);
    WinnerIsPoster(s, j);
  }

  /** One process posts "x", another stores "y". */
  lemma CompletedOtherwise(account: Option<nat>, kind: PublisherKind, reviewId: int) returns (s: State, j: JobId)
    requires Publishable(account, kind)
    ensures Carries(s, j, Publication(account, kind, Published, Some(reviewId)))
    ensures !WonByCloser(s, j) && !StoredIsPosted(s, j)
  {
    var q;
    q, j := OneJobQueued();
    var f := FirstHasPublished(q, j, account, kind, reviewId);
    assert 2 !in f.procs - {1};
    var m := SecondIsReading(f, j);
    s := SecondCompletes(m, j);
    var id := QueueTheorems.CompletedIsLastClaimants(s, j);
    WinnerIsPoster(s, j);
    assert Of(s.log.posts, j) == [Post(1, Some(reviewId), true, "x")];
  }

  lemma WinnerIsPoster(s: State, j: JobId)
    requires Reachable(s) && Of(s.log.posts, j) != []
    ensures j in s.log.winners && s.log.winners[j] == Of(s.log.posts, j)[0].proc
  {
    PostedAtMostOnce(s, j);
    assert Of(s.log.posts, j)[0] in Of(s.log.posts, j);
  }

  /** The rows that a job completed for real can carry are exactly the possible ones. */
  lemma RowsOfCompletedExactly(pub: Publication)
    ensures (exists s, j :: Carries(s, j, pub)) <==> Possible(pub)
  {
    if Possible(pub) {
      var s, j := SomeCompleted(pub);
    }
    forall s, j | Carries(s, j, pub) ensures Possible(pub) {
      RowsArePossible(s, j);
    }
  }

  lemma SomeCompleted(pub: Publication) returns (s: State, j: JobId)
    requires Possible(pub)
    ensures Carries(s, j, pub) && (!PublishedWithId(pub) ==> !Landed(s, j))
  {
    match pub.state
    case PendingGithub => s, j := CompletedPending(pub.account, pub.kind);
    case PublicationFailed => s, j := CompletedFailed(pub.account, pub.kind);
    case Published =>
      if pub.reviewId.Some? {
        s, j := CompletedAndPosted(pub.account, pub.kind, pub.reviewId.value);
      } else {
        s, j := CompletedAfterDryRun();
      }
  }

  /** "A job completed for real has had its review posted": of all the states with a given publication
      row it holds if and only if the row is published with a review id. */
  lemma PostGuaranteedExactly(pub: Publication)
    requires Possible(pub)
    ensures (forall s, j | Carries(s, j, pub) :: Landed(s, j)) <==> PublishedWithId(pub)
  {
    if PublishedWithId(pub) {
      forall s, j | Carries(s, j, pub) ensures Landed(s, j) {
        PublishedHasLanded(s, j);
      }
    } else {
      var s, j := SomeCompleted(pub);
      assert Carries(s, j, pub) && !Landed(s, j);
    }
  }

  /** The completing process made the publication row itself, that is, it found none. */
  ghost predicate WonByCloser(s: State, j: JobId)
    requires CompletedForReal(s, j)
  {
    j in s.log.winners && s.log.winners[j] == Closer(s, j)
  }

  /** "What is stored is what is posted": even of the states whose row is published with a review id it
      holds if and only if the completing process found no publication row. */
  lemma StoredGuaranteedExactly(pub: Publication, won: bool)
    requires Possible(pub) && PublishedWithId(pub)
    ensures (forall s, j | Carries(s, j, pub) && WonByCloser(s, j) == won :: StoredIsPosted(s, j)) <==> won
  {
    if won {
      forall s, j | Carries(s, j, pub) && WonByCloser(s, j) ensures StoredIsPosted(s, j) {
        CompletedIsPostedExactly(s, j);
      }
    } else {
      var s, j := CompletedOtherwise(pub.account, pub.kind, pub.reviewId.value);
      assert Carries(s, j, pub) && !WonByCloser(s, j) && !StoredIsPosted(s, j);
    }
  }

  /** For a process that publishes for real, Publish returns nil in exactly two ways: it has recorded its
      own review, or it has read a row that has not failed. */
  lemma NilReturnsExactly(s: State, id: ProcId, fault: Fault, answer: Reply)
    requires Reachable(s) && id in s.procs && !s.procs[id].dryRun && Enabled(s.procs[id], fault, answer)
    ensures var p, s' := s.procs[id], Apply(s, Work(id, fault, answer));
            (p.pc != PUBLISHED_NIL && s'.procs[id].pc == PUBLISHED_NIL) <==>
            fault.Delivered? && (p.pc.Finalizing? || (p.pc.Reading? && Acceptable(s, p.job)))
  {
    LocalFacts(s, id);
    NilReturns(s, id, fault, answer);
  }

  lemma NilReturns(s: State, id: ProcId, fault: Fault, answer: Reply)
    requires id in s.procs && LocalOk(s.procs[id]) && !s.procs[id].dryRun && Enabled(s.procs[id], fault, answer)
    ensures var p, r := s.procs[id], ReplyTo(s.tables, s.procs[id], fault, answer);
            (p.pc != PUBLISHED_NIL && Next(p, r) == PUBLISHED_NIL) <==>
            fault.Delivered? && (p.pc.Finalizing? || (p.pc.Reading? && Acceptable(s, p.job)))
  {
    match s.procs[id].pc
    case CtxCheck(stage) =>
    case DbCheck(stage) => match stage { case Detective => case Memory => case Critic => case Diplomat => case Final => }
    case _ =>
  }

  /** The first way vouches for the review: it is on GitHub, and it is this process's. */
  lemma FinalizingVouches(s: State, id: ProcId)
    requires Reachable(s) && id in s.procs && s.procs[id].pc.Finalizing?
    ensures var posts := Of(s.log.posts, s.procs[id].job);
            && |posts| == 1 && posts[0].landed
            && posts[0].proc == id && posts[0].reported == Some(s.procs[id].pc.reviewId)
            && s.procs[id].result == Some(posts[0].body)
    ensures Landed(s, s.procs[id].job)
  {
    FenceFacts(s, id);
    assert Of(s.log.posts, s.procs[id].job)[0] in Of(s.log.posts, s.procs[id].job);
  }

  lemma SomeReading(pub: Publication) returns (s: State, id: ProcId)
    requires Possible(pub) && !pub.state.PublicationFailed?
    ensures Reads(s, id, pub) && (!PublishedWithId(pub) ==> !Landed(s, s.procs[id].job))
  {
    var f, q, j;
    id := 2;
    if pub.state.PendingGithub? {
      f, j := FirstLeavesPending(pub.account, pub.kind);
    } else {
      q, j := OneJobQueued();
      if pub.reviewId.Some? {
        f := FirstHasPublished(q, j, pub.account, pub.kind, pub.reviewId.value);
      } else {
        f := FirstIsDoneDry(q, j);
      }
      assert 2 !in f.procs - {1};
    }
    s := SecondIsReading(f, j);
  }

  /** The second way vouches for a review if and only if the row that was read is published with a review
      id: a pending row, or that of a dry run, makes Publish return nil as well. */
  lemma NilGuaranteedExactly(pub: Publication)
    requires Possible(pub) && !pub.state.PublicationFailed?
    ensures (forall s, id | Reads(s, id, pub) :: Landed(s, s.procs[id].job)) <==> PublishedWithId(pub)
  {
    if PublishedWithId(pub) {
      forall s, id | Reads(s, id, pub) ensures Landed(s, s.procs[id].job) {
        PublishedHasLanded(s, s.procs[id].job);
      }
    } else {
      var s, id := SomeReading(pub);
      assert Reads(s, id, pub) && !Landed(s, s.procs[id].job);
    }
  }
}
