/** enqueue.go in its own form, proved against the program in Enqueuer the way WorkerCode is against
    Worker; and matchReviewer's search, proved against its specification. */
module EnqueuerCode {
  import opened Domain
  import opened Enqueuer

  datatype Pull = Pull(number: int, state: string, draft: bool, headSha: string, baseSha: string, assignees: seq<string>)

  /** A parsed webhook; `raw` is its serialisation. */
  datatype Payload = Payload(
    action: string,
    pull: Option<Pull>,
    issue: Option<IssuePayload>,
    comment: Option<string>,
    repo: Option<string>,
    installation: Option<Account>,
    raw: Blob)

  /** The whitelist, strings.ToLower, and whether a comment mentions a login. */
  datatype Config = Config(logins: seq<string>, fold: string -> string, mentions: (string, string) -> bool)

  predicate Matches(c: Config, login: string, assignees: seq<string>, comment: string) {
    || (exists a <- assignees :: c.fold(a) == c.fold(login))
    || (comment != "" && c.mentions(login, comment))
  }

  function FirstMatch(c: Config, logins: seq<string>, assignees: seq<string>, comment: string): Option<string> {
    if logins == [] then None
    else if Matches(c, logins[0], assignees, comment) then Some(logins[0])
    else FirstMatch(c, logins[1..], assignees, comment)
  }

  /** The first login of the whitelist that is assigned or mentioned: the order of the whitelist
      decides, not that of the assignees. */
  lemma {:induction false} FirstMatchIsFirst(c: Config, logins: seq<string>, assignees: seq<string>, comment: string)
    ensures FirstMatch(c, logins, assignees, comment).None? <==>
            forall i | 0 <= i < |logins| :: !Matches(c, logins[i], assignees, comment)
    ensures FirstMatch(c, logins, assignees, comment).Some? ==>
              exists i | 0 <= i < |logins| ::
                && logins[i] == FirstMatch(c, logins, assignees, comment).value
                && Matches(c, logins[i], assignees, comment)
                && forall k | 0 <= k < i :: !Matches(c, logins[k], assignees, comment)
  {
    if logins != [] {
      var rest := logins[1..];
      FirstMatchIsFirst(c, rest, assignees, comment);
      if Matches(c, logins[0], assignees, comment) {
      } else if FirstMatch(c, rest, assignees, comment).Some? {
        var i :| 0 <= i < |rest| && rest[i] == FirstMatch(c, rest, assignees, comment).value &&
                 Matches(c, rest[i], assignees, comment) &&
                 forall k | 0 <= k < i :: !Matches(c, rest[k], assignees, comment);
        forall k | 0 <= k < i + 1 ensures !Matches(c, logins[k], assignees, comment) {
          if k > 0 { assert logins[k] == rest[k - 1]; }
        }
        assert logins[i + 1] == rest[i];
      } else {
        forall k | 0 <= k < |logins| ensures !Matches(c, logins[k], assignees, comment) {
          if k > 0 { assert logins[k] == rest[k - 1]; }
        }
      }
    }
  }

  method MatchReviewer(c: Config, assignees: seq<string>, comment: string) returns (login: string, matched: bool)
    ensures (if matched then Some(login) else None) == FirstMatch(c, c.logins, assignees, comment)
    ensures !matched ==> login == ""
  {
    for i := 0 to |c.logins|
      invariant FirstMatch(c, c.logins[i..], assignees, comment) == FirstMatch(c, c.logins, assignees, comment)
    {
      var wanted := c.fold(c.logins[i]);
      assert c.logins[i..][0] == c.logins[i] && c.logins[i..][1..] == c.logins[i + 1..];
      for k := 0 to |assignees|
        invariant forall a <- assignees[..k] :: c.fold(a) != wanted
      {
        if c.fold(assignees[k]) == wanted {
          assert assignees[k] in assignees;
          return c.logins[i], true;
        }
      }
      assert assignees[..|assignees|] == assignees;
      if comment != "" {
        if c.mentions(c.logins[i], comment) {
          return c.logins[i], true;
        }
      }
    }
    return "", false;
  }

  /** What the program in Enqueuer sees of a webhook. */
  function Seen(c: Config, eventType: string, w: Payload, at: Time): Event {
    if eventType == "ping" then Ping
    else if eventType == "installation" then InstallationEvent(w.installation, w.action, at)
    else if eventType == "pull_request" then
      PullRequestEvent(
        w.installation, w.repo,
        if w.pull.Some? then Some(SeenPull(c, w.pull.value)) else None,
        w.action, w.raw)
    else if eventType == "issue_comment" then
      CommentEvent(
        w.installation, w.repo, w.issue,
        if w.comment.Some? then Some(FirstMatch(c, c.logins, [], w.comment.value)) else None)
    else OtherEvent
  }

  function SeenPull(c: Config, p: Pull): PrPayload {
    PrPayload(p.number, p.state, p.draft, p.headSha, p.baseSha, FirstMatch(c, c.logins, p.assignees, ""))
  }

  /** One more question of the program, answered. */
  ghost predicate Turn(h: Handler, q: Question, a: Answer, next: Handler) {
    WellFormed(h) && q == Ask(h) && Fits(Ask(h), a) && next == Resume(h, a)
  }

  /** The program goes along this path, asking these questions and getting these answers. */
  ghost predicate Conversation(path: seq<Handler>, asked: seq<Question>, answered: seq<Answer>) {
    && |path| == |answered| + 1
    && |asked| == |answered|
    && forall i {:trigger path[i], answered[i]} | 0 <= i < |answered| :: Turn(path[i], asked[i], answered[i], path[i + 1])
  }

  lemma GoesOn(path: seq<Handler>, asked: seq<Question>, answered: seq<Answer>, q: Question, a: Answer, at: Handler)
    requires Conversation(path, asked, answered) && Turn(path[|answered|], q, a, at)
    ensures Conversation(path + [at], asked + [q], answered + [a])
  {
    var path', asked', answered' := path + [at], asked + [q], answered + [a];
    forall i | 0 <= i < |answered'| ensures Turn(path'[i], asked'[i], answered'[i], path'[i + 1]) {
      if i < |answered| { assert Turn(path[i], asked[i], answered[i], path[i + 1]); }
    }
  }

  class Session {
    ghost var path: seq<Handler>
    ghost var at: Handler
    const world: nat -> Answer
    var asked: seq<Question>
    var answered: seq<Answer>

    ghost predicate Valid()
      reads this
    {
      && Conversation(path, asked, answered)
      && path[|answered|] == at
      && WellFormed(at)
    }

    constructor (ghost h: Handler, w: nat -> Answer)
      requires WellFormed(h)
      ensures Valid() && at == h && path == [h] && answered == []
    {
      path := [h];
      at := h;
      world := w;
      asked := [];
      answered := [];
    }

    method Call(q: Question) returns (a: Answer)
      requires Valid() && !at.Idle? && q == Ask(at)
      modifies this
      ensures Valid() && Fits(q, a) && at == Resume(old(at), a)
      ensures asked == old(asked) + [q] && answered == old(answered) + [a] && path == old(path) + [at]
    {
      a := world(|asked|);
      if !Fits(q, a) {
        a := Trouble;
      }
      GoesOn(path, asked, answered, q, a, Resume(at, a));
      asked := asked + [q];
      answered := answered + [a];
      at := Resume(at, a);
      path := path + [at];
    }
  }

  method HandleInstallationEvent(s: Session, w: Payload, at: Time) returns (d: Decision)
    requires s.Valid() && s.at == Start(InstallationEvent(w.installation, w.action, at))
    modifies s
    ensures s.Valid() && s.path[0] == old(s.path[0]) && s.at == Idle(d)
    ensures w.installation.None? ==> d == Malformed && s.asked == old(s.asked)
    ensures w.installation.Some? ==>
              var i := w.installation.value;
              && s.asked == old(s.asked) + [UpsertInstallation(i.id, i.login, i.kind,
                   if w.action == "suspend" || w.action == "deleted" then Some(at) else None)]
              && |s.answered| == |old(s.answered)| + 1
              && d == if s.answered[|old(s.answered)|].Trouble? then Broken else Processed
  {
    if w.installation.None? {
      return Malformed;
    }
    var suspendedAt := None;
    if w.action == "suspend" || w.action == "deleted" {
      suspendedAt := Some(at);
    }
    var i := w.installation.value;
    var a := s.Call(UpsertInstallation(i.id, i.login, i.kind, suspendedAt));
    if a.Trouble? {
      return Broken;
    }
    return Processed;
  }

  /** The row is the one that was found, or, where none was, the one that was then written. */
  ghost predicate Obtained(before: seq<Answer>, after: seq<Answer>, row: Installation) {
    var n := |before|;
    && n < |after|
    && (after[n] == Found(Some(row)) || (after[n] == Found(None) && n + 1 < |after| && after[n + 1] == Upserted(row)))
  }

  /** None is an error. */
  method EnsureInstallation(s: Session, i: Account, ghost e: Event) returns (row: Option<Installation>)
    requires s.Valid() && s.at == Looking(e) && NeedsInstallation(e) && e.installation == Some(i)
    modifies s
    ensures s.Valid() && s.path[0] == old(s.path[0])
    ensures row.Some? ==> s.at == Route(e, row.value)
    ensures row.None? ==> s.at == Idle(Broken)
    ensures row.Some? ==> Obtained(old(s.answered), s.answered, row.value)
    ensures row.None? ==> Trouble in s.answered
    ensures old(s.asked) + [LookInstallation(i.id)] <= s.asked
  {
    var a := s.Call(LookInstallation(i.id));
    if a.Trouble? {
      return None;
    }
    if a.installation.Some? {
      return a.installation;
    }
    var login, kind := "unknown-stub", "Organization";
    if i.login != "" {
      login := i.login;
      kind := i.kind;
    }
    a := s.Call(UpsertInstallation(i.id, login, kind, None));
    if a.Trouble? {
      return None;
    }
    return Some(a.row);
  }

  /** Supersede, look the account up, create. */
  method PlaceOrder(s: Session, o: Order) returns (d: Decision)
    requires s.Valid() && s.at == Superseding(o)
    modifies s
    ensures s.Valid() && s.path[0] == old(s.path[0]) && s.at == Idle(d)
    ensures d == Enqueued || d == EnqueuedNoop || d == Broken
    ensures old(s.answered) <= s.answered
    ensures d == Enqueued || d == EnqueuedNoop ==>
              var n := |old(s.answered)|;
              && |s.answered| == n + 3 && s.answered[n + 1].AccountId?
              && s.answered[n + 2] == (if d == Enqueued then Ok else KeyExists)
              && s.asked == old(s.asked) + [
                   CancelJobs(o.pr, Some(o.headSha)), LookAccount(o.login),
                   CreateJob(Job(o.pr, o.headSha, o.baseSha, s.answered[n + 1].account, o.login, Pending, 0, None, None, 0,
                                 None, o.raw, None, None, 0))]
    ensures d == Broken ==> Trouble in s.answered
  {
    var a := s.Call(CancelJobs(o.pr, Some(o.headSha)));
    if a.Trouble? {
      return Broken;
    }
    a := s.Call(LookAccount(o.login));
    if a.Trouble? {
      return Broken;
    }
    var account: Option<nat> := None;
    if a.account.Some? {
      account := Some(a.account.value);
    }
    var job := Job(o.pr, o.headSha, o.baseSha, account, o.login, Pending, 0, None, None, 0, None, o.raw, None, None, 0);
    a := s.Call(CreateJob(job));
    if a.Trouble? {
      return Broken;
    }
    if a.KeyExists? {
      return EnqueuedNoop;
    }
    return Enqueued;
  }

  /** What becomes of a pull_request event with all its parts, once the installation's row is at hand. */
  ghost predicate Decides(c: Config, w: Payload, row: Installation, d: Decision)
    requires w.pull.Some?
  {
    var p := w.pull.value;
    var closing := w.action == "closed" || p.state == "closed" || w.action == "converted_to_draft";
    var reviewable :=
      || w.action == "opened" || w.action == "reopened" || w.action == "synchronize"
      || w.action == "ready_for_review" || w.action == "assigned";
    var draft := p.draft && w.action != "ready_for_review";
    var matched := exists i | 0 <= i < |c.logins| :: Matches(c, c.logins[i], p.assignees, "");
    && (d == CancelledOpen <==> closing)
    && (d == SkippedSuspended <==> !closing && row.suspendedAt.Some?)
    && (d == Ignored <==> !closing && row.suspendedAt.None? && !reviewable)
    && (d == Skipped <==> !closing && row.suspendedAt.None? && reviewable && (draft || !matched))
    && (d == Enqueued || d == EnqueuedNoop <==> !closing && row.suspendedAt.None? && reviewable && !draft && matched)
  }

  /** `row` is the installation's row that the handler has gone by. */
  method HandlePullRequestEvent(s: Session, c: Config, w: Payload) returns (d: Decision, ghost row: Option<Installation>)
    requires s.Valid() && s.at == Start(Seen(c, "pull_request", w, 0))
    modifies s
    ensures s.Valid() && s.path[0] == old(s.path[0]) && s.at == Idle(d)
    ensures w.installation.None? || w.repo.None? || w.pull.None? ==> d == Malformed && s.asked == old(s.asked)
    ensures w.installation.Some? && w.repo.Some? && w.pull.Some? && d != Broken ==>
              row.Some? && Obtained(old(s.answered), s.answered, row.value) && Decides(c, w, row.value, d)
    ensures d == Broken ==> Trouble in s.answered
  {
    row := None;
    if w.installation.None? || w.repo.None? || w.pull.None? {
      return Malformed, row;
    }
    ghost var e := Seen(c, "pull_request", w, 0);
    var found := EnsureInstallation(s, w.installation.value, e);
    row := found;
    if found.None? {
      return Broken, None;
    }
    var inst, p := found.value, w.pull.value;
    var pr := PullRequest(inst.id, w.repo.value, p.number);
    var isClosed := w.action == "closed" || p.state == "closed";
    var isConvertedToDraft := w.action == "converted_to_draft";
    if isClosed || isConvertedToDraft {
      var a := s.Call(CancelJobs(pr, None));
      if a.Trouble? {
        return Broken, row;
      }
      return CancelledOpen, row;
    }
    if inst.suspendedAt.Some? {
      return SkippedSuspended, row;
    }
    if w.action !in ["opened", "reopened", "synchronize", "ready_for_review", "assigned"] {
      return Ignored, row;
    }
    if p.draft && w.action != "ready_for_review" {
      return Skipped, row;
    }
    var login, matched := MatchReviewer(c, p.assignees, "");
    FirstMatchIsFirst(c, c.logins, p.assignees, "");
    if !matched {
      return Skipped, row;
    }
    d := PlaceOrder(s, Order(w.installation.value.id, pr, p.headSha, p.baseSha, None, login, w.raw));
  }

  method HandleIssueCommentEvent(s: Session, c: Config, w: Payload) returns (d: Decision)
    requires s.Valid() && s.at == Start(Seen(c, "issue_comment", w, 0))
    modifies s
    ensures s.Valid() && s.path[0] == old(s.path[0]) && s.at == Idle(d)
    ensures w.installation.None? || w.repo.None? || w.issue.None? || w.comment.None? ==> d == Malformed && s.asked == old(s.asked)
    ensures w.installation.Some? && w.repo.Some? && w.issue.Some? && w.comment.Some? ==>
              && (!w.issue.value.onPullRequest <==> d == Ignored)
              && (d == Broken ==> Trouble in s.answered)
              && (w.issue.value.onPullRequest && d != Broken ==>
                exists row ::
                  && Obtained(old(s.answered), s.answered, row)
                  && (d == SkippedSuspended <==> row.suspendedAt.Some?)
                  && (d == SkippedNoSha <==>
                    row.suspendedAt.None? && exists i | 0 <= i < |c.logins| :: Matches(c, c.logins[i], [], w.comment.value))
                  && (d == SkippedSuspended || d == SkippedNoSha || d == Skipped))
  {
    if w.installation.None? || w.repo.None? || w.issue.None? || w.comment.None? {
      return Malformed;
    }
    if !w.issue.value.onPullRequest {
      return Ignored;
    }
    var row := EnsureInstallation(s, w.installation.value, Seen(c, "issue_comment", w, 0));
    if row.None? {
      return Broken;
    }
    assert Obtained(old(s.answered), s.answered, row.value);
    if row.value.suspendedAt.Some? {
      return SkippedSuspended;
    }
    var _, matched := MatchReviewer(c, [], w.comment.value);
    FirstMatchIsFirst(c, c.logins, [], w.comment.value);
    assert Obtained(old(s.answered), s.answered, row.value);
    if !matched {
      return Skipped;
    }
    return SkippedNoSha;
  }

  /** Every webhook is handled as the program in Enqueuer says: the same questions, for all answers,
      and the decision it ends with. */
  method HandleEvent(s: Session, c: Config, eventType: string, w: Payload, at: Time) returns (d: Decision)
    requires s.Valid() && s.at == Start(Seen(c, eventType, w, at)) && s.answered == []
    modifies s
    ensures Conversation(s.path, s.asked, s.answered)
    ensures s.path[0] == Start(Seen(c, eventType, w, at)) && s.path[|s.answered|] == Idle(d)
    ensures eventType !in ["installation", "pull_request", "issue_comment"] ==> d == Ignored && s.asked == []
    ensures eventType == "installation" && w.installation.Some? ==> d == Processed || d == Broken
    ensures eventType == "pull_request" && w.installation.Some? && w.repo.Some? && w.pull.Some? && d != Broken ==>
              exists row :: Obtained([], s.answered, row) && Decides(c, w, row, d)
    ensures eventType == "issue_comment" ==>
              d == Malformed || d == Ignored || d == Broken || d == SkippedSuspended || d == SkippedNoSha || d == Skipped
  {
    if eventType == "ping" {
      return Ignored;
    } else if eventType == "installation" {
      d := HandleInstallationEvent(s, w, at);
    } else if eventType == "pull_request" {
      ghost var row;
      d, row := HandlePullRequestEvent(s, c, w);
    } else if eventType == "issue_comment" {
      d := HandleIssueCommentEvent(s, c, w);
    } else {
      return Ignored;
    }
  }
}
