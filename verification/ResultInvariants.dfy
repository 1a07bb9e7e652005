/** What the stored blobs are: the row of a held job has what its holder has saved, and a completed
    row has what the process of its final generation computed. */
module ResultInvariants {
  import opened Domain
  import opened Statements
  import opened System
  import opened Effects
  import opened QueueInvariants
  import opened PublicationInvariants
  import Worker

  ghost predicate Saved(p: Worker.Proc, row: Job) {
    && (2 <= Level(p.pc) <= 6 ==> p.context == Some(row.contextBlob))
    && (4 <= Level(p.pc) <= 6 ==> p.result == row.resultBlob && row.promptVersion == Some(Worker.PROMPT_VERSION))
  }

  ghost predicate SavedOk(s: State, id: ProcId) {
    id in s.procs &&
    (Holds(s.tables.jobs, Worker.TokenOf(s.procs[id])) ==> Saved(s.procs[id], s.tables.jobs[s.procs[id].job]))
  }

  /** The process that closed a job made the job's last claim; what it completed is its own. */
  ghost predicate ClosedBy(s: State, j: JobId, id: ProcId)
    requires j in s.tables.jobs
  {
    var row := s.tables.jobs[j];
    && id in s.procs
    && s.procs[id].job == j
    && s.procs[id].generation == row.lockGeneration
    && s.procs[id].pc.Stopped?
    && (row.status.Completed? ==>
      && s.procs[id].published
      && s.procs[id].result == row.resultBlob
      && row.resultBlob.Some?
      && s.procs[id].context == Some(row.contextBlob)
      && row.promptVersion == Some(Worker.PROMPT_VERSION))
  }

  ghost predicate ClosedOk(s: State, j: JobId) {
    j in s.tables.jobs && (s.tables.jobs[j].status.Completed? || s.tables.jobs[j].status.Failed?) ==>
      |Of(s.log.closes, j)| == 1 && ClosedBy(s, j, Of(s.log.closes, j)[0])
  }

  ghost predicate ResultInv(s: State) {
    && (forall id <- s.procs :: SavedOk(s, id))
    && (forall j <- s.tables.jobs :: ClosedOk(s, j))
  }

  /** A process moves on, or is halted, while its row stays as it is. */
  lemma SavedWhileStill(p: Worker.Proc, q: Worker.Proc, row: Job, r: Worker.Reply)
    requires Saved(p, row) && LocalOk(p) && Worker.Fits(Worker.Ask(p), r) && q == Worker.Resume(p, r)
    requires Worker.Ask(p).Update? ==> r.Error?
    ensures Saved(q, row)
  {
    LevelAfter(p, r);
    match p.pc
    case CtxCheck(stage) =>
    case DbCheck(stage) =>
    case _ =>
  }

  /** A process's own statement takes effect; its caller may or may not learn of it. */
  lemma SavedAfterWrite(p: Worker.Proc, q: Worker.Proc, row: Job, r: Worker.Reply, w: Write)
    requires Saved(p, row) && LocalOk(p) && Worker.Fits(Worker.Ask(p), r) && q == Worker.Resume(p, r)
    requires Worker.Ask(p) == Worker.Update(w)
    ensures Updated(row, w).status.Running? ==> Saved(q, Updated(row, w))
  {
    LevelAfter(p, r);
  }

  lemma SavedOthers(s: State, s': State, e: Effect, m: Motion, id: ProcId)
    requires Tidy(s) && RowsOk(s) && ClaimsOk(s) && Moved(s, s', e) && ProcsMoved(s, s', m)
    requires e.Writing? && !e.write.Beat? ==> e.proc != id
    requires SavedOk(s, id) && !(m.Resumed? && m.proc == id)
    ensures SavedOk(s', id)
  {
    IdentityKept(s, s', m, id);
    GenerationReached(s, id);
    HeldRowKept(s, s', e, id);
  }

  lemma SavedOwnWrite(s: State, s': State, e: Effect, m: Motion)
    requires Moved(s, s', e) && ProcsMoved(s, s', m) && m.Resumed?
    requires Worker.Fits(Worker.Ask(s.procs[m.proc]), m.reply) && m.next == Worker.Resume(s.procs[m.proc], m.reply)
    requires e.Writing? && e.proc == m.proc && Worker.Ask(s.procs[m.proc]) == Worker.Update(e.write)
    requires SavedOk(s, m.proc) && LocalOk(s.procs[m.proc])
    ensures SavedOk(s', m.proc)
  {
    var p := s.procs[m.proc];
    SavedAfterWrite(p, m.next, s.tables.jobs[p.job], m.reply, e.write);
  }

  lemma SavedElsewhere(s: State, s': State, e: Effect, m: Motion)
    requires Tidy(s) && RowsOk(s) && ClaimsOk(s) && Moved(s, s', e) && ProcsMoved(s, s', m) && m.Resumed?
    requires Worker.Fits(Worker.Ask(s.procs[m.proc]), m.reply) && m.next == Worker.Resume(s.procs[m.proc], m.reply)
    requires e.Writing? && !e.write.Beat? ==> e.proc != m.proc
    requires Worker.Ask(s.procs[m.proc]).Update? ==> m.reply.Error?
    requires SavedOk(s, m.proc) && LocalOk(s.procs[m.proc])
    ensures SavedOk(s', m.proc)
  {
    var p := s.procs[m.proc];
    GenerationReached(s, m.proc);
    HeldRowKept(s, s', e, m.proc);
    if Holds(s.tables.jobs, Worker.TokenOf(p)) {
      SavedWhileStill(p, m.next, s.tables.jobs[p.job], m.reply);
    }
  }

  /** The blobs of held rows after a step. */
  lemma SavedStep(s: State, s': State, e: Effect, m: Motion)
    requires Tidy(s) && RowsOk(s) && ClaimsOk(s) && LocalsOk(s) && Stepped(s, s', e, m) && Followed(s, e, m)
    requires forall id <- s.procs :: SavedOk(s, id)
    ensures forall id <- s'.procs :: SavedOk(s', id)
  {
    forall id | id in s'.procs ensures SavedOk(s', id) {
      if m.Resumed? && m.proc == id {
        if e.Writing? && !e.write.Beat? {
          SavedOwnWrite(s, s', e, m);
        } else {
          SavedElsewhere(s, s', e, m);
        }
      } else if id in s.procs {
        SavedOthers(s, s', e, m, id);
      }
    }
  }

  /** Closed rows and the processes that closed them do not change any more. */
  lemma ClosedKept(s: State, s': State, e: Effect, m: Motion, j: JobId)
    requires Tidy(s) && Moved(s, s', e) && ProcsMoved(s, s', m)
    requires m.Resumed? ==> !s.procs[m.proc].pc.Stopped?
    requires j in s.tables.jobs && (s.tables.jobs[j].status.Completed? || s.tables.jobs[j].status.Failed?)
    requires ClosedOk(s, j)
    ensures ClosedOk(s', j)
  {
    TerminalRowKept(s, s', e, j);
    IdentityKept(s, s', m, Of(s.log.closes, j)[0]);
  }

  /** A process closes its job. */
  lemma ClosedNow(s: State, s': State, e: Effect, m: Motion)
    requires Moved(s, s', e) && ProcsMoved(s, s', m) && m.Resumed?
    requires e.Writing? && e.proc == m.proc && (e.write.Complete? || e.write.Fail?)
    requires Worker.Ask(s.procs[e.proc]) == Worker.Update(e.write)
    requires Worker.Fits(Worker.Ask(s.procs[m.proc]), m.reply) && m.next == Worker.Resume(s.procs[m.proc], m.reply)
    requires SavedOk(s, m.proc) && LocalOk(s.procs[m.proc])
    requires Of(s.log.closes, s.procs[e.proc].job) == []
    ensures ClosedOk(s', s.procs[e.proc].job)
  {
    var p := s.procs[e.proc];
    assert p.pc.Completing? || p.pc.Failing?;
    assert Of(s'.log.closes, p.job) == [e.proc];
  }

  /** A step that neither closes the job nor finds it closed leaves it open. */
  lemma StillOpen(s: State, s': State, e: Effect, j: JobId)
    requires Tidy(s) && Moved(s, s', e) && j in s.tables.jobs
    requires !s.tables.jobs[j].status.Completed? && !s.tables.jobs[j].status.Failed?
    requires e.Writing? && s.procs[e.proc].job == j ==> !e.write.Complete? && !e.write.Fail?
    ensures ClosedOk(s', j)
  {
    RowsAfter(s, s', e);
  }

  lemma ClosedStep(s: State, s': State, e: Effect, m: Motion, j: JobId)
    requires Tidy(s) && RowsOk(s) && LocalsOk(s) && Stepped(s, s', e, m) && Followed(s, e, m)
    requires forall id <- s.procs :: SavedOk(s, id)
    requires j in s.tables.jobs && ClosedOk(s, j)
    ensures ClosedOk(s', j)
  {
    if s.tables.jobs[j].status.Completed? || s.tables.jobs[j].status.Failed? {
      ClosedKept(s, s', e, m, j);
    } else if e.Writing? && s.procs[e.proc].job == j && (e.write.Complete? || e.write.Fail?) {
      assert RowOk(s.tables.jobs[j], |Of(s.log.claims, j)|, |Of(s.log.closes, j)|);
      ClosedNow(s, s', e, m);
    } else {
      StillOpen(s, s', e, j);
    }
  }

  lemma ResultInvStep(s: State, s': State, e: Effect, m: Motion)
    requires QueueInv(s) && LocalsOk(s) && ResultInv(s) && Stepped(s, s', e, m) && Followed(s, e, m)
    ensures ResultInv(s')
  {
    SavedStep(s, s', e, m);
    forall j | j in s'.tables.jobs ensures ClosedOk(s', j) {
      if j in s.tables.jobs {
        ClosedStep(s, s', e, m, j);
      } else {
        RowsAfter(s, s', e);
      }
    }
  }
}
