/** All invariants hold in every reachable state. */
module Reachability {
  import opened Domain
  import opened System
  import opened Effects
  import opened QueueInvariants
  import opened PublicationInvariants
  import opened ResultInvariants
  import opened EnqueuerInvariants

  ghost predicate Inv(s: State) {
    QueueInv(s) && PublicationInv(s) && ResultInv(s) && EnqueuerInv(s)
  }

  lemma InvInit()
    ensures Inv(Init())
  {
  }

  lemma InvStep(s: State, a: Action)
    requires Inv(s)
    ensures Inv(Apply(s, a))
  {
    EveryAction(s, a);
    ProgramFollowed(s, a);
    PublishingOfAction(s, a);
    PublishingCoupled(s, a);
    var s', e, m := Apply(s, a), EffectOf(s, a), MotionOf(s, a);
    QueueInvStep(s, s', e, m);
    PublicationInvStep(s, s', e, m, PublishingOf(s, a));
    ResultInvStep(s, s', e, m);
    EnqueuerInvStep(s, a);
  }

  lemma {:induction false} InvAlong(run: seq<Action>)
    ensures Inv(Exec(Init(), run))
  {
    if run == [] {
      InvInit();
    } else {
      var n := |run| - 1;
      InvAlong(run[..n]);
      InvStep(Exec(Init(), run[..n]), run[n]);
    }
  }

  lemma InvariantsHold(s: State)
    requires Reachable(s)
    ensures QueueInv(s) && PublicationInv(s) && ResultInv(s) && EnqueuerInv(s)
  {
    var run: seq<Action> :| Exec(Init(), run) == s;
    InvAlong(run);
  }

  lemma LeadsToItself(s: State)
    ensures Leads(s, s)
  {
    assert Exec(s, []) == s;
  }

  lemma OneMore(o: State, s: State, a: Action)
    requires Leads(o, s)
    ensures Leads(o, Apply(s, a))
  {
    var run: seq<Action> :| Exec(o, run) == s;
    assert (run + [a])[..|run|] == run;
    assert Exec(o, run + [a]) == Apply(s, a);
  }

  lemma {:induction false} StillLeads(o: State, s: State, run: seq<Action>)
    requires Leads(o, s)
    ensures Leads(o, Exec(s, run))
  {
    if run != [] {
      var n := |run| - 1;
      StillLeads(o, s, run[..n]);
      OneMore(o, Exec(s, run[..n]), run[n]);
    }
  }

  lemma StillReachable(s: State, run: seq<Action>)
    requires Reachable(s)
    ensures Reachable(Exec(s, run))
  {
    StillLeads(Init(), s, run);
  }

  lemma OneMoreUnclaimed(o: State, s: State, a: Action)
    requires LeadsUnclaimed(o, s) && !a.Claim?
    ensures LeadsUnclaimed(o, Apply(s, a))
  {
    var run: seq<Action> :| (forall b <- run :: !b.Claim?) && Exec(o, run) == s;
    assert (run + [a])[..|run|] == run;
    assert Exec(o, run + [a]) == Apply(s, a);
  }

  lemma OneMoreForReal(o: State, s: State, a: Action, j: JobId)
    requires LeadsForReal(o, s, j) && (a.Claim? && a.job == j ==> !a.dryRun)
    ensures LeadsForReal(o, Apply(s, a), j)
  {
    var run: seq<Action> :| ForReal(run, j) && Exec(o, run) == s;
    assert (run + [a])[..|run|] == run;
    assert ForReal(run + [a], j) && Exec(o, run + [a]) == Apply(s, a);
  }

  lemma UnclaimedToItself(s: State)
    ensures LeadsUnclaimed(s, s)
  {
    var run: seq<Action> := [];
    assert (forall a <- run :: !a.Claim?) && Exec(s, run) == s;
  }

  lemma ForRealToItself(s: State, j: JobId)
    ensures LeadsForReal(s, s, j)
  {
    var run: seq<Action> := [];
    assert ForReal(run, j) && Exec(s, run) == s;
  }

  /** Two runs, one after the other. */
  lemma {:induction false} ExecJoins(s: State, first: seq<Action>, second: seq<Action>)
    ensures Exec(s, first + second) == Exec(Exec(s, first), second)
  {
    if second == [] {
      assert first + second == first;
    } else {
      var n := |second| - 1;
      ExecJoins(s, first, second[..n]);
      assert (first + second)[..|first + second| - 1] == first + second[..n];
    }
  }

  lemma LeadsOn(o: State, s: State, s': State)
    requires Leads(o, s) && LeadsUnclaimed(s, s')
    ensures Leads(o, s')
  {
    var run: seq<Action> :| (forall a <- run :: !a.Claim?) && Exec(s, run) == s';
    StillLeads(o, s, run);
  }

  lemma LeadsOnForReal(o: State, s: State, s': State, j: JobId)
    requires LeadsForReal(o, s, j) && LeadsUnclaimed(s, s')
    ensures LeadsForReal(o, s', j)
  {
    var first: seq<Action> :| ForReal(first, j) && Exec(o, first) == s;
    var second: seq<Action> :| (forall a <- second :: !a.Claim?) && Exec(s, second) == s';
    ExecJoins(o, first, second);
    assert ForReal(first + second, j);
  }
}
