/** What holds of the role-switch protocol in every interleaving. */
module RoleSwitchProofs {
  import opened Common
  import opened RoleSwitch

  // ---------- mutual exclusion ----------

  // A step changes what its thread holds by the mutex it takes or gives up.
  lemma NextHolds(s: State, t: Thread, a: Action, l: Lock)
    requires Enabled(s, t, a)
    ensures Holds(NextPC(s, t, a), l) <==>
            (Takes(s, s.pc[t]) == Some(l) || (Holds(s.pc[t], l) && Drops(s.pc[t]) != Some(l)))
    ensures Takes(s, s.pc[t]) == Some(l) ==> Free(s, l)
    ensures Drops(s.pc[t]) == Some(l) ==> Holds(s.pc[t], l) && Takes(s, s.pc[t]).None?
  {}

  // It moves no other thread, except that a signal ends one blocked wait.
  lemma NextOthers(s: State, t: Thread, a: Action, u: Thread)
    requires Enabled(s, t, a) && u in s.pc && u != t
    ensures var pcs := NextPCs(s, t, a);
            && u in pcs
            && (pcs[u] == s.pc[u]
                || (s.pc[t].Signal? && s.pc[u].Blocked? && pcs[u] == Woken(s.pc[u])))
  {}

  lemma NextSelf(s: State, t: Thread, a: Action)
    requires Enabled(s, t, a)
    ensures NextPCs(s, t, a).Keys == s.pc.Keys && NextPCs(s, t, a)[t] == NextPC(s, t, a)
  {}

  // What a thread holds after the step, and who then owns what.
  lemma HoldsAfter(s: State, t: Thread, a: Action, u: Thread, l: Lock)
    requires Enabled(s, t, a) && u in s.pc
    ensures u in NextPCs(s, t, a)
    ensures Holds(NextPCs(s, t, a)[u], l) <==>
            if u == t then Takes(s, s.pc[t]) == Some(l) || (Holds(s.pc[t], l) && Drops(s.pc[t]) != Some(l))
            else Holds(s.pc[u], l)
  {
    NextSelf(s, t, a);
    if u == t {
      NextHolds(s, t, a, l);
    } else {
      NextOthers(s, t, a, u);
    }
  }

  lemma OwnerAfter(s: State, t: Thread, l: Lock)
    requires t in s.pc
    ensures NextOwner(s, t).Of(l) ==
            if Takes(s, s.pc[t]) == Some(l) then Some(t)
            else if Takes(s, s.pc[t]).None? && Drops(s.pc[t]) == Some(l) then None
            else s.owner.Of(l)
  {}

  lemma OwnershipStep(s: State, t: Thread, a: Action, u: Thread, l: Lock)
    requires LocksOk(s) && Enabled(s, t, a) && u in s.pc
    ensures u in NextPCs(s, t, a)
    ensures Holds(NextPCs(s, t, a)[u], l) <==> NextOwner(s, t).Of(l) == Some(u)
  {
    HoldsAfter(s, t, a, u, l);
    OwnerAfter(s, t, l);
    NextHolds(s, t, a, l);
    assert OwnsIfHeld(s, u, l) && OwnsIfHeld(s, t, l) && HeldByOwner(s, l);
  }

  lemma LocksStep(s: State, t: Thread, a: Action)
    requires LocksOk(s) && Enabled(s, t, a)
    ensures LocksOk(Next(s, t, a))
  {
    var s' := Next(s, t, a);
    NextSelf(s, t, a);
    forall u | u in s'.pc ensures Runs(u, s'.pc[u]) {
      RunsStep(s, t, a, u);
    }
    forall u, l | u in s'.pc ensures OwnsIfHeld(s', u, l) {
      OwnershipStep(s, t, a, u, l);
    }
    forall l ensures HeldByOwner(s', l) {
      OwnerAfter(s, t, l);
      assert HeldByOwner(s, l);
      if s'.owner.Of(l).Some? {
        OwnershipStep(s, t, a, s'.owner.Of(l).value, l);
      }
    }
  }

  lemma RunsStep(s: State, t: Thread, a: Action, u: Thread)
    requires LocksOk(s) && Enabled(s, t, a) && u in s.pc
    ensures u in NextPCs(s, t, a) && Runs(u, NextPCs(s, t, a)[u])
  {
    NextSelf(s, t, a);
    assert Runs(u, s.pc[u]);
    if u != t {
      NextOthers(s, t, a, u);
    }
  }

  // Two threads never hold the same mutex.
  lemma Exclusive(s: State, t: Thread, u: Thread, l: Lock)
    requires LocksOk(s) && t in s.pc && u in s.pc
    requires Holds(s.pc[t], l) && Holds(s.pc[u], l)
    ensures t == u
  {
    assert OwnsIfHeld(s, t, l) && OwnsIfHeld(s, u, l);
  }

  // ---------- decisions, signals and texts ----------

  lemma DecisionsStep(s: State, t: Thread, a: Action)
    requires Inv(s) && Enabled(s, t, a)
    ensures DecisionsOk(Next(s, t, a))
  {
    assert SignalOk(s, s.pc[t]);
  }

  // Statements that neither come from a mark nor set one.
  lemma UnmarkedStepSelf(s: State, t: Thread, a: Action)
    requires Enabled(s, t, a) && SignalOk(s, s.pc[t]) && !HasMark(s.pc[t]) && !s.pc[t].Write?
    ensures SignalOk(Next(s, t, a), NextPC(s, t, a))
  {}

  lemma SignalStepSelf(s: State, t: Thread, a: Action)
    requires Inv(s) && Enabled(s, t, a)
    ensures SignalOk(Next(s, t, a), NextPC(s, t, a))
  {
    assert SignalOk(s, s.pc[t]);
    if !HasMark(s.pc[t]) && !s.pc[t].Write? {
      UnmarkedStepSelf(s, t, a);
    } else {
      NextSelf(s, t, a);
    }
  }

  // Two threads inside the same critical section.
  ghost predicate Clash(s: State, t: Thread, u: Thread)
    requires t in s.pc && u in s.pc
  {
    || (Holds(s.pc[t], RoleLock) && Holds(s.pc[u], RoleLock))
    || (Holds(s.pc[t], PartnerLock) && Holds(s.pc[u], PartnerLock))
  }

  lemma NoClash(s: State, t: Thread, u: Thread)
    requires LocksOk(s) && t in s.pc && u in s.pc && t != u
    ensures !Clash(s, t, u)
  {
    if Holds(s.pc[t], RoleLock) && Holds(s.pc[u], RoleLock) {
      Exclusive(s, t, u, RoleLock);
    }
    if Holds(s.pc[t], PartnerLock) && Holds(s.pc[u], PartnerLock) {
      Exclusive(s, t, u, PartnerLock);
    }
  }

  lemma SignalStepOther(s: State, t: Thread, a: Action, u: Thread)
    requires Inv(s) && Enabled(s, t, a) && u in s.pc && u != t
    ensures u in NextPCs(s, t, a) && SignalOk(Next(s, t, a), NextPCs(s, t, a)[u])
  {
    NextOthers(s, t, a, u);
    NoClash(s, t, u);
    assert SignalOk(s, s.pc[t]) && SignalOk(s, s.pc[u]);
    if s.pc[t].Signal? {
      if a.target.Some? && s.pc[u].Blocked? {
        Exclusive(s, a.target.value, u, RoleLock);
      }
    } else if t != Worker {
      NextOthers(s, t, a, Worker);
    } else {
      NextSelf(s, t, a);
    }
  }

  lemma SubmitHoldsRole(s: State, t: Thread, a: Action)
    requires LocksOk(s) && Enabled(s, t, a) && Submits(s.pc[t], a).Some?
    ensures Holds(s.pc[t], RoleLock)
  {}

  lemma NodeAfter(s: State, t: Thread, a: Action)
    requires Enabled(s, t, a)
    ensures Next(s, t, a).node ==
            if Submits(s.pc[t], a).None? then s.node
            else s.node[Submits(s.pc[t], a).value.0 := Submits(s.pc[t], a).value.1]
  {}

  lemma KeepsTextStep(s: State, t: Thread, a: Action)
    requires Enabled(s, t, a) && TextOk(s, s.pc[t]) && KeepsText(NextPC(s, t, a))
    ensures var pc, pc' := s.pc[t], NextPC(s, t, a);
            || (pc.Write? && pc'.req == pc.req && Submits(pc, a) == Some((pc.req.port, pc.req.text)))
            || (KeepsText(pc) && pc'.req == pc.req && Submits(pc, a).None?)
  {}

  lemma ModeStep(s: State, t: Thread, a: Action)
    requires Enabled(s, t, a) && ModeOnly(s.pc[t])
    ensures ModeOnly(NextPC(s, t, a))
  {}

  lemma TextStepSelf(s: State, t: Thread, a: Action)
    requires Inv(s) && Enabled(s, t, a)
    ensures TextOk(Next(s, t, a), NextPC(s, t, a))
  {
    assert TextOk(s, s.pc[t]);
    ModeStep(s, t, a);
    NodeAfter(s, t, a);
    if KeepsText(NextPC(s, t, a)) {
      KeepsTextStep(s, t, a);
    }
  }

  lemma TextStepOther(s: State, t: Thread, a: Action, u: Thread)
    requires Inv(s) && Enabled(s, t, a) && u in s.pc && u != t
    ensures u in NextPCs(s, t, a) && TextOk(Next(s, t, a), NextPCs(s, t, a)[u])
  {
    NextOthers(s, t, a, u);
    NoClash(s, t, u);
    assert TextOk(s, s.pc[u]);
    if Submits(s.pc[t], a).Some? {
      SubmitHoldsRole(s, t, a);
    }
  }

  /** Every step keeps the invariant. */
  lemma InvStep(s: State, t: Thread, a: Action)
    requires Inv(s) && Enabled(s, t, a)
    ensures Inv(Next(s, t, a))
  {
    var s' := Next(s, t, a);
    NextSelf(s, t, a);
    LocksStep(s, t, a);
    DecisionsStep(s, t, a);
    SignalStepSelf(s, t, a);
    TextStepSelf(s, t, a);
    forall u | u in s'.pc && u != t ensures SignalOk(s', s'.pc[u]) && TextOk(s', s'.pc[u]) {
      SignalStepOther(s, t, a, u);
      TextStepOther(s, t, a, u);
    }
  }

  lemma InvInitial(threads: set<Thread>, node: map<string, string>)
    requires Worker in threads
    ensures Inv(Initial(threads, node))
  {}

  /** The invariant holds in every state of every interleaving. */
  lemma {:induction false} InvAlways(r: Run, i: nat)
    requires IsRun(r) && i < |r.states|
    ensures Inv(r.states[i])
  {
    if i == 0 {
      var threads, node :| Worker in threads && r.states[0] == Initial(threads, node);
      InvInitial(threads, node);
    } else {
      InvAlways(r, i - 1);
      assert IsStep(r, i - 1);
      InvStep(r.states[i - 1], r.steps[i - 1].0, r.steps[i - 1].1);
    }
  }
}
