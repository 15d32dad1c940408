/** The guarantees of the role-switch protocol over every interleaving: wake-ups are neither stale
    nor lost, a role switch is not disturbed, and the mutexes cannot deadlock.
 */
module RoleSwitchTheorems {
  import opened Common
  import opened RoleSwitch
  import opened RoleSwitchProofs

  // ---------- wake-ups ----------

  // Step w is an accepted write of t's own, and t has been in its waiting loop ever since, up to d.
  ghost predicate Waiting(r: Run, t: Thread, w: nat, d: nat)
    requires IsRun(r)
  {
    && w < d < |r.states|
    && r.steps[w].0 == t && t in r.states[w].pc && r.states[w].pc[t].Write?
    && (forall k :: w < k <= d ==> InLoop(r, t, k, r.states[w].added))
  }

  ghost predicate InLoop(r: Run, t: Thread, k: nat, mark: nat)
    requires k < |r.states|
  {
    var s := r.states[k];
    t in s.pc && HasMark(s.pc[t]) && s.pc[t].mark == mark
  }

  // The step of run r at i is where the worker sets mPartnerUp for a partner-added uevent.
  ghost predicate HandlesPartner(r: Run, i: nat)
    requires IsRun(r) && i < |r.steps|
  {
    var t := r.steps[i].0;
    t == Worker && t in r.states[i].pc && r.states[i].pc[t].SetUp?
  }

  // At step d, t's switchMode looks at the flag after a wait.
  ghost predicate Looks(r: Run, t: Thread, d: nat)
    requires IsRun(r) && d < |r.steps|
  {
    r.steps[d].0 == t && t in r.states[d].pc && r.states[d].pc[t].Check?
  }

  // Step d is where it then decides to return true: the thread goes on with that result.
  ghost predicate ReturnsTrue(r: Run, t: Thread, d: nat)
    requires IsRun(r) && d < |r.steps|
  {
    Looks(r, t, d) && t in r.states[d + 1].pc && r.states[d + 1].pc[t].Unlock? && r.states[d + 1].pc[t].ok
  }

  // Where a look leads, whatever the rest of the step is about.
  lemma LookLeads(r: Run, t: Thread, d: nat)
    requires IsRun(r) && d < |r.steps| && Looks(r, t, d)
    ensures t in r.states[d + 1].pc && r.states[d + 1].pc[t] == AfterCheck(r.states[d], r.states[d].pc[t])
  {
    assert IsStep(r, d);
    NextSelf(r.states[d], t, r.steps[d].1);
  }

  // A thread that is in its waiting loop after a step was there before it, with the same mark, unless
  // the step is its own write.
  lemma LoopStep(s: State, u: Thread, a: Action, t: Thread)
    requires Enabled(s, u, a) && t in s.pc && t in NextPCs(s, u, a) && HasMark(NextPCs(s, u, a)[t])
    ensures var pc, pc' := s.pc[t], NextPCs(s, u, a)[t];
            || (HasMark(pc) && pc'.mark == pc.mark)
            || (u == t && pc.Write? && pc'.mark == s.added)
  {
    NextSelf(s, u, a);
    if u != t {
      NextOthers(s, u, a, t);
    }
  }

  // A thread in its waiting loop got there by a write of its own.
  lemma {:induction false} WriteBefore(r: Run, t: Thread, d: nat) returns (w: nat)
    requires IsRun(r) && d < |r.states| && t in r.states[d].pc && HasMark(r.states[d].pc[t])
    ensures Waiting(r, t, w, d)
  {
    if d == 0 {
      assert false;
    } else {
      assert IsStep(r, d - 1);
      var s, u, a := r.states[d - 1], r.steps[d - 1].0, r.steps[d - 1].1;
      NextSelf(s, u, a);
      LoopStep(s, u, a, t);
      if u == t && s.pc[t].Write? {
        w := d - 1;
      } else {
        w := WriteBefore(r, t, d - 1);
        assert InLoop(r, t, d - 1, r.states[w].added);
      }
    }
  }

  // The event counter grows by the steps that handle partner events, and only by them.
  lemma {:induction false} EventBetween(r: Run, w: nat, d: nat) returns (e: nat)
    requires IsRun(r) && w <= d < |r.states| && r.states[w].added < r.states[d].added
    ensures w <= e < d && HandlesPartner(r, e)
    decreases d - w
  {
    assert IsStep(r, d - 1);
    InvAlways(r, d - 1);
    if r.states[d - 1].added < r.states[d].added {
      e := d - 1;
      assert Runs(r.steps[e].0, r.states[e].pc[r.steps[e].0]);
    } else {
      e := EventBetween(r, w, d - 1);
    }
  }

  lemma {:induction false} AddedGrows(r: Run, w: nat, d: nat)
    requires IsRun(r) && w <= d < |r.states|
    ensures r.states[w].added <= r.states[d].added
    decreases d - w
  {
    if w < d {
      AddedGrows(r, w, d - 1);
      assert IsStep(r, d - 1);
    }
  }

  /** No stale wake-up: switchMode goes on to return true only if its wait did not time out, and a
      partner-added uevent was handled after this call's own role write. */
  lemma NoStaleWakeUp(r: Run, t: Thread, d: nat) returns (w: nat, e: nat)
    requires IsRun(r) && d < |r.steps| && ReturnsTrue(r, t, d)
    ensures r.states[d].pc[t].wake != TimedOut
    ensures Waiting(r, t, w, d)
    ensures w < e < d && HandlesPartner(r, e)
  {
    var s := r.states[d];
    LookLeads(r, t, d);
    InvAlways(r, d);
    assert SignalOk(s, s.pc[t]);
    w := WriteBefore(r, t, d);
    assert InLoop(r, t, d, r.states[w].added);
    e := EventBetween(r, w, d);
  }

  lemma StillLooping(r: Run, t: Thread, w: nat, d: nat, k: nat)
    requires IsRun(r) && Waiting(r, t, w, d) && w < k <= d
    ensures t in r.states[k].pc && HasMark(r.states[k].pc[t])
  {
    assert InLoop(r, t, k, r.states[w].added);
  }

  lemma WindowsApart(r: Run, t: Thread, w: nat, d: nat, t': Thread, w': nat, d': nat)
    requires IsRun(r) && d < d' < |r.steps|
    requires Waiting(r, t, w, d) && ReturnsTrue(r, t, d)
    requires Waiting(r, t', w', d') && ReturnsTrue(r, t', d')
    ensures d < w'
  {
    if w < w' <= d {
      assert InLoop(r, t, w', r.states[w].added);
      InvAlways(r, w');
      Exclusive(r.states[w'], t, t', RoleLock);
    } else if w' < w {
      assert InLoop(r, t', w, r.states[w'].added);
      InvAlways(r, w);
      Exclusive(r.states[w], t, t', RoleLock);
    } else if w' == w {
      StillLooping(r, t', w', d', d + 1);
    }
  }

  /** No event is credited to two calls: of two calls that return true, each has its own write and an
      event handled between that write and its decision, and the first decides before the second
      writes. */
  lemma CreditedOnce(r: Run, t: Thread, d: nat, t': Thread, d': nat) returns (w: nat, e: nat, w': nat, e': nat)
    requires IsRun(r) && d < d' < |r.steps| && ReturnsTrue(r, t, d) && ReturnsTrue(r, t', d')
    ensures Waiting(r, t, w, d) && w < e < d && HandlesPartner(r, e)
    ensures Waiting(r, t', w', d') && d < w' < e' < d' && HandlesPartner(r, e')
  {
    w, e := NoStaleWakeUp(r, t, d);
    w', e' := NoStaleWakeUp(r, t', d');
    WindowsApart(r, t, w, d, t', w', d');
  }

  // Thread t is somewhere in its waiting loop.
  ghost predicate Looping(r: Run, t: Thread, k: nat)
    requires k < |r.states|
  {
    t in r.states[k].pc && HasMark(r.states[k].pc[t])
  }

  lemma {:induction false} MarkStays(r: Run, t: Thread, mark: nat, e: nat, d: nat)
    requires IsRun(r) && e <= d < |r.states| && InLoop(r, t, e, mark)
    requires forall k :: e <= k <= d ==> Looping(r, t, k)
    ensures InLoop(r, t, d, mark)
    decreases d - e
  {
    if e < d {
      MarkStays(r, t, mark, e, d - 1);
      assert Looping(r, t, d) && IsStep(r, d - 1);
      LoopStep(r.states[d - 1], r.steps[d - 1].0, r.steps[d - 1].1, t);
    }
  }

  /** No lost wake-up: once a partner-added uevent is handled while a call is in its waiting loop, the
      next time the call looks it leaves the loop, with true unless that wait reported a timeout. */
  lemma NoLostWakeUp(r: Run, t: Thread, e: nat, d: nat)
    requires IsRun(r) && e < d < |r.steps| && HandlesPartner(r, e) && Looks(r, t, d)
    requires forall k :: e <= k <= d ==> Looping(r, t, k)
    ensures t in r.states[d + 1].pc
    ensures r.states[d + 1].pc[t] == Unlock(r.states[d].pc[t].req, r.states[d].pc[t].wake != TimedOut)
  {
    LookLeads(r, t, d);
    InvAlways(r, e);
    InvAlways(r, d);
    assert Looping(r, t, e);
    MarkStays(r, t, r.states[e].pc[t].mark, e, d);
    assert SignalOk(r.states[e], r.states[e].pc[t]) && SignalOk(r.states[d], r.states[d].pc[t]);
    assert IsStep(r, e);
    AddedGrows(r, e + 1, d);
  }

  /** What a look leads to, exactly: false after a timeout, true if a partner-added uevent was handled
      since the call's own write, and another wait otherwise. */
  lemma LooksExactly(r: Run, t: Thread, d: nat) returns (w: nat)
    requires IsRun(r) && d < |r.steps| && Looks(r, t, d)
    ensures Waiting(r, t, w, d) && t in r.states[d + 1].pc
    ensures var pc, pc' := r.states[d].pc[t], r.states[d + 1].pc[t];
            && (pc.wake == TimedOut ==> pc' == Unlock(pc.req, false))
            && (pc.wake != TimedOut && (exists e :: w < e < d && HandlesPartner(r, e)) ==> pc' == Unlock(pc.req, true))
            && (pc.wake != TimedOut && !(exists e :: w < e < d && HandlesPartner(r, e)) ==>
                  pc' == Wait(pc.req, pc.mark))
  {
    LookLeads(r, t, d);
    w := WriteBefore(r, t, d);
    InvAlways(r, d);
    assert SignalOk(r.states[d], r.states[d].pc[t]) && InLoop(r, t, d, r.states[w].added);
    if r.states[w].added < r.states[d].added {
      var e := EventBetween(r, w, d);
    }
    if e :| w < e < d && HandlesPartner(r, e) {
      assert IsStep(r, e);
      AddedGrows(r, w, e);
      AddedGrows(r, e + 1, d);
    }
  }

  /** A call is blocked with the flag up only while the worker is about to signal, and then the signal
      reaches that very call. */
  lemma SignalReachesWaiter(r: Run, i: nat, t: Thread)
    requires IsRun(r) && i < |r.states| && t in r.states[i].pc && r.states[i].pc[t].Blocked?
    ensures Worker in r.states[i].pc
    ensures r.states[i].partnerUp ==> r.states[i].pc[Worker] == Signal
    ensures forall a :: r.states[i].pc[Worker] == Signal && Enabled(r.states[i], Worker, a) ==> a == Signals(Some(t))
  {
    var s := r.states[i];
    InvAlways(r, i);
    assert SignalOk(s, s.pc[t]);
    forall a | s.pc[Worker] == Signal && Enabled(s, Worker, a) ensures a == Signals(Some(t)) {
      Exclusive(s, t, a.target.value, RoleLock);
    }
  }

  // ---------- isolation ----------

  /** While a call holds the role-switch mutex, no other thread writes any port-type file: the worker's
      return to dual role waits for the call to finish. */
  lemma Isolation(r: Run, i: nat, t: Thread)
    requires IsRun(r) && i < |r.steps| && t in r.states[i].pc && InSwitch(r.states[i].pc[t])
    requires r.steps[i].0 != t
    ensures r.states[i + 1].node == r.states[i].node
  {
    InvAlways(r, i);
    assert IsStep(r, i);
    var s, u, a := r.states[i], r.steps[i].0, r.steps[i].1;
    NoClash(s, t, u);
    if Submits(s.pc[u], a).Some? {
      SubmitHoldsRole(s, u, a);
    }
  }

  // Thread t is still inside the call for req, and the file was last given the requested mode or,
  // once t has passed its fallback, possibly "dual".
  ghost predicate OwnMode(s: State, t: Thread, req: Request) {
    && t in s.pc && InSwitch(s.pc[t]) && s.pc[t].req == req
    && !s.pc[t].Chosen? && !s.pc[t].WantPartner? && !s.pc[t].Clear? && !s.pc[t].Write?
    && req.isMode && req.port in s.node
    && (s.node[req.port] == req.text
        || (s.node[req.port] == DUAL && !HasMark(s.pc[t]) && !s.pc[t].Unlock? && !s.pc[t].Fallback? && !s.pc[t].ok))
  }

  lemma OwnModeStarts(s: State, t: Thread, req: Request)
    requires t in s.pc && s.pc[t] == Write(req) && req.isMode && Enabled(s, t, Go(true))
    ensures OwnMode(Next(s, t, Go(true)), t, req)
  {
    NextSelf(s, t, Go(true));
  }

  lemma OwnModeOther(s: State, u: Thread, a: Action, t: Thread, req: Request)
    requires OwnMode(s, t, req) && Enabled(s, u, a) && u != t && Next(s, u, a).node == s.node
    ensures InSwitch(NextPCs(s, u, a)[t]) ==> OwnMode(Next(s, u, a), t, req)
  {
    NextOthers(s, u, a, t);
  }

  /** From an accepted write to the release of the mutex, the port-type file was last given the
      requested mode or, by this call's own fallback, "dual"; on success it is the requested mode. */
  lemma {:induction false} RequestedModeStays(r: Run, t: Thread, req: Request, w: nat, d: nat)
    requires IsRun(r) && w < d < |r.states|
    requires r.steps[w] == (t, Go(true)) && t in r.states[w].pc && r.states[w].pc[t] == Write(req)
    requires forall k :: w < k <= d ==> InSwitchAt(r, t, k)
    ensures OwnMode(r.states[d], t, req)
    decreases d - w
  {
    assert IsStep(r, d - 1);
    assert InSwitchAt(r, t, d);
    var s, u, a := r.states[d - 1], r.steps[d - 1].0, r.steps[d - 1].1;
    if w == d - 1 {
      WriteIsMode(r, w, t);
      OwnModeStarts(s, t, req);
    } else {
      RequestedModeStays(r, t, req, w, d - 1);
      if u != t {
        Isolation(r, d - 1, t);
        OwnModeOther(s, u, a, t, req);
      } else {
        NextSelf(s, t, a);
        OwnModeStep(s, t, a, req);
      }
    }
  }

  lemma WriteIsMode(r: Run, w: nat, t: Thread)
    requires IsRun(r) && w < |r.states| && t in r.states[w].pc && r.states[w].pc[t].Write?
    ensures r.states[w].pc[t].req.isMode
  {
    InvAlways(r, w);
    assert TextOk(r.states[w], r.states[w].pc[t]);
  }

  ghost predicate InSwitchAt(r: Run, t: Thread, k: nat)
    requires k < |r.states|
  {
    t in r.states[k].pc && InSwitch(r.states[k].pc[t])
  }

  lemma OwnModeStep(s: State, t: Thread, a: Action, req: Request)
    requires OwnMode(s, t, req) && Enabled(s, t, a) && InSwitch(NextPC(s, t, a))
    ensures OwnMode(Next(s, t, a), t, req)
  {}

  // ---------- what a mode switch reports ----------

  // The call for req has come to the result ok and not yet returned.
  predicate Resolved(pc: PC, req: Request, ok: bool) {
    || pc == Unlock(req, ok) || (pc == Fallback(req) && !ok)
    || pc == WantNotify(req, ok) || pc == Notify(req, ok) || pc == Release(req, ok)
  }

  // It is past its fallback, if it made one.
  predicate Reporting(pc: PC, req: Request, ok: bool) {
    pc == WantNotify(req, ok) || pc == Notify(req, ok) || pc == Release(req, ok)
  }

  // Before a step that leaves t with a result, t had the same one, or the step is where it came to it.
  lemma ResultStep(s: State, u: Thread, a: Action, t: Thread, req: Request, ok: bool)
    requires LocksOk(s) && Enabled(s, u, a) && t in s.pc && t in NextPCs(s, u, a) && req.isMode
    requires Resolved(NextPCs(s, u, a)[t], req, ok)
    ensures || Resolved(s.pc[t], req, ok)
            || (u == t && s.pc[t].Check? && NextPCs(s, u, a)[t] == Unlock(req, ok))
            || (u == t && !ok && a == Go(false) && (s.pc[t] == Write(req) || s.pc[t] == Chosen(req)))
  {
    NextSelf(s, u, a);
    if u != t {
      NextOthers(s, u, a, t);
    }
  }

  lemma SuccessStep(r: Run, t: Thread, req: Request, i: nat)
    requires IsRun(r) && i < |r.steps| && req.isMode && ResolvedAt(r, t, req, i + 1)
    ensures ResolvedAt(r, t, req, i) || ReturnsTrue(r, t, i)
  {
    assert IsStep(r, i);
    InvAlways(r, i);
    var s, u, a := r.states[i], r.steps[i].0, r.steps[i].1;
    NextSelf(s, u, a);
    ResultStep(s, u, a, t, req, true);
  }

  /** A mode switch has the result true only because this call's switchMode returned true: its look at d
      found, without a timeout, an event handled after its own write. */
  lemma {:induction false} SuccessMeansSignaled(r: Run, t: Thread, req: Request, i: nat)
    returns (w: nat, e: nat, d: nat)
    requires IsRun(r) && i < |r.states| && ResolvedAt(r, t, req, i) && req.isMode
    ensures d < i && ReturnsTrue(r, t, d) && r.states[d].pc[t].wake != TimedOut
    ensures Waiting(r, t, w, d) && w < e < d && HandlesPartner(r, e)
    ensures forall k :: d < k <= i ==> ResolvedAt(r, t, req, k)
  {
    if i == 0 {
      assert false;
    } else {
      SuccessStep(r, t, req, i - 1);
      if ResolvedAt(r, t, req, i - 1) {
        w, e, d := SuccessMeansSignaled(r, t, req, i - 1);
      } else {
        d := i - 1;
        w, e := NoStaleWakeUp(r, t, d);
      }
    }
  }

  // The call for req has the result true in state k.
  ghost predicate ResolvedAt(r: Run, t: Thread, req: Request, k: nat)
    requires k < |r.states|
  {
    t in r.states[k].pc && Resolved(r.states[k].pc[t], req, true)
  }

  lemma ReportStep(s: State, u: Thread, a: Action, t: Thread, req: Request)
    requires Enabled(s, u, a) && t in s.pc && t in NextPCs(s, u, a) && req.isMode
    requires Reporting(NextPCs(s, u, a)[t], req, false)
    ensures Reporting(s.pc[t], req, false) || (u == t && s.pc[t] == Fallback(req) && a.Go?)
    ensures u == t && s.pc[t] == Fallback(req) && a == Go(true) ==> Next(s, u, a).node == s.node[req.port := "dual"]
    ensures u == t && Reporting(s.pc[t], req, false) ==> Next(s, u, a).node == s.node
  {
    NextSelf(s, u, a);
    if u != t {
      NextOthers(s, u, a, t);
    }
  }

  // The call for req has failed and is past its fallback in state k.
  ghost predicate FailedAt(r: Run, t: Thread, req: Request, k: nat)
    requires k < |r.states|
  {
    t in r.states[k].pc && Reporting(r.states[k].pc[t], req, false)
  }

  ghost predicate FallsBackAt(r: Run, t: Thread, req: Request, f: nat)
    requires f < |r.steps| && f < |r.states|
  {
    r.steps[f].0 == t && t in r.states[f].pc && r.states[f].pc[t] == Fallback(req) && r.steps[f].1.Go?
  }

  lemma FailureStep(r: Run, t: Thread, req: Request, i: nat)
    requires IsRun(r) && i < |r.steps| && req.isMode && FailedAt(r, t, req, i + 1)
    ensures || (FailedAt(r, t, req, i) && r.states[i + 1].node == r.states[i].node)
            || (FallsBackAt(r, t, req, i)
                && (r.steps[i].1.ok ==> r.states[i + 1].node == r.states[i].node[req.port := "dual"]))
  {
    assert IsStep(r, i);
    var s, u, a := r.states[i], r.steps[i].0, r.steps[i].1;
    NextSelf(s, u, a);
    ReportStep(s, u, a, t, req);
    if u != t {
      Isolation(r, i, t);
    }
  }

  /** A mode switch that fails, for whatever reason, tried to return its port to dual role first; if the
      file took that, it says "dual" for as long as the call lasts. */
  lemma {:induction false} FailureFallsBack(r: Run, t: Thread, req: Request, i: nat) returns (f: nat)
    requires IsRun(r) && i < |r.states| && FailedAt(r, t, req, i) && req.isMode
    ensures f < i && FallsBackAt(r, t, req, f)
    ensures r.steps[f].1.ok ==> req.port in r.states[i].node && r.states[i].node[req.port] == "dual"
  {
    if i == 0 {
      assert false;
    } else {
      FailureStep(r, t, req, i - 1);
      f := i - 1;
      if FailedAt(r, t, req, i - 1) && r.states[i].node == r.states[i - 1].node {
        f := FailureFallsBack(r, t, req, i - 1);
      }
    }
  }

  lemma ResultKept(s: State, u: Thread, a: Action, t: Thread, req: Request, ok: bool)
    requires Enabled(s, u, a) && t in s.pc && Resolved(s.pc[t], req, ok)
    ensures t in NextPCs(s, u, a)
    ensures InSwitch(NextPCs(s, u, a)[t]) ==> Resolved(NextPCs(s, u, a)[t], req, ok)
  {
    NextSelf(s, u, a);
    if u != t {
      NextOthers(s, u, a, t);
    }
  }

  /** A result stands: what a call came to is what it reports. */
  lemma {:induction false} ResultStands(r: Run, t: Thread, req: Request, ok: bool, d: nat, i: nat)
    requires IsRun(r) && d <= i < |r.states| && t in r.states[d].pc && Resolved(r.states[d].pc[t], req, ok)
    requires forall k :: d <= k <= i ==> InSwitchAt(r, t, k)
    ensures t in r.states[i].pc && Resolved(r.states[i].pc[t], req, ok)
    decreases i - d
  {
    if d < i {
      ResultStands(r, t, req, ok, d, i - 1);
      assert IsStep(r, i - 1) && InSwitchAt(r, t, i);
      ResultKept(r.states[i - 1], r.steps[i - 1].0, r.steps[i - 1].1, t, req, ok);
    }
  }

  /** A file that does not open, or a write that is refused, gives the result false. */
  lemma RefusalFails(r: Run, t: Thread, req: Request, i: nat)
    requires IsRun(r) && i < |r.steps| && r.steps[i] == (t, Go(false)) && req.isMode && t in r.states[i].pc
    requires r.states[i].pc[t] == Chosen(req) || r.states[i].pc[t] == Write(req)
    ensures t in r.states[i + 1].pc && Resolved(r.states[i + 1].pc[t], req, false)
    ensures r.states[i + 1].node == r.states[i].node
  {
    assert IsStep(r, i);
    NextSelf(r.states[i], t, r.steps[i].1);
  }

  /** For any other request the result is what its file operations came to. */
  lemma OtherRequestResult(r: Run, t: Thread, req: Request, i: nat)
    requires IsRun(r) && i < |r.steps| && r.steps[i].0 == t && !req.isMode
    requires t in r.states[i].pc && r.states[i].pc[t] == Chosen(req)
    ensures r.steps[i].1.Go? && t in r.states[i + 1].pc
    ensures Resolved(r.states[i + 1].pc[t], req, r.steps[i].1.ok) && r.states[i + 1].node == r.states[i].node
  {
    assert IsStep(r, i);
    NextSelf(r.states[i], t, r.steps[i].1);
  }

  // ---------- who writes what ----------

  // The step writes text to the file of port.
  predicate WritesText(pc: PC, a: Action, port: string, text: string) {
    || (pc.Write? && a == Go(true) && port == pc.req.port && text == pc.req.text)
    || (pc.Fallback? && a == Go(true) && port == pc.req.port && text == "dual")
    || (pc.Sweep? && pc.ports != [] && a == Visit(false, true) && port == pc.ports[0] && text == "dual")
  }

  /** Port-type files are written by a call with its mode, by its fallback with "dual", and by the sweep
      with "dual" to ports without a partner; and by nothing else. */
  lemma EveryWrite(r: Run, i: nat)
    requires IsRun(r) && i < |r.steps| && r.steps[i].0 in r.states[i].pc
    ensures var pc, a := r.states[i].pc[r.steps[i].0], r.steps[i].1;
            && (forall port, text :: WritesText(pc, a, port, text) ==>
                  r.states[i + 1].node == r.states[i].node[port := text])
            && (!(exists port, text :: WritesText(pc, a, port, text)) ==>
                  r.states[i + 1].node == r.states[i].node)
  {
    assert IsStep(r, i);
    var s, t, a := r.states[i], r.steps[i].0, r.steps[i].1;
    var pc := s.pc[t];
    NodeAfter(s, t, a);
    if Submits(pc, a).Some? {
      assert WritesText(pc, a, Submits(pc, a).value.0, Submits(pc, a).value.1);
    }
  }

  /** After its query the worker sweeps all the ports found, in order, if no call is in the way, and
      none otherwise. */
  lemma SweepGoesThrough(r: Run, i: nat)
    requires IsRun(r) && i < |r.steps| && r.steps[i].0 == Worker && Worker in r.states[i].pc
    requires r.states[i].pc[Worker].TryRole? || r.states[i].pc[Worker].Sweep?
    ensures Worker in r.states[i + 1].pc
    ensures var pc, pc' := r.states[i].pc[Worker], r.states[i + 1].pc[Worker];
            && (pc.TryRole? ==> pc' == if r.states[i].owner.role.None? then Sweep(pc.ports) else Idle)
            && (pc.Sweep? && pc.ports == [] ==> pc' == Idle)
            && (pc.Sweep? && pc.ports != [] ==> r.steps[i].1.Visit? && pc' == Sweep(pc.ports[1..]))
  {
    assert IsStep(r, i);
    NextSelf(r.states[i], Worker, r.steps[i].1);
  }

  // ---------- deadlock freedom ----------

  predicate Waits(s: State, t: Thread) {
    t in s.pc && Wants(s.pc[t]).Some?
  }

  predicate WaitsFor(s: State, t: Thread, u: Thread) {
    Waits(s, t) && s.owner.Of(Wants(s.pc[t]).value) == Some(u)
  }

  // Threads that wait for one another in a circle.
  ghost predicate WaitCycle(s: State, c: seq<Thread>) {
    && |c| > 0
    && (forall i :: 0 <= i < |c| - 1 ==> WaitsFor(s, c[i], c[i + 1]))
    && WaitsFor(s, c[|c| - 1], c[0])
  }

  // mRoleSwitchLock is taken before the other two, and never the other way round.
  function Rank(l: Lock): nat {
    if l == RoleLock then 0 else 1
  }

  lemma WaitsUpward(s: State, t: Thread, u: Thread)
    requires LocksOk(s) && WaitsFor(s, t, u)
    ensures u in s.pc && u != t
    ensures Wants(s.pc[u]).Some? ==> Rank(Wants(s.pc[t]).value) < Rank(Wants(s.pc[u]).value)
  {
    assert HeldByOwner(s, Wants(s.pc[t]).value);
  }

  lemma {:induction false} ChainClimbs(s: State, c: seq<Thread>, i: nat)
    requires LocksOk(s) && WaitCycle(s, c) && i < |c|
    ensures Waits(s, c[i]) && Waits(s, c[0])
    ensures Rank(Wants(s.pc[c[i]]).value) >= Rank(Wants(s.pc[c[0]]).value) + i
  {
    assert WaitsFor(s, c[i], if i == |c| - 1 then c[0] else c[i + 1]);
    if i > 0 {
      ChainClimbs(s, c, i - 1);
      WaitsUpward(s, c[i - 1], c[i]);
    }
  }

  /** In no reachable state do threads wait for one another in a circle. */
  lemma NoWaitCycle(r: Run, i: nat, c: seq<Thread>)
    requires IsRun(r) && i < |r.states|
    ensures !WaitCycle(r.states[i], c)
  {
    var s := r.states[i];
    InvAlways(r, i);
    if WaitCycle(s, c) {
      ChainClimbs(s, c, |c| - 1);
      WaitsUpward(s, c[|c| - 1], c[0]);
    }
  }

  /** No thread ever asks for a mutex it already holds. */
  lemma NoRelock(r: Run, i: nat, t: Thread, l: Lock)
    requires IsRun(r) && i < |r.states| && t in r.states[i].pc && Wants(r.states[i].pc[t]) == Some(l)
    ensures r.states[i].owner.Of(l) != Some(t)
  {
    InvAlways(r, i);
    if r.states[i].owner.Of(l) == Some(t) {
      WaitsUpward(r.states[i], t, t);
    }
  }

  // The action of a thread that waits for no mutex.
  lemma CanGo(s: State, t: Thread) returns (a: Action)
    requires LocksOk(s) && t in s.pc && s.pc[t] != Idle
    requires Wants(s.pc[t]).Some? ==> Free(s, Wants(s.pc[t]).value)
    ensures Enabled(s, t, a)
  {
    match s.pc[t]
    case Blocked(_, _) => a := Wakes(TimedOut);
    case Signal =>
      if u :| u in s.pc && s.pc[u].Blocked? {
        a := Signals(Some(u));
      } else {
        a := Signals(None);
      }
    case Querying => a := if t == Worker then Found([]) else Go(true);
    case Sweep(ports) => a := if ports == [] then Go(true) else Visit(true, true);
    case _ => a := Go(true);
  }

  // A thread that cannot have the mutex it wants waits for its owner, which is inside an operation
  // and, if it wants one itself, wants one of higher rank.
  lemma OwnerOf(s: State, t: Thread) returns (u: Thread)
    requires LocksOk(s) && Waits(s, t) && !Free(s, Wants(s.pc[t]).value)
    ensures WaitsFor(s, t, u) && u in s.pc && s.pc[u] != Idle
    ensures Wants(s.pc[u]).Some? ==> Rank(Wants(s.pc[t]).value) < Rank(Wants(s.pc[u]).value)
  {
    u := s.owner.Of(Wants(s.pc[t]).value).value;
    WaitsUpward(s, t, u);
    assert HeldByOwner(s, Wants(s.pc[t]).value);
  }

  /** Whenever a thread is inside an operation, that thread can take a step, or the owner of the mutex
      it wants can, or the owner of the mutex that one wants can. */
  lemma Progress(r: Run, i: nat, t: Thread) returns (u: Thread, a: Action)
    requires IsRun(r) && i < |r.states| && t in r.states[i].pc && r.states[i].pc[t] != Idle
    ensures Enabled(r.states[i], u, a) && r.states[i].pc[u] != Idle
    ensures u == t || WaitsFor(r.states[i], t, u)
            || (exists v :: WaitsFor(r.states[i], t, v) && WaitsFor(r.states[i], v, u))
  {
    var s := r.states[i];
    InvAlways(r, i);
    u := t;
    if Waits(s, t) && !Free(s, Wants(s.pc[t]).value) {
      u := OwnerOf(s, t);
      if Waits(s, u) && !Free(s, Wants(s.pc[u]).value) {
        var v := u;
        u := OwnerOf(s, v);
        assert WaitsFor(s, t, v) && WaitsFor(s, v, u);
      }
    }
    a := CanGo(s, u);
  }

  // An upper bound on the steps a thread takes before it gives the partner mutex up.
  function StepsToRelease(pc: PC): nat {
    match pc
    case Clear(_) => 5
    case Write(_) | SetUp => 4
    case Check(_, _, _) | Signal => 3
    case Wait(_, _) | Unlock(_, _) | UnlockUp => 2
    case _ => 1
  }

  // A thread that owns mPartnerLock or mLock waits for nothing, and each of its steps releases that
  // mutex or brings the release nearer.
  lemma OwnerReleases(s: State, u: Thread, a: Action, l: Lock)
    requires Enabled(s, u, a) && Holds(s.pc[u], l) && l != RoleLock
    ensures Wants(s.pc[u]).None?
    ensures Holds(NextPC(s, u, a), l) ==> StepsToRelease(NextPC(s, u, a)) < StepsToRelease(s.pc[u])
  {}

  /** The worker never waits for the role-switch mutex. Whoever owns a mutex it does wait for waits for
      nothing itself, and each of its steps releases that mutex or brings the release nearer: so the
      worker can always deliver the partner signal. */
  lemma WorkerNotStarved(r: Run, i: nat, u: Thread, a: Action)
    requires IsRun(r) && i < |r.states| && WaitsFor(r.states[i], Worker, u) && Enabled(r.states[i], u, a)
    ensures var s := r.states[i];
            var l := Wants(s.pc[Worker]).value;
            && l != RoleLock
            && Wants(s.pc[u]).None?
            && (Holds(NextPC(s, u, a), l) ==> StepsToRelease(NextPC(s, u, a)) < StepsToRelease(s.pc[u]))
            && (!Holds(NextPC(s, u, a), l) ==> Free(Next(s, u, a), l))
  {
    var s := r.states[i];
    var l := Wants(s.pc[Worker]).value;
    InvAlways(r, i);
    assert Runs(Worker, s.pc[Worker]);
    assert HeldByOwner(s, l);
    OwnerReleases(s, u, a, l);
    NextHolds(s, u, a, l);
    OwnerAfter(s, u, l);
  }
}
