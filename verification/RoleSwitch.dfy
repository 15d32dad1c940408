/** The role-switch protocol: any number of binder threads, the uevent worker and the monitor
    callback, interleaved one small step at a time.

    A program counter stands before the action it names. The three mutexes are owned or free, and
    a thread in pthread_cond_timedwait has given up the partner mutex and takes it back before
    going on. The choices the environment makes (whether a file opens or a write is accepted,
    when a wait times out or wakes for no reason, which ports are connected) are in the action.
 */
module RoleSwitch {
  import opened Common

  datatype Thread = Binder(id: nat) | Worker | Monitor

  // mRoleSwitchLock, mLock and mPartnerLock
  datatype Lock = RoleLock | CallbackLock | PartnerLock

  // A call of switchRole. For a mode, `text` goes to the port-type file of `port`.
  datatype Request = Request(isMode: bool, port: string, text: string)

  // Why a timed wait ended.
  datatype Wake = Signaled | Spurious | TimedOut

  datatype PC =
    | Idle
    // switchRole
    | WantRole(req: Request)
    | Chosen(req: Request)
    // switchMode, until it returns; `mark` counts the partner events handled before its own write
    | WantPartner(req: Request)
    | Clear(req: Request)
    | Write(req: Request)
    | Wait(req: Request, mark: nat)
    | Blocked(req: Request, mark: nat)
    | Relock(req: Request, mark: nat, wake: Wake)
    | Check(req: Request, mark: nat, wake: Wake)
    | Unlock(req: Request, ok: bool)
    | Fallback(req: Request)
    // switchRole again
    | WantNotify(req: Request, ok: bool)
    | Notify(req: Request, ok: bool)
    | Release(req: Request, ok: bool)
    // queryVersionHelper, by any thread
    | WantQuery
    | Querying
    // the worker, on a partner-added uevent
    | WantSignal
    | SetUp
    | Signal
    | UnlockUp
    // the worker, after the query for a port uevent
    | TryRole(ports: seq<string>)
    | Sweep(ports: seq<string>)

  // Which thread has locked each mutex.
  datatype Owners = Owners(role: Option<Thread>, callback: Option<Thread>, partner: Option<Thread>)
  {
    function Of(l: Lock): Option<Thread> {
      match l
      case RoleLock => role
      case CallbackLock => callback
      case PartnerLock => partner
    }

    function Set(l: Lock, o: Option<Thread>): Owners {
      match l
      case RoleLock => this.(role := o)
      case CallbackLock => this.(callback := o)
      case PartnerLock => this.(partner := o)
    }
  }

  // A switchMode call that waited and then decided.
  datatype Decision = Decision(caller: Thread, ok: bool, mark: nat, seen: nat, wake: Wake)

  datatype State = State(
    pc: map<Thread, PC>,
    owner: Owners,
    partnerUp: bool,
    node: map<string, string>,   // the text last submitted to each port-type file
    added: nat,                  // partner-added uevents handled
    decisions: seq<Decision>)

  datatype Action =
    | Call(req: Request)                        // a binder call arrives
    | Query                                     // a query starts
    | PartnerAdded                              // the worker meets a partner-added string
    | Go(ok: bool)                              // the next statement; ok is what a file operation answers
    | Wakes(wake: Wake)                         // a blocked wait ends without a signal
    | Signals(target: Option<Thread>)           // pthread_cond_signal, and whom it wakes
    | Found(ports: seq<string>)                 // the query returned these ports
    | Visit(connected: bool, opens: bool)       // the sweep looks at its next port

  const DUAL := "dual"

  // A thread at a program counter holds mutex l.
  predicate Holds(pc: PC, l: Lock) {
    match l
    case RoleLock =>
      || pc.Chosen? || pc.WantPartner? || pc.Clear? || pc.Write? || pc.Wait? || pc.Blocked? || pc.Relock?
      || pc.Check? || pc.Unlock? || pc.Fallback? || pc.WantNotify? || pc.Notify? || pc.Release? || pc.Sweep?
    case CallbackLock => pc.Notify? || pc.Querying?
    case PartnerLock =>
      || pc.Clear? || pc.Write? || pc.Wait? || pc.Check? || pc.Unlock?
      || pc.SetUp? || pc.Signal? || pc.UnlockUp?
  }

  // The mutex a thread at a program counter is waiting to take.
  function Wants(pc: PC): Option<Lock> {
    match pc
    case WantRole(_) => Some(RoleLock)
    case WantPartner(_) | Relock(_, _, _) | WantSignal => Some(PartnerLock)
    case WantNotify(_, _) | WantQuery => Some(CallbackLock)
    case _ => None
  }

  // Which code a thread runs.
  predicate Runs(t: Thread, pc: PC) {
    match pc
    case Idle | WantQuery | Querying => true
    case WantSignal | SetUp | Signal | UnlockUp | TryRole(_) | Sweep(_) => t == Worker
    case _ => t.Binder?
  }

  // Between taking mRoleSwitchLock in switchRole and releasing it.
  predicate InSwitch(pc: PC) {
    Holds(pc, RoleLock) && !pc.Sweep?
  }

  function Initial(threads: set<Thread>, node: map<string, string>): State {
    State(map t | t in threads :: Idle, Owners(None, None, None), false, node, 0, [])
  }

  predicate Free(s: State, l: Lock) {
    s.owner.Of(l).None?
  }

  // The action fits the statement that thread t is at.
  predicate Fits(s: State, t: Thread, pc: PC, a: Action) {
    match pc
    case Idle =>
      || (a.Call? && t.Binder?)
      || a.Query?
      || (a.PartnerAdded? && t == Worker)
    case Blocked(_, _) => a.Wakes? && a.wake != Signaled
    case Signal =>
      && a.Signals?
      && (a.target.Some? ==> a.target.value in s.pc && s.pc[a.target.value].Blocked?)
      && (a.target.None? ==> forall u :: u in s.pc ==> !s.pc[u].Blocked?)
    case Querying => if t == Worker then a.Found? else a.Go?
    case Sweep(ports) => if ports == [] then a.Go? else a.Visit?
    case _ => a.Go?
  }

  // What thread t may do next: a wanted mutex must be free.
  predicate Enabled(s: State, t: Thread, a: Action) {
    && t in s.pc
    && (Wants(s.pc[t]).Some? ==> Free(s, Wants(s.pc[t]).value))
    && Fits(s, t, s.pc[t], a)
  }

  // ---------- one step, component by component ----------

  // What switchMode does after a wait: report the timeout, wait again, or succeed.
  function AfterCheck(s: State, pc: PC): PC
    requires pc.Check?
  {
    if pc.wake == TimedOut then Unlock(pc.req, false)
    else if !s.partnerUp then Wait(pc.req, pc.mark)
    else Unlock(pc.req, true)
  }

  // Where thread t goes.
  function NextPC(s: State, t: Thread, a: Action): PC
    requires Enabled(s, t, a)
  {
    match s.pc[t]
    case Idle => if a.Call? then WantRole(a.req) else if a.Query? then WantQuery else WantSignal
    case WantRole(req) => Chosen(req)
    case Chosen(req) =>
      // for a mode: fopen; otherwise the whole write and read-back of another file
      if !req.isMode then WantNotify(req, a.ok) else if a.ok then WantPartner(req) else Fallback(req)
    case WantPartner(req) => Clear(req)
    case Clear(req) => Write(req)
    case Write(req) => if a.ok then Wait(req, s.added) else Unlock(req, false)
    case Wait(req, mark) => Blocked(req, mark)
    case Blocked(req, mark) => Relock(req, mark, a.wake)
    case Relock(req, mark, wake) => Check(req, mark, wake)
    case Check(_, _, _) => AfterCheck(s, s.pc[t])
    case Unlock(req, ok) => if ok then WantNotify(req, true) else Fallback(req)
    case Fallback(req) => WantNotify(req, false)
    case WantNotify(req, ok) => Notify(req, ok)
    case Notify(req, ok) => Release(req, ok)
    case Release(_, _) => Idle
    case WantQuery => Querying
    case Querying => if t == Worker then TryRole(a.ports) else Idle
    case WantSignal => SetUp
    case SetUp => Signal
    case Signal => UnlockUp
    case UnlockUp => Idle
    case TryRole(ports) => if Free(s, RoleLock) then Sweep(ports) else Idle
    case Sweep(ports) => if ports == [] then Idle else Sweep(ports[1..])
  }

  // The mutex the step takes: the wanted one, or the role mutex if a trylock finds it free.
  function Takes(s: State, pc: PC): Option<Lock> {
    if pc.TryRole? && Free(s, RoleLock) then Some(RoleLock) else Wants(pc)
  }

  // The mutex the step gives up; a timed wait gives up the partner mutex.
  function Drops(pc: PC): Option<Lock> {
    match pc
    case Wait(_, _) | Unlock(_, _) | UnlockUp => Some(PartnerLock)
    case Notify(_, _) | Querying => Some(CallbackLock)
    case Release(_, _) => Some(RoleLock)
    case Sweep(ports) => if ports == [] then Some(RoleLock) else None
    case _ => None
  }

  function NextOwner(s: State, t: Thread): Owners
    requires t in s.pc
  {
    var pc := s.pc[t];
    if Takes(s, pc).Some? then s.owner.Set(Takes(s, pc).value, Some(t))
    else if Drops(pc).Some? then s.owner.Set(Drops(pc).value, None)
    else s.owner
  }

  // The text the step submits to a port-type file: the requested mode, or a fallback to dual role.
  function Submits(pc: PC, a: Action): Option<(string, string)> {
    match pc
    case Write(req) => if a.Go? && a.ok then Some((req.port, req.text)) else None
    case Fallback(req) => if a.Go? && a.ok then Some((req.port, DUAL)) else None
    case Sweep(ports) =>
      if ports != [] && a.Visit? && !a.connected && a.opens then Some((ports[0], DUAL)) else None
    case _ => None
  }

  // The step records a decision when a wait has ended and switchMode does not wait again.
  function Decides(s: State, t: Thread): Option<Decision>
    requires t in s.pc
  {
    match s.pc[t]
    case Check(_, mark, wake) =>
      (match AfterCheck(s, s.pc[t])
       case Unlock(_, ok) => Some(Decision(t, ok, mark, s.added, wake))
       case _ => None)
    case _ => None
  }

  // A signal ends the wait of the thread it reaches.
  function Woken(pc: PC): PC
    requires pc.Blocked?
  {
    Relock(pc.req, pc.mark, Signaled)
  }

  function NextPCs(s: State, t: Thread, a: Action): map<Thread, PC>
    requires Enabled(s, t, a)
  {
    var pcs := s.pc[t := NextPC(s, t, a)];
    if s.pc[t].Signal? && a.target.Some? then pcs[a.target.value := Woken(s.pc[a.target.value])] else pcs
  }

  function Next(s: State, t: Thread, a: Action): State
    requires Enabled(s, t, a)
  {
    var pc := s.pc[t];
    State(
      NextPCs(s, t, a),
      NextOwner(s, t),
      if pc.Clear? then false else if pc.SetUp? then true else s.partnerUp,
      match Submits(pc, a) { case None => s.node case Some(w) => s.node[w.0 := w.1] },
      if pc.SetUp? then s.added + 1 else s.added,
      match Decides(s, t) { case None => s.decisions case Some(d) => s.decisions + [d] })
  }

  // ---------- runs ----------

  // A run from an idle start: states and the steps between them.
  datatype Run = Run(states: seq<State>, steps: seq<(Thread, Action)>)

  ghost predicate IsRun(r: Run) {
    && |r.states| == |r.steps| + 1
    && (exists threads, node :: Worker in threads && r.states[0] == Initial(threads, node))
    && (forall i :: 0 <= i < |r.steps| ==> IsStep(r, i))
  }

  ghost predicate IsStep(r: Run, i: nat)
    requires i < |r.steps| && i + 1 < |r.states|
  {
    && Enabled(r.states[i], r.steps[i].0, r.steps[i].1)
    && r.states[i + 1] == Next(r.states[i], r.steps[i].0, r.steps[i].1)
  }

  // ---------- the invariant ----------

  ghost predicate LocksOk(s: State) {
    && Worker in s.pc
    && (forall t :: t in s.pc ==> Runs(t, s.pc[t]))
    && (forall l :: HeldByOwner(s, l))
    && (forall t, l :: t in s.pc ==> OwnsIfHeld(s, t, l))
  }

  ghost predicate OwnsIfHeld(s: State, t: Thread, l: Lock)
    requires t in s.pc
  {
    Holds(s.pc[t], l) ==> s.owner.Of(l) == Some(t)
  }

  ghost predicate HeldByOwner(s: State, l: Lock) {
    var o := s.owner.Of(l);
    o.Some? ==> o.value in s.pc && Holds(s.pc[o.value], l)
  }

  predicate HasMark(pc: PC) {
    pc.Wait? || pc.Blocked? || pc.Relock? || pc.Check?
  }

  // After this call's own clearing of mPartnerUp, the flag says whether an event was handled since
  // its write; a call told that it was signaled will find the flag up; and a call is left blocked
  // with the flag up only while the worker is on its way to signal.
  ghost predicate SignalOk(s: State, pc: PC) {
    && (pc.Write? || pc.Wait? ==> !s.partnerUp)
    && (HasMark(pc) ==> pc.mark <= s.added && (s.partnerUp <==> pc.mark < s.added))
    && ((pc.Relock? || pc.Check?) && pc.wake == Signaled ==> s.partnerUp)
    && (pc.Blocked? && s.partnerUp ==> Worker in s.pc && s.pc[Worker] == Signal)
    && (pc.Signal? || pc.UnlockUp? ==> s.partnerUp)
    && (HasMark(pc) ==> forall i :: 0 <= i < |s.decisions| ==> s.decisions[i].seen <= pc.mark)
  }

  // Decisions are made in order, each with an event window of its own.
  ghost predicate DecisionsOk(s: State) {
    var ds := s.decisions;
    && (forall i :: 0 <= i < |ds| ==>
          && ds[i].mark <= ds[i].seen <= s.added
          && (ds[i].ok <==> ds[i].wake != TimedOut)
          && (ds[i].ok ==> ds[i].mark < ds[i].seen))
    && (forall i, j :: 0 <= i < j < |ds| ==> ds[i].seen <= ds[j].mark)
  }

  // While a mode switch has been written and not fallen back, its text is what the file was given last.
  predicate KeepsText(pc: PC) {
    HasMark(pc) || ((pc.Unlock? || pc.WantNotify? || pc.Notify? || pc.Release?) && pc.ok && pc.req.isMode)
  }

  // Only a mode takes a call into switchMode.
  predicate ModeOnly(pc: PC) {
    pc.WantPartner? || pc.Clear? || pc.Write? || HasMark(pc) || pc.Unlock? || pc.Fallback? ==> pc.req.isMode
  }

  ghost predicate TextOk(s: State, pc: PC) {
    && ModeOnly(pc)
    && (KeepsText(pc) ==> pc.req.port in s.node && s.node[pc.req.port] == pc.req.text)
  }

  ghost predicate Inv(s: State) {
    && LocksOk(s)
    && DecisionsOk(s)
    && (forall t :: t in s.pc ==> SignalOk(s, s.pc[t]) && TextOk(s, s.pc[t]))
  }
}
