/** What holds of the data-session monitor over every run. */
module DataSessionTheorems {
  import opened Common
  import opened DataSession
  import opened DataSessionTrace

  // ---------- the active log ----------

  /** While a port is being watched, its log is what the inputs since the last session start logged. */
  lemma {:induction false} ActiveLog(bind: bool, t: seq<Event>, p: Port)
    requires RoleAfter(t) == Owner(p)
    ensures LastSession(bind, t) >= 0
    ensures Run(bind, t).LogOf(p) == Entries(t, LastSession(bind, t) + 1, p)
  {
    Refinement(bind, t);
    ClearedIsSession(bind, t, p);
  }

  lemma {:induction false} ClearedIsSession(bind: bool, t: seq<Event>, p: Port)
    requires RoleAfter(t) == Owner(p)
    ensures LastCleared(bind, t, p) == LastSession(bind, t) >= 0
  {
    var n := |t| - 1;
    var u, e := t[..n], t[n];
    assert t == u + [e];
    SpecSnoc(bind, u, e);
    ClearedSnoc(bind, u, e, p);
    if !StartsSession(bind, u, e) {
      ClearedIsSession(bind, u, p);
    }
  }

  // ---------- counting ----------

  lemma {:induction false} CountBound(states: seq<string>, a: string, b: string)
    requires a != b
    ensures Count(states, a) + Count(states, b) <= |states|
  {
    if states != [] {
      CountBound(states[..|states| - 1], a, b);
    }
  }

  lemma CountPush(states: seq<string>, x: string, a: string)
    ensures Count(states + [x], a) == Count(states, a) + if x == a then 1 else 0
  {
    assert (states + [x])[..|states|] == states;
  }

  /** Counting is multiplicity. */
  lemma {:induction false} CountIsMultiplicity(states: seq<string>, x: string)
    ensures Count(states, x) == multiset(states)[x]
  {
    if states != [] {
      var n := |states| - 1;
      CountIsMultiplicity(states[..n], x);
      assert states == states[..n] + [states[n]];
    }
  }

  // ---------- what each input does ----------

  /** A read of the data role decides the role by its text. Where that changes the role, a session
      starts: no warnings, the logs of the new role's ports empty, and the timer due five seconds
      after it is armed unless nothing is connected. */
  lemma RoleInput(bind: bool, u: seq<Event>, e: Event)
    requires e.input.RoleRead?
    ensures RoleAfter(u + [e]) == HOST <==> e.input.text == "host"
    ensures RoleAfter(u + [e]) == DEVICE <==> e.input.text == "device"
    ensures var s, s' := Run(bind, u), Run(bind, u + [e]);
            && s'.role == RoleAfter(u + [e]) && s'.bind == s.bind
            && (s'.role == s.role ==> s' == s)
            && (s'.role != s.role ==>
                  && s'.start == e.second && s'.warnings == {}
                  && s'.timer == (if s'.role == NONE then s.timer else Pending(e.third + 5_000_000_000))
                  && s'.device == (if s'.role == DEVICE then PortLog([], []) else s.device)
                  && s'.host1 == (if s'.role == HOST then PortLog([], []) else s.host1)
                  && s'.host2 == (if s'.role == HOST then PortLog([], []) else s.host2))
  {
    RoleTexts(e.input.text);
    SpecSnoc(bind, u, e);
    Refinement(bind, u);
    RunSnoc(bind, u, e);
  }

  /** A read of the gadget's function file, if it succeeds, decides whether the gadget is bound. Only a
      gadget that becomes bound in device role starts a session. */
  lemma BindInput(bind: bool, u: seq<Event>, e: Event)
    requires e.input.BindRead?
    ensures var s, s' := Run(bind, u), Run(bind, u + [e]);
            && s'.bind == (if e.input.content.None? then s.bind else e.input.content.value != "")
            && s'.role == s.role && s'.host1 == s.host1 && s'.host2 == s.host2
            && (s'.bind == s.bind ==> s' == s)
            && (s.role != DEVICE ==> s' == s.(bind := s'.bind))
            && (s.role == DEVICE && !s.bind && s'.bind ==>
                  s' == s.(bind := true, start := e.second, warnings := {}, device := PortLog([], []),
                           timer := Pending(e.third + 5_000_000_000)))
            && (s.role == DEVICE && s.bind && !s'.bind ==>
                  s'.start == s.start && s'.device == s.device && s'.timer == s.timer)
  {
    RunSnoc(bind, u, e);
  }

  /** A read of a port's state file goes to that port's log, with the time it was handled, if it names
      one of the seven device states; otherwise nothing happens. */
  lemma StateInput(bind: bool, u: seq<Event>, e: Event)
    requires e.input.StateRead?
    ensures var s, s' := Run(bind, u), Run(bind, u + [e]);
            if e.input.text in {"not attached\n", "attached\n", "powered\n", "default\n",
                                "addressed\n", "configured\n", "suspended\n"}
            then OnlyLogged(s, s', e) else s' == s
  {
    RunSnoc(bind, u, e);
    StateStep(Run(bind, u), e);
  }

  // The state read is appended to its port's log; nothing else changes but what an evaluation installs.
  ghost predicate OnlyLogged(s: State, s': State, e: Event)
    requires e.input.StateRead?
  {
    var p := e.input.port;
    && s'.LogOf(p) == PortLog(s.LogOf(p).states + [e.input.text], s.LogOf(p).stamps + [e.first])
    && (forall q :: q != p ==> s'.LogOf(q) == s.LogOf(q))
    && s'.(device := s.device, host1 := s.host1, host2 := s.host2, warnings := s.warnings, changes := s.changes) == s
  }

  lemma StateStep(s: State, e: Event)
    requires e.input.StateRead?
    ensures if e.input.text in VALID_STATES then OnlyLogged(s, Step(s, e), e) else Step(s, e) == s
  {
    var pushed := Push(s, e.input.port, e.input.text, e.first);
    assert e.input.text in VALID_STATES ==> OnlyLogged(s, pushed, e);
  }

  /** A timer event expires the timer if it was due, and otherwise leaves all but the warnings alone. */
  lemma TimerInput(bind: bool, u: seq<Event>, e: Event)
    requires e.input.TimerRead?
    ensures var s, s' := Run(bind, u), Run(bind, u + [e]);
            s' == s.(timer := if s.timer.Pending? && s.timer.deadline <= e.first then Expired else s.timer,
                     warnings := s'.warnings, changes := s'.changes)
  {
    RunSnoc(bind, u, e);
  }

  /** What an evaluation finds: nothing before five seconds. After that, a bound gadget that was never
      configured but was four times in the default state, or was configured six times; and as a host,
      no port ever configured but one of them four times in the default state, or nothing but one "not
      attached" from either port. */
  lemma WarningsMean(role: PortDataRole, bind: bool, device: PortLog, host1: PortLog, host2: PortLog,
                     start: nat, now: nat)
    ensures var w := Warnings(role, bind, device, host1, host2, start, now);
            var d, h1, h2 := multiset(device.states), multiset(host1.states), multiset(host2.states);
            && (ENUMERATION_FAIL in w <==>
                  && now >= start + 5_000_000_000
                  && (|| (role == DEVICE && bind && d["configured\n"] == 0 && d["default\n"] >= 4)
                      || (role == HOST && h1["configured\n"] == 0 && h2["configured\n"] == 0
                          && (h1["default\n"] >= 4 || h2["default\n"] >= 4))))
            && (FLAKY_CONNECTION in w <==>
                  now >= start + 5_000_000_000 && role == DEVICE && bind && d["configured\n"] >= 6)
            && (MISSING_DATA_LINES in w <==>
                  now >= start + 5_000_000_000 && role == HOST
                  && host1.states == ["not attached\n"] && host2.states == ["not attached\n"])
  {
    forall log | log in {device, host1, host2}
      ensures Count(log.states, CONFIGURED) == multiset(log.states)["configured\n"]
      ensures Count(log.states, DEFAULT_STATE) == multiset(log.states)["default\n"]
    {
      CountIsMultiplicity(log.states, CONFIGURED);
      CountIsMultiplicity(log.states, DEFAULT_STATE);
    }
  }

  /** Every timer event, valid state and soft pulldown installs what an evaluation then finds, judged by
      the role, bind flag and start before the input and the logs after it. */
  lemma EvaluationInstalls(bind: bool, u: seq<Event>, e: Event)
    requires || e.input.TimerRead?
             || (e.input.StateRead? && Run(bind, u + [e]) != Run(bind, u))
             || (e.input.BindRead? && Run(bind, u).role == DEVICE && Run(bind, u).bind && !Run(bind, u + [e]).bind)
    ensures var s, s' := Run(bind, u), Run(bind, u + [e]);
            s'.warnings == Warnings(s.role, s.bind, s'.device, s'.host1, s'.host2, s.start, e.second)
  {
    RunSnoc(bind, u, e);
    var s := Run(bind, u);
    StepWarnings(s, e);
    StepSession(s, e);
    if e.input.StateRead? {
      StateStep(s, e);
    }
  }

  // ---------- the shape of the warning set ----------

  function RoleWarnings(role: PortDataRole): set<Warning> {
    match role
    case NONE => {}
    case DEVICE => {ENUMERATION_FAIL, FLAKY_CONNECTION}
    case HOST => {ENUMERATION_FAIL, MISSING_DATA_LINES}
  }

  // The conditions of a role exclude each other: raising both host warnings would take a port log
  // of length one with more than three entries.
  lemma ConditionsExclusive(role: PortDataRole, bind: bool, device: PortLog, host1: PortLog, host2: PortLog)
    ensures Conditions(role, bind, device, host1, host2) <= RoleWarnings(role)
    ensures |Conditions(role, bind, device, host1, host2)| <= 1
  {
    assert CONFIGURED != DEFAULT_STATE by { assert CONFIGURED[0] != DEFAULT_STATE[0]; }
    CountBound(host1.states, CONFIGURED, DEFAULT_STATE);
    CountBound(host2.states, CONFIGURED, DEFAULT_STATE);
  }

  ghost predicate WarningsOk(s: State, now: nat) {
    && s.start <= now
    && s.warnings <= RoleWarnings(s.role)
    && |s.warnings| <= 1
    && (s.warnings != {} ==> now - s.start >= SURFACE_DELAY)
  }

  ghost function LastReading(t: seq<Event>): nat {
    if t == [] then 0 else t[|t| - 1].third
  }

  // The last evaluation of the session read a time at least five seconds after the session start.
  ghost predicate EvaluatedLate(bind: bool, t: seq<Event>) {
    var i := LastEvaluation(bind, t);
    i > LastSession(bind, t) && t[i].second - StartAfter(bind, t) >= SURFACE_DELAY
  }

  /** Whatever the clock does, a warning is in force only if it was raised by an evaluation at least
      five seconds into the session: one made earlier, as by a spurious timer event, raises none. */
  lemma {:induction false} WarningsAreRaisedLate(bind: bool, t: seq<Event>)
    requires Run(bind, t).warnings != {}
    ensures EvaluatedLate(bind, t)
  {
    if t != [] {
      var u, e := t[..|t| - 1], t[|t| - 1];
      assert t == u + [e];
      var s := Run(bind, u);
      Refinement(bind, u);
      StepWarnings(s, e);
      SpecSnoc(bind, u, e);
      EvaluationSnoc(bind, u, e);
      if !EvaluatesWarnings(bind, u, e) {
        WarningsAreRaisedLate(bind, u);
      }
    }
  }

  /** In every reachable state at most one warning is held, it is one of the current role's (so none
      in role NONE), and only in a session at least five seconds old when it was raised. */
  lemma {:induction false} WarningSetShape(bind: bool, t: seq<Event>)
    requires Timely(t)
    ensures WarningsOk(Run(bind, t), LastReading(t))
    ensures Run(bind, t).warnings != {} ==> EvaluatedLate(bind, t)
  {
    if t != [] {
      var u, e := t[..|t| - 1], t[|t| - 1];
      WarningSetShape(bind, u);
      WarningsOkStep(Run(bind, u), LastReading(u), e);
    }
    if Run(bind, t).warnings != {} {
      WarningsAreRaisedLate(bind, t);
    }
  }

  lemma WarningsOkStep(s: State, now: nat, e: Event)
    requires WarningsOk(s, now) && now <= e.first <= e.second <= e.third
    ensures WarningsOk(Step(s, e), e.third)
  {
    StepSession(s, e);
    StepWarnings(s, e);
    var s' := Step(s, e);
    ConditionsExclusive(s.role, s.bind, s'.device, s'.host1, s'.host2);
  }

  // ---------- at most four changes in a session ----------

  // The sets that evaluations installed since the last session start, in order.
  ghost function SessionChanges(bind: bool, t: seq<Event>): seq<set<Warning>> {
    if t == [] then []
    else
      var u, e := t[..|t| - 1], t[|t| - 1];
      if StartsSession(bind, u, e) then []
      else if WarningsAfter(bind, t) == WarningsAfter(bind, u) then SessionChanges(bind, u)
      else SessionChanges(bind, u) + [WarningsAfter(bind, t)]
  }

  // The longest sequence of changes a session of each role can see.
  function Pattern(role: PortDataRole): seq<set<Warning>> {
    match role
    case NONE => []
    case DEVICE => [{ENUMERATION_FAIL}, {}, {FLAKY_CONNECTION}, {}]
    case HOST => [{MISSING_DATA_LINES}, {}, {ENUMERATION_FAIL}, {}]
  }

  ghost predicate FollowsPattern(role: PortDataRole, cs: seq<set<Warning>>) {
    cs <= Pattern(role) || (role != NONE && cs <= Pattern(role)[2..])
  }

  // What the logs must look like after k changes of the pattern.
  ghost predicate DevicePhase(s: State, k: nat, now: nat) {
    var configured := Count(s.device.states, CONFIGURED);
    match k
    case 0 => s.warnings == {}
    case 1 =>
      && s.warnings == {ENUMERATION_FAIL}
      && configured == 0 && Count(s.device.states, DEFAULT_STATE) > ENUM_FAIL_DEFAULT_COUNT_THRESHOLD
      && now - s.start >= SURFACE_DELAY
    case 2 => s.warnings == {} && (configured > 0 || !s.bind)
    case 3 =>
      && s.warnings == {FLAKY_CONNECTION}
      && configured > DEVICE_FLAKY_CONNECTION_CONFIGURED_COUNT_THRESHOLD
      && now - s.start >= SURFACE_DELAY
    case _ => s.warnings == {} && !s.bind
  }

  // The facts about the two host logs that the host conditions depend on.
  ghost predicate HostConfigured(s: State) {
    Count(s.host1.states, CONFIGURED) > 0 || Count(s.host2.states, CONFIGURED) > 0
  }

  ghost predicate HostFailing(s: State) {
    || Count(s.host1.states, DEFAULT_STATE) > ENUM_FAIL_DEFAULT_COUNT_THRESHOLD
    || Count(s.host2.states, DEFAULT_STATE) > ENUM_FAIL_DEFAULT_COUNT_THRESHOLD
  }

  ghost predicate HostSilent(s: State) {
    s.host1.states == s.host2.states == [NOT_ATTACHED]
  }

  ghost predicate HostSpoke(s: State) {
    |s.host1.states| > 1 || |s.host2.states| > 1
  }

  ghost predicate HostPhase(s: State, k: nat, now: nat) {
    match k
    case 0 => s.warnings == {}
    case 1 => s.warnings == {MISSING_DATA_LINES} && HostSilent(s) && now - s.start >= SURFACE_DELAY
    case 2 => s.warnings == {} && HostSpoke(s)
    case 3 =>
      && s.warnings == {ENUMERATION_FAIL} && !HostConfigured(s) && HostFailing(s)
      && now - s.start >= SURFACE_DELAY
    case _ => s.warnings == {} && HostConfigured(s)
  }

  lemma HostConditions(s: State)
    requires s.role == HOST
    ensures Conditions(s.role, s.bind, s.device, s.host1, s.host2) ==
            if HostSilent(s) then {MISSING_DATA_LINES}
            else if !HostConfigured(s) && HostFailing(s) then {ENUMERATION_FAIL} else {}
    ensures HostSpoke(s) ==> !HostSilent(s)
  {
    CountBound(s.host1.states, NOT_ATTACHED, DEFAULT_STATE);
    CountBound(s.host2.states, NOT_ATTACHED, DEFAULT_STATE);
  }

  // What one event of a session does to the states of one port.
  lemma LogGrows(s: State, e: Event, p: Port)
    requires !Starts(s.role, s.bind, e)
    ensures var old_, new_ := s.LogOf(p).states, Step(s, e).LogOf(p).states;
            && (new_ == old_ || (|new_| == |old_| + 1 && old_ <= new_))
            && Count(old_, CONFIGURED) <= Count(new_, CONFIGURED)
            && Count(old_, DEFAULT_STATE) <= Count(new_, DEFAULT_STATE) <= |new_|
  {
    StepLogs(s, e);
    assert Step(s, e).LogOf(p) == Extend(s.LogOf(p), e, p);
    if Logs(e, p) {
      CountPush(s.LogOf(p).states, e.input.text, CONFIGURED);
      CountPush(s.LogOf(p).states, e.input.text, DEFAULT_STATE);
    }
    CountBound(Step(s, e).LogOf(p).states, DEFAULT_STATE, "");
  }

  lemma OneLogGrows(s: State, e: Event)
    requires !Starts(s.role, s.bind, e)
    ensures Step(s, e).host1.states == s.host1.states || Step(s, e).host2.states == s.host2.states
  {
    StepLogs(s, e);
    forall p ensures Step(s, e).LogOf(p) == Extend(s.LogOf(p), e, p) {}
    assert Step(s, e).LogOf(Host1Port) == Step(s, e).host1;
    assert Step(s, e).LogOf(Host2Port) == Step(s, e).host2;
  }

  lemma HostLogsGrow(s: State, e: Event)
    requires s.role == HOST && !Starts(s.role, s.bind, e)
    ensures HostConfigured(s) ==> HostConfigured(Step(s, e))
    ensures HostFailing(s) ==> HostFailing(Step(s, e))
    ensures HostSpoke(s) ==> HostSpoke(Step(s, e))
    ensures HostSilent(s) ==> HostSilent(Step(s, e)) || (HostSpoke(Step(s, e)) && !HostFailing(Step(s, e)))
  {
    LogGrows(s, e, Host1Port);
    LogGrows(s, e, Host2Port);
    OneLogGrows(s, e);
  }

  ghost predicate InPhase(s: State, k: nat, now: nat) {
    && s.start <= now
    && k <= 4
    && (s.role == NONE ==> k == 0 && s.warnings == {})
    && (s.role == DEVICE ==> DevicePhase(s, k, now))
    && (s.role == HOST ==> HostPhase(s, k, now))
  }

  // Within a session an event either keeps the warnings and the phase, or moves to the next phase,
  // except that the first phase may be skipped on the way to the third.
  ghost predicate Advances(k: nat, s: State, k': nat, s': State) {
    if s'.warnings == s.warnings then k' == k
    else
      && (k' == k + 1 || (k == 0 && k' == 3))
      && 1 <= k' <= |Pattern(s.role)|
      && s'.warnings == Pattern(s.role)[k' - 1]
  }

  lemma DevicePhaseStep(s: State, k: nat, now: nat, e: Event) returns (k': nat)
    requires s.role == DEVICE && InPhase(s, k, now)
    requires now <= e.first <= e.second <= e.third
    requires !Starts(s.role, s.bind, e)
    ensures InPhase(Step(s, e), k', e.third) && Advances(k, s, k', Step(s, e))
  {
    var s' := Step(s, e);
    StepSession(s, e);
    StepLogs(s, e);
    StepWarnings(s, e);
    var states := s.device.states;
    assert s'.LogOf(DevicePort) == Extend(s.LogOf(DevicePort), e, DevicePort);
    if Logs(e, DevicePort) {
      CountPush(states, e.input.text, CONFIGURED);
      CountPush(states, e.input.text, DEFAULT_STATE);
    }
    k' := if s'.warnings == s.warnings then k
          else if s'.warnings == {FLAKY_CONNECTION} then 3
          else k + 1;
  }

  lemma HostPhaseStep(s: State, k: nat, now: nat, e: Event) returns (k': nat)
    requires s.role == HOST && InPhase(s, k, now)
    requires now <= e.first <= e.second <= e.third
    requires !Starts(s.role, s.bind, e)
    ensures InPhase(Step(s, e), k', e.third) && Advances(k, s, k', Step(s, e))
  {
    var s' := Step(s, e);
    StepSession(s, e);
    StepWarnings(s, e);
    HostLogsGrow(s, e);
    HostConditions(s);
    HostConditions(s');
    k' := if s'.warnings == s.warnings then k
          else if s'.warnings == {ENUMERATION_FAIL} then 3
          else k + 1;
  }

  // The changes that lead to phase k.
  ghost predicate Reached(role: PortDataRole, cs: seq<set<Warning>>, k: nat) {
    k <= |Pattern(role)| && (cs == Pattern(role)[..k] || (k >= 3 && cs == Pattern(role)[2..k]))
  }

  lemma SessionChangesSnoc(bind: bool, u: seq<Event>, e: Event, s: State)
    requires s == Run(bind, u)
    ensures SessionChanges(bind, u + [e]) ==
            if Starts(s.role, s.bind, e) then []
            else if Step(s, e).warnings == s.warnings then SessionChanges(bind, u)
            else SessionChanges(bind, u) + [Step(s, e).warnings]
  {
    assert (u + [e])[..|u|] == u;
    Refinement(bind, u);
    Refinement(bind, u + [e]);
  }

  lemma ReachedStep(role: PortDataRole, cs: seq<set<Warning>>, k: nat, s: State, k': nat, s': State)
    requires s.role == role && Reached(role, cs, k) && Advances(k, s, k', s')
    ensures Reached(role, if s'.warnings == s.warnings then cs else cs + [s'.warnings], k')
  {
    var pattern := Pattern(role);
    if s'.warnings != s.warnings {
      if k' == k + 1 {
        assert pattern[..k'] == pattern[..k] + [pattern[k]];
        if k >= 3 {
          assert pattern[2..k'] == pattern[2..k] + [pattern[k]];
        }
      } else {
        assert pattern[2..3] == [pattern[2]];
      }
    }
  }

  lemma {:induction false} PhaseOfRun(bind: bool, t: seq<Event>) returns (k: nat)
    requires Timely(t)
    ensures InPhase(Run(bind, t), k, LastReading(t))
    ensures Reached(Run(bind, t).role, SessionChanges(bind, t), k)
  {
    k := 0;
    if t != [] {
      var u, e := t[..|t| - 1], t[|t| - 1];
      assert t == u + [e];
      TimelyLast(t);
      k := PhaseOfRun(bind, u);
      k := PhaseSnoc(bind, u, e, k);
    }
  }

  lemma TimelyLast(t: seq<Event>)
    requires t != [] && Timely(t)
    ensures var u, e := t[..|t| - 1], t[|t| - 1];
            Timely(u) && LastReading(u) <= e.first <= e.second <= e.third == LastReading(t)
  {}

  lemma PhaseSnoc(bind: bool, u: seq<Event>, e: Event, k: nat) returns (k': nat)
    requires InPhase(Run(bind, u), k, LastReading(u)) && Reached(Run(bind, u).role, SessionChanges(bind, u), k)
    requires LastReading(u) <= e.first <= e.second <= e.third
    ensures InPhase(Run(bind, u + [e]), k', e.third)
    ensures Reached(Run(bind, u + [e]).role, SessionChanges(bind, u + [e]), k')
  {
    var s := Run(bind, u);
    RunSnoc(bind, u, e);
    SessionChangesSnoc(bind, u, e, s);
    k' := PhaseStep(s, SessionChanges(bind, u), k, LastReading(u), e);
  }

  lemma PhaseStep(s: State, cs: seq<set<Warning>>, k: nat, now: nat, e: Event) returns (k': nat)
    requires InPhase(s, k, now) && Reached(s.role, cs, k)
    requires now <= e.first <= e.second <= e.third
    ensures InPhase(Step(s, e), k', e.third)
    ensures Reached(Step(s, e).role,
                    if Starts(s.role, s.bind, e) then []
                    else if Step(s, e).warnings == s.warnings then cs
                    else cs + [Step(s, e).warnings],
                    k')
  {
    StepSession(s, e);
    if Starts(s.role, s.bind, e) {
      StepWarnings(s, e);
      k' := 0;
    } else {
      match s.role
      case NONE => NoneKeepsQuiet(s, e); k' := 0;
      case DEVICE => k' := DevicePhaseStep(s, k, now, e); ReachedStep(s.role, cs, k, s, k', Step(s, e));
      case HOST => k' := HostPhaseStep(s, k, now, e); ReachedStep(s.role, cs, k, s, k', Step(s, e));
    }
  }

  lemma NoneKeepsQuiet(s: State, e: Event)
    requires s.role == NONE && s.warnings == {} && !Starts(s.role, s.bind, e)
    ensures Step(s, e).warnings == {}
  {
    StepWarnings(s, e);
  }

  /** However many inputs a session sees, its evaluations install a prefix of its role's pattern,
      possibly without the first two: never more than four changes. */
  lemma SessionChangesFollowPattern(bind: bool, t: seq<Event>)
    requires Timely(t)
    ensures FollowsPattern(RoleAfter(t), SessionChanges(bind, t))
    ensures |SessionChanges(bind, t)| <= 4
  {
    Refinement(bind, t);
    var k := PhaseOfRun(bind, t);
    var cs, pattern := SessionChanges(bind, t), Pattern(RoleAfter(t));
    if cs == pattern[..k] {
      assert cs <= pattern;
    } else {
      assert cs <= pattern[2..];
    }
  }

  lemma PatternDisjoint(role: PortDataRole, i: nat, j: nat)
    requires i < j < |Pattern(role)|
    ensures Pattern(role)[i] * Pattern(role)[j] == {}
  {}

  /** No warning is raised twice in a session. */
  lemma RaisedOnce(bind: bool, t: seq<Event>, i: nat, j: nat)
    requires Timely(t)
    requires i < j < |SessionChanges(bind, t)|
    ensures SessionChanges(bind, t)[i] * SessionChanges(bind, t)[j] == {}
  {
    SessionChangesFollowPattern(bind, t);
    var role, cs := RoleAfter(t), SessionChanges(bind, t);
    if cs <= Pattern(role) {
      PatternDisjoint(role, i, j);
    } else {
      PatternDisjoint(role, 2 + i, 2 + j);
    }
  }

  ghost function LastOr(cs: seq<set<Warning>>): set<Warning> {
    if cs == [] then {} else cs[|cs| - 1]
  }

  /** Since the last session start, the warning set is the last one an evaluation installed; starting
      a session emptied it without installing anything. */
  lemma {:induction false} WarningsAreLastChange(bind: bool, t: seq<Event>)
    ensures Run(bind, t).warnings == LastOr(SessionChanges(bind, t))
  {
    if t != [] {
      var u, e := t[..|t| - 1], t[|t| - 1];
      assert t == u + [e];
      WarningsAreLastChange(bind, u);
      SessionChangesSnoc(bind, u, e, Run(bind, u));
      StepWarnings(Run(bind, u), e);
    }
  }

  // What evaluations had installed when the session started.
  ghost function ChangesAtStart(bind: bool, t: seq<Event>): seq<set<Warning>> {
    Run(bind, t[..LastSession(bind, t) + 1]).changes
  }

  lemma ChangesAtStartSnoc(bind: bool, u: seq<Event>, e: Event, s: State)
    requires s == Run(bind, u)
    ensures ChangesAtStart(bind, u + [e]) ==
            if Starts(s.role, s.bind, e) then Run(bind, u + [e]).changes else ChangesAtStart(bind, u)
  {
    LastSessionSnoc(bind, u, e, s);
    TakeSnoc(u, e, LastSession(bind, u + [e]) + 1);
  }

  lemma TakeSnoc(u: seq<Event>, e: Event, n: nat)
    requires n <= |u| + 1
    ensures (u + [e])[..n] == if n <= |u| then u[..n] else u + [e]
  {}

  /** The log of installed sets grows, in a session, by exactly the session's changes. */
  lemma {:induction false} ChangesAreSessionChanges(bind: bool, t: seq<Event>)
    ensures Run(bind, t).changes == ChangesAtStart(bind, t) + SessionChanges(bind, t)
  {
    if t != [] {
      var u, e := t[..|t| - 1], t[|t| - 1];
      assert t == u + [e];
      var s := Run(bind, u);
      ChangesAreSessionChanges(bind, u);
      SessionChangesSnoc(bind, u, e, s);
      ChangesAtStartSnoc(bind, u, e, s);
      StepChanges(s, e);
      ConcatAssociative(ChangesAtStart(bind, u), SessionChanges(bind, u), [Step(s, e).warnings]);
    }
  }

  lemma LastSessionSnoc(bind: bool, u: seq<Event>, e: Event, s: State)
    requires s == Run(bind, u)
    ensures LastSession(bind, u + [e]) == if Starts(s.role, s.bind, e) then |u| else LastSession(bind, u)
  {
    Refinement(bind, u);
    SpecSnoc(bind, u, e);
  }

  lemma StepChanges(s: State, e: Event)
    ensures Step(s, e).changes ==
            if Starts(s.role, s.bind, e) || Step(s, e).warnings == s.warnings then s.changes
            else s.changes + [Step(s, e).warnings]
  {
    match e.input
    case RoleRead(text) =>
      assert OnRole(s, text, e).changes == s.changes;
    case BindRead(content) =>
      var s1 := Report(s, e.first, e.stats);
      assert s1.changes == s.changes && s1.warnings == s.warnings;
    case StateRead(port, text) =>
      var s1 := Push(s, port, text, e.first);
      assert s1.changes == s.changes && s1.warnings == s.warnings;
    case TimerRead =>
  }

  // ---------- well-formed logs ----------

  ghost predicate LogOk(log: PortLog, active: bool, start: nat, now: nat) {
    && |log.states| == |log.stamps|
    && (forall i :: 0 <= i < |log.states| ==> log.states[i] in VALID_STATES)
    && (forall i, j :: 0 <= i < j < |log.stamps| ==> log.stamps[i] <= log.stamps[j])
    && (forall i :: 0 <= i < |log.stamps| ==> log.stamps[i] <= now)
    && (active ==> forall i :: 0 <= i < |log.stamps| ==> start <= log.stamps[i])
  }

  lemma LogStep(s: State, e: Event, p: Port, now: nat)
    requires LogOk(s.LogOf(p), Owner(p) == s.role, s.start, now) && s.start <= now
    requires now <= e.first <= e.second <= e.third
    ensures var s' := Step(s, e);
            LogOk(s'.LogOf(p), Owner(p) == s'.role, s'.start, e.third) && s'.start <= e.third
  {
    StepSession(s, e);
    StepLogs(s, e);
    assert Step(s, e).LogOf(p) ==
           if Clears(s.role, s.bind, e, p) then EMPTY_LOG else Extend(s.LogOf(p), e, p);
  }

  /** In every reachable state each log pairs valid states with non-decreasing times, and the logs
      of the active role hold nothing from before the session start. */
  lemma {:induction false} LogsWellFormed(bind: bool, t: seq<Event>, p: Port)
    requires Timely(t)
    ensures var s := Run(bind, t);
            LogOk(s.LogOf(p), Owner(p) == s.role, s.start, LastReading(t)) && s.start <= LastReading(t)
  {
    if t != [] {
      var u, e := t[..|t| - 1], t[|t| - 1];
      LogsWellFormed(bind, u, p);
      LogStep(Run(bind, u), e, p, LastReading(u));
    }
  }

  // ---------- the timer ----------

  // Event e starts a session that is watched, and so arms the timer.
  ghost predicate ArmsTimer(bind: bool, t: seq<Event>, e: Event) {
    StartsSession(bind, t, e) && NextRole(RoleAfter(t), e) != NONE
  }

  ghost function LastArmed(bind: bool, t: seq<Event>): int {
    LastWhere(t, (u, e) => ArmsTimer(bind, u, e))
  }

  ghost predicate ReadDue(e: Event, deadline: nat) {
    e.input.TimerRead? && deadline <= e.first
  }

  // After t[b], the timer was read when or after it was due.
  ghost predicate DueSince(t: seq<Event>, b: int, deadline: nat) {
    exists i :: 0 <= i < |t| && b < i && ReadDue(t[i], deadline)
  }

  // The timer is due five seconds after it was last armed, and expired once it was read after that.
  ghost function TimerAfter(bind: bool, t: seq<Event>): Timer {
    var b := LastArmed(bind, t);
    if b < 0 then Idle
    else
      var deadline := t[b].third + SURFACE_DELAY;
      if DueSince(t, b, deadline) then Expired else Pending(deadline)
  }

  lemma DueSinceSnoc(u: seq<Event>, e: Event, b: int, deadline: nat)
    requires b < |u|
    ensures DueSince(u + [e], b, deadline) <==> DueSince(u, b, deadline) || ReadDue(e, deadline)
  {
    var t := u + [e];
    assert t[|u|] == e;
    if i :| 0 <= i < |u| && b < i && ReadDue(u[i], deadline) {
      assert ReadDue(t[i], deadline);
    }
  }

  lemma TimerSnoc(bind: bool, u: seq<Event>, e: Event)
    ensures TimerAfter(bind, u + [e]) ==
            if ArmsTimer(bind, u, e) then Pending(e.third + SURFACE_DELAY)
            else if TimerAfter(bind, u).Pending? && ReadDue(e, TimerAfter(bind, u).deadline) then Expired
            else TimerAfter(bind, u)
  {
    LastWhereSnoc(u, e, (u, e) => ArmsTimer(bind, u, e));
    var b := LastArmed(bind, u);
    if b >= 0 {
      DueSinceSnoc(u, e, b, u[b].third + SURFACE_DELAY);
    }
  }

  /** Over every run, the timer is what the last arming and the reads since then make it. */
  lemma {:induction false} TimerRefinement(bind: bool, t: seq<Event>)
    ensures Run(bind, t).timer == TimerAfter(bind, t)
  {
    if t != [] {
      var u, e := t[..|t| - 1], t[|t| - 1];
      assert t == u + [e];
      TimerRefinement(bind, u);
      Refinement(bind, u);
      TimerSnoc(bind, u, e);
      StepTimer(Run(bind, u), e);
    }
  }

  // The last evaluation of the session was the one a soft pulldown makes before clearing the bind flag.
  ghost predicate Lagging(bind: bool, t: seq<Event>) {
    var i := LastEvaluation(bind, t);
    i > LastSession(bind, t) && PullsDown(RoleAfter(t[..i]), BindAfter(bind, t[..i]), t[i])
  }

  lemma LaggingSnoc(bind: bool, u: seq<Event>, e: Event)
    ensures Lagging(bind, u + [e]) ==
            if StartsSession(bind, u, e) then false
            else if EvaluatesWarnings(bind, u, e) then PullsDown(RoleAfter(u), BindAfter(bind, u), e)
            else Lagging(bind, u)
  {
    var t := u + [e];
    assert t[..|u|] == u;
    SpecSnoc(bind, u, e);
    EvaluationSnoc(bind, u, e);
    var i := LastEvaluation(bind, u);
    if i >= 0 {
      assert t[..i] == u[..i];
    }
  }

  ghost predicate TimerOk(s: State, lagging: bool, now: nat) {
    && s.start <= now
    && (s.role != NONE ==> s.timer.Expired? || (s.timer.Pending? && s.timer.deadline >= s.start + SURFACE_DELAY))
    && (lagging ==> s.role == DEVICE && !s.bind)
    && (s.role != NONE && s.timer.Expired? ==>
          && now - s.start >= SURFACE_DELAY
          && s.warnings == Conditions(s.role, s.bind || lagging, s.device, s.host1, s.host2))
    && (s.role == DEVICE && !s.bind && !lagging ==> s.warnings == {})
  }

  lemma StepTimer(s: State, e: Event)
    ensures Step(s, e).timer ==
            if Starts(s.role, s.bind, e) && NextRole(s.role, e) != NONE then Pending(e.third + SURFACE_DELAY)
            else if e.input.TimerRead? && s.timer.Pending? && s.timer.deadline <= e.first then Expired
            else s.timer
  {}

  lemma TimerStep(s: State, lagging: bool, now: nat, e: Event)
    requires TimerOk(s, lagging, now)
    requires now <= e.first <= e.second <= e.third
    ensures TimerOk(Step(s, e),
                    if Starts(s.role, s.bind, e) then false
                    else if Evaluates(s.role, s.bind, e) then PullsDown(s.role, s.bind, e)
                    else lagging,
                    e.third)
  {
    StepSession(s, e);
    StepLogs(s, e);
    StepWarnings(s, e);
    StepTimer(s, e);
    var s' := Step(s, e);
    assert forall p :: s'.LogOf(p) == if Clears(s.role, s.bind, e, p) then EMPTY_LOG else Extend(s.LogOf(p), e, p);
    assert s'.LogOf(DevicePort) == s'.device;
    assert s'.LogOf(Host1Port) == s'.host1;
    assert s'.LogOf(Host2Port) == s'.host2;
  }

  /** In a host or device session the timer is armed for no earlier than five seconds after the
      start, or it has expired in this session. Once it has, the warnings are the conditions on the
      current logs and bind flag, except from a soft pulldown to the next evaluation, when they are
      still those of the bound gadget. Unbound and past that evaluation, there are none. */
  lemma {:induction false} TimerAdequacy(bind: bool, t: seq<Event>)
    requires Timely(t)
    ensures TimerOk(Run(bind, t), Lagging(bind, t), LastReading(t))
  {
    if t != [] {
      var u, e := t[..|t| - 1], t[|t| - 1];
      assert t == u + [e];
      TimerAdequacy(bind, u);
      LaggingSnoc(bind, u, e);
      Refinement(bind, u);
      TimerStep(Run(bind, u), Lagging(bind, u), LastReading(u), e);
    }
  }

  /** The comment on the soft pulldown promises that it clears the warnings. It does exactly when the
      session is young or the log, taken as if still bound, justifies none. */
  lemma PulldownClearsIff(s: State, e: Event)
    requires PullsDown(s.role, s.bind, e)
    ensures Step(s, e).warnings == {} <==>
            var configured := Count(s.device.states, CONFIGURED);
            || ElapsedSeconds(s.start, e.second) < WARNING_SURFACE_DELAY_SEC
            || (configured == 0 && Count(s.device.states, DEFAULT_STATE) <= ENUM_FAIL_DEFAULT_COUNT_THRESHOLD)
            || 0 < configured <= DEVICE_FLAKY_CONNECTION_CONFIGURED_COUNT_THRESHOLD
  {
    StepWarnings(s, e);
    StepLogs(s, e);
    assert Step(s, e).LogOf(DevicePort) == s.LogOf(DevicePort);
    if ElapsedSeconds(s.start, e.second) >= WARNING_SURFACE_DELAY_SEC {
      var w := Step(s, e).warnings;
      if Count(s.device.states, CONFIGURED) > DEVICE_FLAKY_CONNECTION_CONFIGURED_COUNT_THRESHOLD {
        assert FLAKY_CONNECTION in w;
      } else if Count(s.device.states, CONFIGURED) == 0
                && Count(s.device.states, DEFAULT_STATE) > ENUM_FAIL_DEFAULT_COUNT_THRESHOLD {
        assert ENUMERATION_FAIL in w;
      }
    }
  }

  // ---------- the lag after a soft pulldown ----------

  function At(input: Input, seconds: nat): Event {
    Event(input, seconds * NANOS_PER_SECOND, seconds * NANOS_PER_SECOND, seconds * NANOS_PER_SECOND, true)
  }

  // A bound gadget that falls back to the default state n times without being configured.
  ghost function Failing(n: nat): seq<Event> {
    if n == 0 then [At(RoleRead("device"), 0)]
    else Failing(n - 1) + [At(StateRead(DevicePort, DEFAULT_STATE), 6)]
  }

  ghost predicate FailingState(s: State, n: nat) {
    && s.role == DEVICE && s.bind && s.start == 0
    && Count(s.device.states, CONFIGURED) == 0 && Count(s.device.states, DEFAULT_STATE) == n
    && s.warnings == if n > ENUM_FAIL_DEFAULT_COUNT_THRESHOLD then {ENUMERATION_FAIL} else {}
  }

  lemma {:induction false} FailingRun(n: nat)
    ensures FailingState(Run(true, Failing(n)), n)
  {
    if n == 0 {
      FailingStart();
    } else {
      FailingRun(n - 1);
      RunSnoc(true, Failing(n - 1), At(StateRead(DevicePort, DEFAULT_STATE), 6));
      FailingStep(Run(true, Failing(n - 1)), n - 1);
    }
  }

  lemma FailingStart()
    ensures FailingState(Run(true, [At(RoleRead("device"), 0)]), 0)
  {
    var e := At(RoleRead("device"), 0);
    assert [] + [e] == [e];
    RunSnoc(true, [], e);
    assert RoleOf("device") == DEVICE by { assert |"device"| != |"host"|; }
    DeviceStart(Initial(true), e);
  }

  lemma DeviceStart(s: State, e: Event)
    requires s.role == NONE && s.bind && ChangesRole(NONE, e) && NextRole(NONE, e) == DEVICE && e.second == 0
    ensures FailingState(Step(s, e), 0)
  {
    StepSession(s, e);
    StepWarnings(s, e);
    StepLogs(s, e);
    assert Step(s, e).LogOf(DevicePort) == EMPTY_LOG;
  }

  lemma {:induction false} FailingTimely(n: nat)
    ensures Timely(Failing(n)) && Failing(n)[|Failing(n)| - 1].third <= 6 * NANOS_PER_SECOND
  {
    if n > 0 {
      FailingTimely(n - 1);
    }
  }

  lemma WitnessTimely(n: nat)
    ensures var t := Failing(n) + [At(BindRead(Some("")), 7)];
            Timely(t) && Timely(t + [At(TimerRead, 8)])
  {
    FailingTimely(n);
    var down, late := At(BindRead(Some("")), 7), At(TimerRead, 8);
    TimelySnoc(Failing(n), down);
    TimelySnoc(Failing(n) + [down], late);
  }

  lemma TimelySnoc(u: seq<Event>, e: Event)
    requires Timely(u) && LastReading(u) <= e.first <= e.second <= e.third
    ensures Timely(u + [e])
  {}

  lemma FailingStep(s: State, n: nat)
    requires FailingState(s, n)
    ensures FailingState(Step(s, At(StateRead(DevicePort, DEFAULT_STATE), 6)), n + 1)
  {
    var e := At(StateRead(DevicePort, DEFAULT_STATE), 6);
    assert DEFAULT_STATE != CONFIGURED by { assert DEFAULT_STATE[0] != CONFIGURED[0]; }
    StepSession(s, e);
    StepLogs(s, e);
    StepWarnings(s, e);
    assert Step(s, e).LogOf(DevicePort) == Extend(s.LogOf(DevicePort), e, DevicePort);
    CountPush(s.device.states, DEFAULT_STATE, CONFIGURED);
    CountPush(s.device.states, DEFAULT_STATE, DEFAULT_STATE);
  }

  /** A pulled-down gadget that was failing to enumerate still shows its warning, until the next
      evaluation. */
  lemma PulldownLagWitness(n: nat)
    requires n > ENUM_FAIL_DEFAULT_COUNT_THRESHOLD
    ensures var t := Failing(n) + [At(BindRead(Some("")), 7)];
            && Timely(t) && Run(true, t).role == DEVICE && !Run(true, t).bind
            && Run(true, t).warnings == {ENUMERATION_FAIL}
            && Timely(t + [At(TimerRead, 8)]) && Run(true, t + [At(TimerRead, 8)]).warnings == {}
  {
    FailingRun(n);
    WitnessTimely(n);
    var down, late := At(BindRead(Some("")), 7), At(TimerRead, 8);
    RunSnoc(true, Failing(n), down);
    RunSnoc(true, Failing(n) + [down], late);
    FailingPulldown(Run(true, Failing(n)), n, down, late);
  }

  lemma FailingPulldown(s: State, n: nat, down: Event, late: Event)
    requires FailingState(s, n) && n > ENUM_FAIL_DEFAULT_COUNT_THRESHOLD
    requires down == At(BindRead(Some("")), 7) && late == At(TimerRead, 8)
    ensures var s' := Step(s, down);
            s'.role == DEVICE && !s'.bind && s'.warnings == {ENUMERATION_FAIL} && Step(s', late).warnings == {}
  {
    StepSession(s, down);
    StepWarnings(s, down);
    StepLogs(s, down);
    assert Step(s, down).LogOf(DevicePort) == s.LogOf(DevicePort);
    StepWarnings(Step(s, down), late);
  }
}
