/** The state of the USB data-session monitor as a value, and what one input does to it.

    The class in DataSessionMonitor.dfy updates its fields in place and is proved against
    `Step`; DataSessionTrace.dfy then says, without reference to `Step`, what a whole run of
    inputs must have produced.
 */
module DataSession {
  import opened Common

  datatype Warning = ENUMERATION_FAIL | FLAKY_CONNECTION | MISSING_DATA_LINES

  // The three monitored state files: the gadget controller and the two host ports.
  datatype Port = DevicePort | Host1Port | Host2Port

  // The states pushed for one port and the boot-clock times at which they were pushed.
  datatype PortLog = PortLog(states: seq<string>, stamps: seq<nat>)

  // One metrics event, and the group of events handed over when a session is reported.
  datatype SessionEvent = SessionEvent(isHost: bool, end: nat, start: nat, log: PortLog)
  datatype Batch = Batch(events: seq<SessionEvent>, uploaded: bool)

  // The one-shot timer. Expired: the expiry of the last arming has been read.
  datatype Timer = Idle | Pending(deadline: nat) | Expired

  const NOT_ATTACHED := "not attached\n"
  const DEFAULT_STATE := "default\n"
  const CONFIGURED := "configured\n"
  const VALID_STATES: set<string> :=
    {NOT_ATTACHED, "attached\n", "powered\n", DEFAULT_STATE, "addressed\n", CONFIGURED, "suspended\n"}

  const NANOS_PER_SECOND := 1_000_000_000
  const WARNING_SURFACE_DELAY_SEC := 5
  const ENUM_FAIL_DEFAULT_COUNT_THRESHOLD := 3
  const DEVICE_FLAKY_CONNECTION_CONFIGURED_COUNT_THRESHOLD := 5

  // The delay after which warnings may surface, on the clock of the readings.
  const SURFACE_DELAY := WARNING_SURFACE_DELAY_SEC * NANOS_PER_SECOND

  datatype Input =
    | RoleRead(text: string)               // the data-role file changed and was read
    | BindRead(content: Option<string>)    // the gadget's function file; None if it cannot be read
    | StateRead(port: Port, text: string)  // a port's state file changed and was read
    | TimerRead                            // the timer descriptor was reported readable

  /** One pass through a handler. A handler reads the clock up to three times: `first` stamps a
      state or ends a reported session, `second` starts a session or dates an evaluation, and
      `third` is when the kernel arms the timer. `stats` says whether the stats service answers.
   */
  datatype Event = Event(input: Input, first: nat, second: nat, third: nat, stats: bool)

  datatype State = State(
    device: PortLog, host1: PortLog, host2: PortLog,
    warnings: set<Warning>, role: PortDataRole, start: nat, bind: bool, timer: Timer,
    reports: seq<Batch>,          // every batch built so far
    changes: seq<set<Warning>>)   // every new warning set an evaluation installed
  {
    function LogOf(p: Port): PortLog {
      match p
      case DevicePort => device
      case Host1Port => host1
      case Host2Port => host2
    }
  }

  const EMPTY_LOG := PortLog([], [])

  function Initial(bind: bool): State {
    State(EMPTY_LOG, EMPTY_LOG, EMPTY_LOG, {}, NONE, 0, bind, Idle, [], [])
  }

  // The role whose sessions a port's log belongs to.
  function Owner(p: Port): PortDataRole {
    if p == DevicePort then DEVICE else HOST
  }

  function RoleOf(text: string): PortDataRole {
    if text == "host" then HOST else if text == "device" then DEVICE else NONE
  }

  function Count(states: seq<string>, state: string): nat {
    if states == [] then 0
    else Count(states[..|states| - 1], state) + (if states[|states| - 1] == state then 1 else 0)
  }

  /** The warnings that the logs of a session justify once the surfacing delay has passed. */
  function Conditions(role: PortDataRole, bind: bool, device: PortLog, host1: PortLog, host2: PortLog): set<Warning> {
    match role
    case NONE => {}
    case DEVICE =>
      if !bind then {} else
      var configured := Count(device.states, CONFIGURED);
      (if configured == 0 && Count(device.states, DEFAULT_STATE) > ENUM_FAIL_DEFAULT_COUNT_THRESHOLD
       then {ENUMERATION_FAIL} else {})
      + (if configured > DEVICE_FLAKY_CONNECTION_CONFIGURED_COUNT_THRESHOLD then {FLAKY_CONNECTION} else {})
    case HOST =>
      (if && Count(host1.states, CONFIGURED) == 0
          && Count(host2.states, CONFIGURED) == 0
          && (|| Count(host1.states, DEFAULT_STATE) > ENUM_FAIL_DEFAULT_COUNT_THRESHOLD
              || Count(host2.states, DEFAULT_STATE) > ENUM_FAIL_DEFAULT_COUNT_THRESHOLD)
       then {ENUMERATION_FAIL} else {})
      + (if host1.states == [NOT_ATTACHED] && host2.states == [NOT_ATTACHED] then {MISSING_DATA_LINES} else {})
  }

  // The whole seconds of a duration, as the source's duration_cast truncates it.
  function ElapsedSeconds(start: nat, now: nat): int {
    if start <= now then (now - start) / NANOS_PER_SECOND else -((start - now) / NANOS_PER_SECOND)
  }

  function Warnings(role: PortDataRole, bind: bool, device: PortLog, host1: PortLog, host2: PortLog,
                    start: nat, now: nat): set<Warning>
  {
    if ElapsedSeconds(start, now) >= WARNING_SURFACE_DELAY_SEC
    then Conditions(role, bind, device, host1, host2)
    else {}
  }

  function StateWarnings(s: State, now: nat): set<Warning> {
    Warnings(s.role, s.bind, s.device, s.host1, s.host2, s.start, now)
  }

  function Evaluate(s: State, now: nat): State {
    var w := StateWarnings(s, now);
    if w == s.warnings then s else s.(warnings := w, changes := s.changes + [w])
  }

  function Push(s: State, p: Port, state: string, now: nat): State {
    var log := s.LogOf(p);
    var log' := PortLog(log.states + [state], log.stamps + [now]);
    match p
    case DevicePort => s.(device := log')
    case Host1Port => s.(host1 := log')
    case Host2Port => s.(host2 := log')
  }

  // A host port that saw more than the initial "not attached" is worth an event of its own.
  function SessionEvents(role: PortDataRole, device: PortLog, host1: PortLog, host2: PortLog,
                         start: nat, now: nat): seq<SessionEvent>
  {
    match role
    case NONE => []
    case DEVICE => [SessionEvent(false, now, start, device)]
    case HOST =>
      var busy :=
        (if |host1.states| > 1 then [SessionEvent(true, now, start, host1)] else [])
        + (if |host2.states| > 1 then [SessionEvent(true, now, start, host2)] else []);
      if busy == [] then [SessionEvent(true, now, start, host1)] else busy
  }

  function Report(s: State, now: nat, stats: bool): State {
    if s.role == NONE then s
    else
      var events := SessionEvents(s.role, s.device, s.host1, s.host2, s.start, now);
      s.(reports := s.reports + [Batch(events, stats)])
  }

  function NewSession(s: State, now: nat, armed: nat): State {
    var s1 := s.(warnings := {}, start := now);
    match s.role
    case NONE => s1
    case DEVICE => s1.(device := EMPTY_LOG, timer := Pending(armed + SURFACE_DELAY))
    case HOST => s1.(host1 := EMPTY_LOG, host2 := EMPTY_LOG, timer := Pending(armed + SURFACE_DELAY))
  }

  function ToRole(s: State, role: PortDataRole, first: nat, second: nat, third: nat, stats: bool): State {
    if role == s.role then s
    else
      var s1 := if s.role == HOST || (s.role == DEVICE && s.bind) then Report(s, first, stats) else s;
      NewSession(s1.(role := role), second, third)
  }

  function OnRole(s: State, text: string, e: Event): State {
    ToRole(s, RoleOf(text), e.first, e.second, e.third, e.stats)
  }

  // Pulling down evaluates before the bind flag is updated.
  function OnBind(s: State, content: Option<string>, e: Event): State {
    if content.None? || (content.value != "") == s.bind then s
    else
      var s1 :=
        if s.role != DEVICE then s
        else if s.bind then Evaluate(Report(s, e.first, e.stats), e.second)
        else NewSession(s, e.second, e.third);
      s1.(bind := !s.bind)
  }

  function OnState(s: State, p: Port, text: string, e: Event): State {
    if text in VALID_STATES then Evaluate(Push(s, p, text, e.first), e.second) else s
  }

  // The read finds an expiration only if the armed deadline has passed; the evaluation runs anyway.
  function OnTimer(s: State, e: Event): State {
    var timer := if s.timer.Pending? && s.timer.deadline <= e.first then Expired else s.timer;
    Evaluate(s.(timer := timer), e.second)
  }

  function Step(s: State, e: Event): State {
    match e.input
    case RoleRead(text) => OnRole(s, text, e)
    case BindRead(content) => OnBind(s, content, e)
    case StateRead(port, text) => OnState(s, port, text, e)
    case TimerRead => OnTimer(s, e)
  }

  lemma RoleTexts(text: string)
    ensures RoleOf(text) == HOST <==> text == "host"
    ensures RoleOf(text) == DEVICE <==> text == "device"
  {
    assert "host"[0] != "device"[0];
  }

  // ---------- what kind of event e is, given the role and bind flag before it ----------

  function NextRole(role: PortDataRole, e: Event): PortDataRole {
    if e.input.RoleRead? then RoleOf(e.input.text) else role
  }

  function NextBind(bind: bool, e: Event): bool {
    if e.input.BindRead? && e.input.content.Some? then e.input.content.value != "" else bind
  }

  predicate ChangesRole(role: PortDataRole, e: Event) {
    e.input.RoleRead? && RoleOf(e.input.text) != role
  }

  predicate PullsUp(role: PortDataRole, bind: bool, e: Event) {
    role == DEVICE && !bind && e.input.BindRead? && e.input.content.Some? && e.input.content.value != ""
  }

  predicate PullsDown(role: PortDataRole, bind: bool, e: Event) {
    role == DEVICE && bind && e.input == BindRead(Some(""))
  }

  predicate Starts(role: PortDataRole, bind: bool, e: Event) {
    ChangesRole(role, e) || PullsUp(role, bind, e)
  }

  predicate Logs(e: Event, p: Port) {
    e.input.StateRead? && e.input.port == p && e.input.text in VALID_STATES
  }

  // Event e starts a session in which port p is the one being watched.
  predicate Clears(role: PortDataRole, bind: bool, e: Event, p: Port) {
    Starts(role, bind, e) && NextRole(role, e) == Owner(p)
  }

  function Extend(log: PortLog, e: Event, p: Port): PortLog {
    if Logs(e, p) then PortLog(log.states + [e.input.text], log.stamps + [e.first]) else log
  }

  predicate Evaluates(role: PortDataRole, bind: bool, e: Event) {
    || e.input.TimerRead?
    || (e.input.StateRead? && e.input.text in VALID_STATES)
    || PullsDown(role, bind, e)
  }

  // A role change away from a host or a bound device session, or a soft pulldown.
  predicate Reports(role: PortDataRole, bind: bool, e: Event) {
    || (ChangesRole(role, e) && (role == HOST || (role == DEVICE && bind)))
    || PullsDown(role, bind, e)
  }

  lemma StepSession(s: State, e: Event)
    ensures Step(s, e).role == NextRole(s.role, e)
    ensures Step(s, e).bind == NextBind(s.bind, e)
    ensures Step(s, e).start == if Starts(s.role, s.bind, e) then e.second else s.start
  {}

  lemma StepLogs(s: State, e: Event)
    ensures forall p :: Step(s, e).LogOf(p) ==
                        if Clears(s.role, s.bind, e, p) then EMPTY_LOG else Extend(s.LogOf(p), e, p)
  {}

  lemma StepWarnings(s: State, e: Event)
    ensures Step(s, e).warnings ==
            if Starts(s.role, s.bind, e) then {}
            else if Evaluates(s.role, s.bind, e) then
              Warnings(s.role, s.bind, Step(s, e).device, Step(s, e).host1, Step(s, e).host2, s.start, e.second)
            else s.warnings
  {}

  lemma StepReports(s: State, e: Event)
    ensures Step(s, e).reports ==
            if Reports(s.role, s.bind, e) then
              s.reports + [Batch(SessionEvents(s.role, s.device, s.host1, s.host2, s.start, e.first), e.stats)]
            else s.reports
  {}

  // The state after a whole trace, with the gadget initially bound or not.
  function Run(bind: bool, t: seq<Event>): State {
    if t == [] then Initial(bind) else Step(Run(bind, t[..|t| - 1]), t[|t| - 1])
  }

  lemma RunSnoc(bind: bool, t: seq<Event>, e: Event)
    ensures Run(bind, t + [e]) == Step(Run(bind, t), e)
  {
    assert (t + [e])[..|t|] == t;
  }

  // The boot clock never runs backwards, within a handler or between handlers.
  ghost predicate Timely(t: seq<Event>) {
    && (forall i :: 0 <= i < |t| ==> t[i].first <= t[i].second <= t[i].third)
    && (forall i, j :: 0 <= i < j < |t| ==> t[i].third <= t[j].first)
  }
}
