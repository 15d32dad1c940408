/** The data-session monitor as the object it is: handlers that update fields in place.

    A ghost trace records every pass through a handler. `Valid` ties the fields to `Run` of that
    trace, so each handler's contract fixes the whole new state, and every theorem about runs is a
    theorem about the fields.
 */
module DataSessionMonitor {
  import opened Common
  import opened DataSession
  import opened DataSessionTrace
  import opened DataSessionTheorems
  import opened Uevents

  class UsbDeviceState {
    var states: seq<string>
    var timestamps: seq<nat>

    constructor ()
      ensures Log() == EMPTY_LOG
    {
      states, timestamps := [], [];
    }

    function Log(): PortLog
      reads this
    {
      PortLog(states, timestamps)
    }
  }

  const CHANGE_PREFIX := "change@"
  const BIND_PREFIX := "bind@"
  const UNBIND_PREFIX := "unbind@"

  // What one pass over a device name reads: the function file, and the clock.
  datatype Reading = Reading(content: Option<string>, first: nat, second: nat, third: nat, stats: bool)

  /** What the monitor takes from outside while it scans a uevent: which strings match the patterns of
      the devices, what the files read for the string at a position hold, and whether a port's state
      file can be registered then. */
  datatype World = World(isUdc: string -> bool, isHost: (Port, string) -> bool,
                         read: (nat, string) -> Reading, opens: (nat, Port) -> bool)

  // The input that one string of a uevent amounts to, if any.
  ghost function StringEvents(s: string, position: nat, w: World): seq<Event> {
    if w.isUdc(s) && CHANGE_PREFIX <= s
    then [BindEvent(w.read(position, s[|CHANGE_PREFIX|..]))] else []
  }

  // The inputs of all the strings of a uevent; `position` is that of the first.
  ghost function BindEvents(strings: seq<string>, position: nat, w: World): seq<Event> {
    if strings == [] then []
    else StringEvents(strings[0], position, w) + BindEvents(strings[1..], position + 1, w)
  }

  // A string has the state file of host port p registered, or dropped.
  predicate Registers(s: string, position: nat, w: World, p: Port) {
    p != DevicePort && w.isHost(p, s) && BIND_PREFIX <= s && w.opens(position, p)
  }

  predicate Drops(s: string, w: World, p: Port) {
    p != DevicePort && w.isHost(p, s) && UNBIND_PREFIX <= s
  }

  /** Which strings matter: a change event of the gadget controller leads to one read of the function
      file for the device named behind it; a bind event of a host port registers its state file if that
      can be opened, and an unbind event drops it. */
  lemma StringsMean(s: string, position: nat, w: World, p: Port)
    ensures |StringEvents(s, position, w)| <= 1
    ensures StringEvents(s, position, w) != [] <==> w.isUdc(s) && exists name :: s == "change@" + name
    ensures forall name :: w.isUdc(s) && s == "change@" + name ==>
              var r := w.read(position, name);
              StringEvents(s, position, w) == [Event(BindRead(r.content), r.first, r.second, r.third, r.stats)]
    ensures Registers(s, position, w, p) <==>
            p != DevicePort && w.isHost(p, s) && w.opens(position, p) && exists path :: s == "bind@" + path
    ensures Drops(s, w, p) <==> p != DevicePort && w.isHost(p, s) && exists path :: s == "unbind@" + path
  {
    PrefixIff(s, "change@");
    PrefixIff(s, "bind@");
    PrefixIff(s, "unbind@");
  }

  lemma PrefixIff(s: string, prefix: string)
    ensures prefix <= s <==> exists rest :: s == prefix + rest
    ensures forall rest :: s == prefix + rest ==> s[|prefix|..] == rest
  {
    if prefix <= s {
      assert s == prefix + s[|prefix|..];
    }
  }

  // The strings of a message are taken in order, each with its position.
  lemma {:induction false} BindEventsAppend(strings: seq<string>, more: seq<string>, position: nat, w: World)
    ensures BindEvents(strings + more, position, w) ==
            BindEvents(strings, position, w) + BindEvents(more, position + |strings|, w)
  {
    if strings == [] {
      assert strings + more == more;
    } else {
      var rest := strings[1..];
      assert (strings + more)[1..] == rest + more;
      BindEventsAppend(rest, more, position + 1, w);
      ConcatAssociative(StringEvents(strings[0], position, w), BindEvents(rest, position + 1, w),
                        BindEvents(more, position + 1 + |rest|, w));
    }
  }

  lemma OneEventOnly(s: string)
    ensures !(BIND_PREFIX <= s && UNBIND_PREFIX <= s)
  {
    assert BIND_PREFIX[0] != UNBIND_PREFIX[0];
  }

  // The ports whose state files are registered after one string, and after all the strings of a uevent.
  ghost function AfterString(s: string, position: nat, w: World, registered: set<Port>): set<Port> {
    set p: Port | Registers(s, position, w, p) || (p in registered && !Drops(s, w, p))
  }

  ghost function AfterStrings(strings: seq<string>, position: nat, w: World, registered: set<Port>): set<Port> {
    if strings == [] then registered
    else AfterStrings(strings[1..], position + 1, w, AfterString(strings[0], position, w, registered))
  }

  // No string from index k on drops the port.
  ghost predicate KeptFrom(strings: seq<string>, k: nat, w: World, p: Port) {
    forall j :: k <= j < |strings| ==> !Drops(strings[j], w, p)
  }

  // The string at index k registers the port, and no later one drops it.
  ghost predicate RegisteredAt(strings: seq<string>, position: nat, w: World, p: Port, k: nat) {
    k < |strings| && Registers(strings[k], position + k, w, p) && KeptFrom(strings, k + 1, w, p)
  }

  lemma OneStringOn(strings: seq<string>, position: nat, w: World, p: Port, k: nat)
    requires strings != []
    ensures KeptFrom(strings, k + 1, w, p) == KeptFrom(strings[1..], k, w, p)
    ensures RegisteredAt(strings, position, w, p, k + 1) == RegisteredAt(strings[1..], position + 1, w, p, k)
  {
    var rest := strings[1..];
    assert forall j :: 0 <= j < |rest| ==> rest[j] == strings[j + 1];
    if KeptFrom(rest, k, w, p) {
      forall j | k + 1 <= j < |strings| ensures !Drops(strings[j], w, p) {
        assert !Drops(rest[j - 1], w, p);
      }
    }
    if k < |rest| {
      assert KeptFrom(strings, k + 2, w, p) == KeptFrom(rest, k + 1, w, p) by {
        if KeptFrom(rest, k + 1, w, p) {
          forall j | k + 2 <= j < |strings| ensures !Drops(strings[j], w, p) {
            assert !Drops(rest[j - 1], w, p);
          }
        }
      }
    }
  }

  /** The state file of a port is registered after a uevent exactly if some string registered it and no
      later one dropped it, or it was registered before and none dropped it. */
  lemma {:induction false} LastStringDecides(strings: seq<string>, position: nat, w: World,
                                             registered: set<Port>, p: Port)
    ensures p in AfterStrings(strings, position, w, registered) <==>
            || (p in registered && KeptFrom(strings, 0, w, p))
            || exists k: nat :: RegisteredAt(strings, position, w, p, k)
  {
    if strings != [] {
      var s, rest, next := strings[0], strings[1..], position + 1;
      LastStringDecides(rest, next, w, AfterString(s, position, w, registered), p);
      OneStringOn(strings, position, w, p, 0);
      assert KeptFrom(strings, 0, w, p) <==> !Drops(s, w, p) && KeptFrom(strings, 1, w, p);
      if k: nat :| RegisteredAt(rest, next, w, p, k) {
        OneStringOn(strings, position, w, p, k);
        assert RegisteredAt(strings, position, w, p, k + 1);
      }
      if k: nat :| RegisteredAt(strings, position, w, p, k) && k > 0 {
        OneStringOn(strings, position, w, p, k - 1);
        assert RegisteredAt(rest, next, w, p, k - 1);
      }
      assert RegisteredAt(strings, position, w, p, 0) <==>
             Registers(s, position, w, p) && KeptFrom(rest, 0, w, p);
    }
  }

  // What is still to come of a message at cursor cp is what its next string does, and then the rest.
  lemma MessageStep(m: seq<char>, cp: nat, next: nat, position: nat, w: World, registered: set<Port>)
    requires cp < next - 1 < |m| && m[next - 1] == NUL && NUL !in m[cp..next - 1]
    ensures BindEvents(Strings(m[cp..]), position, w) ==
            StringEvents(m[cp..next - 1], position, w) + BindEvents(Strings(m[next..]), position + 1, w)
    ensures AfterStrings(Strings(m[cp..]), position, w, registered) ==
            AfterStrings(Strings(m[next..]), position + 1, w,
                         AfterString(m[cp..next - 1], position, w, registered))
  {
    ScanStep(m, cp, next);
    var strings := Strings(m[cp..]);
    assert strings[0] == m[cp..next - 1] && strings[1..] == Strings(m[next..]);
  }

  function BindEvent(r: Reading): Event {
    Event(BindRead(r.content), r.first, r.second, r.third, r.stats)
  }

  // The descriptors that the monitor's thread waits on: the ports whose state files are among them.
  class Epoll {
    var registered: set<Port>

    constructor (present: set<Port>)
      ensures registered == present
    {
      registered := present;
    }
  }

  class UsbDataSessionMonitor {
    const mEpoll: Epoll
    const mDeviceState: UsbDeviceState
    const mHost1State: UsbDeviceState
    const mHost2State: UsbDeviceState
    const warningFlag: bool   // enable_report_usb_data_compliance_warning
    const hasCallback: bool   // a port-status callback was given
    var mWarningSet: set<Warning>
    var mDataRole: PortDataRole
    var mDataSessionStart: nat
    var mUdcBind: bool
    var mTimer: Timer

    ghost const initialBind: bool
    ghost var trace: seq<Event>
    ghost var reports: seq<Batch>              // the batches handed to the stats service
    ghost var changes: seq<set<Warning>>       // the sets installed by evaluations
    ghost var notices: seq<set<Warning>>       // the set in force at each callback

    ghost predicate Shape()
      reads this
    {
      && mDeviceState != mHost1State && mDeviceState != mHost2State && mHost1State != mHost2State
      && notices == if warningFlag && hasCallback then changes else []
    }

    ghost function Abs(): State
      reads this, mDeviceState, mHost1State, mHost2State
    {
      State(mDeviceState.Log(), mHost1State.Log(), mHost2State.Log(),
            mWarningSet, mDataRole, mDataSessionStart, mUdcBind, mTimer, reports, changes)
    }

    ghost predicate Valid()
      reads this, mDeviceState, mHost1State, mHost2State
    {
      Shape() && Abs() == Run(initialBind, trace)
    }

    // The gadget counts as bound if the UDC file can be read and is not empty. Of the ports' state
    // files, those that can be opened are registered.
    constructor (udc: Option<string>, present: set<Port>, warningFlag: bool, hasCallback: bool)
      ensures Valid() && trace == [] && fresh(this)
      ensures mDataRole == NONE && mWarningSet == {} && mTimer == Idle && reports == [] && changes == []
      ensures mDeviceState.Log() == mHost1State.Log() == mHost2State.Log() == PortLog([], [])
      ensures fresh(mEpoll) && mEpoll.registered == present
      ensures fresh(mDeviceState) && fresh(mHost1State) && fresh(mHost2State)
      ensures mUdcBind == initialBind == (udc.Some? && udc.value != "")
      ensures this.warningFlag == warningFlag && this.hasCallback == hasCallback
    {
      mEpoll := new Epoll(present);
      mDeviceState := new UsbDeviceState();
      mHost1State := new UsbDeviceState();
      mHost2State := new UsbDeviceState();
      this.warningFlag, this.hasCallback := warningFlag, hasCallback;
      mWarningSet, mDataRole, mDataSessionStart, mTimer := {}, NONE, 0, Idle;
      mUdcBind := udc.Some? && udc.value != "";
      initialBind := udc.Some? && udc.value != "";
      trace, reports, changes, notices := [], [], [], [];
    }

    // ---------- the handlers ----------

    method HandleDataRoleEvent(role: string, first: nat, second: nat, third: nat, stats: bool)
      requires Valid()
      modifies this, mDeviceState, mHost1State, mHost2State
      ensures Valid() && trace == old(trace) + [Event(RoleRead(role), first, second, third, stats)]
      ensures mDataRole == HOST <==> role == "host"
      ensures mDataRole == DEVICE <==> role == "device"
    {
      RoleTexts(role);
      ChangeRole(RoleOf(role), first, second, third, stats);
      Record(Event(RoleRead(role), first, second, third, stats));
    }

    // If the role changes, the session that ends is reported and a new one set up.
    method ChangeRole(newDataRole: PortDataRole, first: nat, second: nat, third: nat, stats: bool)
      requires Shape()
      modifies this, mDeviceState, mHost1State, mHost2State
      ensures Shape() && trace == old(trace)
      ensures Abs() == ToRole(old(Abs()), newDataRole, first, second, third, stats)
    {
      if newDataRole != mDataRole {
        if mDataRole == HOST || (mDataRole == DEVICE && mUdcBind) {
          ReportUsbDataSessionMetrics(first, stats);
        }
        mDataRole := newDataRole;
        SetupNewSession(second, third);
      }
    }

    method HandleDeviceStateEvent(deviceState: UsbDeviceState, state: string, first: nat, second: nat,
                                  third: nat, stats: bool)
      requires Valid() && deviceState in {mDeviceState, mHost1State, mHost2State}
      modifies this, mDeviceState, mHost1State, mHost2State
      ensures Valid()
      ensures trace == old(trace) + [Event(StateRead(PortOf(deviceState), state), first, second, third, stats)]
    {
      if state in VALID_STATES {
        deviceState.states := deviceState.states + [state];
        deviceState.timestamps := deviceState.timestamps + [first];
        EvaluateComplianceWarning(second);
      }
      Record(Event(StateRead(PortOf(deviceState), state), first, second, third, stats));
    }

    method HandleTimerEvent(first: nat, second: nat, third: nat, stats: bool)
      requires Valid()
      modifies this, mDeviceState, mHost1State, mHost2State
      ensures Valid() && trace == old(trace) + [Event(TimerRead, first, second, third, stats)]
    {
      if mTimer.Pending? && mTimer.deadline <= first {
        mTimer := Expired;
      }
      EvaluateComplianceWarning(second);
      Record(Event(TimerRead, first, second, third, stats));
    }

    method UpdateUdcBindStatus(function_: Option<string>, first: nat, second: nat, third: nat, stats: bool)
      requires Valid()
      modifies this, mDeviceState, mHost1State, mHost2State
      ensures Valid() && trace == old(trace) + [Event(BindRead(function_), first, second, third, stats)]
    {
      if function_.Some? {
        var newUdcBind := function_.value != "";
        if newUdcBind != mUdcBind {
          if mDataRole == DEVICE {
            if mUdcBind && !newUdcBind {
              ReportUsbDataSessionMetrics(first, stats);
              EvaluateComplianceWarning(second);
            } else if !mUdcBind && newUdcBind {
              SetupNewSession(second, third);
            }
          }
          mUdcBind := newUdcBind;
        }
      }
      Record(Event(BindRead(function_), first, second, third, stats));
    }

    /** Scans one message. Each string that names the gadget controller in a change event has its bind
        status read, and each that names a host port in a bind or unbind event has its state file
        registered or dropped; nothing else in the message, and nothing behind it, matters. */
    method HandleUevent(msg: array<char>, n: int, w: World)
      requires Valid() && msg.Length == UEVENT_MSG_LEN + 2
      modifies this, mDeviceState, mHost1State, mHost2State, mEpoll, msg
      ensures Valid()
      ensures trace == old(trace) +
                       if 0 < n < 2048 then BindEvents(Strings(old(msg[..n])), 0, w) else []
      ensures mEpoll.registered ==
              if 0 < n < 2048 then AfterStrings(Strings(old(msg[..n])), 0, w, old(mEpoll.registered))
              else old(mEpoll.registered)
    {
      if n <= 0 || n >= UEVENT_MSG_LEN {
        return;
      }
      Terminate(msg, n);
      HandleStrings(msg, n, w);
    }

    // From cursor cp on, the message still leads to the trace `after` and to the registrations `registered`.
    ghost predicate ToCome(m: seq<char>, cp: nat, position: nat, w: World, after: seq<Event>, registered: set<Port>)
      requires cp <= |m|
      reads this, mEpoll
    {
      && after == trace + BindEvents(Strings(m[cp..]), position, w)
      && registered == AfterStrings(Strings(m[cp..]), position, w, mEpoll.registered)
    }

    // Scans the terminated message.
    method HandleStrings(msg: array<char>, n: nat, w: World)
      requires Valid() && n + 1 < msg.Length && msg[n] == msg[n + 1] == NUL
      modifies this, mDeviceState, mHost1State, mHost2State, mEpoll
      ensures Valid()
      ensures trace == old(trace) + BindEvents(Strings(msg[..]), 0, w)
      ensures mEpoll.registered == AfterStrings(Strings(msg[..]), 0, w, old(mEpoll.registered))
    {
      ghost var m := msg[..];
      ghost var after := trace + BindEvents(Strings(m), 0, w);
      ghost var registered := AfterStrings(Strings(m), 0, w, mEpoll.registered);
      var cp, position := 0, 0;
      assert m[cp..] == m;
      while msg[cp] != NUL
        invariant cp <= n + 1 && msg[..] == m
        invariant Valid() && ToCome(m, cp, position, w, after, registered)
        decreases n + 1 - cp
      {
        var next := Advance(msg, cp, if cp <= n then n else n + 1);
        HandleTurn(msg, cp, next, position, w, after, registered);
        cp, position := next, position + 1;
      }
      NothingToCome(m, cp, position, w, after, registered);
    }

    // One turn of the scan: the string between the cursor and the next NUL.
    method HandleTurn(msg: array<char>, cp: nat, next: nat, position: nat, w: World,
                      ghost after: seq<Event>, ghost registered: set<Port>)
      requires cp < next - 1 < msg.Length && msg[next - 1] == NUL && NUL !in msg[cp..next - 1]
      requires Valid() && ToCome(msg[..], cp, position, w, after, registered)
      modifies this, mDeviceState, mHost1State, mHost2State, mEpoll
      ensures Valid() && ToCome(msg[..], next, position + 1, w, after, registered)
    {
      ghost var m := msg[..];
      MessageStep(m, cp, next, position, w, mEpoll.registered);
      var s := msg[cp..next - 1];
      assert s == m[cp..next - 1];
      HandleString(s, position, w, BindEvents(Strings(m[next..]), position + 1, w));
    }

    lemma NothingToCome(m: seq<char>, cp: nat, position: nat, w: World, after: seq<Event>, registered: set<Port>)
      requires cp < |m| && m[cp] == NUL && ToCome(m, cp, position, w, after, registered)
      ensures trace == after && mEpoll.registered == registered
    {
      assert Strings(m[cp..]) == [];
    }

    // A host port's state file comes and goes with its device.
    method RegisterHosts(s: string, position: nat, w: World)
      modifies mEpoll
      ensures mEpoll.registered == AfterString(s, position, w, old(mEpoll.registered))
    {
      var hosts := [Host1Port, Host2Port];
      for i := 0 to 2
        invariant forall p :: p in mEpoll.registered <==>
                              if p in hosts[..i] then p in AfterString(s, position, w, old(mEpoll.registered))
                              else p in old(mEpoll.registered)
      {
        var e := hosts[i];
        assert hosts[..i + 1] == hosts[..i] + [e];
        OneEventOnly(s);
        if w.isHost(e, s) {
          if BIND_PREFIX <= s {
            if w.opens(position, e) {
              mEpoll.registered := mEpoll.registered + {e};
            }
          } else if UNBIND_PREFIX <= s {
            mEpoll.registered := mEpoll.registered - {e};
          }
        }
      }
      assert hosts[..2] == hosts;
    }

    // `rest` stands for the inputs still to come from the same message.
    method HandleString(s: string, position: nat, w: World, ghost rest: seq<Event>)
      requires Valid()
      modifies this, mDeviceState, mHost1State, mHost2State, mEpoll
      ensures Valid()
      ensures trace + rest == old(trace) + (StringEvents(s, position, w) + rest)
      ensures mEpoll.registered == AfterString(s, position, w, old(mEpoll.registered))
    {
      RegisterHosts(s, position, w);
      ConcatAssociative(trace, StringEvents(s, position, w), rest);
      if w.isUdc(s) && CHANGE_PREFIX <= s {
        var r := w.read(position, s[|CHANGE_PREFIX|..]);
        UpdateUdcBindStatus(r.content, r.first, r.second, r.third, r.stats);
      }
    }

    /** Appends the warnings in force, each once, if the caller asks about the current role. */
    method GetComplianceWarnings(role: PortDataRole, warnings: seq<Warning>) returns (r: seq<Warning>)
      ensures warnings <= r
      ensures multiset(r[|warnings|..]) ==
              if warningFlag && role == mDataRole && role != NONE then multiset(mWarningSet) else multiset{}
    {
      r := warnings;
      if !warningFlag || role != mDataRole || role == NONE {
        return;
      }
      var rest := mWarningSet;
      while rest != {}
        invariant rest <= mWarningSet && warnings <= r
        invariant multiset(r[|warnings|..]) == multiset(mWarningSet - rest)
        decreases rest
      {
        var w :| w in rest;
        ghost var found := r[|warnings|..];
        r, rest := r + [w], rest - {w};
        assert r[|warnings|..] == found + [w];
      }
      assert mWarningSet - rest == mWarningSet;
    }

    // ---------- their parts ----------

    ghost function PortOf(deviceState: UsbDeviceState): Port
      requires deviceState in {mDeviceState, mHost1State, mHost2State}
    {
      if deviceState == mDeviceState then DevicePort
      else if deviceState == mHost1State then Host1Port
      else Host2Port
    }

    ghost method Record(e: Event)
      requires Shape() && Abs() == Step(Run(initialBind, trace), e)
      modifies this`trace
      ensures Valid() && trace == old(trace) + [e]
    {
      RunSnoc(initialBind, trace, e);
      trace := trace + [e];
    }

    method ClearDeviceStateEvents(deviceState: UsbDeviceState)
      modifies deviceState
      ensures deviceState.Log() == EMPTY_LOG
    {
      deviceState.states := [];
      deviceState.timestamps := [];
    }

    method SetupNewSession(now: nat, armed: nat)
      requires Shape()
      modifies this, mDeviceState, mHost1State, mHost2State
      ensures Shape() && Abs() == NewSession(old(Abs()), now, armed) && trace == old(trace)
    {
      mWarningSet := {};
      mDataSessionStart := now;
      if mDataRole == DEVICE {
        ClearDeviceStateEvents(mDeviceState);
      } else if mDataRole == HOST {
        ClearDeviceStateEvents(mHost1State);
        ClearDeviceStateEvents(mHost2State);
      }
      if mDataRole != NONE {
        mTimer := Pending(armed + SURFACE_DELAY);
      }
    }

    method EvaluateComplianceWarning(now: nat)
      requires Shape()
      modifies this
      ensures Shape() && Abs() == Evaluate(old(Abs()), now) && trace == old(trace)
    {
      var newWarningSet: set<Warning> := {};
      if ElapsedSeconds(mDataSessionStart, now) >= WARNING_SURFACE_DELAY_SEC {
        if mDataRole == DEVICE && mUdcBind {
          var configuredCount := Count(mDeviceState.states, CONFIGURED);
          var defaultCount := Count(mDeviceState.states, DEFAULT_STATE);
          if configuredCount == 0 && defaultCount > ENUM_FAIL_DEFAULT_COUNT_THRESHOLD {
            newWarningSet := newWarningSet + {ENUMERATION_FAIL};
          }
          if configuredCount > DEVICE_FLAKY_CONNECTION_CONFIGURED_COUNT_THRESHOLD {
            newWarningSet := newWarningSet + {FLAKY_CONNECTION};
          }
        } else if mDataRole == HOST {
          var host1ConfiguredCount := Count(mHost1State.states, CONFIGURED);
          var host1DefaultCount := Count(mHost1State.states, DEFAULT_STATE);
          var host2ConfiguredCount := Count(mHost2State.states, CONFIGURED);
          var host2DefaultCount := Count(mHost2State.states, DEFAULT_STATE);
          if && host1ConfiguredCount == 0 && host2ConfiguredCount == 0
             && (|| host1DefaultCount > ENUM_FAIL_DEFAULT_COUNT_THRESHOLD
                 || host2DefaultCount > ENUM_FAIL_DEFAULT_COUNT_THRESHOLD) {
            newWarningSet := newWarningSet + {ENUMERATION_FAIL};
          }
          if && |mHost1State.states| == 1 && mHost1State.states[0] == NOT_ATTACHED
             && |mHost2State.states| == 1 && mHost2State.states[0] == NOT_ATTACHED {
            newWarningSet := newWarningSet + {MISSING_DATA_LINES};
          }
        }
      }
      assert newWarningSet == StateWarnings(Abs(), now);
      if newWarningSet != mWarningSet {
        mWarningSet := newWarningSet;
        changes := changes + [newWarningSet];
        NotifyComplianceWarning();
      }
    }

    method NotifyComplianceWarning()
      modifies this`notices
      ensures notices == if warningFlag && hasCallback then old(notices) + [mWarningSet] else old(notices)
    {
      if warningFlag && hasCallback {
        notices := notices + [mWarningSet];
      }
    }

    method ReportUsbDataSessionMetrics(now: nat, stats: bool)
      requires Shape()
      modifies this`reports
      ensures Abs() == Report(old(Abs()), now, stats)
    {
      var events: seq<SessionEvent> := [];
      if mDataRole == DEVICE {
        events := events + [SessionEvent(false, now, mDataSessionStart, mDeviceState.Log())];
      } else if mDataRole == HOST {
        var empty := true;
        var hosts := [mHost1State, mHost2State];
        for i := 0 to 2
          invariant events == (if i > 0 then HostEvent(mHost1State, now) else [])
                              + (if i > 1 then HostEvent(mHost2State, now) else [])
          invariant empty <==> events == []
        {
          if |hosts[i].states| > 1 {
            events := events + [SessionEvent(true, now, mDataSessionStart, hosts[i].Log())];
            empty := false;
          }
        }
        if empty {
          events := events + [SessionEvent(true, now, mDataSessionStart, mHost1State.Log())];
        }
      } else {
        return;
      }
      assert events == SessionEvents(mDataRole, mDeviceState.Log(), mHost1State.Log(), mHost2State.Log(),
                                     mDataSessionStart, now);
      reports := reports + [Batch(events, stats)];
    }

    ghost function HostEvent(host: UsbDeviceState, now: nat): seq<SessionEvent>
      reads this, host
    {
      if |host.states| > 1 then [SessionEvent(true, now, mDataSessionStart, host.Log())] else []
    }

    // ---------- what the fields then are ----------

    /** The fields of a monitor, whatever inputs it has seen: the session and logs of the trace, the
        warnings of the last evaluation, in their permitted shape, and callbacks for exactly the
        changes that evaluations made. */
    lemma FieldsOfTrace()
      requires Valid() && Timely(trace)
      ensures mDataRole == RoleAfter(trace) && mUdcBind == BindAfter(initialBind, trace)
      ensures mDataSessionStart == StartAfter(initialBind, trace)
      ensures mDeviceState.Log() == LogAfter(initialBind, trace, DevicePort)
      ensures mHost1State.Log() == LogAfter(initialBind, trace, Host1Port)
      ensures mHost2State.Log() == LogAfter(initialBind, trace, Host2Port)
      ensures mWarningSet == WarningsAfter(initialBind, trace)
      ensures |mWarningSet| <= 1 && mWarningSet <= RoleWarnings(mDataRole)
      ensures warningFlag && hasCallback ==>
                notices == ChangesAtStart(initialBind, trace) + SessionChanges(initialBind, trace)
    {
      Refinement(initialBind, trace);
      WarningSetShape(initialBind, trace);
      ChangesAreSessionChanges(initialBind, trace);
    }
  }
}
