/** Turning USB data signaling on and off, and what a port query then reports. */
module UsbData {
  import opened Common
  import opened PortRoles

  const GADGET_NAME := "11110000.dwc3"

  /** One call of enableUsbData with the answers of the files it touches: the pull-up file's text (None
      if unreadable), and whether each write is accepted. */
  datatype Call = Call(enable: bool, pullup: Option<string>, pullupWrite: bool, idWrite: bool,
                       vbusWrite: bool, dataWrite: bool)
  {
    predicate PulledUp() {
      pullup.Some? && Trim(pullup.value) == GADGET_NAME
    }

    predicate NothingFails() {
      pullupWrite && idWrite && vbusWrite && dataWrite
    }
  }

  // mUsbDataEnabled, and the text usb_data_enabled was last given.
  datatype DataState = DataState(enabled: bool, node: string)

  // A write other than that of usb_data_enabled is refused.
  predicate OtherRefused(c: Call) {
    if c.enable then c.pullup.Some? && !c.PulledUp() && !c.pullupWrite
    else (c.PulledUp() && !c.pullupWrite) || !c.idWrite || !c.vbusWrite
  }

  // The call reports success; enabling what is thought to be enabled does nothing.
  predicate Succeeds(enabled: bool, c: Call) {
    (c.enable && enabled) || (c.dataWrite && !OtherRefused(c))
  }

  // The call gets a text into usb_data_enabled.
  predicate WritesData(enabled: bool, c: Call) {
    (c.enable ==> !enabled) && c.dataWrite
  }

  function AfterCall(s: DataState, c: Call): DataState {
    DataState(if Succeeds(s.enabled, c) then c.enable else s.enabled,
              if !WritesData(s.enabled, c) then s.node else if c.enable then "1" else "0")
  }

  function AfterCalls(s: DataState, calls: seq<Call>): DataState {
    if calls == [] then s else AfterCall(AfterCalls(s, calls[..|calls| - 1]), calls[|calls| - 1])
  }

  const AT_BOOT := DataState(true, "1")

  predicate Agrees(s: DataState) {
    s.enabled <==> s.node == "1"
  }

  lemma OneIsNotZero()
    ensures "1" != "0"
  {
    assert "1"[0] != "0"[0];
  }

  // The call asks for a change and changes the file, but another write is refused: the flag stays.
  predicate Splits(enabled: bool, c: Call) {
    enabled != c.enable && c.dataWrite && OtherRefused(c)
  }

  /** A call that reaches the file leaves flag and file in agreement exactly if it does not split
      them, whatever they said before; any other call changes neither. */
  lemma AgreementKeptIff(s: DataState, c: Call)
    ensures Agrees(AfterCall(s, c)) <==> if WritesData(s.enabled, c) then !Splits(s.enabled, c) else Agrees(s)
    ensures WritesData(s.enabled, c) <==> c.dataWrite && !(c.enable && s.enabled)
    ensures Splits(s.enabled, c) <==>
            var pulledUp := c.pullup.Some? && Trim(c.pullup.value) == "11110000.dwc3";
            && c.dataWrite && c.enable != s.enabled
            && if c.enable then c.pullup.Some? && !pulledUp && !c.pullupWrite
               else (pulledUp && !c.pullupWrite) || !c.idWrite || !c.vbusWrite
  {
    OneIsNotZero();
  }

  // What mUsbDataEnabled says before call i.
  function FlagBefore(calls: seq<Call>, i: nat): bool
    requires i <= |calls|
  {
    AfterCalls(AT_BOOT, calls[..i]).enabled
  }

  ghost predicate WritesAt(calls: seq<Call>, i: nat)
    requires i < |calls|
  {
    WritesData(FlagBefore(calls, i), calls[i])
  }

  ghost predicate SplitsAt(calls: seq<Call>, i: nat)
    requires i < |calls|
  {
    Splits(FlagBefore(calls, i), calls[i])
  }

  // The last call that reached the file, or -1.
  ghost function LastWrite(calls: seq<Call>): (i: int)
    ensures -1 <= i < |calls|
  {
    if calls == [] then -1
    else
      var n := |calls| - 1;
      if WritesAt(calls, n) then n else LastWrite(calls[..n])
  }

  // Call i stands in the same place of a sequence cut off behind it.
  lemma CutBehind(calls: seq<Call>, n: nat, i: nat)
    requires i < n <= |calls|
    ensures WritesAt(calls[..n], i) == WritesAt(calls, i)
    ensures SplitsAt(calls[..n], i) == SplitsAt(calls, i)
  {
    assert calls[..n][..i] == calls[..i];
  }

  lemma {:induction false} LastWriteIsLast(calls: seq<Call>)
    ensures var i := LastWrite(calls);
            && (i >= 0 ==> WritesAt(calls, i))
            && (forall k :: i < k < |calls| ==> !WritesAt(calls, k))
  {
    if calls != [] {
      var n := |calls| - 1;
      LastWriteIsLast(calls[..n]);
      forall k | 0 <= k < n ensures WritesAt(calls[..n], k) == WritesAt(calls, k) {
        CutBehind(calls, n, k);
      }
    }
  }

  /** After any calls, flag and file agree exactly if the last call that reached the file, if any, did
      not split them. */
  lemma {:induction false} AgreementIff(calls: seq<Call>)
    ensures Agrees(AfterCalls(AT_BOOT, calls)) <==> LastWrite(calls) < 0 || !SplitsAt(calls, LastWrite(calls))
  {
    OneIsNotZero();
    if calls != [] {
      var n := |calls| - 1;
      AgreementIff(calls[..n]);
      AgreementKeptIff(AfterCalls(AT_BOOT, calls[..n]), calls[n]);
      if LastWrite(calls[..n]) >= 0 {
        CutBehind(calls, n, LastWrite(calls[..n]));
      }
    }
  }

  /** Flag and file agree all along exactly if no call splits them. */
  lemma AgreementThroughoutIff(calls: seq<Call>)
    ensures (forall n :: 0 <= n <= |calls| ==> Agrees(AfterCalls(AT_BOOT, calls[..n]))) <==>
            (forall i :: 0 <= i < |calls| ==> !SplitsAt(calls, i))
  {
    if i :| 0 <= i < |calls| && SplitsAt(calls, i) {
      SplitShows(calls, i);
    } else {
      forall n | 0 <= n <= |calls| ensures Agrees(AfterCalls(AT_BOOT, calls[..n])) {
        AgreementIff(calls[..n]);
        if LastWrite(calls[..n]) >= 0 {
          CutBehind(calls, n, LastWrite(calls[..n]));
        }
      }
    }
  }

  lemma SplitShows(calls: seq<Call>, i: nat)
    requires i < |calls| && SplitsAt(calls, i)
    ensures !Agrees(AfterCalls(AT_BOOT, calls[..i + 1]))
  {
    assert calls[..i + 1][..i] == calls[..i];
    AgreementKeptIff(AfterCalls(AT_BOOT, calls[..i]), calls[i]);
  }

  /** If no write ever fails, the flag always says what the file was last given, and what the last call
      asked for. */
  lemma {:induction false} AgreementWithoutFailures(calls: seq<Call>)
    requires forall i :: 0 <= i < |calls| ==> calls[i].NothingFails()
    ensures var s := AfterCalls(AT_BOOT, calls);
            && Agrees(s)
            && (calls != [] ==> s.enabled == calls[|calls| - 1].enable)
  {
    AgreementIff(calls);
    if calls != [] {
      AgreementWithoutFailures(calls[..|calls| - 1]);
    }
  }

  /** After a disable that failed only elsewhere, no number of enable calls turns data back on, though
      each reports success. */
  lemma {:induction false} StuckOff(s: DataState, c: Call, retries: seq<Call>)
    requires s.enabled && Splits(s.enabled, c)
    requires forall i :: 0 <= i < |retries| ==> retries[i].enable
    ensures var stuck := AfterCalls(AfterCall(s, c), retries);
            && stuck.node == "0" && stuck.enabled
            && forall retry: Call :: retry.enable ==> Succeeds(stuck.enabled, retry)
  {
    if retries != [] {
      StuckOff(s, c, retries[..|retries| - 1]);
    }
  }

  // ---------- port queries ----------

  datatype UsbDataStatus = ENABLED | DISABLED_DOCK | DISABLED_FORCE

  datatype PowerBrickStatus = UNKNOWN | CONNECTED | NOT_CONNECTED

  datatype PortStatus = PortStatus(portName: string, power: PowerRole, data: PortDataRole, mode: Mode,
                                   canChangeMode: bool, canChangeDataRole: bool, canChangePowerRole: bool,
                                   supportedModes: seq<Mode>, usbDataStatus: seq<UsbDataStatus>,
                                   brick: Option<PowerBrickStatus>)   // None: as constructed

  const BLANK := PortStatus("", PowerNone, NONE, ModeNone, false, false, false, [], [], None)

  /** What the reads of one port's files find, None when unreadable, the accessory mode trimmed. The
      data role is read once for itself and once more for the mode, and power delivery is looked up
      once for each role; the kernel may change either file in between. */
  datatype PortFiles = PortFiles(powerRole: Option<string>, dataRole: Option<string>,
                                 accessory: Option<string>, dataRoleAgain: Option<string>,
                                 supportsPd: Option<string>, supportsPdAgain: Option<string>,
                                 pogoActive: Option<string>, usbType: Option<string>)

  // The program aborts if a role file names a role of another kind, by reading the union amiss, or if
  // pogo_usb_active holds no number.
  datatype Outcome = Done | Failed | Aborted

  function PowerRead(connected: bool, f: PortFiles): (Status, PortRole) {
    CurrentRole(Power(PowerNone), connected, f.accessory, f.powerRole)
  }

  function DataRead(connected: bool, f: PortFiles): (Status, PortRole) {
    CurrentRole(Data(NONE), connected, f.accessory, f.dataRole)
  }

  function ModeRead(connected: bool, f: PortFiles): (Status, PortRole) {
    CurrentRole(InMode(ModeNone), connected, f.accessory, f.dataRoleAgain)
  }

  // The first of a port's three roles that cannot be had decides.
  function RolesOutcome(connected: bool, f: PortFiles): Outcome {
    var (powerStatus, power) := PowerRead(connected, f);
    var (dataStatus, data) := DataRead(connected, f);
    var (modeStatus, mode) := ModeRead(connected, f);
    if powerStatus != SUCCESS then Failed
    else if !power.Power? then Aborted
    else if dataStatus != SUCCESS then Failed
    else if !data.Data? then Aborted
    else if modeStatus != SUCCESS then Failed
    else if !mode.InMode? then Aborted
    else Done
  }

  predicate IsDigit(c: char) {
    '0' <= c <= '9'
  }

  // The number that the digits at the start of s spell after `value`, up to the first other character.
  function Decimal(s: string, value: nat): nat {
    if s == "" || !IsDigit(s[0]) then value else Decimal(s[1..], 10 * value + (s[0] - '0') as nat)
  }

  // std::stoi: blanks, a sign, digits; None where it throws.
  function Stoi(s: string): Option<int> {
    var t := TrimStart(s);
    var digits := if t != "" && t[0] in "+-" then t[1..] else t;
    if digits == "" || !IsDigit(digits[0]) then None
    else
      var value: int := Decimal(digits, 0);
      var n := if t[0] == '-' then -value else value;
      if -0x8000_0000 <= n < 0x8000_0000 then Some(n) else None
  }

  function PogoNumber(f: PortFiles): Option<int> {
    if f.pogoActive.None? then Some(0) else Stoi(Trim(f.pogoActive.value))
  }

  predicate Docked(f: PortFiles) {
    PogoNumber(f) == Some(1)
  }

  // How far the query gets with a port.
  function EntryOutcome(connected: bool, f: PortFiles): Outcome {
    if RolesOutcome(connected, f) == Done && PogoNumber(f).None? then Aborted else RolesOutcome(connected, f)
  }

  predicate CanSwitchRole(supportsPd: Option<string>) {
    supportsPd.Some? && Trim(supportsPd.value) == "yes"
  }

  // The power brick of a connected port that takes power is told from usb_type, if that can be read.
  function Brick(connected: bool, power: PowerRole, usbType: Option<string>): Option<PowerBrickStatus> {
    if !connected || power == Source then Some(NOT_CONNECTED)
    else if usbType.None? then None
    else if Contains(usbType.value, "[D") then Some(CONNECTED)
    else if Contains(usbType.value, "[U") then Some(UNKNOWN)
    else Some(NOT_CONNECTED)
  }

  // What a port's entry says when all its roles can be had.
  ghost predicate Reports(st: PortStatus, name: string, connected: bool, f: PortFiles, enabled: bool) {
    && st.portName == name
    && (SUCCESS, Power(st.power)) == PowerRead(connected, f)
    && (SUCCESS, Data(st.data)) == DataRead(connected, f)
    && (SUCCESS, InMode(st.mode)) == ModeRead(connected, f)
    && st.canChangeMode && st.supportedModes == [Drp]
    && (st.canChangeDataRole <==> connected && CanSwitchRole(f.supportsPd))
    && (st.canChangePowerRole <==> connected && CanSwitchRole(f.supportsPdAgain))
    && (ENABLED in st.usbDataStatus <==> enabled && !Docked(f))
    && (DISABLED_DOCK in st.usbDataStatus <==> Docked(f))
    && (DISABLED_FORCE in st.usbDataStatus <==> !enabled)
    && |st.usbDataStatus| == (if Docked(f) && !enabled then 2 else 1)
    && st.brick == Brick(connected, st.power, f.usbType)
  }

  // The query stopped at port k.
  ghost predicate StopsAt(r: seq<PortStatus>, ports: seq<(string, bool)>, files: nat -> PortFiles,
                          enabled: bool, k: nat)
  {
    && |r| == |ports| && k < |ports|
    && (forall i :: 0 <= i < k ==> Reports(r[i], ports[i].0, ports[i].1, files(i), enabled))
    && EntryOutcome(ports[k].1, files(k)) != Done
    && r[k].portName == ports[k].0 && r[k].usbDataStatus == []
    && (forall i :: k < i < |r| ==> r[i] == BLANK)
  }

  // The query went through, or stopped at some port with this outcome.
  ghost predicate Queried(outcome: Outcome, r: seq<PortStatus>, ports: seq<(string, bool)>,
                          files: nat -> PortFiles, enabled: bool)
  {
    && |r| == |ports|
    && (outcome == Done ==>
          forall i :: 0 <= i < |ports| ==> Reports(r[i], ports[i].0, ports[i].1, files(i), enabled))
    && (outcome != Done ==>
          exists k: nat :: StopsAt(r, ports, files, enabled, k) && outcome == EntryOutcome(ports[k].1, files(k)))
    && (outcome == Done <==> forall i :: 0 <= i < |ports| ==> EntryOutcome(ports[i].1, files(i)) == Done)
  }

  // The decimal numeral of n.
  function Digits(n: nat): string {
    if n < 10 then ['0' + n as char] else Digits(n / 10) + ['0' + (n % 10) as char]
  }

  lemma {:induction false} DecimalThen(a: string, b: string, value: nat)
    requires forall i :: 0 <= i < |a| ==> IsDigit(a[i])
    ensures Decimal(a + b, value) == Decimal(b, Decimal(a, value))
  {
    if a == "" {
      assert a + b == b;
    } else {
      assert (a + b)[1..] == a[1..] + b;
      DecimalThen(a[1..], b, 10 * value + (a[0] - '0') as nat);
    }
  }

  lemma {:induction false} DigitsRead(n: nat)
    ensures Digits(n) != "" && forall i :: 0 <= i < |Digits(n)| ==> IsDigit(Digits(n)[i])
    ensures Decimal(Digits(n), 0) == n
  {
    var d := ['0' + (n % 10) as char];
    assert d[1..] == "";
    assert Decimal("", n) == n;
    if n >= 10 {
      DigitsRead(n / 10);
      DecimalThen(Digits(n / 10), d, 0);
      assert Decimal(d, n / 10) == Decimal(d[1..], 10 * (n / 10) + n % 10);
    } else {
      assert Decimal(d, 0) == Decimal(d[1..], n);
    }
  }

  /** stoi reads a numeral, signed or not and whatever follows it, as its number. */
  lemma StoiReads(n: nat, rest: string)
    requires n < 0x8000_0000 && (rest == "" || !IsDigit(rest[0]))
    ensures Stoi(Digits(n) + rest) == Some(n)
    ensures Stoi("-" + Digits(n) + rest) == Some(0 - n)
  {
    DigitsRead(n);
    DecimalThen(Digits(n), rest, 0);
    var s := Digits(n) + rest;
    assert s[0] == Digits(n)[0] && TrimStart(s) == s;
    var minus := "-" + Digits(n) + rest;
    assert minus[0] == '-' && minus[1..] == s && TrimStart(minus) == minus;
  }

  /** A port counts as docked if pogo_usb_active says 1, blanks around it aside, and not if it says any
      other number or cannot be read. */
  lemma DockedIff(f: PortFiles, n: nat)
    requires n < 0x8000_0000
    requires f.pogoActive.None? || Trim(f.pogoActive.value) == Digits(n)
    ensures Docked(f) <==> f.pogoActive.Some? && n == 1
  {
    StoiReads(n, "");
    assert Digits(n) + "" == Digits(n);
  }

  /** The query gets through a port exactly if each role's files can be read and hold a word of that
      role's kind, or none, and pogo_usb_active a number. It aborts only on a word of another kind or
      no number. */
  lemma EntryOutcomeIs(connected: bool, f: PortFiles)
    ensures var power, data, mode := PowerRead(connected, f), DataRead(connected, f), ModeRead(connected, f);
            && (EntryOutcome(connected, f) == Done <==>
                  && power.0 == data.0 == mode.0 == SUCCESS
                  && power.1.Power? && data.1.Data? && mode.1.InMode?
                  && (f.pogoActive.None? || Stoi(Trim(f.pogoActive.value)).Some?))
            && (EntryOutcome(connected, f) == Failed ==>
                  power.0 != SUCCESS || data.0 != SUCCESS || mode.0 != SUCCESS)
            && (EntryOutcome(connected, f) == Aborted ==>
                  || !power.1.Power? || !data.1.Data? || !mode.1.InMode?
                  || (f.pogoActive.Some? && Stoi(Trim(f.pogoActive.value)).None?))
  {}

  /** What the other parts of an entry go by: each role by its own file, what can be changed by power
      delivery, and the brick by the charger's type. */
  lemma EntryMeans(st: PortStatus, name: string, f: PortFiles, enabled: bool)
    requires Reports(st, name, true, f, enabled)
    ensures f.powerRole.Some? && f.dataRole.Some?
    ensures var word := ExtractRole(Trim(f.powerRole.value));
            && (st.power == Source <==> word == "source") && (st.power == Sink <==> word == "sink")
            && (st.power == PowerNone <==> word == "none")
    ensures var word := ExtractRole(Trim(f.dataRole.value));
            && (st.data == HOST <==> word == "host") && (st.data == DEVICE <==> word == "device")
            && (st.data == NONE <==> word == "none")
    ensures st.canChangeDataRole <==> f.supportsPd.Some? && Trim(f.supportsPd.value) == "yes"
    ensures st.canChangePowerRole <==> f.supportsPdAgain.Some? && Trim(f.supportsPdAgain.value) == "yes"
    ensures st.power == Source ==> st.brick == Some(NOT_CONNECTED)
    ensures st.power != Source ==>
              && (st.brick.None? <==> f.usbType.None?)
              && (st.brick == Some(CONNECTED) <==> f.usbType.Some? && Contains(f.usbType.value, "[D"))
              && (st.brick == Some(UNKNOWN) <==>
                    f.usbType.Some? && !Contains(f.usbType.value, "[D") && Contains(f.usbType.value, "[U"))
  {
    WordsDiffer();
  }

  /** How the roles of an entry go together. A port without a partner has none and can change none. The
      mode of a connected one is its accessory's; without an accessory it goes with the data role
      exactly if the two reads of the data-role file found the same role. */
  lemma RolesGoTogether(st: PortStatus, name: string, connected: bool, f: PortFiles, enabled: bool)
    requires Reports(st, name, connected, f, enabled)
    ensures !connected ==>
              && st.power == PowerNone && st.data == NONE && st.mode == ModeNone
              && !st.canChangeDataRole && !st.canChangePowerRole && st.brick == Some(NOT_CONNECTED)
    ensures connected ==> f.accessory.Some? && f.dataRole.Some?
    ensures connected && f.accessory.value == "analog_audio" ==> st.mode == AudioAccessory
    ensures connected && f.accessory.value == "debug" ==> st.mode == DebugAccessory
    ensures connected && f.accessory.value != "analog_audio" && f.accessory.value != "debug" ==>
              && f.dataRoleAgain.Some?
              && (st.mode == ModeOf(st.data) <==>
                  ExtractRole(Trim(f.dataRole.value)) == ExtractRole(Trim(f.dataRoleAgain.value)))
  {
    if connected {
      DataWord(f.dataRole, f.accessory, st.data);
      if f.accessory.value != "analog_audio" && f.accessory.value != "debug" {
        ModeGoesWithDataIff(f.dataRole, f.dataRoleAgain, f.accessory.value, st.data, st.mode);
      }
    }
  }

  /** If no call split flag and file, a port's entry lists ENABLED exactly when the file was last given
      "1" and the port is not docked. */
  lemma EntryTellsFile(calls: seq<Call>, st: PortStatus, name: string, connected: bool, f: PortFiles)
    requires forall i :: 0 <= i < |calls| ==> !SplitsAt(calls, i)
    requires Reports(st, name, connected, f, AfterCalls(AT_BOOT, calls).enabled)
    ensures ENABLED in st.usbDataStatus <==> AfterCalls(AT_BOOT, calls).node == "1" && !Docked(f)
  {
    AgreementIff(calls);
  }

  class Usb {
    var mUsbDataEnabled: bool
    var usbDataNode: string   // the text last accepted by usb_data_enabled

    constructor ()
      ensures State() == AT_BOOT
    {
      mUsbDataEnabled, usbDataNode := true, "1";
    }

    function State(): DataState
      reads this
    {
      DataState(mUsbDataEnabled, usbDataNode)
    }

    /** Turns data on or off, tells the callback if there is one, and queries the ports. */
    method EnableUsbData(c: Call, callback: bool, ports: seq<(string, bool)>, files: nat -> PortFiles)
      returns (notified: Option<Status>, outcome: Outcome, r: seq<PortStatus>)
      modifies this
      ensures State() == AfterCall(old(State()), c)
      // turning off: all writes that are needed, and every one of them
      ensures !c.enable ==>
                var pulledUp := c.pullup.Some? && Trim(c.pullup.value) == "11110000.dwc3";
                var done := (pulledUp ==> c.pullupWrite) && c.idWrite && c.vbusWrite && c.dataWrite;
                && (mUsbDataEnabled <==> old(mUsbDataEnabled) && !done)
                && (notified == Some(SUCCESS) <==> callback && done)
                && usbDataNode == if c.dataWrite then "0" else old(usbDataNode)
      // turning on what is off: likewise; what is on stays as it is
      ensures c.enable && !old(mUsbDataEnabled) ==>
                var pulledUp := c.pullup.Some? && Trim(c.pullup.value) == "11110000.dwc3";
                var done := (c.pullup.Some? && !pulledUp ==> c.pullupWrite) && c.dataWrite;
                && (mUsbDataEnabled <==> done)
                && (notified == Some(SUCCESS) <==> callback && done)
                && usbDataNode == if c.dataWrite then "1" else old(usbDataNode)
      ensures c.enable && old(mUsbDataEnabled) ==>
                mUsbDataEnabled && usbDataNode == old(usbDataNode) && (notified == Some(SUCCESS) <==> callback)
      ensures notified == if !callback then None
                          else Some(if Succeeds(old(mUsbDataEnabled), c) then SUCCESS else ERROR)
      ensures Queried(outcome, r, ports, files, mUsbDataEnabled)
    {
      var result := true;
      if c.enable {
        if !mUsbDataEnabled {
          if c.pullup.Some? {
            var pullup := Trim(c.pullup.value);
            if pullup != GADGET_NAME {
              if !c.pullupWrite {
                result := false;
              }
            }
          }
          if c.dataWrite {
            usbDataNode := "1";
          } else {
            result := false;
          }
        }
      } else {
        if c.pullup.Some? {
          var pullup := Trim(c.pullup.value);
          if pullup == GADGET_NAME {
            if !c.pullupWrite {
              result := false;
            }
          }
        }
        if !c.idWrite {
          result := false;
        }
        if !c.vbusWrite {
          result := false;
        }
        if c.dataWrite {
          usbDataNode := "0";
        } else {
          result := false;
        }
      }
      if result {
        mUsbDataEnabled := c.enable;
      }
      notified := None;
      if callback {
        notified := Some(if result then SUCCESS else ERROR);
      }
      outcome, r := GetPortStatus(ports, files);
    }

    /** Fills one entry per port, in the order the port map is walked. The first port whose roles cannot
        be had ends the query: entries before it are complete, its own says nothing about data, and
        those after it stay blank. */
    method GetPortStatus(ports: seq<(string, bool)>, files: nat -> PortFiles)
      returns (outcome: Outcome, r: seq<PortStatus>)
      ensures Queried(outcome, r, ports, files, mUsbDataEnabled)
    {
      outcome := Done;
      r := seq(|ports|, i => BLANK);
      for i := 0 to |ports|
        invariant outcome == Done && |r| == |ports|
        invariant forall j :: 0 <= j < i ==> Reports(r[j], ports[j].0, ports[j].1, files(j), mUsbDataEnabled)
        invariant forall j :: 0 <= j < i ==> EntryOutcome(ports[j].1, files(j)) == Done
        invariant forall j :: i <= j < |ports| ==> r[j] == BLANK
      {
        var (name, connected) := ports[i];
        var st;
        outcome, st := FillEntry(name, connected, files(i));
        r := r[i := st];
        if outcome != Done {
          assert StopsAt(r, ports, files, mUsbDataEnabled, i);
          assert EntryOutcome(ports[i].1, files(i)) == outcome;
          return;
        }
      }
    }

    // One turn of the loop: fills the blank entry of a port.
    method FillEntry(name: string, connected: bool, f: PortFiles) returns (outcome: Outcome, st: PortStatus)
      ensures outcome == EntryOutcome(connected, f)
      ensures outcome == Done ==> Reports(st, name, connected, f, mUsbDataEnabled)
      ensures outcome != Done ==> st.portName == name && st.usbDataStatus == []
    {
      outcome, st := ReadRoles(BLANK.(portName := name), connected, f);
      if outcome != Done {
        return;
      }
      st := st.(canChangeMode := true);
      st := st.(canChangeDataRole := connected && CanSwitchRole(f.supportsPd));
      st := st.(canChangePowerRole := connected && CanSwitchRole(f.supportsPdAgain));
      st := st.(supportedModes := st.supportedModes + [Drp]);
      var pogo := PogoNumber(f);
      if pogo.None? {
        return Aborted, st;
      }
      var status := DataStatus(pogo.value);
      st := st.(usbDataStatus := status);
      if !connected || st.power == Source {
        st := st.(brick := Some(NOT_CONNECTED));
      } else if f.usbType.Some? {
        st := st.(brick := Some(if Contains(f.usbType.value, "[D") then CONNECTED
                                else if Contains(f.usbType.value, "[U") then UNKNOWN else NOT_CONNECTED));
      }
    }

    method DataStatus(pogo: int) returns (status: seq<UsbDataStatus>)
      ensures ENABLED in status <==> mUsbDataEnabled && pogo != 1
      ensures DISABLED_DOCK in status <==> pogo == 1
      ensures DISABLED_FORCE in status <==> !mUsbDataEnabled
      ensures |status| == if pogo == 1 && !mUsbDataEnabled then 2 else 1
    {
      status := [];
      var dataEnabled := true;
      if pogo == 1 {
        status := status + [DISABLED_DOCK];
        dataEnabled := false;
      }
      if !mUsbDataEnabled {
        status := status + [DISABLED_FORCE];
        dataEnabled := false;
      }
      if dataEnabled {
        status := status + [ENABLED];
      }
    }

    method ReadRoles(st0: PortStatus, connected: bool, f: PortFiles) returns (outcome: Outcome, st: PortStatus)
      ensures outcome == RolesOutcome(connected, f)
      ensures st == st0.(power := st.power, data := st.data, mode := st.mode)
      ensures outcome == Done ==>
                && PowerRead(connected, f) == (SUCCESS, Power(st.power))
                && DataRead(connected, f) == (SUCCESS, Data(st.data))
                && ModeRead(connected, f) == (SUCCESS, InMode(st.mode))
    {
      st := st0;
      var (status, role) := PowerRead(connected, f);
      if status != SUCCESS { return Failed, st; }
      if !role.Power? { return Aborted, st; }
      st := st.(power := role.power);
      var (status', role') := DataRead(connected, f);
      if status' != SUCCESS { return Failed, st; }
      if !role'.Data? { return Aborted, st; }
      st := st.(data := role'.data);
      var (status'', role'') := ModeRead(connected, f);
      if status'' != SUCCESS { return Failed, st; }
      if !role''.InMode? { return Aborted, st; }
      st := st.(mode := role''.mode);
      return Done, st;
    }
  }
}
