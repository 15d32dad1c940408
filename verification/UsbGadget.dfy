/** A gadget function request: tear down, validate, link, pull up or monitor, notify.

    The helper library is not part of this model. What its calls answer is a value, `Library`, and
    everything here holds for all of its values.
 */
module UsbGadget {
  import opened Common

  // The bits of a function mask; a mask is the set of its bits.
  datatype Function = ADB | ACCESSORY | MTP | MIDI | PTP | RNDIS | AUDIO_SOURCE | UVC | NCM | Unknown(bit: nat)

  datatype Status = SUCCESS | ERROR | CONFIGURATION_NOT_SUPPORTED

  // How the k-th link of a request goes. A helper that links may also give up before or after it.
  datatype LinkOutcome = Linked | LinkFails | GivesUpBefore | GivesUpAfter

  datatype Library = Library(
    reset: Status,                    // resetGadget
    vidPid: Status,                   // validateAndSetVidPid
    vendor: string,                   // getVendorFunctions
    generic: seq<string>,             // the links addGenericAndroidFunctions goes through
    genericFfs: bool,                 // whether one of them is a functionfs function
    link: nat -> LinkOutcome,
    pullUpWrite: bool,                // writing the gadget's name to the pull-up file
    waitForPullUp: bool,              // the monitor's answer
    report: Option<bool>,             // what the monitor's thread reports of the functions being applied
    i2cPath: string,                  // the charger's i2c directory, empty if it is not found
    setupDelivery: bool,              // whether the callback made while setting up goes through
    finalDelivery: bool,              // whether the callback at the end goes through
    interrupts: Option<string>,       // /proc/interrupts
    parseUint: string -> Option<nat>)

  // What a request that succeeded finds when it tunes the gadget: two files of the power supply, and
  // whether the current limit is accepted.
  datatype Supply = Supply(usbType: Option<string>, powerMode: Option<string>, limitAccepted: bool)

  datatype Delivery = Delivery(status: Status, ok: bool)

  // ---------- the interrupt table ----------

  // The lines of a text that end in a newline.
  function Lines(s: string): seq<string> {
    match Find(s, '\n')
    case None => []
    case Some(i) => [s[..i]] + Lines(s[i + 1..])
  }

  function Unlines(lines: seq<string>): string {
    if lines == [] then "" else lines[0] + "\n" + Unlines(lines[1..])
  }

  lemma {:induction false} LinesCons(s: string, i: nat)
    requires Find(s, '\n') == Some(i)
    ensures Lines(s) == [s[..i]] + Lines(s[i + 1..])
    ensures Lines(s)[0] == s[..i] && Lines(s)[1..] == Lines(s[i + 1..])
  {}

  /** The lines, each with its newline, are the text up to a last part without one. */
  lemma {:induction false} LinesSpell(s: string) returns (rest: string)
    ensures s == Unlines(Lines(s)) + rest && '\n' !in rest
  {
    match Find(s, '\n')
    case None =>
      FindIsFirst(s, '\n');
      rest := s;
    case Some(i) =>
      var line, after := s[..i], s[i + 1..];
      assert s == (line + "\n") + after;
      rest := LinesSpell(after);
      var lines := Lines(after);
      ConcatAssociative(line + "\n", Unlines(lines), rest);
      LinesCons(s, i);
      UnlinesCons(line, lines);
  }

  lemma {:induction false} UnlinesCons(line: string, lines: seq<string>)
    ensures Unlines([line] + lines) == line + "\n" + Unlines(lines)
  {
    assert ([line] + lines)[1..] == lines;
  }

  const DWC3 := "dwc3"

  function BeforeColon(line: string): string {
    match Find(line, ':')
    case None => line
    case Some(i) => line[..i]
  }

  function IrqPathOf(line: string): string {
    "/proc/irq/" + BeforeColon(line) + "/smp_affinity_list"
  }

  function FirstDwc3(lines: seq<string>): (k: nat)
    ensures k <= |lines|
  {
    if lines == [] || Contains(lines[0], DWC3) then 0 else 1 + FirstDwc3(lines[1..])
  }

  lemma {:induction false} FirstDwc3IsFirst(lines: seq<string>)
    ensures var k := FirstDwc3(lines);
            && (k < |lines| ==> Contains(lines[k], DWC3))
            && (forall j :: 0 <= j < k ==> !Contains(lines[j], DWC3))
  {
    if lines != [] && !Contains(lines[0], DWC3) {
      FirstDwc3IsFirst(lines[1..]);
      assert forall j :: 0 < j < |lines| ==> lines[j] == lines[1..][j - 1];
    }
  }

  // The path the scan of a table finds: only the first line that names the controller is tried.
  function IrqPath(lines: seq<string>, parseUint: string -> Option<nat>): Option<string> {
    var k := FirstDwc3(lines);
    if k < |lines| && parseUint(BeforeColon(lines[k])).Some? then Some(IrqPathOf(lines[k])) else None
  }

  // The same, line by line: a line that does not name the controller is skipped.
  function ScanIrqs(s: string, parseUint: string -> Option<nat>): Option<string> {
    match Find(s, '\n')
    case None => None
    case Some(i) =>
      if !Contains(s[..i], DWC3) then ScanIrqs(s[i + 1..], parseUint)
      else if parseUint(BeforeColon(s[..i])).Some? then Some(IrqPathOf(s[..i])) else None
  }

  // What a line decides, if not to go on with the rest of the text.
  function AfterLine(line: string, rest: string, parseUint: string -> Option<nat>): Option<string> {
    if !Contains(line, DWC3) then ScanIrqs(rest, parseUint)
    else if parseUint(BeforeColon(line)).Some? then Some(IrqPathOf(line)) else None
  }

  lemma {:induction false} ScanLine(s: string, i: nat, parseUint: string -> Option<nat>)
    requires Find(s, '\n') == Some(i)
    ensures ScanIrqs(s, parseUint) == AfterLine(s[..i], s[i + 1..], parseUint)
  {}

  lemma {:induction false} IrqPathCons(line: string, lines: seq<string>, parseUint: string -> Option<nat>)
    ensures IrqPath([line] + lines, parseUint) ==
            if !Contains(line, DWC3) then IrqPath(lines, parseUint)
            else if parseUint(BeforeColon(line)).Some? then Some(IrqPathOf(line)) else None
  {
    assert ([line] + lines)[1..] == lines;
  }

  lemma {:induction false} ScanIsIrqPath(s: string, parseUint: string -> Option<nat>)
    ensures ScanIrqs(s, parseUint) == IrqPath(Lines(s), parseUint)
  {
    match Find(s, '\n')
    case None =>
    case Some(i) =>
      LinesCons(s, i);
      IrqPathCons(s[..i], Lines(s[i + 1..]), parseUint);
      if !Contains(s[..i], DWC3) {
        ScanIsIrqPath(s[i + 1..], parseUint);
      }
  }

  /** The scan succeeds exactly if the first newline-terminated line naming the controller has a number
      before its first colon, and the path is made of that line. */
  lemma IrqPathMeans(s: string, parseUint: string -> Option<nat>, path: string)
    ensures ScanIrqs(s, parseUint) == Some(path) <==>
            exists k :: && 0 <= k < |Lines(s)| && Contains(Lines(s)[k], DWC3)
                        && (forall j :: 0 <= j < k ==> !Contains(Lines(s)[j], DWC3))
                        && parseUint(BeforeColon(Lines(s)[k])).Some? && path == IrqPathOf(Lines(s)[k])
  {
    ScanIsIrqPath(s, parseUint);
    FirstDwc3IsFirst(Lines(s));
  }

  // One turn of the scan: the line between two positions, and what follows its newline.
  lemma {:induction false} ScanLineAt(s: string, from: nat, to: nat, parseUint: string -> Option<nat>)
    requires from <= to < |s| && Find(s[from..], '\n') == Some(to - from)
    ensures ScanIrqs(s[from..], parseUint) == AfterLine(s[from..to], s[to + 1..], parseUint)
  {
    assert s[from..][..to - from] == s[from..to];
    assert s[from..][to - from + 1..] == s[to + 1..];
    ScanLine(s[from..], to - from, parseUint);
  }

  /** The loop over the table, with a position that moves behind each newline. */
  method ScanTable(irqs: string, parseUint: string -> Option<nat>) returns (path: Option<string>)
    ensures path == ScanIrqs(irqs, parseUint)
  {
    ghost var rest := irqs;
    var readPos := 0;
    while true
      invariant readPos <= |irqs| && rest == irqs[readPos..]
      invariant ScanIrqs(rest, parseUint) == ScanIrqs(irqs, parseUint)
      decreases |irqs| - readPos
    {
      var found := Find(irqs[readPos..], '\n');
      if found.None? {
        return None;
      }
      var foundPos := readPos + found.value;
      var singleIrq := irqs[readPos..foundPos];
      ScanLineAt(irqs, readPos, foundPos, parseUint);
      rest := irqs[foundPos + 1..];
      readPos := foundPos + 1;
      if Contains(singleIrq, DWC3) {
        if parseUint(BeforeColon(singleIrq)).None? {
          return None;
        }
        return Some(IrqPathOf(singleIrq));
      }
    }
  }

  // The text before the first colon of a line, or all of it.
  ghost predicate IsNumberOf(number: string, line: string) {
    number <= line && ':' !in number && (|number| < |line| ==> line[|number|] == ':')
  }

  lemma NumberOf(line: string)
    ensures IsNumberOf(BeforeColon(line), line)
    ensures forall number :: IsNumberOf(number, line) ==> number == BeforeColon(line)
  {
    FindIsFirst(line, ':');
    forall number | IsNumberOf(number, line) ensures number == BeforeColon(line) {
      if |number| < |line| {
        FindIs(line, ':', |number|);
      }
    }
  }

  /** The path that a scan finds is /proc/irq/N/smp_affinity_list, where N stands before the first colon
      of a line with dwc3 and is a number. */
  lemma IrqPathSpelled(s: string, parseUint: string -> Option<nat>, path: string) returns (line: string, number: string)
    requires ScanIrqs(s, parseUint) == Some(path)
    ensures line in Lines(s) && (exists before, after :: line == before + "dwc3" + after)
    ensures IsNumberOf(number, line) && parseUint(number).Some?
    ensures path == "/proc/irq/" + number + "/smp_affinity_list"
  {
    IrqPathMeans(s, parseUint, path);
    var k :| && 0 <= k < |Lines(s)| && Contains(Lines(s)[k], DWC3)
             && (forall j :: 0 <= j < k ==> !Contains(Lines(s)[j], DWC3))
             && parseUint(BeforeColon(Lines(s)[k])).Some? && path == IrqPathOf(Lines(s)[k]);
    line := Lines(s)[k];
    number := BeforeColon(line);
    ContainsIff(line, DWC3);
    NumberOf(line);
  }

  // ---------- the links of a request ----------

  function VendorLinks(vendor: string, functions: set<Function>): seq<string> {
    if vendor == "dm" then (if RNDIS in functions then ["acm.gs6", "dm.gs7"] else ["dm.gs7", "acm.gs6"])
    else if vendor == "etr_miu" then ["etr_miu.gs11"]
    else if vendor == "uwb_acm" then ["acm.uwb0"]
    else []
  }

  function AdbLinks(functions: set<Function>): seq<string> {
    if ADB in functions then ["ffs.adb"] else []
  }

  function NcmLinks(functions: set<Function>): seq<string> {
    if NCM in functions then ["ncm.gs9"] else []
  }

  // Every link a request is to make, in order.
  function Plan(lib: Library, functions: set<Function>): seq<string> {
    (lib.generic + VendorLinks(lib.vendor, functions)) + (AdbLinks(functions) + NcmLinks(functions))
  }

  /** The plan: the generic links, the vendor's, adb's and ncm's, each group only where it is asked for.
      The dm vendor's two links change places with rndis. */
  lemma PlanIs(lib: Library, functions: set<Function>)
    ensures var n, v := |lib.generic|, |VendorLinks(lib.vendor, functions)|;
            var plan := Plan(lib, functions);
            var adb, ncm := if ADB in functions then 1 else 0, if NCM in functions then 1 else 0;
            && |plan| == n + v + adb + ncm
            && plan[..n] == lib.generic && plan[n..n + v] == VendorLinks(lib.vendor, functions)
            && (ADB in functions ==> plan[n + v] == "ffs.adb")
            && (NCM in functions ==> plan[n + v + adb] == "ncm.gs9")
  {}

  lemma VendorLinksAre(vendor: string, functions: set<Function>)
    ensures var links := VendorLinks(vendor, functions);
            && |links| == (if vendor == "dm" then 2 else if vendor in {"etr_miu", "uwb_acm"} then 1 else 0)
            && (vendor == "dm" ==>
                  && links[if RNDIS in functions then 0 else 1] == "acm.gs6"
                  && links[if RNDIS in functions then 1 else 0] == "dm.gs7")
            && (vendor == "etr_miu" ==> "etr_miu.gs11" in links)
            && (vendor == "uwb_acm" ==> "acm.uwb0" in links)
  {
    assert "dm"[0] != "etr_miu"[0] && "dm"[0] != "uwb_acm"[0] && "etr_miu"[0] != "uwb_acm"[0];
  }

  predicate AllLinked(lib: Library, from: nat, to: nat) {
    forall k :: from <= k < to ==> lib.link(k) == Linked
  }

  // How many of n links from index `from` on go through before the first that does not.
  function GoThrough(lib: Library, from: nat, n: nat): (k: nat)
    ensures k <= n
    decreases n
  {
    if n == 0 || lib.link(from) != Linked then 0 else 1 + GoThrough(lib, from + 1, n - 1)
  }

  lemma {:induction false} GoThroughIs(lib: Library, from: nat, n: nat, k: nat)
    requires k <= n && AllLinked(lib, from, from + k) && (k < n ==> lib.link(from + k) != Linked)
    ensures GoThrough(lib, from, n) == k
    decreases n
  {
    if k > 0 {
      GoThroughIs(lib, from + 1, n - 1, k - 1);
    }
  }

  lemma {:induction false} GoThroughMeans(lib: Library, from: nat, n: nat)
    ensures var k := GoThrough(lib, from, n);
            AllLinked(lib, from, from + k) && (k < n ==> lib.link(from + k) != Linked)
    decreases n
  {
    if n > 0 && lib.link(from) == Linked {
      GoThroughMeans(lib, from + 1, n - 1);
    }
  }

  // The request gets as far as linking.
  predicate Reaches(lib: Library, functions: set<Function>) {
    lib.reset == lib.vidPid == SUCCESS && functions != {}
  }

  predicate UsesFfs(lib: Library, functions: set<Function>) {
    lib.genericFfs || ADB in functions
  }

  // A request whose links are made is seen to pull up: by its own write, or because the monitor said so
  // to a waiting callback.
  predicate SeenUp(lib: Library, functions: set<Function>, callback: bool) {
    if UsesFfs(lib, functions) then callback && lib.waitForPullUp else lib.pullUpWrite
  }

  // How often the charger is told: after the request's own pull-up, or when the monitor's thread reports.
  function TimeoutUpdates(lib: Library, functions: set<Function>, linked: bool): nat {
    if && linked && lib.i2cPath != ""
       && (if UsesFfs(lib, functions) then lib.report.Some? else lib.pullUpWrite)
    then 1 else 0
  }

  // What a setup that linked everything returns.
  predicate SetupSucceeds(lib: Library, functions: set<Function>, callback: bool) {
    if UsesFfs(lib, functions) then callback ==> lib.setupDelivery else lib.pullUpWrite
  }

  // The links attempted between `before` and `after`: the names, numbered from `start`; all of them on
  // success, and otherwise those that went through and, unless a helper gave up before it, the one
  // that did not.
  ghost predicate Attempted(before: seq<(string, nat)>, after: seq<(string, nat)>, names: seq<string>,
                            start: nat, lib: Library, ok: bool)
  {
    var n := |after| - |before|;
    && before <= after && n <= |names|
    && (forall k :: 0 <= k < n ==> after[|before| + k] == (names[k], start + k))
    && (ok <==> AllLinked(lib, start, start + |names|))
    && (if ok then n == |names|
        else GoThrough(lib, start, |names|) <= n <= GoThrough(lib, start, |names|) + 1)
  }

  // Links that all went through, then more.
  lemma AttemptedThen(l0: seq<(string, nat)>, l1: seq<(string, nat)>, l2: seq<(string, nat)>,
                      names: seq<string>, more: seq<string>, start: nat, lib: Library, ok: bool)
    requires Attempted(l0, l1, names, start, lib, true)
    requires Attempted(l1, l2, more, start + |names|, lib, ok)
    ensures Attempted(l0, l2, names + more, start, lib, ok)
  {
    var k := GoThrough(lib, start + |names|, |more|);
    GoThroughMeans(lib, start + |names|, |more|);
    GoThroughIs(lib, start, |names| + |more|, |names| + k);
  }

  // Links that stopped, whatever was to follow.
  lemma AttemptedStop(l0: seq<(string, nat)>, l1: seq<(string, nat)>, names: seq<string>,
                      more: seq<string>, start: nat, lib: Library)
    requires Attempted(l0, l1, names, start, lib, false)
    ensures Attempted(l0, l1, names + more, start, lib, false)
  {
    var k := GoThrough(lib, start, |names|);
    GoThroughMeans(lib, start, |names|);
    GoThroughIs(lib, start, |names| + |more|, k);
  }

  // ---------- tuning ----------

  const BIG_CORE := "6"
  const MEDIUM_CORE := "4"

  // An accessory on a charging port may draw more than the default current.
  predicate LimitsAccessory(functions: set<Function>, supply: Supply) {
    && ACCESSORY in functions
    && Trim(supply.usbType.GetOr("")) == "Unknown SDP [CDP] DCP"
    && Trim(supply.powerMode.GetOr("")) in {"default", "1.5A"}
  }

  // The interrupt, if it is known, goes to a core.
  function AffinityWrites(functions: set<Function>, irqPath: string): seq<(string, string)> {
    if irqPath == "" then [] else [(irqPath, if NCM in functions then BIG_CORE else MEDIUM_CORE)]
  }

  // With the charger found, an accessory's current limit is set before it is enabled, and disabled for
  // everything else.
  function LimitWrites(functions: set<Function>, i2cPath: string, supply: Supply): seq<(string, string)> {
    var limit := i2cPath + "/usb_limit_accessory_current";
    var enable := i2cPath + "/usb_limit_accessory_enable";
    if i2cPath == "" then []
    else if !LimitsAccessory(functions, supply) then [(enable, "0")]
    else if supply.limitAccepted then [(limit, "1300000"), (enable, "1")]
    else [(limit, "1300000")]
  }

  // The files written after a request succeeded, with their texts.
  function TuningWrites(functions: set<Function>, irqPath: string, i2cPath: string, supply: Supply)
    : seq<(string, string)>
  {
    AffinityWrites(functions, irqPath) + LimitWrites(functions, i2cPath, supply)
  }

  predicate Written(writes: seq<(string, string)>, path: string, text: string) {
    (path, text) in writes
  }

  /** A known interrupt goes to the big core for ncm and to a medium one otherwise. */
  lemma AffinityMeans(functions: set<Function>, irqPath: string)
    ensures var w := AffinityWrites(functions, irqPath);
            && |w| <= 1
            && (Written(w, irqPath, "6") <==> irqPath != "" && NCM in functions)
            && (Written(w, irqPath, "4") <==> irqPath != "" && NCM !in functions)
  {
    assert "6"[0] != "4"[0];
  }

  /** With the charger found, an accessory on a port that can charge gets its limit, and the limit is
      enabled only behind that and if it was accepted; in every other case the limit is disabled. */
  lemma LimitMeans(functions: set<Function>, i2cPath: string, supply: Supply)
    ensures var w := LimitWrites(functions, i2cPath, supply);
            var limit, enable := i2cPath + "/usb_limit_accessory_current", i2cPath + "/usb_limit_accessory_enable";
            var charging := && supply.usbType.Some? && Trim(supply.usbType.value) == "Unknown SDP [CDP] DCP"
                            && supply.powerMode.Some?
                            && (Trim(supply.powerMode.value) == "default" || Trim(supply.powerMode.value) == "1.5A");
            && |w| <= 2
            && (Written(w, limit, "1300000") <==> i2cPath != "" && ACCESSORY in functions && charging)
            && (Written(w, enable, "1") <==>
                  i2cPath != "" && ACCESSORY in functions && charging && supply.limitAccepted)
            && (Written(w, enable, "0") <==> i2cPath != "" && !(ACCESSORY in functions && charging))
            && (Written(w, enable, "1") ==> w == [(limit, "1300000"), (enable, "1")])
  {
    TextsDiffer(i2cPath);
  }

  lemma TextsDiffer(i2cPath: string)
    ensures i2cPath + "/usb_limit_accessory_current" != i2cPath + "/usb_limit_accessory_enable"
    ensures "1" != "0" && "1300000" != "1" && "1300000" != "0"
    ensures Trim("") == ""
  {
    var limit, enable := i2cPath + "/usb_limit_accessory_current", i2cPath + "/usb_limit_accessory_enable";
    assert |limit| == |enable| + 1;
    assert "1"[0] != "0"[0];
  }

  // ---------- the service ----------

  class UsbGadget {
    var mCurrentUsbFunctions: set<Function>
    var mCurrentUsbFunctionsApplied: bool
    var mGadgetIrqPath: string
    var monitorRunning: bool

    // What the current request has done.
    ghost var links: seq<(string, nat)>
    ghost var linked: bool            // every link of the plan was made
    ghost var pullUpWrites: nat
    ghost var monitorStarts: nat
    ghost var pulledUp: bool
    ghost var delivered: seq<Delivery>
    ghost var timeoutUpdates: nat     // writes of update_sdp_enum_timeout
    ghost var tuned: seq<(string, string)>

    constructor ()
      ensures mGadgetIrqPath == "" && mCurrentUsbFunctions == {} && !mCurrentUsbFunctionsApplied
    {
      mCurrentUsbFunctions, mCurrentUsbFunctionsApplied, mGadgetIrqPath := {}, false, "";
      monitorRunning := false;
      links, linked, pullUpWrites, monitorStarts, pulledUp, delivered := [], false, 0, 0, false, [];
      timeoutUpdates, tuned := 0, [];
    }

    method GetUsbGadgetIrqPath(lib: Library) returns (status: Status)
      modifies this`mGadgetIrqPath
      ensures status == SUCCESS || status == ERROR
      ensures status == SUCCESS <==> lib.interrupts.Some? && ScanIrqs(lib.interrupts.value, lib.parseUint).Some?
      ensures mGadgetIrqPath ==
              if status == SUCCESS then ScanIrqs(lib.interrupts.value, lib.parseUint).value
              else old(mGadgetIrqPath)
    {
      if lib.interrupts.None? {
        return ERROR;
      }
      var path := ScanTable(lib.interrupts.value, lib.parseUint);
      if path.None? {
        return ERROR;
      }
      mGadgetIrqPath := path.value;
      return SUCCESS;
    }

    method TearDownGadget(lib: Library) returns (status: Status)
      modifies this`monitorRunning
      ensures status == SUCCESS <==> lib.reset == SUCCESS
      ensures status != SUCCESS ==> status == ERROR && monitorRunning == old(monitorRunning)
      ensures status == SUCCESS ==> !monitorRunning
    {
      if lib.reset != SUCCESS {
        return ERROR;
      }
      if monitorRunning {
        monitorRunning := false;
      }
      return SUCCESS;
    }

    // linkFunction: attempts one link.
    method LinkFunction(name: string, i: nat, lib: Library) returns (failed: bool)
      modifies this`links
      ensures links == old(links) + [(name, i)]
      ensures failed <==> lib.link(i) != Linked
    {
      links := links + [(name, i)];
      failed := lib.link(i) != Linked;
    }

    // What is assumed of a linking helper: it goes through its links in order, counting them, and stops
    // at the first that does not go through.
    method LinkHelper(names: seq<string>, start: nat, lib: Library) returns (status: Status, i: nat)
      modifies this`links
      ensures Attempted(old(links), links, names, start, lib, status == SUCCESS)
      ensures status == SUCCESS ==> i == start + |names|
    {
      i := start;
      ghost var before := links;
      for n := 0 to |names|
        invariant i == start + n && AllLinked(lib, start, i)
        invariant before <= links && |links| == |before| + n
        invariant forall k :: 0 <= k < n ==> links[|before| + k] == (names[k], start + k)
      {
        if lib.link(i) != Linked {
          GoThroughIs(lib, start, |names|, n);
          if lib.link(i) != GivesUpBefore {
            var failed := LinkFunction(names[n], i, lib);
          }
          return ERROR, i;
        }
        var failed := LinkFunction(names[n], i, lib);
        i := i + 1;
      }
      return SUCCESS, i;
    }

    /** Links the vendor's functions one by one. */
    method LinkVendorFunctions(functions: set<Function>, start: nat, lib: Library) returns (status: Status, i: nat)
      modifies this`links
      ensures Attempted(old(links), links, VendorLinks(lib.vendor, functions), start, lib, status == SUCCESS)
      ensures status == SUCCESS ==> i == start + |VendorLinks(lib.vendor, functions)|
    {
      i := start;
      if lib.vendor == "dm" {
        if RNDIS in functions {
          status, i := LinkBoth("acm.gs6", "dm.gs7", i, lib);
        } else {
          status, i := LinkBoth("dm.gs7", "acm.gs6", i, lib);
        }
        return;
      } else if lib.vendor == "etr_miu" {
        status, i := LinkOne("etr_miu.gs11", i, lib);
        return;
      } else if lib.vendor == "uwb_acm" {
        status, i := LinkOne("acm.uwb0", i, lib);
        return;
      }
      return SUCCESS, i;
    }

    method LinkOne(name: string, start: nat, lib: Library) returns (status: Status, i: nat)
      modifies this`links
      ensures Attempted(old(links), links, [name], start, lib, status == SUCCESS)
      ensures status == SUCCESS ==> i == start + 1
    {
      i := start;
      var failed := LinkFunction(name, i, lib);
      if failed { return ERROR, i; }
      return SUCCESS, i + 1;
    }

    method LinkBoth(first: string, second: string, start: nat, lib: Library) returns (status: Status, i: nat)
      modifies this`links
      ensures Attempted(old(links), links, [first, second], start, lib, status == SUCCESS)
      ensures status == SUCCESS ==> i == start + 2
    {
      GoThroughMeans(lib, start, 2);
      i := start;
      var failed := LinkFunction(first, i, lib);
      i := i + 1;
      if failed { return ERROR, i; }
      failed := LinkFunction(second, i, lib);
      i := i + 1;
      if failed { return ERROR, i; }
      return SUCCESS, i;
    }

    method Deliver(status: Status, ok: bool)
      modifies this`delivered
      ensures delivered == old(delivered) + [Delivery(status, ok)]
    {
      delivered := delivered + [Delivery(status, ok)];
    }

    method LinkGenericAndVendor(functions: set<Function>, lib: Library) returns (status: Status, i: nat)
      modifies this`links
      ensures Attempted(old(links), links, lib.generic + VendorLinks(lib.vendor, functions), 0, lib, status == SUCCESS)
      ensures status == SUCCESS ==> i == |lib.generic| + |VendorLinks(lib.vendor, functions)|
    {
      ghost var l0, vendor := links, VendorLinks(lib.vendor, functions);
      status, i := LinkHelper(lib.generic, 0, lib);
      if status != SUCCESS {
        AttemptedStop(l0, links, lib.generic, vendor, 0, lib);
        return;
      }
      ghost var l1 := links;
      status, i := LinkVendorFunctions(functions, i, lib);
      AttemptedThen(l0, l1, links, lib.generic, vendor, 0, lib, status == SUCCESS);
    }

    method LinkAdb(functions: set<Function>, start: nat, lib: Library) returns (status: Status, i: nat)
      modifies this`links
      ensures Attempted(old(links), links, AdbLinks(functions), start, lib, status == SUCCESS)
      ensures status == SUCCESS ==> i == start + |AdbLinks(functions)|
    {
      status, i := SUCCESS, start;
      if ADB in functions {
        status, i := LinkHelper(["ffs.adb"], i, lib);
      }
    }

    method LinkNcm(functions: set<Function>, start: nat, lib: Library) returns (status: Status)
      modifies this`links
      ensures Attempted(old(links), links, NcmLinks(functions), start, lib, status == SUCCESS)
    {
      status := SUCCESS;
      if NCM in functions {
        var i;
        status, i := LinkOne("ncm.gs9", start, lib);
      }
    }

    method LinkAdbAndNcm(functions: set<Function>, start: nat, lib: Library) returns (status: Status)
      modifies this`links
      ensures Attempted(old(links), links, AdbLinks(functions) + NcmLinks(functions), start, lib, status == SUCCESS)
    {
      ghost var l0, adb, ncm := links, AdbLinks(functions), NcmLinks(functions);
      var i;
      status, i := LinkAdb(functions, start, lib);
      if status != SUCCESS {
        AttemptedStop(l0, links, adb, ncm, start, lib);
        return;
      }
      ghost var l1 := links;
      status := LinkNcm(functions, i, lib);
      AttemptedThen(l0, l1, links, adb, ncm, start, lib, status == SUCCESS);
    }

    /** Goes through the whole plan of links, in order: the generic functions, the vendor's, adb, ncm. */
    method LinkAll(functions: set<Function>, lib: Library) returns (status: Status)
      modifies this`links
      ensures Attempted(old(links), links, Plan(lib, functions), 0, lib, status == SUCCESS)
    {
      ghost var l0 := links;
      ghost var early := lib.generic + VendorLinks(lib.vendor, functions);
      ghost var late := AdbLinks(functions) + NcmLinks(functions);
      var i;
      status, i := LinkGenericAndVendor(functions, lib);
      if status != SUCCESS {
        AttemptedStop(l0, links, early, late, 0, lib);
        return;
      }
      ghost var l1 := links;
      status := LinkAdbAndNcm(functions, i, lib);
      AttemptedThen(l0, l1, links, early, late, 0, lib, status == SUCCESS);
    }

    // The current request has done nothing yet.
    ghost predicate Fresh()
      reads this
    {
      && links == [] && !linked && pullUpWrites == monitorStarts == timeoutUpdates == 0
      && !pulledUp && delivered == []
    }

    // Once the gadget is pulled up, the charger is told, if its directory is found.
    method UpdateSdpEnumTimeout(lib: Library)
      modifies this`timeoutUpdates
      ensures timeoutUpdates == old(timeoutUpdates) + if lib.i2cPath == "" then 0 else 1
    {
      if lib.i2cPath == "" {
        return;
      }
      timeoutUpdates := timeoutUpdates + 1;
    }

    /** Links, then pulls up or starts the monitor. */
    method SetupFunctions(functions: set<Function>, callback: bool, lib: Library) returns (status: Status)
      requires Fresh()
      modifies this`links, this`linked, this`pullUpWrites, this`monitorStarts, this`pulledUp, this`delivered,
        this`timeoutUpdates, this`mCurrentUsbFunctionsApplied, this`monitorRunning
      ensures Attempted([], links, Plan(lib, functions), 0, lib, linked)
      ensures status == SUCCESS || status == ERROR
      // a link failed
      ensures !linked ==>
                && status == ERROR && pullUpWrites == monitorStarts == timeoutUpdates == 0
                && !pulledUp && delivered == []
                && mCurrentUsbFunctionsApplied == old(mCurrentUsbFunctionsApplied)
                && monitorRunning == old(monitorRunning)
      // no functionfs function: pull up right away
      ensures linked && !UsesFfs(lib, functions) ==>
                && pullUpWrites == 1 && monitorStarts == 0 && pulledUp == lib.pullUpWrite
                && (status == SUCCESS <==> pulledUp)
                && delivered == (if callback && pulledUp then [Delivery(SUCCESS, lib.setupDelivery)] else [])
                && mCurrentUsbFunctionsApplied == (pulledUp || old(mCurrentUsbFunctionsApplied))
                && timeoutUpdates == (if pulledUp && lib.i2cPath != "" then 1 else 0)
                && monitorRunning == old(monitorRunning)
      // functionfs functions: the monitor pulls up, and only a callback waits for it
      ensures linked && UsesFfs(lib, functions) ==>
                && pullUpWrites == 0 && monitorStarts == 1 && monitorRunning
                && pulledUp == (callback && lib.waitForPullUp)
                && (status == SUCCESS <==> !callback || lib.setupDelivery)
                && delivered == (if callback
                                 then [Delivery(if pulledUp then SUCCESS else ERROR, lib.setupDelivery)] else [])
                && mCurrentUsbFunctionsApplied == lib.report.GetOr(old(mCurrentUsbFunctionsApplied))
                && timeoutUpdates == (if lib.report.Some? && lib.i2cPath != "" then 1 else 0)
    {
      status := LinkAll(functions, lib);
      linked := status == SUCCESS;
      if status != SUCCESS {
        return ERROR;
      }
      var ffsEnabled := lib.genericFfs || ADB in functions;
      if ffsEnabled {
        status := MonitorPullUp(callback, lib);
      } else {
        status := PullUpNow(callback, lib);
      }
    }

    // Without functionfs functions the gadget is pulled up right away.
    method PullUpNow(callback: bool, lib: Library) returns (status: Status)
      modifies this`pullUpWrites, this`pulledUp, this`delivered, this`timeoutUpdates,
        this`mCurrentUsbFunctionsApplied
      ensures pullUpWrites == old(pullUpWrites) + 1
      ensures status == if lib.pullUpWrite then SUCCESS else ERROR
      ensures !lib.pullUpWrite ==>
                && pulledUp == old(pulledUp) && delivered == old(delivered)
                && timeoutUpdates == old(timeoutUpdates)
                && mCurrentUsbFunctionsApplied == old(mCurrentUsbFunctionsApplied)
      ensures lib.pullUpWrite ==>
                && pulledUp && mCurrentUsbFunctionsApplied
                && delivered == old(delivered) + (if callback then [Delivery(SUCCESS, lib.setupDelivery)] else [])
                && timeoutUpdates == old(timeoutUpdates) + (if lib.i2cPath == "" then 0 else 1)
    {
      pullUpWrites := pullUpWrites + 1;
      if !lib.pullUpWrite {
        return ERROR;
      }
      pulledUp := true;
      mCurrentUsbFunctionsApplied := true;
      if callback {
        Deliver(SUCCESS, lib.setupDelivery);
      }
      UpdateSdpEnumTimeout(lib);
      return SUCCESS;
    }

    // Otherwise the monitor pulls it up, and only a callback waits for that.
    method MonitorPullUp(callback: bool, lib: Library) returns (status: Status)
      modifies this`monitorStarts, this`monitorRunning, this`pulledUp, this`delivered, this`timeoutUpdates,
        this`mCurrentUsbFunctionsApplied
      ensures monitorStarts == old(monitorStarts) + 1 && monitorRunning
      ensures mCurrentUsbFunctionsApplied == lib.report.GetOr(old(mCurrentUsbFunctionsApplied))
      ensures timeoutUpdates == old(timeoutUpdates) + (if lib.report.Some? && lib.i2cPath != "" then 1 else 0)
      ensures status == if callback && !lib.setupDelivery then ERROR else SUCCESS
      ensures !callback ==> pulledUp == old(pulledUp) && delivered == old(delivered)
      ensures callback ==>
                && pulledUp == lib.waitForPullUp
                && delivered == old(delivered) + [Delivery(if pulledUp then SUCCESS else ERROR, lib.setupDelivery)]
    {
      monitorStarts := monitorStarts + 1;
      monitorRunning := true;
      if lib.report.Some? {
        mCurrentUsbFunctionsApplied := lib.report.value;
        UpdateSdpEnumTimeout(lib);
      }
      if callback {
        var pullup := lib.waitForPullUp;
        pulledUp := pullup;
        Deliver(if pullup then SUCCESS else ERROR, lib.setupDelivery);
        if !lib.setupDelivery {
          return ERROR;
        }
      }
      return SUCCESS;
    }

    method StartRequest(functions: set<Function>)
      modifies this
      ensures Fresh() && tuned == [] && mCurrentUsbFunctions == functions && !mCurrentUsbFunctionsApplied
      ensures mGadgetIrqPath == old(mGadgetIrqPath) && monitorRunning == old(monitorRunning)
    {
      links, linked, pullUpWrites, monitorStarts, pulledUp, delivered := [], false, 0, 0, false, [];
      timeoutUpdates, tuned := 0, [];
      mCurrentUsbFunctions := functions;
      mCurrentUsbFunctionsApplied := false;
    }

    // The interrupt table is read only while no path is known.
    method FindIrqPath(lib: Library)
      modifies this`mGadgetIrqPath
      ensures mGadgetIrqPath ==
              if old(mGadgetIrqPath) != "" || lib.interrupts.None? then old(mGadgetIrqPath)
              else ScanIrqs(lib.interrupts.value, lib.parseUint).GetOr("")
    {
      if mGadgetIrqPath == "" {
        var irqStatus := GetUsbGadgetIrqPath(lib);
      }
    }

    // Validates, then links and pulls up.
    method ValidateAndSetup(functions: set<Function>, callback: bool, lib: Library) returns (status: Status)
      requires Fresh() && !mCurrentUsbFunctionsApplied
      modifies this`links, this`linked, this`pullUpWrites, this`monitorStarts, this`pulledUp, this`delivered,
        this`timeoutUpdates, this`mCurrentUsbFunctionsApplied, this`monitorRunning
      ensures if lib.vidPid == SUCCESS then Attempted([], links, Plan(lib, functions), 0, lib, linked)
              else links == [] && !linked
      ensures pullUpWrites == (if linked && !UsesFfs(lib, functions) then 1 else 0)
      ensures monitorStarts == (if linked && UsesFfs(lib, functions) then 1 else 0)
      ensures monitorRunning == (old(monitorRunning) || monitorStarts == 1)
      ensures timeoutUpdates == TimeoutUpdates(lib, functions, linked)
      ensures pulledUp <==> linked && SeenUp(lib, functions, callback)
      ensures status == SUCCESS <==> linked && SetupSucceeds(lib, functions, callback)
      ensures status != SUCCESS ==> status == if lib.vidPid != SUCCESS then lib.vidPid else ERROR
      ensures mCurrentUsbFunctionsApplied <==>
                linked && if UsesFfs(lib, functions) then lib.report == Some(true) else lib.pullUpWrite
      ensures delivered == if callback && linked && (pulledUp || UsesFfs(lib, functions))
                           then [Delivery(if pulledUp then SUCCESS else ERROR, lib.setupDelivery)] else []
    {
      status := lib.vidPid;
      if status == SUCCESS {
        status := SetupFunctions(functions, callback, lib);
      }
    }

    // What the caller is told: one status per callback, and two only if the first, delivered while
    // setting up functionfs functions, did not go through. The first one says how the request went.
    ghost predicate Answered(functions: set<Function>, callback: bool, lib: Library)
      reads this
    {
      && (!callback ==> delivered == [])
      && (callback ==> |delivered| == 1 || (|delivered| == 2 && !delivered[0].ok && delivered[1].status == ERROR))
      && (|delivered| == 2 <==> callback && !lib.setupDelivery && linked && UsesFfs(lib, functions))
      && (callback ==>
            && (delivered[0].status == SUCCESS <==> lib.reset == SUCCESS && (functions == {} || pulledUp))
            && (delivered[0].status != SUCCESS ==>
                  delivered[0].status == if lib.reset == SUCCESS && lib.vidPid != SUCCESS then lib.vidPid else ERROR))
    }

    // What the request did: links in the order of the plan, nothing pulled up behind an incomplete one,
    // and functions that count as applied exactly if this request pulled up or its monitor says so.
    ghost predicate Performed(functions: set<Function>, callback: bool, lib: Library)
      reads this
    {
      && (if Reaches(lib, functions) then Attempted([], links, Plan(lib, functions), 0, lib, linked)
          else links == [] && !linked)
      && pullUpWrites == (if linked && !UsesFfs(lib, functions) then 1 else 0)
      && monitorStarts == (if linked && UsesFfs(lib, functions) then 1 else 0)
      && (pulledUp <==> linked && SeenUp(lib, functions, callback))
      && timeoutUpdates == TimeoutUpdates(lib, functions, linked)
      && (mCurrentUsbFunctionsApplied <==>
            linked && if UsesFfs(lib, functions) then lib.report == Some(true) else lib.pullUpWrite)
    }

    /** A request, once it is recorded. `ok` is the binder status returned to the caller. */
    method Perform(functions: set<Function>, callback: bool, lib: Library) returns (ok: bool)
      requires Fresh() && !mCurrentUsbFunctionsApplied
      modifies this`links, this`linked, this`pullUpWrites, this`monitorStarts, this`pulledUp, this`delivered,
        this`timeoutUpdates, this`mCurrentUsbFunctionsApplied, this`monitorRunning
      ensures Answered(functions, callback, lib) && Performed(functions, callback, lib)
      // a request for no functions is answered with a binder error even when it succeeds
      ensures ok <==> linked && SetupSucceeds(lib, functions, callback)
      // a successful reset leaves no monitor running but this request's own
      ensures monitorRunning == (monitorStarts == 1 || (lib.reset != SUCCESS && old(monitorRunning)))
    {
      var status := TearDownGadget(lib);
      if status == SUCCESS {
        if functions == {} {
          if callback {
            Deliver(SUCCESS, lib.finalDelivery);
          }
          return false;
        }
        status := ValidateAndSetup(functions, callback, lib);
        if status == SUCCESS {
          return true;
        }
      }
      if callback {
        Deliver(status, lib.finalDelivery);
      }
      return false;
    }

    // Moves the interrupt to a core, and sets or clears the accessory's current limit.
    method Tune(functions: set<Function>, i2cPath: string, supply: Supply)
      requires tuned == []
      modifies this`tuned
      ensures tuned == TuningWrites(functions, mGadgetIrqPath, i2cPath, supply)
    {
      if NCM in functions {
        if mGadgetIrqPath != "" {
          tuned := tuned + [(mGadgetIrqPath, BIG_CORE)];
        }
      } else {
        if mGadgetIrqPath != "" {
          tuned := tuned + [(mGadgetIrqPath, MEDIUM_CORE)];
        }
      }
      var usbType := Trim(supply.usbType.GetOr(""));
      var powerMode := Trim(supply.powerMode.GetOr(""));
      var enablePath := i2cPath + "/usb_limit_accessory_enable";
      if && ACCESSORY in functions && usbType == "Unknown SDP [CDP] DCP"
         && (powerMode == "default" || powerMode == "1.5A") {
        if i2cPath != "" {
          tuned := tuned + [(i2cPath + "/usb_limit_accessory_current", "1300000")];
          if supply.limitAccepted {
            tuned := tuned + [(enablePath, "1")];
          }
        }
      } else if i2cPath != "" {
        tuned := tuned + [(enablePath, "0")];
      }
    }

    /** Records a request, finds the interrupt if it is not known, performs the request, and tunes the
        gadget if it succeeded. */
    method SetCurrentUsbFunctions(functions: set<Function>, callback: bool, lib: Library, supply: Supply)
      returns (ok: bool)
      modifies this
      ensures mCurrentUsbFunctions == functions
      ensures Answered(functions, callback, lib) && Performed(functions, callback, lib)
      // functionfs functions leave the pull-up to the monitor
      ensures monitorStarts == 1 <==> linked && (lib.genericFfs || ADB in functions)
      ensures pullUpWrites == 1 <==> linked && !lib.genericFfs && ADB !in functions
      ensures linked ==> lib.reset == lib.vidPid == SUCCESS && functions != {}
      ensures linked && !lib.genericFfs && ADB !in functions ==>
                ok == pulledUp == mCurrentUsbFunctionsApplied == lib.pullUpWrite
                && timeoutUpdates == (if pulledUp && lib.i2cPath != "" then 1 else 0)
      ensures linked && (lib.genericFfs || ADB in functions) ==>
                && (ok <==> !callback || lib.setupDelivery) && (pulledUp <==> callback && lib.waitForPullUp)
                && (mCurrentUsbFunctionsApplied <==> lib.report == Some(true))
                && timeoutUpdates == (if lib.report.Some? && lib.i2cPath != "" then 1 else 0)
      ensures ok ==> linked
      ensures monitorRunning == (monitorStarts == 1 || (lib.reset != SUCCESS && old(monitorRunning)))
      // a stored interrupt path is never looked for again
      ensures mGadgetIrqPath ==
              if old(mGadgetIrqPath) != "" || lib.interrupts.None? then old(mGadgetIrqPath)
              else ScanIrqs(lib.interrupts.value, lib.parseUint).GetOr("")
      ensures tuned == if ok then TuningWrites(functions, mGadgetIrqPath, lib.i2cPath, supply) else []
    {
      StartRequest(functions);
      FindIrqPath(lib);
      ok := Perform(functions, callback, lib);
      if ok {
        Tune(functions, lib.i2cPath, supply);
      }
    }
  }
}
