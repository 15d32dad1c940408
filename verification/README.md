# Verification of the gs101 USB HAL

A Dafny model of the stateful parts of the USB hardware abstraction layer, with proofs of what they keep over
every run. `dafny verify dfyconfig.toml` checks the project.

The model has three parts.

**The data-session monitor** (`DataSession.dfy`, `DataSessionTrace.dfy`, `DataSessionTheorems.dfy`,
`DataSessionReports.dfy`, `DataSessionMonitor.dfy`). The monitor is a class whose handlers update its fields in
place. A ghost trace records every pass through a handler, and `Valid` says that the fields are what `Run` of
that trace gives. `DataSessionTrace` then describes a run without stepping anything: it searches the trace for
the last session start, filters the inputs since then into the logs, and evaluates the warning conditions once.
`Refinement` proves that the two agree on every trace; the other theorems hold of every reachable state.

- A handler may read the boot clock up to three times: `first` stamps a state or ends a reported session,
  `second` starts a session or dates an evaluation, `third` is when the kernel arms the timer. Times are in
  nanoseconds and never run backwards (`Timely`) where a theorem needs that.
- The timer descriptor may be reported readable at any time; an expiration is found only if the armed deadline has
  passed, and the evaluation happens anyway, as in the source.
- `mDataRole` has no initialiser in the source. The model starts in role NONE.
- The comment at `usb/usb/UsbDataSessionMonitor.cpp:393-394` says that a soft pulldown clears existing warnings.
  As coded, the evaluation runs before the bind flag changes, so the warnings survive until the next evaluation.
  `PulldownClearsIff` says exactly when the pulldown clears them, and `PulldownLagWitness` gives runs in which it
  does not. `TimerAdequacy` says what the set is in between.

**The role-switch protocol** (`RoleSwitch.dfy`, `RoleSwitchProofs.dfy`, `RoleSwitchTheorems.dfy`). Any number of
binder threads, the uevent worker and the monitor callback run interleaved, one lock operation, file operation or
flag access at a time. The service runs a single binder thread; the theorems do not need that. A condition wait
may end by a signal, spuriously, or by timeout, and retakes its mutex before going on. A port-type file is
represented by the text last submitted to it. Around the protocol are the uevent scanner and dispatcher
(`Uevents.dfy`, `PortUevents.dfy`), the type-c directory fold (`TypeCPorts.dfy`), the role renderer and reader
(`PortRoles.dfy`), and data signaling with the port query (`UsbData.dfy`). The flag `mUsbDataEnabled` and the file
usb_data_enabled start enabled and "1", and can come apart: `AgreementIff` and `AgreementThroughoutIff` say exactly
when, and `StuckOff` what then follows.

**The gadget request** (`UsbGadget.dfy`). One request runs through teardown, validation, linking, pull-up or
monitoring, and notification. What the shared library answers is a value, `Library`, and every contract holds for
all of its values. A function mask is the set of its bits.

Code on values is stated on values. An object whose methods update it is a class whose methods are proved against
a function of the old state.

## Model

| member | source | states |
|---|---|---|
| DataSessionTrace.Refinement | usb/usb/UsbDataSessionMonitor.cpp:174-407 | after any trace, the incremental role, bind flag, session start, three logs, warning set and report batches are those read off the whole trace |
| DataSessionTheorems.TimerRefinement | usb/usb/UsbDataSessionMonitor.cpp:332-338 | after any trace, the timer is due five seconds after its last arming, and expired if it was read after that |
| DataSessionTheorems.RoleInput | usb/usb/UsbDataSessionMonitor.cpp:321-368 | host, device and any other text of a role read lead to HOST, DEVICE and NONE; a change starts a session at that time, clears the warnings and the logs of the new role's ports, and arms the timer for five seconds |
| DataSessionTheorems.BindInput | usb/usb/UsbDataSessionMonitor.cpp:370-407 | a readable function file decides the bind flag by being empty or not; only a pull-up in device role starts a session |
| DataSessionTheorems.StateInput | usb/usb/UsbDataSessionMonitor.cpp:302-319 | each of the seven state names is logged for its port with the time, and no other text has any effect |
| DataSessionTheorems.TimerInput | usb/usb/UsbDataSessionMonitor.cpp:455-470 | a timer event expires a due timer and changes nothing else but the warnings |
| DataSessionTheorems.WarningsMean | usb/usb/UsbDataSessionMonitor.cpp:241-282 | which warnings an evaluation finds, by the multiplicities of states in the logs and five seconds of age |
| DataSessionTheorems.EvaluationInstalls | usb/usb/UsbDataSessionMonitor.cpp:284-319 | timer events, valid states and soft pulldowns install what an evaluation then finds |
| DataSessionTheorems.ActiveLog | usb/usb/UsbDataSessionMonitor.cpp:302-330 | the log of a watched port is exactly the valid state inputs since the last session start |
| DataSessionTheorems.WarningSetShape | usb/usb/UsbDataSessionMonitor.cpp:241-295 | in every reachable state at most one warning, one of the current role's, none in role NONE, and only raised by an evaluation at least five seconds into the session |
| DataSessionTheorems.WarningsAreRaisedLate | usb/usb/UsbDataSessionMonitor.cpp:246-282 | whatever the clock does, a warning in force was raised by the session's last evaluation, which read a time at least five seconds after the start |
| DataSessionTheorems.ConditionsExclusive | usb/usb/UsbDataSessionMonitor.cpp:249-282 | the conditions of a role exclude each other, by counting |
| DataSessionTheorems.SessionChangesFollowPattern | usb/usb/UsbDataSessionMonitor.cpp:241-319 | the sets a session's evaluations install are a prefix of its role's pattern of four, or of the last two |
| DataSessionTheorems.RaisedOnce | usb/usb/UsbDataSessionMonitor.cpp:241-319 | no warning is raised twice in a session |
| DataSessionTheorems.WarningsAreLastChange | usb/usb/UsbDataSessionMonitor.cpp:284-294 | the warning set is the last one installed since the session start, and empty if there was none |
| DataSessionTheorems.ChangesAreSessionChanges | usb/usb/UsbDataSessionMonitor.cpp:284-322 | in a session the log of installed sets grows by exactly the session's changes, so a session start that empties the set notifies nobody |
| DataSessionTheorems.LogsWellFormed | usb/usb/UsbDataSessionMonitor.cpp:297-330 | in every reachable state each log pairs valid states with non-decreasing times, none of the active role's before the session start |
| DataSessionTheorems.TimerAdequacy | usb/usb/UsbDataSessionMonitor.cpp:321-470 | in a host or device session the timer is pending for no earlier than five seconds after the start, or has expired; once expired the warnings are the current conditions, except from a soft pulldown to the next evaluation; past that an unbound gadget has none |
| DataSessionTheorems.PulldownClearsIff | usb/usb/UsbDataSessionMonitor.cpp:390-406 | a soft pulldown leaves no warning exactly if the session is young or its counts justify none |
| DataSessionTheorems.PulldownLagWitness | usb/usb/UsbDataSessionMonitor.cpp:390-406 | timely runs in which a pulled-down gadget keeps its warning until the next evaluation |
| DataSessionReports.ReportedExactlyOnce | usb/usb/UsbDataSessionMonitor.cpp:359-407 | among the inputs of a session exactly its end reports, if it is a host session or a device session begun bound, and none otherwise |
| DataSessionReports.BatchCarriesSession | usb/usb/UsbDataSessionMonitor.cpp:174-218 | the batch of a session is built from its role, its start and the logs since then, up to the reporting input |
| DataSessionReports.DeviceBatch | usb/usb/UsbDataSessionMonitor.cpp:179-183 | the batch of a device session is one device event with the reporting time, the session start and the states since then |
| DataSessionReports.HostBatch | usb/usb/UsbDataSessionMonitor.cpp:184-204 | the batch of a host session has a host event for each port that saw more than one state, in order, or else one for the first port |
| DataSessionReports.EveryReportIsASession | usb/usb/UsbDataSessionMonitor.cpp:174-218 | each batch handed over belongs to a reportable session and was built at its end |
| DataSessionReports.EverySessionIsReported | usb/usb/UsbDataSessionMonitor.cpp:359-407 | each reportable session that has ended has its batch among those handed over, at one position only |
| DataSessionMonitor.UsbDataSessionMonitor.HandleDataRoleEvent | usb/usb/UsbDataSessionMonitor.cpp:341-368 | a role read appends that input to the trace and leaves the fields the trace prescribes, with the role the text names |
| DataSessionMonitor.UsbDataSessionMonitor.UpdateUdcBindStatus | usb/usb/UsbDataSessionMonitor.cpp:370-407 | likewise for a read of the gadget's function file, readable or not |
| DataSessionMonitor.UsbDataSessionMonitor.HandleDeviceStateEvent | usb/usb/UsbDataSessionMonitor.cpp:302-319 | likewise for a port state, valid or not |
| DataSessionMonitor.UsbDataSessionMonitor.HandleTimerEvent | usb/usb/UsbDataSessionMonitor.cpp:455-470 | likewise for a timer event, due or spurious |
| DataSessionMonitor.UsbDataSessionMonitor.HandleUevent | usb/usb/UsbDataSessionMonitor.cpp:409-453 | a message of n bytes leads to one bind read per change string of the gadget controller, and to the registrations its bind and unbind strings of host ports call for, up to the first empty string, in order |
| DataSessionMonitor.LastStringDecides | usb/usb/UsbDataSessionMonitor.cpp:425-433 | after a message a port's state file is registered exactly if some string registered it and no later one dropped it, or it was registered before and none dropped it |
| DataSessionMonitor.StringsMean | usb/usb/UsbDataSessionMonitor.cpp:425-448 | which strings of a message lead to a bind read, a registration or its removal, by pattern and prefix |
| DataSessionMonitor.UsbDataSessionMonitor.GetComplianceWarnings | usb/usb/UsbDataSessionMonitor.cpp:220-231 | appends each warning once, only with the flag set and for the current role other than NONE |
| DataSessionMonitor.UsbDataSessionMonitor.FieldsOfTrace | usb/usb/UsbDataSessionMonitor.h:65-111 | the fields of a monitor are those of its trace, and its callbacks those of the session's changes |
| Uevents.ScanIsUpToEmpty | usb/usb/UsbDataSessionMonitor.cpp:420-452 | a scan visits exactly the NUL-separated fields up to the first empty one |
| Uevents.SplitJoins | usb/usb/UsbDataSessionMonitor.cpp:449-451 | those fields hold no NUL and spell the message |
| Uevents.StringsStop | usb/usb/UsbDataSessionMonitor.cpp:420-422 | the two terminators hide whatever follows them in the buffer |
| Uevents.RoundTrip | usb/usb/UsbDataSessionMonitor.cpp:414-452 | scanning joined strings, non-empty and free of NULs, gives them back |
| Uevents.Advance | usb/usb/UsbDataSessionMonitor.cpp:449-451 | the cursor moves just behind the next NUL and never past the terminators |
| PortUevents.UeventEvent | usb/usb/Usb.cpp:1036-1092 | a message of n bytes is handled string by string, up to the first that concerns a port |
| PortUevents.HandlingMeans | usb/usb/Usb.cpp:1051-1091 | which strings are signaled, queried for or report overheating, and in what order of precedence |
| PortUevents.HandledInOrder | usb/usb/Usb.cpp:1051-1091 | the strings before the first that concerns a port are handled one by one, and that one by the query |
| PortUevents.QueryIsLast | usb/usb/Usb.cpp:1051-1091 | at most one port query per message, as the last thing, exactly if some string concerns a port |
| PortUevents.PartnersSignaled | usb/usb/Usb.cpp:1051-1091 | each partner-added string before that query is signaled, and none behind it |
| RoleSwitchProofs.InvAlways | usb/usb/Usb.cpp:472-627 | mutual exclusion, the meaning of mPartnerUp and of each program counter hold in every state of every interleaving |
| RoleSwitchTheorems.NoStaleWakeUp | usb/usb/Usb.cpp:483-517 | switchMode goes on with true only if its wait did not time out and a partner-added uevent was handled after its own role write |
| RoleSwitchTheorems.CreditedOnce | usb/usb/Usb.cpp:483-517 | of two calls that return true, each has an event handled between its own write and its decision, and the first decides before the second writes, so no event is credited to both |
| RoleSwitchTheorems.NoLostWakeUp | usb/usb/Usb.cpp:497-512 | once an event is handled while a call waits, its next look leaves the loop, with true unless that wait timed out |
| RoleSwitchTheorems.LooksExactly | usb/usb/Usb.cpp:497-512 | a look leads to false after a timeout, to true if an event was handled since the call's own write, and to another wait otherwise |
| RoleSwitchTheorems.SuccessMeansSignaled | usb/usb/Usb.cpp:586-624 | a mode switch that reports success was signaled in this very call, by an event handled after its own write |
| RoleSwitchTheorems.FailureFallsBack | usb/usb/Usb.cpp:517-524 | a mode switch that reports failure tried dual role first, and if the file took that, it says dual for the rest of the call |
| RoleSwitchTheorems.ResultStands | usb/usb/Usb.cpp:586-624 | the result a call came to is the one it reports |
| RoleSwitchTheorems.RefusalFails | usb/usb/Usb.cpp:483-520 | a file that does not open or refuses the mode gives the result false |
| RoleSwitchTheorems.OtherRequestResult | usb/usb/Usb.cpp:593-612 | any other request has the result its file operations came to |
| RoleSwitchTheorems.SignalReachesWaiter | usb/usb/Usb.cpp:1052-1057 | a call is blocked with the flag up only while the worker is about to signal that very call |
| RoleSwitchTheorems.Isolation | usb/usb/Usb.cpp:1068-1082 | while a call holds the role-switch mutex no other thread writes any port-type file |
| RoleSwitchTheorems.EveryWrite | usb/usb/Usb.cpp:483-524 | port-type files are written by a call with its mode, by its fallback and by the sweep of unconnected ports with dual, and by nothing else |
| RoleSwitchTheorems.SweepGoesThrough | usb/usb/Usb.cpp:1068-1082 | the worker sweeps all ports its query found, in order, if no call holds the mutex, and none otherwise |
| RoleSwitchTheorems.RequestedModeStays | usb/usb/Usb.cpp:490-520 | until it releases the mutex, the file was last given the requested mode or, by the call's own fallback, dual |
| RoleSwitchTheorems.NoWaitCycle | usb/usb/Usb.cpp:586-624 | no reachable state has threads waiting for one another in a circle |
| RoleSwitchTheorems.NoRelock | usb/usb/Usb.cpp:936-954 | no thread asks for a mutex it holds |
| RoleSwitchTheorems.Progress | usb/usb/Usb.cpp:586-624 | a thread inside an operation can step, or the owner of what it wants can, or the owner of what that one wants can |
| RoleSwitchTheorems.WorkerNotStarved | usb/usb/Usb.cpp:1052-1082 | the worker never waits for the role-switch mutex, and the owner of one it waits for goes on unhindered to release it |
| PortRoles.RoleRoundTrip | usb/usb/Usb.cpp:422-451 | a power or data role rendered inside brackets is read back as itself |
| PortRoles.ModeReadIff | usb/usb/Usb.cpp:718-783 | when the data role is shown in brackets, the mode read is exactly the accessory's or, without one, the mode that goes with that data role |
| PortRoles.ModeGoesWithDataIff | usb/usb/Usb.cpp:730-776 | the data role and the mode, read one after the other without an accessory, go together exactly if both reads found the same role |
| PortRoles.ExtractBracketed | usb/usb/Usb.cpp:442-451 | extraction returns what the brackets hold |
| PortRoles.ExtractUnbracketed | usb/usb/Usb.cpp:442-451 | text without a bracket of each kind is taken as it is |
| PortRoles.WordsOfRoles | usb/usb/Usb.cpp:422-440 | which roles each word is written for |
| PortRoles.ReadStatus | usb/usb/Usb.cpp:718-783 | exactly when a role cannot be had, and with which status |
| PortRoles.ReversedBrackets | usb/usb/Usb.cpp:442-451 | with the brackets reversed the count wraps, and everything behind the opening one is taken |
| PortRoles.SwitchByFile | usb/usb/Usb.cpp:593-612 | whenever the file then shows a role of the kind written, success exactly if the file opened, took the write, and the role shown is the requested one |
| PortRoles.SwitchSucceedsIff | usb/usb/Usb.cpp:597-603 | if the file shows a role of the same kind, the read-back matches exactly if it is the requested one |
| TypeCPorts.GetTypeCPortNames | usb/usb/Usb.cpp:785-811 | the map's keys are the non-partner links and the tokens of partner links, connected exactly if some partner has that token |
| TypeCPorts.OrderIndependent | usb/usb/Usb.cpp:792-804 | inserting the same entries in any order, or repeatedly, gives the same map, though each insertion looks at the map so far |
| TypeCPorts.FoldIsPortMap | usb/usb/Usb.cpp:792-804 | the insertions one after the other give the map that is described by the set of entries |
| TypeCPorts.FoldMeans | usb/usb/Usb.cpp:792-804 | a port is in the map exactly if a link is it or names it as a partner, and connected exactly in the second case |
| TypeCPorts.PartnerNamesPort | usb/usb/Usb.cpp:796-802 | a link port-partner, whatever follows, makes that port connected |
| TypeCPorts.TokenMeans | usb/usb/Usb.cpp:801 | the token stands between the leading dashes and the next dash |
| TypeCPorts.TokenExists | usb/usb/Usb.cpp:801 | strtok finds a token in every partner name |
| UsbData.Usb.EnableUsbData | usb/usb/Usb.cpp:103-169 | flag, file and the status told to a callback, exactly by the writes that were needed and accepted, and what the port query that follows finds under the new flag |
| UsbData.AgreementWithoutFailures | usb/usb/Usb.cpp:103-158 | over calls in which no write fails, the flag says what usb_data_enabled was last given |
| UsbData.AgreementKeptIff | usb/usb/Usb.cpp:112-158 | from any state, a call that reaches usb_data_enabled leaves flag and file in agreement exactly if it asks for no change or none of its other writes, each named, is refused; any other call changes neither |
| UsbData.AgreementIff | usb/usb/Usb.cpp:103-158 | after any calls, flag and file agree exactly if the last call that reached the file did not split them |
| UsbData.AgreementThroughoutIff | usb/usb/Usb.cpp:103-158 | flag and file agree all along exactly if no call changes the file while another of its writes is refused |
| UsbData.EntryTellsFile | usb/usb/Usb.cpp:872-887 | over calls none of which splits them, a port's entry lists ENABLED exactly if the file was last given 1 and the port is not docked |
| UsbData.RolesGoTogether | usb/usb/Usb.cpp:838-870 | the roles of an entry: none without a partner; otherwise the mode is the accessory's or, without one, goes with the data role exactly if the file did not change role between the two reads |
| UsbData.StuckOff | usb/usb/Usb.cpp:112-158 | after a partly failed disable, enabling reports success and never turns data on |
| UsbData.Usb.GetPortStatus | usb/usb/Usb.cpp:827-918 | on success each entry has the roles found by three separate reads, what can be changed, ENABLED exactly if data is neither force-disabled nor docked, and the power brick; otherwise the entries before the failing port are complete, its own says nothing about data, and the rest are blank |
| UsbData.EntryOutcomeIs | usb/usb/Usb.cpp:838-877 | exactly when a port can be read, and what fails or aborts the query |
| UsbData.EntryMeans | usb/usb/Usb.cpp:843-910 | what an entry says of power role, data role, changes of role and power brick, by the words in the files |
| UsbData.StoiReads | usb/usb/Usb.cpp:876 | a signed numeral with anything behind it is read as its number |
| UsbData.DockedIff | usb/usb/Usb.cpp:873-879 | the port is docked exactly if pogo_usb_active can be read and says 1 |
| UsbGadget.UsbGadget.SetCurrentUsbFunctions | usb/gadget/UsbGadget.cpp:538-646 | the request is recorded and performed, the gadget pulled up at once exactly without functionfs functions and by the monitor otherwise, the interrupt path looked for only if none is stored, and the interrupt and current limits written exactly after success |
| UsbGadget.AffinityMeans | usb/gadget/UsbGadget.cpp:597-607 | a known interrupt goes to the big core exactly for ncm, and to a medium one otherwise |
| UsbGadget.LimitMeans | usb/gadget/UsbGadget.cpp:609-632 | the accessory limit is written exactly for an accessory on a port that can charge, enabled behind it if accepted, and disabled otherwise |
| UsbGadget.UsbGadget.Perform | usb/gadget/UsbGadget.cpp:564-645 | one status per callback, two only if the first delivery failed in a functionfs setup; the first is SUCCESS exactly if teardown succeeded and the request was NONE or pulled up; nothing pulled up or monitored behind an incomplete linking; applied, monitor and binder status exactly |
| UsbGadget.UsbGadget.SetupFunctions | usb/gadget/UsbGadget.cpp:389-466 | the three ways a setup ends, and what each has written, started and delivered, with the enumeration timeout updated after a pull-up or a report of the monitor |
| UsbGadget.UsbGadget.LinkAll | usb/gadget/UsbGadget.cpp:395-434 | links are attempted in the order generic, vendor, adb, ncm at consecutive indices, a prefix of the plan on failure |
| UsbGadget.PlanIs | usb/gadget/UsbGadget.cpp:395-434 | the plan is the generic links, the vendor's, adb's exactly if asked for, ncm's exactly if asked for |
| UsbGadget.VendorLinksAre | usb/gadget/UsbGadget.cpp:401-422 | which links each vendor setting adds, and in what order |
| UsbGadget.UsbGadget.LinkVendorFunctions | usb/gadget/UsbGadget.cpp:399-422 | the vendor's links in order, stopping at the first that fails |
| UsbGadget.UsbGadget.TearDownGadget | usb/gadget/UsbGadget.cpp:154-165 | success exactly if the reset succeeds, and then no monitor runs |
| UsbGadget.UsbGadget.GetUsbGadgetIrqPath | usb/gadget/UsbGadget.cpp:59-99 | stores what the line-by-line scan of the table finds, and keeps the stored path on error |
| UsbGadget.ScanTable | usb/gadget/UsbGadget.cpp:69-96 | the loop with a moving position finds what a line-by-line scan finds |
| UsbGadget.IrqPathMeans | usb/gadget/UsbGadget.cpp:69-96 | that scan succeeds exactly if the first newline-terminated line with dwc3 has a number before its first colon, and the path is made of that line |
| UsbGadget.IrqPathSpelled | usb/gadget/UsbGadget.cpp:78-87 | the path is /proc/irq/N/smp_affinity_list, where N is the number before the first colon of a line with dwc3 |
| UsbGadget.LinesSpell | usb/gadget/UsbGadget.cpp:69-76 | those lines, each with its newline, are the text up to a last part without one |

## Left out

- UsbDataSessionMonitor constructor, epoll and file descriptors: the aborts of the constructor and the waiting loop are left out. Which ports are registered is kept, but port inputs may arrive at any time. A failing timerfd_settime is not modelled either.
- Regular expressions of device names: a parameter, true or false of each string.
- Building and sending a metrics event: the batch and whether the stats service answered are recorded. One clock reading dates all events of a batch.
- C integer widths of counters and of elapsed seconds: unbounded here.
- DataSessionMonitor.UsbDataSessionMonitor.GetComplianceWarnings: one read of the set; the source reads it from another thread without a lock, which is not modelled.
- Usb::setCallback: it joins the worker thread while holding mLock, and is no part of the deadlock claims. Callbacks into the framework return without calling back.
- RoleSwitchTheorems.RequestedModeStays: speaks of text submitted by fputs and fclose; whether the kernel took it is not seen by the source.
- Role writes other than modes: one step of the protocol with any outcome; their file is the subject of PortRoles.
- UsbData.Usb.EnableUsbData: contaminant, power-transfer, charger and compliance warnings, which the query that follows adds to its entries, are left out.
- UsbGadget.UsbGadget.LinkHelper: stands for addGenericAndroidFunctions and addAdb, whose bodies are not part of this repository.
- validateAndSetVidPid, getUsbSpeed, i2c bus and path caches: finite tables or single writes on which no theorem depends.
- ParseUint: a parameter. Leading blanks of an interrupt line therefore go into the path as in the source.
- Health, pixelstats, pkvm, fingerprint tool, power statistics, EuiccDisabler, overheat events: thin wrappers or constant data.
- Makefiles, init scripts, policies, overlays and radio configuration: data for other programs.
