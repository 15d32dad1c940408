/** What a run of the monitor must have produced, read off the whole trace of inputs.

    Nothing here steps a state. A session boundary is found by searching the trace backwards, a
    log is a filter of the inputs since then, and a warning set is one evaluation of the
    conditions on those logs. `Refinement` proves that the incremental monitor agrees.
 */
module DataSessionTrace {
  import opened Common
  import opened DataSession

  // ---------- searching a trace ----------

  // The last index at which p holds of the event there and the trace before it, or -1.
  ghost function LastWhere(t: seq<Event>, p: (seq<Event>, Event) -> bool): (i: int)
    ensures -1 <= i < |t|
  {
    if t == [] then -1
    else if p(t[..|t| - 1], t[|t| - 1]) then |t| - 1
    else LastWhere(t[..|t| - 1], p)
  }

  lemma {:induction false} LastWhereIsLast(t: seq<Event>, p: (seq<Event>, Event) -> bool, i: int)
    requires i == LastWhere(t, p)
    ensures i >= 0 ==> p(t[..i], t[i])
    ensures forall k :: i < k < |t| ==> !p(t[..k], t[k])
  {
    if t != [] {
      var n := |t| - 1;
      var u := t[..n];
      assert forall k :: 0 <= k < n ==> u[..k] == t[..k];
      if !p(u, t[n]) {
        LastWhereIsLast(u, p, i);
      }
    }
  }

  lemma LastWhereSnoc(u: seq<Event>, e: Event, p: (seq<Event>, Event) -> bool)
    ensures LastWhere(u + [e], p) == if p(u, e) then |u| else LastWhere(u, p)
  {
    assert (u + [e])[..|u|] == u;
  }

  // The data role last read.
  ghost function RoleAfter(t: seq<Event>): PortDataRole {
    if t == [] then NONE else NextRole(RoleAfter(t[..|t| - 1]), t[|t| - 1])
  }

  // Whether the gadget was bound when its function file was last readable.
  ghost function BindAfter(bind: bool, t: seq<Event>): bool {
    if t == [] then bind else NextBind(BindAfter(bind, t[..|t| - 1]), t[|t| - 1])
  }

  // ---------- the kinds of events ----------

  ghost predicate StartsSession(bind: bool, t: seq<Event>, e: Event) {
    Starts(RoleAfter(t), BindAfter(bind, t), e)
  }

  // Event e starts a session in which port p is the one being watched.
  ghost predicate ClearsPort(bind: bool, t: seq<Event>, e: Event, p: Port) {
    Clears(RoleAfter(t), BindAfter(bind, t), e, p)
  }

  ghost predicate EvaluatesWarnings(bind: bool, t: seq<Event>, e: Event) {
    Evaluates(RoleAfter(t), BindAfter(bind, t), e)
  }

  ghost predicate ReportsSession(bind: bool, t: seq<Event>, e: Event) {
    Reports(RoleAfter(t), BindAfter(bind, t), e)
  }

  // ---------- the specification ----------

  ghost function LastSession(bind: bool, t: seq<Event>): int {
    LastWhere(t, (u, e) => StartsSession(bind, u, e))
  }

  ghost function LastEvaluation(bind: bool, t: seq<Event>): int {
    LastWhere(t, (u, e) => EvaluatesWarnings(bind, u, e))
  }

  // The last start of a session in which port p is the one being watched.
  ghost function LastCleared(bind: bool, t: seq<Event>, p: Port): int {
    LastWhere(t, (u, e) => ClearsPort(bind, u, e, p))
  }

  // The entries of port p that the inputs from index `from` on made.
  ghost function Entries(t: seq<Event>, from: nat, p: Port): PortLog {
    if |t| <= from then EMPTY_LOG else Extend(Entries(t[..|t| - 1], from, p), t[|t| - 1], p)
  }

  ghost function LogAfter(bind: bool, t: seq<Event>, p: Port): PortLog {
    Entries(t, LastCleared(bind, t, p) + 1, p)
  }

  ghost function StartAfter(bind: bool, t: seq<Event>): nat {
    var b := LastSession(bind, t);
    if b < 0 then 0 else t[b].second
  }

  // The one-shot warning function at event i: the role, bind flag and session before the event,
  // the logs including it.
  ghost function WarningsAt(bind: bool, t: seq<Event>, i: nat): set<Warning>
    requires i < |t|
  {
    Warnings(RoleAfter(t[..i]), BindAfter(bind, t[..i]),
             LogAfter(bind, t[..i + 1], DevicePort),
             LogAfter(bind, t[..i + 1], Host1Port),
             LogAfter(bind, t[..i + 1], Host2Port),
             StartAfter(bind, t[..i]), t[i].second)
  }

  ghost function WarningsAfter(bind: bool, t: seq<Event>): set<Warning> {
    var i := LastEvaluation(bind, t);
    if i > LastSession(bind, t) then WarningsAt(bind, t, i) else {}
  }

  ghost function BatchAt(bind: bool, t: seq<Event>, i: nat): Batch
    requires i < |t|
  {
    var u := t[..i];
    Batch(SessionEvents(RoleAfter(u), LogAfter(bind, u, DevicePort), LogAfter(bind, u, Host1Port),
                        LogAfter(bind, u, Host2Port), StartAfter(bind, u), t[i].first),
          t[i].stats)
  }

  // The indices at which a batch is built, in order.
  ghost function ReportIndices(bind: bool, t: seq<Event>): (r: seq<nat>)
    ensures forall k :: 0 <= k < |r| ==> r[k] < |t|
  {
    if t == [] then []
    else
      var n := |t| - 1;
      ReportIndices(bind, t[..n]) + (if ReportsSession(bind, t[..n], t[n]) then [n] else [])
  }

  // ---------- the refinement ----------

  // The specification's account of a run, component by component.
  ghost predicate SessionAgrees(bind: bool, t: seq<Event>, s: State) {
    && s.role == RoleAfter(t)
    && s.bind == BindAfter(bind, t)
    && s.start == StartAfter(bind, t)
  }

  ghost predicate LogsAgree(bind: bool, t: seq<Event>, s: State) {
    && s.device == LogAfter(bind, t, DevicePort)
    && s.host1 == LogAfter(bind, t, Host1Port)
    && s.host2 == LogAfter(bind, t, Host2Port)
  }

  ghost predicate ReportsAgree(bind: bool, t: seq<Event>, s: State) {
    var r := ReportIndices(bind, t);
    |s.reports| == |r| && forall k :: 0 <= k < |r| ==> s.reports[k] == BatchAt(bind, t, r[k])
  }

  /** Over every run, the incremental state is the specification of the whole trace. */
  lemma {:induction false} Refinement(bind: bool, t: seq<Event>)
    ensures SessionAgrees(bind, t, Run(bind, t))
    ensures LogsAgree(bind, t, Run(bind, t))
    ensures Run(bind, t).warnings == WarningsAfter(bind, t)
    ensures ReportsAgree(bind, t, Run(bind, t))
  {
    if t != [] {
      var n := |t| - 1;
      var u, e := t[..n], t[n];
      assert t == u + [e];
      Refinement(bind, u);
      var s := Run(bind, u);
      SessionStep(bind, u, e, s);
      LogsStep(bind, u, e, s);
      WarningsStep(bind, u, e, s);
      ReportsStep(bind, u, e, s);
    }
  }

  lemma SessionStep(bind: bool, u: seq<Event>, e: Event, s: State)
    requires SessionAgrees(bind, u, s)
    ensures SessionAgrees(bind, u + [e], Step(s, e))
  {
    StepSession(s, e);
    SpecSnoc(bind, u, e);
  }

  lemma LogsStep(bind: bool, u: seq<Event>, e: Event, s: State)
    requires SessionAgrees(bind, u, s) && LogsAgree(bind, u, s)
    ensures LogsAgree(bind, u + [e], Step(s, e))
  {
    LogStepOne(bind, u, e, s, DevicePort);
    LogStepOne(bind, u, e, s, Host1Port);
    LogStepOne(bind, u, e, s, Host2Port);
    assert Step(s, e).LogOf(DevicePort) == Step(s, e).device;
    assert Step(s, e).LogOf(Host1Port) == Step(s, e).host1;
    assert Step(s, e).LogOf(Host2Port) == Step(s, e).host2;
  }

  lemma LogStepOne(bind: bool, u: seq<Event>, e: Event, s: State, p: Port)
    requires SessionAgrees(bind, u, s) && s.LogOf(p) == LogAfter(bind, u, p)
    ensures Step(s, e).LogOf(p) == LogAfter(bind, u + [e], p)
  {
    StepLogs(s, e);
    LogSnoc(bind, u, e, p);
  }

  lemma WarningsStep(bind: bool, u: seq<Event>, e: Event, s: State)
    requires SessionAgrees(bind, u, s) && LogsAgree(bind, u, s) && s.warnings == WarningsAfter(bind, u)
    ensures Step(s, e).warnings == WarningsAfter(bind, u + [e])
  {
    LogsStep(bind, u, e, s);
    StepWarnings(s, e);
    WarningsSnoc(bind, u, e);
    WarningsAtLast(bind, u, e);
  }

  lemma ReportsStep(bind: bool, u: seq<Event>, e: Event, s: State)
    requires SessionAgrees(bind, u, s) && LogsAgree(bind, u, s) && ReportsAgree(bind, u, s)
    ensures ReportsAgree(bind, u + [e], Step(s, e))
  {
    StepReports(s, e);
    ReportsSnoc(bind, u, e);
  }

  // The role, bind flag and start time of an extended trace.
  lemma SpecSnoc(bind: bool, u: seq<Event>, e: Event)
    ensures RoleAfter(u + [e]) == NextRole(RoleAfter(u), e)
    ensures BindAfter(bind, u + [e]) == NextBind(BindAfter(bind, u), e)
    ensures LastSession(bind, u + [e]) == if StartsSession(bind, u, e) then |u| else LastSession(bind, u)
    ensures StartAfter(bind, u + [e]) == if StartsSession(bind, u, e) then e.second else StartAfter(bind, u)
  {
    assert (u + [e])[..|u|] == u;
  }

  lemma ClearedSnoc(bind: bool, u: seq<Event>, e: Event, p: Port)
    ensures LastCleared(bind, u + [e], p) ==
            if ClearsPort(bind, u, e, p) then |u| else LastCleared(bind, u, p)
  {
    assert (u + [e])[..|u|] == u;
  }

  lemma EntriesSnoc(u: seq<Event>, e: Event, from: nat, p: Port)
    ensures Entries(u + [e], from, p) ==
            if |u| < from then EMPTY_LOG else Extend(Entries(u, from, p), e, p)
  {
    assert (u + [e])[..|u|] == u;
  }

  lemma LogSnoc(bind: bool, u: seq<Event>, e: Event, p: Port)
    ensures LogAfter(bind, u + [e], p) ==
            if ClearsPort(bind, u, e, p) then EMPTY_LOG
            else Extend(LogAfter(bind, u, p), e, p)
  {
    ClearedSnoc(bind, u, e, p);
    EntriesSnoc(u, e, LastCleared(bind, u + [e], p) + 1, p);
  }

  lemma EvaluationSnoc(bind: bool, u: seq<Event>, e: Event)
    ensures LastEvaluation(bind, u + [e]) ==
            if EvaluatesWarnings(bind, u, e) then |u| else LastEvaluation(bind, u)
  {
    assert (u + [e])[..|u|] == u;
  }

  lemma WarningsAtSnoc(bind: bool, u: seq<Event>, e: Event, i: nat)
    requires i < |u|
    ensures WarningsAt(bind, u + [e], i) == WarningsAt(bind, u, i)
  {
    assert (u + [e])[..i] == u[..i] && (u + [e])[..i + 1] == u[..i + 1];
  }

  lemma WarningsAtLast(bind: bool, u: seq<Event>, e: Event)
    ensures WarningsAt(bind, u + [e], |u|) ==
            Warnings(RoleAfter(u), BindAfter(bind, u), LogAfter(bind, u + [e], DevicePort),
                     LogAfter(bind, u + [e], Host1Port), LogAfter(bind, u + [e], Host2Port),
                     StartAfter(bind, u), e.second)
  {
    assert (u + [e])[..|u|] == u && (u + [e])[..|u| + 1] == u + [e];
  }

  lemma WarningsSnoc(bind: bool, u: seq<Event>, e: Event)
    ensures WarningsAfter(bind, u + [e]) ==
            if StartsSession(bind, u, e) then {}
            else if EvaluatesWarnings(bind, u, e) then WarningsAt(bind, u + [e], |u|)
            else WarningsAfter(bind, u)
  {
    SpecSnoc(bind, u, e);
    EvaluationSnoc(bind, u, e);
    if LastEvaluation(bind, u) >= 0 {
      WarningsAtSnoc(bind, u, e, LastEvaluation(bind, u));
    }
  }

  lemma ReportsSnoc(bind: bool, u: seq<Event>, e: Event)
    ensures ReportIndices(bind, u + [e]) ==
            ReportIndices(bind, u) + (if ReportsSession(bind, u, e) then [|u|] else [])
    ensures forall i :: 0 <= i < |u| ==> BatchAt(bind, u + [e], i) == BatchAt(bind, u, i)
    ensures BatchAt(bind, u + [e], |u|) ==
            Batch(SessionEvents(RoleAfter(u), LogAfter(bind, u, DevicePort), LogAfter(bind, u, Host1Port),
                                LogAfter(bind, u, Host2Port), StartAfter(bind, u), e.first), e.stats)
  {
    var t := u + [e];
    assert t[..|u|] == u;
    forall i | 0 <= i < |u| ensures BatchAt(bind, t, i) == BatchAt(bind, u, i) {
      assert t[..i] == u[..i];
    }
  }
}
