/** Every host session and every device session that began bound is reported exactly once. */
module DataSessionReports {
  import opened Common
  import opened DataSession
  import opened DataSessionTrace
  import opened DataSessionTheorems

  // The inputs s+1..n belong to the session that input s started (or, for s == -1, to the time
  // before the first session); input n starts the next one, or n is the end of the trace.
  ghost predicate IsSession(bind: bool, t: seq<Event>, s: int, n: nat) {
    && -1 <= s < n <= |t|
    && (s >= 0 ==> StartsSession(bind, t[..s], t[s]))
    && (forall k {:trigger t[..k]} :: s < k < n ==> !StartsSession(bind, t[..k], t[k]))
    && (n < |t| ==> StartsSession(bind, t[..n], t[n]))
  }

  ghost predicate PullsDownAt(bind: bool, t: seq<Event>, i: nat)
    requires i < |t|
  {
    PullsDown(RoleAfter(t[..i]), BindAfter(bind, t[..i]), t[i])
  }

  // The first soft pulldown from index i on, or n.
  ghost function FirstPulldown(bind: bool, t: seq<Event>, i: nat, n: nat): (r: nat)
    requires i <= n <= |t|
    ensures i <= r <= n
    decreases n - i
  {
    if i == n || PullsDownAt(bind, t, i) then i else FirstPulldown(bind, t, i + 1, n)
  }

  // A host session, or a device session that began with the gadget bound.
  ghost predicate Reportable(bind: bool, t: seq<Event>, s: int)
    requires -1 <= s < |t|
  {
    var u := t[..s + 1];
    RoleAfter(u) == HOST || (RoleAfter(u) == DEVICE && BindAfter(bind, u))
  }

  // Where a session ends: a device session at its first soft pulldown, any session at the next start.
  ghost function SessionEnd(bind: bool, t: seq<Event>, s: int, n: nat): nat
    requires -1 <= s < n <= |t|
  {
    if RoleAfter(t[..s + 1]) == DEVICE then FirstPulldown(bind, t, s + 1, n) else n
  }

  lemma {:induction false} FirstPulldownIsFirst(bind: bool, t: seq<Event>, i: nat, n: nat, k: nat)
    requires i <= n <= |t|
    ensures i <= k < FirstPulldown(bind, t, i, n) ==> !PullsDownAt(bind, t, k)
    ensures FirstPulldown(bind, t, i, n) < n ==> PullsDownAt(bind, t, FirstPulldown(bind, t, i, n))
    decreases n - i
  {
    if i < n && !PullsDownAt(bind, t, i) {
      FirstPulldownIsFirst(bind, t, i + 1, n, k);
    }
  }

  // Inside a session the role and start time stay, and a device session's bind flag only falls.
  lemma {:induction false} WithinSession(bind: bool, t: seq<Event>, s: int, n: nat, i: nat)
    requires IsSession(bind, t, s, n) && s < i <= n
    ensures LastSession(bind, t[..i]) == s
    ensures RoleAfter(t[..i]) == RoleAfter(t[..s + 1])
    ensures StartAfter(bind, t[..i]) == if s < 0 then 0 else t[s].second
    ensures RoleAfter(t[..s + 1]) == DEVICE ==>
              (BindAfter(bind, t[..i]) <==> BindAfter(bind, t[..s + 1]) && i <= SessionEnd(bind, t, s, n))
  {
    if i == s + 1 {
      if s < 0 {
        assert t[..i] == [];
      } else {
        assert t[..i] == t[..s] + [t[s]];
        SpecSnoc(bind, t[..s], t[s]);
      }
    } else {
      WithinSession(bind, t, s, n, i - 1);
      assert t[..i] == t[..i - 1] + [t[i - 1]];
      FirstPulldownIsFirst(bind, t, s + 1, n, i - 1);
      SessionGoesOn(bind, t[..i - 1], t[i - 1]);
    }
  }

  // An input that starts no session changes nothing of it but, at a soft pulldown, the bind flag.
  lemma SessionGoesOn(bind: bool, u: seq<Event>, e: Event)
    requires !StartsSession(bind, u, e)
    ensures LastSession(bind, u + [e]) == LastSession(bind, u)
    ensures RoleAfter(u + [e]) == RoleAfter(u)
    ensures StartAfter(bind, u + [e]) == StartAfter(bind, u)
    ensures RoleAfter(u) == DEVICE ==>
              (BindAfter(bind, u + [e]) <==>
               BindAfter(bind, u) && !PullsDown(RoleAfter(u), BindAfter(bind, u), e))
  {
    SpecSnoc(bind, u, e);
  }

  /** A session is reported at its end and nowhere else, if it is a host session or a device session
      that began bound; any other session is not reported. An open session's end lies past the trace. */
  lemma ReportedExactlyOnce(bind: bool, t: seq<Event>, s: int, n: nat, i: nat)
    requires IsSession(bind, t, s, n) && s < i <= n && i < |t|
    ensures ReportsSession(bind, t[..i], t[i]) <==>
            Reportable(bind, t, s) && i == SessionEnd(bind, t, s, n)
  {
    WithinSession(bind, t, s, n, i);
    FirstPulldownIsFirst(bind, t, s + 1, n, i);
  }

  /** The batch of a session carries its role, its start, and the logs of the inputs since then. */
  lemma BatchCarriesSession(bind: bool, t: seq<Event>, s: int, n: nat, i: nat)
    requires IsSession(bind, t, s, n) && s < i <= n && i < |t|
    requires RoleAfter(t[..s + 1]) != NONE
    ensures s >= 0
    ensures BatchAt(bind, t, i).events ==
            SessionEvents(RoleAfter(t[..s + 1]),
                          Entries(t[..i], s + 1, DevicePort), Entries(t[..i], s + 1, Host1Port),
                          Entries(t[..i], s + 1, Host2Port), t[s].second, t[i].first)
    ensures BatchAt(bind, t, i).uploaded == t[i].stats
  {
    WithinSession(bind, t, s, n, i);
    var u := t[..i];
    if RoleAfter(u) == DEVICE {
      ClearedIsSession(bind, u, DevicePort);
    } else {
      ClearedIsSession(bind, u, Host1Port);
      ClearedIsSession(bind, u, Host2Port);
    }
  }

  /** The batch of a device session is one device event, from the session start to the report, with the
      states since then. */
  lemma DeviceBatch(bind: bool, t: seq<Event>, s: int, n: nat, i: nat)
    requires IsSession(bind, t, s, n) && s < i <= n && i < |t|
    requires RoleAfter(t[..s + 1]) == DEVICE
    ensures s >= 0
    ensures BatchAt(bind, t, i).events ==
            [SessionEvent(false, t[i].first, t[s].second, Entries(t[..i], s + 1, DevicePort))]
  {
    BatchCarriesSession(bind, t, s, n, i);
  }

  /** The batch of a host session is one host event for each port, the first before the second, that saw
      more than one state; or, if neither did, one for the first. */
  lemma HostBatch(bind: bool, t: seq<Event>, s: int, n: nat, i: nat)
    requires IsSession(bind, t, s, n) && s < i <= n && i < |t|
    requires RoleAfter(t[..s + 1]) == HOST
    ensures s >= 0
    ensures var events := BatchAt(bind, t, i).events;
            var log1, log2 := Entries(t[..i], s + 1, Host1Port), Entries(t[..i], s + 1, Host2Port);
            var event1 := SessionEvent(true, t[i].first, t[s].second, log1);
            var event2 := SessionEvent(true, t[i].first, t[s].second, log2);
            && (|log1.states| > 1 && |log2.states| > 1 ==> events == [event1, event2])
            && (|log1.states| > 1 && |log2.states| <= 1 ==> events == [event1])
            && (|log1.states| <= 1 && |log2.states| > 1 ==> events == [event2])
            && (|log1.states| <= 1 && |log2.states| <= 1 ==> events == [event1])
  {
    BatchCarriesSession(bind, t, s, n, i);
  }

  lemma {:induction false} ReportIndicesIncrease(bind: bool, t: seq<Event>, j: nat, k: nat)
    requires j < k < |ReportIndices(bind, t)|
    ensures ReportIndices(bind, t)[j] < ReportIndices(bind, t)[k]
  {
    var u := t[..|t| - 1];
    if k < |ReportIndices(bind, u)| {
      ReportIndicesIncrease(bind, u, j, k);
    }
  }

  /** The reports of a run are the batches at exactly the reporting inputs, each once and in order. */
  lemma {:induction false} ReportIndicesExact(bind: bool, t: seq<Event>, i: nat)
    ensures i in ReportIndices(bind, t) <==> i < |t| && ReportsSession(bind, t[..i], t[i])
  {
    if t != [] {
      var u := t[..|t| - 1];
      ReportIndicesExact(bind, u, i);
      if i < |u| {
        assert t[..i] == u[..i];
      }
    }
  }

  // The first session start from index i on, or the end of the trace.
  ghost function NextStart(bind: bool, t: seq<Event>, i: nat): (n: nat)
    requires i <= |t|
    ensures i <= n <= |t|
    decreases |t| - i
  {
    if i == |t| || StartsSession(bind, t[..i], t[i]) then i else NextStart(bind, t, i + 1)
  }

  lemma {:induction false} NextStartIsNext(bind: bool, t: seq<Event>, i: nat)
    requires i <= |t|
    ensures forall k {:trigger t[..k]} :: i <= k < NextStart(bind, t, i) ==> !StartsSession(bind, t[..k], t[k])
    ensures var n := NextStart(bind, t, i); n < |t| ==> StartsSession(bind, t[..n], t[n])
    decreases |t| - i
  {
    if i < |t| && !StartsSession(bind, t[..i], t[i]) {
      NextStartIsNext(bind, t, i + 1);
    }
  }

  // Every input belongs to a session.
  lemma SessionOf(bind: bool, t: seq<Event>, i: nat) returns (s: int, n: nat)
    requires i < |t|
    ensures IsSession(bind, t, s, n) && s < i <= n
  {
    var u := t[..i];
    s, n := LastSession(bind, u), NextStart(bind, t, i);
    LastWhereIsLast(u, (v, e) => StartsSession(bind, v, e), s);
    NextStartIsNext(bind, t, i);
    if s >= 0 {
      assert u[..s] == t[..s];
    }
    forall k {:trigger t[..k]} | s < k < n
      ensures !StartsSession(bind, t[..k], t[k])
    {
      if k < i {
        assert u[..k] == t[..k] && u[k] == t[k];
      }
    }
  }

  /** Over every run, each batch handed over is that of a host session, or of a device session begun
      bound, and was built when that session ended. */
  lemma EveryReportIsASession(bind: bool, t: seq<Event>, k: nat) returns (s: int, n: nat)
    requires k < |Run(bind, t).reports|
    ensures IsSession(bind, t, s, n) && Reportable(bind, t, s) && SessionEnd(bind, t, s, n) < |t|
    ensures Run(bind, t).reports[k] == BatchAt(bind, t, SessionEnd(bind, t, s, n))
  {
    Refinement(bind, t);
    var i := ReportIndices(bind, t)[k];
    assert i in ReportIndices(bind, t);
    ReportIndicesExact(bind, t, i);
    s, n := SessionOf(bind, t, i);
    ReportedExactlyOnce(bind, t, s, n, i);
  }

  /** Every reportable session that has ended has its batch among the reports, at one position only. */
  lemma EverySessionIsReported(bind: bool, t: seq<Event>, s: int, n: nat) returns (k: nat)
    requires IsSession(bind, t, s, n) && Reportable(bind, t, s) && SessionEnd(bind, t, s, n) < |t|
    ensures k < |ReportIndices(bind, t)| == |Run(bind, t).reports|
    ensures forall j :: 0 <= j < |ReportIndices(bind, t)| ==>
              (s < ReportIndices(bind, t)[j] <= n <==> j == k)
    ensures Run(bind, t).reports[k] == BatchAt(bind, t, SessionEnd(bind, t, s, n))
  {
    var r, i := ReportIndices(bind, t), SessionEnd(bind, t, s, n);
    Refinement(bind, t);
    ReportIndicesExact(bind, t, i);
    ReportedExactlyOnce(bind, t, s, n, i);
    k :| 0 <= k < |r| && r[k] == i;
    forall j | 0 <= j < |r| && s < r[j] <= n
      ensures j == k
    {
      assert r[j] in r;
      ReportIndicesExact(bind, t, r[j]);
      ReportedExactlyOnce(bind, t, s, n, r[j]);
      if j < k {
        ReportIndicesIncrease(bind, t, j, k);
      } else if k < j {
        ReportIndicesIncrease(bind, t, k, j);
      }
    }
  }
}
