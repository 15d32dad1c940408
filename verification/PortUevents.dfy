/** What the role-switch worker does with a uevent: signal a waiting call, query the ports, or report
    overheating. */
module PortUevents {
  import opened Common
  import opened Uevents

  datatype Handling = SignalPartner | QueryPorts | ReportOverheat

  const ADD := "add"
  const PARTNER_SUFFIX := "-partner"

  // A full match of (add)(.*)(-partner), where the dot stands for anything but a line end.
  predicate AddsPartner(s: string) {
    && |ADD| + |PARTNER_SUFFIX| <= |s|
    && ADD <= s && s[|s| - |PARTNER_SUFFIX|..] == PARTNER_SUFFIX
    && '\n' !in s && '\r' !in s
  }

  predicate ConcernsPort(s: string) {
    || "DEVTYPE=typec_" <= s
    || "DRIVER=max77759tcpc" <= s
    || "DRIVER=pogo-transport" <= s
    || "POWER_SUPPLY_NAME=usb" <= s
  }

  predicate Overheats(s: string) {
    "DRIVER=google,usbc_port_cooling_dev" <= s
  }

  function HandlingOf(s: string): Option<Handling> {
    if AddsPartner(s) then Some(SignalPartner)
    else if ConcernsPort(s) then Some(QueryPorts)
    else if Overheats(s) then Some(ReportOverheat)
    else None
  }

  // s is prefix and anything behind it.
  ghost predicate Begins(s: string, prefix: string) {
    exists rest :: s == prefix + rest
  }

  lemma BeginsIff(s: string, prefix: string)
    ensures Begins(s, prefix) <==> prefix <= s
  {
    if prefix <= s {
      assert s == prefix + s[|prefix|..];
    }
  }

  lemma AddsPartnerIff(s: string)
    ensures AddsPartner(s) <==> exists path :: s == "add" + path + "-partner" && '\n' !in s && '\r' !in s
  {
    if AddsPartner(s) {
      assert s == "add" + s[3..|s| - 8] + "-partner";
    }
    if path :| s == "add" + path + "-partner" && '\n' !in s && '\r' !in s {
      assert s == "add" + (path + "-partner");
      assert s[|s| - 8..] == "-partner";
    }
  }

  /** Which strings are signaled, end the message with a query, or report overheating: a partner that is
      added comes first, then the events of ports, their controller, the pogo transport and the supply,
      then those of the port cooling device. */
  lemma HandlingMeans(s: string)
    ensures var partner := exists path :: s == "add" + path + "-partner" && '\n' !in s && '\r' !in s;
            var port := || Begins(s, "DEVTYPE=typec_") || Begins(s, "DRIVER=max77759tcpc")
                        || Begins(s, "DRIVER=pogo-transport") || Begins(s, "POWER_SUPPLY_NAME=usb");
            && (HandlingOf(s) == Some(SignalPartner) <==> partner)
            && (HandlingOf(s) == Some(QueryPorts) <==> !partner && port)
            && (HandlingOf(s) == Some(ReportOverheat) <==>
                  !partner && !port && Begins(s, "DRIVER=google,usbc_port_cooling_dev"))
  {
    AddsPartnerIff(s);
    BeginsIff(s, "DEVTYPE=typec_");
    BeginsIff(s, "DRIVER=max77759tcpc");
    BeginsIff(s, "DRIVER=pogo-transport");
    BeginsIff(s, "POWER_SUPPLY_NAME=usb");
    BeginsIff(s, "DRIVER=google,usbc_port_cooling_dev");
  }

  // A port query ends the message.
  function Handlings(strings: seq<string>): seq<Handling> {
    if strings == [] then []
    else
      match HandlingOf(strings[0])
      case None => Handlings(strings[1..])
      case Some(QueryPorts) => [QueryPorts]
      case Some(h) => [h] + Handlings(strings[1..])
  }

  // The strings before the first one that concerns a port, or all.
  function BeforeQuery(strings: seq<string>): (r: seq<string>)
    ensures r <= strings
  {
    if strings == [] || HandlingOf(strings[0]) == Some(QueryPorts) then []
    else [strings[0]] + BeforeQuery(strings[1..])
  }

  function CountPartners(strings: seq<string>): nat {
    if strings == [] then 0 else (if AddsPartner(strings[0]) then 1 else 0) + CountPartners(strings[1..])
  }

  predicate EndsScan(s: string) {
    HandlingOf(s) == Some(QueryPorts)
  }

  /** A message leads to at most one port query, as the last thing, and it does exactly if some string
      concerns a port. */
  lemma {:induction false} QueryIsLast(strings: seq<string>)
    ensures var hs := Handlings(strings);
            && (forall k :: 0 <= k < |hs| - 1 ==> hs[k] != QueryPorts)
            && (QueryPorts in hs <==> exists k :: 0 <= k < |strings| && EndsScan(strings[k]))
  {
    if strings != [] {
      QueryIsLast(strings[1..]);
      SomeEndsScan(strings);
    }
  }

  lemma SomeEndsScan(strings: seq<string>)
    requires strings != []
    ensures var rest := strings[1..];
            (exists k :: 0 <= k < |strings| && EndsScan(strings[k])) <==>
            EndsScan(strings[0]) || (exists k :: 0 <= k < |rest| && EndsScan(rest[k]))
  {
    var rest := strings[1..];
    if k :| 0 <= k < |rest| && EndsScan(rest[k]) {
      assert EndsScan(strings[k + 1]);
    }
    if k :| 1 <= k < |strings| && EndsScan(strings[k]) {
      assert EndsScan(rest[k - 1]);
    }
  }

  // The handlings of strings, one by one.
  function Each(strings: seq<string>): seq<Handling> {
    if strings == [] then []
    else (if HandlingOf(strings[0]).Some? then [HandlingOf(strings[0]).value] else []) + Each(strings[1..])
  }

  /** A message is handled string by string up to the first that concerns a port, and if there is one,
      by a query for it. */
  lemma {:induction false} HandledInOrder(strings: seq<string>)
    ensures Handlings(strings) ==
            Each(BeforeQuery(strings)) + (if |BeforeQuery(strings)| < |strings| then [QueryPorts] else [])
    ensures forall k :: 0 <= k < |BeforeQuery(strings)| ==> !EndsScan(strings[k])
    ensures |BeforeQuery(strings)| < |strings| ==> EndsScan(strings[|BeforeQuery(strings)|])
  {
    if strings != [] && !EndsScan(strings[0]) {
      var rest := strings[1..];
      HandledInOrder(rest);
      assert BeforeQuery(strings)[1..] == BeforeQuery(rest);
      ConcatAssociative(
        if HandlingOf(strings[0]).Some? then [HandlingOf(strings[0]).value] else [], Each(BeforeQuery(rest)),
        if |BeforeQuery(rest)| < |rest| then [QueryPorts] else []);
      assert forall k :: 0 < k < |strings| ==> strings[k] == rest[k - 1];
    }
  }

  function CountSignals(hs: seq<Handling>): nat {
    if hs == [] then 0 else (if hs[0] == SignalPartner then 1 else 0) + CountSignals(hs[1..])
  }

  /** Each partner-added string before the one that ends the scan is signaled, and none behind it. */
  lemma {:induction false} PartnersSignaled(strings: seq<string>)
    ensures CountSignals(Handlings(strings)) == CountPartners(BeforeQuery(strings))
  {
    if strings != [] {
      var s, rest := strings[0], strings[1..];
      PartnersSignaled(rest);
      if EndsScan(s) {
        assert Handlings(strings) == [QueryPorts];
      } else {
        assert BeforeQuery(strings)[1..] == BeforeQuery(rest);
        if HandlingOf(s).Some? {
          assert Handlings(strings)[1..] == Handlings(rest);
        }
      }
    }
  }

  /** Receives n bytes and handles the strings in them, up to the first that concerns a port. */
  method UeventEvent(msg: array<char>, n: int) returns (handled: seq<Handling>)
    requires msg.Length == UEVENT_MSG_LEN + 2
    modifies msg
    ensures handled == if 0 < n < 2048 then Handlings(Strings(old(msg[..n]))) else []
  {
    handled := [];
    if n <= 0 || n >= UEVENT_MSG_LEN {
      return;
    }
    Terminate(msg, n);
    ghost var m := msg[..];
    var cp := 0;
    assert m[cp..] == m;
    while msg[cp] != NUL
      invariant cp <= n + 1 && msg[..] == m
      invariant Handlings(Strings(m)) == handled + Handlings(Strings(m[cp..]))
      decreases n + 1 - cp
    {
      var next := Advance(msg, cp, if cp <= n then n else n + 1);
      ScanStep(m, cp, next);
      var s := msg[cp..next - 1];
      assert s == m[cp..next - 1];
      ghost var rest := Handlings(Strings(m[next..]));
      HandlingsCons(s, Strings(m[next..]));
      match HandlingOf(s) {
        case None =>
        case Some(h) =>
          ConcatAssociative(handled, [h], rest);
          handled := handled + [h];
          if h == QueryPorts {
            return;
          }
      }
      cp := next;
    }
  }

  lemma HandlingsCons(s: string, strings: seq<string>)
    ensures Handlings([s] + strings) ==
            if HandlingOf(s) == Some(QueryPorts) then [QueryPorts]
            else (if HandlingOf(s).Some? then [HandlingOf(s).value] else []) + Handlings(strings)
  {
    assert ([s] + strings)[1..] == strings;
  }
}
