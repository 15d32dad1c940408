/** The ports found under /sys/class/typec, folded from directory entries that come in any order. */
module TypeCPorts {
  import opened Common

  datatype Entry = Entry(isLink: bool, name: string)

  const PARTNER := "-partner"

  function SkipDashes(s: string): string {
    if s != "" && s[0] == '-' then SkipDashes(s[1..]) else s
  }

  function UpToDash(s: string): string {
    if s == "" || s[0] == '-' then "" else [s[0]] + UpToDash(s[1..])
  }

  // The first token of strtok(s, "-").
  function Token(s: string): string {
    UpToDash(SkipDashes(s))
  }

  predicate IsPartner(e: Entry) {
    e.isLink && Contains(e.name, PARTNER)
  }

  function PortOf(e: Entry): string {
    if IsPartner(e) then Token(e.name) else e.name
  }

  // ---------- what a directory means ----------

  function Ports(entries: seq<Entry>): set<string> {
    set e | e in entries && e.isLink :: PortOf(e)
  }

  predicate Connected(entries: seq<Entry>, port: string) {
    exists e :: e in entries && IsPartner(e) && Token(e.name) == port
  }

  function PortMap(entries: seq<Entry>): map<string, bool> {
    map port | port in Ports(entries) :: Connected(entries, port)
  }

  lemma {:induction false} SkipFindsText(s: string)
    requires Contains(s, PARTNER)
    ensures SkipDashes(s) != "" && SkipDashes(s)[0] != '-'
  {
    if s[0] == '-' {
      if PARTNER <= s {
        assert s[1] == PARTNER[1];
        assert SkipDashes(s[1..]) == s[1..];
      } else {
        SkipFindsText(s[1..]);
      }
    }
  }

  /** strtok finds a token in every partner name, and it holds no dash. */
  lemma TokenExists(s: string)
    requires Contains(s, PARTNER)
    ensures Token(s) != "" && '-' !in Token(s)
  {
    SkipFindsText(s);
    DashFree(SkipDashes(s));
  }

  // Nothing but dashes.
  predicate Dashes(s: string) {
    forall i :: 0 <= i < |s| ==> s[i] == '-'
  }

  lemma {:induction false} SkipDashesMeans(s: string) returns (dashes: string)
    ensures s == dashes + SkipDashes(s) && Dashes(dashes)
  {
    if s != "" && s[0] == '-' {
      dashes := SkipDashesMeans(s[1..]);
      dashes := "-" + dashes;
    } else {
      dashes := "";
    }
  }

  lemma {:induction false} UpToDashMeans(s: string) returns (rest: string)
    ensures s == UpToDash(s) + rest && '-' !in UpToDash(s)
    ensures rest != "" ==> rest[0] == '-'
  {
    if s == "" || s[0] == '-' {
      rest := s;
    } else {
      rest := UpToDashMeans(s[1..]);
      assert s == [s[0]] + s[1..];
    }
  }

  /** The token is what stands between the dashes a text begins with and the next dash. */
  lemma TokenMeans(s: string) returns (dashes: string, rest: string)
    ensures s == dashes + Token(s) + rest && Dashes(dashes) && '-' !in Token(s)
    ensures rest != "" ==> rest[0] == '-'
  {
    dashes := SkipDashesMeans(s);
    rest := UpToDashMeans(SkipDashes(s));
    ConcatAssociative(dashes, Token(s), rest);
  }

  lemma {:induction false} UpToDashStops(p: string, rest: string)
    requires '-' !in p && rest != "" && rest[0] == '-'
    ensures UpToDash(p + rest) == p
  {
    if p == "" {
      assert p + rest == rest;
    } else {
      assert p == [p[0]] + p[1..];
      assert (p + rest)[1..] == p[1..] + rest;
      UpToDashStops(p[1..], rest);
    }
  }

  /** A link p-partner, whatever follows, says that port p is connected; the link p alone, that there is
      such a port. */
  lemma PartnerNamesPort(entries: seq<Entry>, p: string, suffix: string)
    requires p != "" && '-' !in p
    ensures IsPartner(Entry(true, p + "-partner" + suffix)) && Token(p + "-partner" + suffix) == p
    ensures Entry(true, p + "-partner" + suffix) in entries ==> p in Fold(entries) && Fold(entries)[p]
    ensures Entry(true, p) in entries ==> p in Fold(entries)
  {
    var name := p + "-partner" + suffix;
    ContainsIff(name, PARTNER);
    assert name == p + ("-partner" + suffix);
    assert SkipDashes(name) == name;
    UpToDashStops(p, "-partner" + suffix);
    FoldIsPortMap(entries);
    if Entry(true, name) in entries {
      assert PortOf(Entry(true, name)) in Ports(entries);
    }
    if Entry(true, p) in entries {
      NoPartner(p);
      assert PortOf(Entry(true, p)) in Ports(entries);
    }
  }

  lemma NoPartner(p: string)
    requires '-' !in p
    ensures !Contains(p, PARTNER)
  {
    ContainsIff(p, PARTNER);
    forall before, after ensures p != before + PARTNER + after {
      assert (before + PARTNER + after)[|before|] == '-';
    }
  }

  /** A port is in the map exactly if a link is it or names it as a partner, and connected exactly if a
      link names it as a partner. */
  lemma FoldMeans(entries: seq<Entry>, port: string)
    ensures port in Fold(entries) <==>
            exists e :: && e in entries && e.isLink
                        && port == if Contains(e.name, "-partner") then Token(e.name) else e.name
    ensures port in Fold(entries) ==>
              (Fold(entries)[port] <==>
               exists e :: e in entries && e.isLink && Contains(e.name, "-partner") && port == Token(e.name))
  {
    FoldIsPortMap(entries);
    assert forall e: Entry :: e.isLink ==>
      PortOf(e) == if Contains(e.name, "-partner") then Token(e.name) else e.name;
  }

  lemma DashFree(s: string)
    ensures '-' !in UpToDash(s)
  {}

  lemma PortsSnoc(entries: seq<Entry>, e: Entry)
    ensures Ports(entries + [e]) == Ports(entries) + (if e.isLink then {PortOf(e)} else {})
  {
    assert forall d :: d in entries + [e] <==> d in entries || d == e;
  }

  lemma ConnectedSnoc(entries: seq<Entry>, e: Entry, port: string)
    ensures Connected(entries + [e], port) <==>
            Connected(entries, port) || (IsPartner(e) && Token(e.name) == port)
  {
    assert forall d :: d in entries + [e] <==> d in entries || d == e;
  }

  lemma ConnectedIsPort(entries: seq<Entry>, port: string)
    ensures Connected(entries, port) ==> port in Ports(entries)
  {
    if Connected(entries, port) {
      var d :| d in entries && IsPartner(d) && Token(d.name) == port;
      assert PortOf(d) in Ports(entries);
    }
  }

  // The map of one more entry.
  lemma PortMapSnoc(entries: seq<Entry>, e: Entry)
    ensures PortMap(entries + [e]) == Insert(PortMap(entries), e)
  {
    PortsSnoc(entries, e);
    forall port
      ensures Connected(entries + [e], port) <==>
              Connected(entries, port) || (IsPartner(e) && Token(e.name) == port)
    {
      ConnectedSnoc(entries, e, port);
    }
    ConnectedIsPort(entries, PortOf(e));
  }

  // ---------- the fold ----------

  // One entry: a plain link is entered unless its name is there already, a partner always sets its port.
  function Insert(m: map<string, bool>, e: Entry): map<string, bool> {
    if !e.isLink then m
    else if IsPartner(e) then m[Token(e.name) := true]
    else if e.name in m then m
    else m[e.name := false]
  }

  // The entries one after the other, as the directory yields them.
  function Fold(entries: seq<Entry>): map<string, bool> {
    if entries == [] then map[] else Insert(Fold(entries[..|entries| - 1]), entries[|entries| - 1])
  }

  /** The fold maps each port that occurs to whether some partner entry names it. */
  lemma {:induction false} FoldIsPortMap(entries: seq<Entry>)
    ensures Fold(entries) == PortMap(entries)
  {
    if entries != [] {
      var n := |entries| - 1;
      FoldIsPortMap(entries[..n]);
      assert entries == entries[..n] + [entries[n]];
      PortMapSnoc(entries[..n], entries[n]);
    }
  }

  /** The order in which the entries are read, and any repetition, makes no difference to the fold,
      though a single insertion depends on what was inserted before. */
  lemma OrderIndependent(entries: seq<Entry>, others: seq<Entry>)
    requires forall e :: e in entries <==> e in others
    ensures Fold(entries) == Fold(others)
  {
    FoldIsPortMap(entries);
    FoldIsPortMap(others);
    assert Ports(entries) == Ports(others);
    forall port ensures Connected(entries, port) == Connected(others, port) {}
  }

  lemma FoldSnoc(entries: seq<Entry>, e: Entry)
    ensures Fold(entries + [e]) == Insert(Fold(entries), e)
  {
    assert (entries + [e])[..|entries|] == entries;
  }

  /** Reads the directory; None if it cannot be opened. */
  method GetTypeCPortNames(directory: Option<seq<Entry>>) returns (names: Option<map<string, bool>>)
    ensures directory.None? ==> names == None
    ensures directory.Some? ==> names == Some(Fold(directory.value)) == Some(PortMap(directory.value))
  {
    if directory.None? {
      return None;
    }
    var entries := directory.value;
    var m: map<string, bool> := map[];
    for i := 0 to |entries|
      invariant m == Fold(entries[..i])
    {
      var ep := entries[i];
      FoldSnoc(entries[..i], ep);
      assert entries[..i] + [ep] == entries[..i + 1];
      if ep.isLink {
        if !Contains(ep.name, PARTNER) {
          if ep.name !in m {
            m := m[ep.name := false];
          }
        } else {
          m := m[Token(ep.name) := true];
        }
      }
    }
    assert entries[..|entries|] == entries;
    FoldIsPortMap(entries);
    return Some(m);
  }
}
