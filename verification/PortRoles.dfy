/** Type-C port roles as sysfs spells them: rendering a role, and reading back the one in brackets. */
module PortRoles {
  import opened Common

  datatype PowerRole = PowerNone | Source | Sink
  datatype Mode = ModeNone | Ufp | Dfp | Drp | AudioAccessory | DebugAccessory

  // The tagged union PortRole.
  datatype PortRole = Power(power: PowerRole) | Data(data: PortDataRole) | InMode(mode: Mode)

  datatype Status = SUCCESS | ERROR | UNRECOGNIZED_ROLE

  function ConvertRoleToString(role: PortRole): string {
    match role
    case Power(Source) => "source"
    case Power(Sink) => "sink"
    case Data(HOST) => "host"
    case Data(DEVICE) => "device"
    case InMode(Ufp) => "sink"
    case InMode(Dfp) => "source"
    case _ => "none"
  }

  // The values of size_t, in which string positions are computed.
  const SIZE_MODULUS := 0x1_0000_0000_0000_0000

  function Substr(s: string, pos: nat, count: nat): string
    requires pos <= |s|
  {
    if pos + count < |s| then s[pos..pos + count] else s[pos..]
  }

  // The count of characters between two positions, in size_t: it wraps around if the second comes first.
  function Between(first: nat, last: nat): nat {
    if first < last then last - first - 1 else (last - first - 1) % SIZE_MODULUS
  }

  function ExtractRole(roleName: string): string {
    match (Find(roleName, '['), Find(roleName, ']'))
    case (Some(first), Some(last)) => Substr(roleName, first + 1, Between(first, last))
    case _ => roleName
  }

  function WithoutValue(role: PortRole): PortRole {
    match role
    case Power(_) => Power(PowerNone)
    case Data(_) => Data(NONE)
    case InMode(_) => InMode(ModeNone)
  }

  /** Reads the role of the kind that `wanted` has. `accessory` is the trimmed accessory_mode file of
      the partner, `file` the power_role or data_role file; None when a file cannot be read. */
  function CurrentRole(wanted: PortRole, connected: bool, accessory: Option<string>, file: Option<string>)
    : (Status, PortRole)
  {
    var none := WithoutValue(wanted);
    if !connected then (SUCCESS, none)
    else if wanted.InMode? && accessory.None? then (ERROR, none)
    else if wanted.InMode? && accessory.value == "analog_audio" then (SUCCESS, InMode(AudioAccessory))
    else if wanted.InMode? && accessory.value == "debug" then (SUCCESS, InMode(DebugAccessory))
    else if file.None? then (ERROR, none)
    else
      var roleName := ExtractRole(Trim(file.value));
      if roleName == "source" then (SUCCESS, Power(Source))
      else if roleName == "sink" then (SUCCESS, Power(Sink))
      else if roleName == "host" then (SUCCESS, if wanted.Data? then Data(HOST) else InMode(Dfp))
      else if roleName == "device" then (SUCCESS, if wanted.Data? then Data(DEVICE) else InMode(Ufp))
      else if roleName != "none" then (UNRECOGNIZED_ROLE, none)
      else (SUCCESS, none)
  }

  // ---------- bracketed text ----------

  function Bracketed(before: string, role: string, after: string): string {
    before + ("[" + role + "]" + after)
  }

  predicate Unbracketed(s: string) {
    '[' !in s && ']' !in s
  }

  lemma TrimEndBracketed(s: string, after: string)
    ensures TrimEnd(s + "]" + after) == s + "]" + TrimEnd(after)
  {
    var t := s + "]" + after;
    if after == "" {
      assert t[|t| - 1] == ']';
    } else if IsSpace(after[|after| - 1]) {
      assert t[..|t| - 1] == s + "]" + after[..|after| - 1];
      TrimEndBracketed(s, after[..|after| - 1]);
    }
  }

  lemma TrimStartBracketed(before: string, rest: string)
    requires Unbracketed(before) && rest != "" && rest[0] == '['
    ensures TrimStart(before + rest) == TrimStart(before) + rest
    ensures Unbracketed(TrimStart(before)) && |TrimStart(before)| <= |before|
  {
    var t := before + rest;
    if before != "" && IsSpace(before[0]) {
      assert t[1..] == before[1..] + rest;
      TrimStartBracketed(before[1..], rest);
    }
  }

  /** Trimming a bracketed text only shortens what is around the brackets. */
  lemma TrimBracketed(before: string, role: string, after: string)
    requires Unbracketed(before)
    ensures Trim(Bracketed(before, role, after)) == Bracketed(TrimStart(before), role, TrimEnd(after))
    ensures Unbracketed(TrimStart(before)) && |TrimStart(before)| <= |before|
  {
    var open := "[" + role;
    var start := TrimStart(before);
    TrimStartBracketed(before, open + "]" + after);
    ConcatAssociative(open, "]", after);
    ConcatAssociative(start, open, "]" + after);
    ConcatAssociative(start + open, "]", after);
    TrimEndBracketed(start + open, after);
    ConcatAssociative(open, "]", TrimEnd(after));
    ConcatAssociative(start, open, "]" + TrimEnd(after));
    ConcatAssociative(start + open, "]", TrimEnd(after));
  }

  /** Extraction returns what the brackets hold, whatever follows them. */
  lemma ExtractBracketed(before: string, role: string, after: string)
    requires Unbracketed(before) && ']' !in role
    ensures ExtractRole(Bracketed(before, role, after)) == role
  {
    var s := Bracketed(before, role, after);
    assert s[..|before|] == before && s[|before|] == '[';
    FindIs(s, '[', |before|);
    var last := |before| + 1 + |role|;
    assert s[last] == ']';
    assert s[..last] == before + ("[" + role);
    FindIs(s, ']', last);
    assert s[|before| + 1..last] == role;
  }

  lemma RenderedIsPlain(role: PortRole)
    ensures ']' !in ConvertRoleToString(role)
  {}

  lemma ReadsBracketed(before: string, role: PortRole, after: string)
    requires Unbracketed(before)
    ensures ExtractRole(Trim(Bracketed(before, ConvertRoleToString(role), after))) == ConvertRoleToString(role)
  {
    RenderedIsPlain(role);
    TrimBracketed(before, ConvertRoleToString(role), after);
    ExtractBracketed(TrimStart(before), ConvertRoleToString(role), TrimEnd(after));
  }

  // ---------- round trips ----------

  // The rendered words differ from one another.
  lemma WordsDiffer()
    ensures "source" != "sink" && "source" != "host" && "source" != "device" && "source" != "none"
    ensures "sink" != "host" && "sink" != "device" && "sink" != "none"
    ensures "host" != "device" && "host" != "none" && "device" != "none"
  {
    assert "sink"[0] != "host"[0] && "sink"[0] != "none"[0] && "host"[0] != "none"[0];
    assert "source"[0] != "device"[0];
  }

  /** Which roles each word is written for. */
  lemma WordsOfRoles(role: PortRole)
    ensures ConvertRoleToString(role) == "source" <==> role == Power(Source) || role == InMode(Dfp)
    ensures ConvertRoleToString(role) == "sink" <==> role == Power(Sink) || role == InMode(Ufp)
    ensures ConvertRoleToString(role) == "host" <==> role == Data(HOST)
    ensures ConvertRoleToString(role) == "device" <==> role == Data(DEVICE)
    ensures ConvertRoleToString(role) in {"source", "sink", "host", "device", "none"}
  {
    WordsDiffer();
  }

  /** When a role cannot be had: its file is needed and cannot be read, or holds another word. Without a
      partner no file is needed, and for an accessory mode only that of the accessory. */
  lemma ReadStatus(wanted: PortRole, connected: bool, accessory: Option<string>, file: Option<string>)
    ensures var status := CurrentRole(wanted, connected, accessory, file).0;
            var isAccessory :=
              wanted.InMode? && accessory.Some? && (accessory.value == "analog_audio" || accessory.value == "debug");
            && (status == ERROR <==>
                  connected && ((wanted.InMode? && accessory.None?) || (!isAccessory && file.None?)))
            && (status == UNRECOGNIZED_ROLE <==>
                  && connected && !(wanted.InMode? && accessory.None?) && !isAccessory && file.Some?
                  && ExtractRole(Trim(file.value)) !in {"source", "sink", "host", "device", "none"})
    ensures !connected ==> CurrentRole(wanted, connected, accessory, file) == (SUCCESS, WithoutValue(wanted))
  {}

  /** Text without a bracket of each kind is taken as it is. */
  lemma ExtractUnbracketed(s: string)
    requires '[' !in s || ']' !in s
    ensures ExtractRole(s) == s
  {
    FindIsFirst(s, '[');
    FindIsFirst(s, ']');
  }

  /** A power or data role that the kernel shows in brackets is read back as itself. */
  lemma RoleRoundTrip(role: PortRole, before: string, after: string, accessory: Option<string>)
    requires !role.InMode? && Unbracketed(before)
    ensures CurrentRole(WithoutValue(role), true, accessory,
                        Some(Bracketed(before, ConvertRoleToString(role), after))) == (SUCCESS, role)
  {
    WordsDiffer();
    ReadsBracketed(before, role, after);
  }

  // The mode that goes with a data role.
  function ModeOf(data: PortDataRole): Mode {
    match data
    case NONE => ModeNone
    case HOST => Dfp
    case DEVICE => Ufp
  }

  /** A mode is written to one file and read from two others, the partner's accessory mode and the data
      role. When the kernel shows a data role in brackets, a mode comes back exactly if it is the
      accessory's or, without an accessory, the one that goes with that data role. */
  lemma ModeReadIff(mode: Mode, shown: PortDataRole, before: string, after: string, accessory: string)
    requires Unbracketed(before)
    ensures CurrentRole(InMode(ModeNone), true, Some(accessory),
                        Some(Bracketed(before, ConvertRoleToString(Data(shown)), after)))
            == (SUCCESS, InMode(mode))
            <==>
            mode == if accessory == "analog_audio" then AudioAccessory
                    else if accessory == "debug" then DebugAccessory
                    else ModeOf(shown)
  {
    WordsDiffer();
    ReadsBracketed(before, Data(shown), after);
  }

  lemma RenderInjective(a: PortRole, b: PortRole)
    requires !a.InMode? && WithoutValue(a) == WithoutValue(b)
    ensures ConvertRoleToString(a) == ConvertRoleToString(b) ==> a == b
  {
    WordsDiffer();
  }

  // What the file held when a data role was read from it, and when a mode was.
  lemma DataWord(file: Option<string>, accessory: Option<string>, data: PortDataRole)
    requires CurrentRole(Data(NONE), true, accessory, file) == (SUCCESS, Data(data))
    ensures file.Some? && ExtractRole(Trim(file.value)) == ConvertRoleToString(Data(data))
  {}

  lemma ModeWord(file: Option<string>, accessory: string, mode: Mode)
    requires accessory != "analog_audio" && accessory != "debug"
    requires CurrentRole(InMode(ModeNone), true, Some(accessory), file) == (SUCCESS, InMode(mode))
    ensures exists data :: mode == ModeOf(data)
    ensures file.Some?
    ensures forall data :: mode == ModeOf(data) ==> ExtractRole(Trim(file.value)) == ConvertRoleToString(Data(data))
  {
    var roleName := ExtractRole(Trim(file.value));
    if roleName == "host" {
      assert mode == ModeOf(HOST);
    } else if roleName == "device" {
      assert mode == ModeOf(DEVICE);
    } else {
      assert mode == ModeOf(NONE);
    }
  }

  /** The data role and the mode are read one after the other. Without an accessory, they go together
      exactly if both reads found the same role in the file. */
  lemma ModeGoesWithDataIff(first: Option<string>, again: Option<string>, accessory: string,
                            data: PortDataRole, mode: Mode)
    requires accessory != "analog_audio" && accessory != "debug"
    requires CurrentRole(Data(NONE), true, Some(accessory), first) == (SUCCESS, Data(data))
    requires CurrentRole(InMode(ModeNone), true, Some(accessory), again) == (SUCCESS, InMode(mode))
    ensures first.Some? && again.Some?
    ensures mode == ModeOf(data) <==> ExtractRole(Trim(first.value)) == ExtractRole(Trim(again.value))
  {
    DataWord(first, Some(accessory), data);
    ModeWord(again, accessory, mode);
    var found :| mode == ModeOf(found);
    RenderInjective(Data(data), Data(found));
  }

  // ---------- switching a power or data role ----------

  /** If the kernel then shows some role of the same kind in brackets, the read-back matches exactly
      when it is the requested one. */
  lemma SwitchSucceedsIff(requested: PortRole, shown: PortRole, before: string, after: string)
    requires !requested.InMode? && WithoutValue(requested) == WithoutValue(shown) && Unbracketed(before)
    ensures ExtractRole(Trim(Bracketed(before, ConvertRoleToString(shown), after))) == ConvertRoleToString(requested)
            <==> shown == requested
  {
    ReadsBracketed(before, shown, after);
    RenderInjective(shown, requested);
  }

  // The kernel shows role in brackets, after text without any.
  ghost predicate Shows(text: Option<string>, role: PortRole) {
    exists before, after :: Unbracketed(before) && text == Some(Bracketed(before, ConvertRoleToString(role), after))
  }

  /** The part of switchRole for power and data roles: write the role, read the file back. `readBack`
      is what the file then holds, None if it cannot be read. If the file shows a role of the kind
      written, the switch succeeds exactly when the write was accepted and that role is the one. */
  method SwitchByFile(role: PortRole, opens: bool, accepted: bool, readBack: Option<string>)
    returns (roleSwitch: bool)
    ensures roleSwitch ==> opens && accepted && readBack.Some?
    ensures !role.InMode? ==>
              forall shown :: Shows(readBack, shown) && WithoutValue(shown) == WithoutValue(role) ==>
                (roleSwitch <==> opens && accepted && shown == role)
    ensures opens && accepted && readBack.Some? ==>
              (roleSwitch <==> ExtractRole(Trim(readBack.value)) == ConvertRoleToString(role))
  {
    roleSwitch := false;
    if opens {
      if accepted && readBack.Some? {
        var written := Trim(readBack.value);
        written := ExtractRole(written);
        if written == ConvertRoleToString(role) {
          roleSwitch := true;
        }
      }
    }
    forall shown | !role.InMode? && Shows(readBack, shown) && WithoutValue(shown) == WithoutValue(role)
      ensures roleSwitch <==> opens && accepted && shown == role
    {
      var before, after :|
        Unbracketed(before) && readBack == Some(Bracketed(before, ConvertRoleToString(shown), after));
      SwitchSucceedsIff(role, shown, before, after);
    }
  }

  lemma BetweenReversed(first: nat, last: nat)
    requires last < first < SIZE_MODULUS
    ensures Between(first, last) == SIZE_MODULUS - (first + 1 - last)
  {}

  /** Brackets the wrong way round: everything behind the opening one is taken. */
  lemma ReversedBrackets(s: string, first: nat, last: nat)
    requires Find(s, '[') == Some(first) && Find(s, ']') == Some(last) && last < first
    requires |s| <= SIZE_MODULUS / 2
    ensures ExtractRole(s) == s[first + 1..]
  {
    var count := Between(first, last);
    assert count >= |s| by {
      BetweenReversed(first, last);
    }
    assert Substr(s, first + 1, count) == s[first + 1..];
  }
}
