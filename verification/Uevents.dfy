/** Kernel uevent messages: NUL-separated strings in a fixed buffer, scanned with a moving cursor.

    Both the role-switch worker and the data-session monitor scan messages in this way.
 */
module Uevents {
  const NUL := '\0'
  const UEVENT_MSG_LEN := 2048

  // ---------- what a message means ----------

  // The index of the first NUL, or the length.
  function Terminator(m: seq<char>): (j: nat)
    ensures j <= |m|
    ensures j < |m| ==> m[j] == NUL
  {
    if m == [] || m[0] == NUL then 0 else 1 + Terminator(m[1..])
  }

  // The strings a scan visits: it stops at the end of the message or at an empty string.
  function Strings(m: seq<char>): seq<string> {
    if m == [] || m[0] == NUL then []
    else
      var j := Terminator(m);
      [m[..j]] + (if j < |m| then Strings(m[j + 1..]) else [])
  }

  // All fields between NULs, empty ones included.
  function Split(m: seq<char>): (r: seq<string>)
    ensures |r| > 0
  {
    var j := Terminator(m);
    [m[..j]] + (if j < |m| then Split(m[j + 1..]) else [])
  }

  function JoinFields(fields: seq<string>): seq<char>
    requires |fields| > 0
  {
    if |fields| == 1 then fields[0] else fields[0] + [NUL] + JoinFields(fields[1..])
  }

  function UpToEmpty(fields: seq<string>): seq<string> {
    if fields == [] || fields[0] == "" then [] else [fields[0]] + UpToEmpty(fields[1..])
  }

  // Each string followed by a NUL.
  function Join(strings: seq<string>): seq<char> {
    if strings == [] then [] else strings[0] + [NUL] + Join(strings[1..])
  }

  // ---------- laws ----------

  lemma {:induction false} TerminatorIs(m: seq<char>, j: nat)
    requires j <= |m| && NUL !in m[..j] && (j < |m| ==> m[j] == NUL)
    ensures Terminator(m) == j
  {
    if j > 0 {
      assert m[0] == m[..j][0];
      assert m[1..][..j - 1] == m[..j][1..];
      TerminatorIs(m[1..], j - 1);
    }
  }

  lemma {:induction false} NoNulBefore(m: seq<char>)
    ensures NUL !in m[..Terminator(m)]
  {
    if m != [] && m[0] != NUL {
      NoNulBefore(m[1..]);
      assert m[..Terminator(m)] == [m[0]] + m[1..][..Terminator(m[1..])];
    }
  }

  /** Split is the inverse of joining with NULs: its fields hold no NUL and spell the message. */
  lemma {:induction false} SplitJoins(m: seq<char>)
    ensures JoinFields(Split(m)) == m
    ensures forall k :: 0 <= k < |Split(m)| ==> NUL !in Split(m)[k]
  {
    var j := Terminator(m);
    NoNulBefore(m);
    if j < |m| {
      SplitJoins(m[j + 1..]);
      assert Split(m)[1..] == Split(m[j + 1..]);
    }
  }

  lemma {:induction false} UpToEmptyCons(field: string, fields: seq<string>)
    ensures UpToEmpty([field] + fields) == if field == "" then [] else [field] + UpToEmpty(fields)
  {
    assert ([field] + fields)[1..] == fields;
  }

  /** A scan visits exactly the NUL-separated fields up to the first empty one. */
  lemma {:induction false} ScanIsUpToEmpty(m: seq<char>)
    ensures Strings(m) == UpToEmpty(Split(m))
  {
    var j := Terminator(m);
    var fields := if j < |m| then Split(m[j + 1..]) else [];
    assert Split(m) == [m[..j]] + fields;
    UpToEmptyCons(m[..j], fields);
    if j > 0 && j < |m| {
      ScanIsUpToEmpty(m[j + 1..]);
    }
  }

  /** Two NULs after a message hide whatever follows them in the buffer. */
  lemma {:induction false} StringsStop(m: seq<char>, rest: seq<char>)
    requires |rest| >= 2 && rest[0] == rest[1] == NUL
    ensures Strings(m + rest) == Strings(m)
  {
    if m != [] && m[0] != NUL {
      var j := Terminator(m);
      var first := m[..j];
      NoNulBefore(m);
      if j < |m| {
        var tail := m[j + 1..];
        assert m == first + [NUL] + tail;
        assert m + rest == first + [NUL] + (tail + rest);
        StringsStop(tail, rest);
        StringsCons(first, tail);
        StringsCons(first, tail + rest);
      } else {
        assert m == first;
        assert m + rest == m + [NUL] + rest[1..];
        StringsCons(m, rest[1..]);
      }
    }
  }

  lemma {:induction false} StringsCons(first: string, m: seq<char>)
    requires first != "" && NUL !in first
    ensures Strings(first + [NUL] + m) == [first] + Strings(m)
  {
    var all, j := first + [NUL] + m, |first|;
    assert all[..j] == first;
    assert all[j + 1..] == m;
    TerminatorIs(all, j);
  }

  /** Scanning non-empty, NUL-free strings that were joined gives the same strings back. */
  lemma {:induction false} RoundTrip(strings: seq<string>)
    requires forall k :: 0 <= k < |strings| ==> strings[k] != "" && NUL !in strings[k]
    ensures Strings(Join(strings)) == strings
  {
    if strings != [] {
      StringsCons(strings[0], Join(strings[1..]));
      RoundTrip(strings[1..]);
    }
  }

  // ---------- the buffer ----------

  /** Moves the cursor past the string it points at and the NUL that ends it. */
  method Advance(msg: array<char>, start: nat, ghost limit: nat) returns (cp: nat)
    requires start <= limit < msg.Length && msg[limit] == NUL
    ensures start < cp <= limit + 1
    ensures msg[cp - 1] == NUL && NUL !in msg[start..cp - 1]
  {
    cp := start;
    while msg[cp] != NUL
      invariant start <= cp <= limit
      invariant NUL !in msg[start..cp]
      decreases limit - cp
    {
      assert msg[start..cp + 1] == msg[start..cp] + [msg[cp]];
      cp := cp + 1;
    }
    cp := cp + 1;
  }

  // Writes the two terminators behind the n bytes received.
  method Terminate(msg: array<char>, n: nat)
    requires msg.Length == UEVENT_MSG_LEN + 2 && n < UEVENT_MSG_LEN
    modifies msg
    ensures msg[..n] == old(msg[..n])
    ensures msg[n] == msg[n + 1] == NUL
    ensures Strings(msg[..]) == Strings(old(msg[..n]))
  {
    msg[n] := NUL;
    msg[n + 1] := NUL;
    assert msg[..] == msg[..n] + msg[n..];
    StringsStop(msg[..n], msg[n..]);
  }

  /** One turn of a scan: from the cursor, the next string is visited and the scan goes on behind it. */
  lemma {:induction false} ScanStep(m: seq<char>, cp: nat, next: nat)
    requires cp < next - 1 < |m| && m[next - 1] == NUL && NUL !in m[cp..next - 1]
    ensures Strings(m[cp..]) == [m[cp..next - 1]] + Strings(m[next..])
  {
    var first, rest := m[cp..next - 1], m[next..];
    assert m[cp..] == first + [NUL] + rest;
    StringsCons(first, rest);
  }
}
