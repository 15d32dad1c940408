/** Small shared vocabulary: optional values, the data roles of a port, and the text operations of the
    C++ string classes. */
module Common {
  datatype Option<+T> = None | Some(value: T)
  {
    function GetOr(default: T): T {
      if None? then default else value
    }
  }

  datatype PortDataRole = NONE | HOST | DEVICE

  lemma ConcatAssociative<T>(a: seq<T>, b: seq<T>, c: seq<T>)
    ensures (a + b) + c == a + (b + c)
  {}

  // The first index of c, if any.
  function Find(s: string, c: char): (i: Option<nat>)
    ensures i.Some? ==> i.value < |s| && s[i.value] == c
  {
    if s == "" then None
    else if s[0] == c then Some(0)
    else
      match Find(s[1..], c)
      case None => None
      case Some(i) => Some(i + 1)
  }

  lemma {:induction false} FindIsFirst(s: string, c: char)
    ensures Find(s, c).None? ==> c !in s
    ensures Find(s, c).Some? ==> c !in s[..Find(s, c).value]
  {
    if s != "" && s[0] != c {
      FindIsFirst(s[1..], c);
      assert s == [s[0]] + s[1..];
      if Find(s, c).Some? {
        assert s[..Find(s, c).value] == [s[0]] + s[1..][..Find(s[1..], c).value];
      }
    }
  }

  lemma {:induction false} FindIs(s: string, c: char, i: nat)
    requires i < |s| && s[i] == c && c !in s[..i]
    ensures Find(s, c) == Some(i)
  {
    if i > 0 {
      assert s[0] == s[..i][0];
      assert s[1..][..i - 1] == s[..i][1..];
      FindIs(s[1..], c, i - 1);
    }
  }

  predicate Contains(s: string, part: string) {
    part <= s || (s != "" && Contains(s[1..], part))
  }

  predicate IsSpace(c: char) {
    c == ' ' || c == '\t' || c == '\n' || c == '\U{000b}' || c == '\U{000c}' || c == '\r'
  }

  function TrimStart(s: string): string {
    if s != "" && IsSpace(s[0]) then TrimStart(s[1..]) else s
  }

  function TrimEnd(s: string): string {
    if s != "" && IsSpace(s[|s| - 1]) then TrimEnd(s[..|s| - 1]) else s
  }

  function Trim(s: string): string {
    TrimEnd(TrimStart(s))
  }

  /** Containment is standing at some position. */
  lemma {:induction false} ContainsIff(s: string, part: string)
    ensures Contains(s, part) <==> exists before, after :: s == before + part + after
  {
    if part <= s {
      assert s == "" + part + s[|part|..];
    } else if s != "" {
      ContainsIff(s[1..], part);
      if before, after :| s[1..] == before + part + after {
        assert s == ([s[0]] + before) + part + after;
      }
      if before, after :| s == before + part + after {
        assert before == "" ==> part <= s;
        assert s[1..] == before[1..] + part + after;
      }
    } else if before, after :| s == before + part + after {
      assert false;
    }
  }

  // Blanks in the sense of the C locale.
  predicate Blank(s: string) {
    forall i :: 0 <= i < |s| ==> s[i] == ' ' || '\t' <= s[i] <= '\r'
  }

  lemma {:induction false} TrimStartMeans(s: string) returns (before: string)
    ensures s == before + TrimStart(s) && Blank(before)
    ensures TrimStart(s) != "" ==> !Blank([TrimStart(s)[0]])
  {
    if s != "" && IsSpace(s[0]) {
      before := TrimStartMeans(s[1..]);
      before := [s[0]] + before;
    } else {
      before := "";
      assert s != "" ==> [s[0]][0] == s[0];
    }
  }

  lemma {:induction false} TrimEndMeans(s: string) returns (after: string)
    ensures s == TrimEnd(s) + after && Blank(after)
    ensures TrimEnd(s) != "" ==> !Blank([TrimEnd(s)[|TrimEnd(s)| - 1]])
  {
    if s != "" && IsSpace(s[|s| - 1]) {
      after := TrimEndMeans(s[..|s| - 1]);
      after := after + [s[|s| - 1]];
    } else {
      after := "";
      assert s != "" ==> [s[|s| - 1]][0] == s[|s| - 1];
    }
  }

  /** Trimming takes blanks, and all of them, off both ends. */
  lemma TrimMeans(s: string) returns (before: string, after: string)
    ensures s == before + Trim(s) + after && Blank(before) && Blank(after)
    ensures Trim(s) != "" ==> !Blank([Trim(s)[0]]) && !Blank([Trim(s)[|Trim(s)| - 1]])
  {
    before := TrimStartMeans(s);
    after := TrimEndMeans(TrimStart(s));
    assert Trim(s) != "" ==> Trim(s)[0] == TrimStart(s)[0];
    ConcatAssociative(before, Trim(s), after);
  }
}
