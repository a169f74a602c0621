/** The comma-separated version lists of the handshake: printing, parsing, and the highest
    version two lists have in common. */
module Versions {
  import opened Basics
  import opened Decimal

  const CLIENT_PREFIX := "HELLO CLIENT_VERSIONS="
  const SERVER_PREFIX := "HELLO SERVER_VERSIONS="

  predicate IsInt(v: int) { INT_MIN <= v <= INT_MAX }

  /** (int)v for a long: the low 32 bits, read as two's complement. */
  function ToInt(v: int): (r: int)
    ensures -0x8000_0000 <= r <= 0x7fff_ffff && (r - v) % 0x1_0000_0000 == 0 && (IsInt(v) ==> r == v)
  {
    var m := v % 0x1_0000_0000; if m > INT_MAX then m - 0x1_0000_0000 else m
  }

  /** "1,2,3" */
  function Joined(vs: seq<int>): string {
    if vs == [] then "" else if |vs| == 1 then Print(vs[0]) else Print(vs[0]) + "," + Joined(vs[1..])
  }

  lemma {:induction false} JoinedGrows(vs: seq<int>, ws: seq<int>)
    ensures |Joined(vs)| <= |Joined(vs + ws)|
    decreases |ws|
  {
    hide Joined, Print;
    if ws == [] {
      assert vs + ws == vs;
    } else {
      JoinedSnoc(vs, ws[0]);
      JoinedGrows(vs + [ws[0]], ws[1..]);
      assert vs + [ws[0]] + ws[1..] == vs + ws;
    }
  }

  lemma {:induction false} JoinedSnoc(vs: seq<int>, v: int)
    ensures Joined(vs + [v]) == Joined(vs) + (if vs == [] then "" else ",") + Print(v)
    decreases |vs|
  {
    hide Print;
    if vs == [] {
      assert vs + [v] == [v];
    } else {
      JoinedSnoc(vs[1..], v);
      assert (vs + [v])[1..] == vs[1..] + [v];
    }
  }

  // ---------------------------------------------------------------- parsing

  /** Putting parsed versions in front of the result for the rest of the list. */
  function Prepend(vs: seq<int>, r: Option<seq<int>>): Option<seq<int>> {
    if r.None? then None else Some(vs + r.value)
  }

  /** The loop of parse_client_versions from position p on; `room` is what is left of out[]. */
  function ParseList(s: string, room: nat): (r: Option<seq<int>>)
    decreases |s|
  {
    if s == "" then Some([])
    else if room == 0 then None
    else
      var (v, end) := Strtol(s);
      if end == 0 then None
      else if end == |s| then Some([ToInt(v)])
      else if s[end] != ',' then None
      else Prepend([ToInt(v)], ParseList(s[end + 1..], room - 1))
  }

  /** parse_client_versions: the empty list stands for the returned count 0. */
  function ClientVersions(line: string, capacity: nat): seq<int> {
    if !(CLIENT_PREFIX <= line) || line == CLIENT_PREFIX then []
    else var r := ParseList(line[|CLIENT_PREFIX|..], capacity); if r.Some? then r.value else []
  }

  /** A list of k versions takes at least 2k - 1 characters. */
  lemma {:induction false} ListIsLong(s: string, room: nat)
    ensures ParseList(s, room).Some? ==> 2 * |ParseList(s, room).value| <= |s| + 1
    decreases |s|
  {
    hide Strtol, ToInt;
    if s != "" && room > 0 {
      var (v, end) := Strtol(s);
      if 0 < end < |s| && s[end] == ',' { ListIsLong(s[end + 1..], room - 1); }
    }
  }

  /** The capacity check cannot fire while there are at least half as many places as characters. */
  lemma {:induction false} RoomEnough(s: string, room: nat, more: nat)
    requires 2 * room >= |s| && more >= room
    ensures ParseList(s, room) == ParseList(s, more)
    decreases |s|
  {
    hide Strtol, ToInt;
    if s != "" {
      var (v, end) := Strtol(s);
      if 0 < end < |s| && s[end] == ',' { RoomEnough(s[end + 1..], room - 1, more - 1); }
    }
  }

  /** A line that read_line can deliver holds at most 52 versions, so with 128 places the parse
      does not depend on the capacity at all. */
  lemma CapacityNeverFires(line: string, capacity: nat)
    requires |line| <= 126 && capacity >= 52
    ensures ClientVersions(line, 128) == ClientVersions(line, capacity)
    ensures |ClientVersions(line, 128)| <= 52
  {
    if CLIENT_PREFIX <= line {
      var s := line[|CLIENT_PREFIX|..];
      ListIsLong(s, 128);
      RoomEnough(s, 52, 128);
      RoomEnough(s, 52, capacity);
    }
  }

  /** One round of the loop: a number, a comma, the rest. */
  lemma ParseComma(s: string, end: nat, room: nat)
    requires end < |s| && room > 0 && s[end] == ',' && end > 0 && Strtol(s).1 == end
    ensures ParseList(s, room) == Prepend([ToInt(Strtol(s).0)], ParseList(s[end + 1..], room - 1))
  {
    hide Strtol, ToInt;
  }

  lemma ParseLast(s: string, room: nat)
    requires s != "" && room > 0 && Strtol(s).1 == |s|
    ensures ParseList(s, room) == Some([ToInt(Strtol(s).0)])
  {
    hide Strtol, ToInt;
  }

  lemma ParseStops(s: string, room: nat)
    requires s != "" && (room == 0 || Strtol(s).1 == 0 || (Strtol(s).1 < |s| && s[Strtol(s).1] != ','))
    ensures ParseList(s, room) == None
  {
    hide Strtol, ToInt;
  }

  /** A list item is optional white space, an optional sign and digits, clamped to 64 bits and cut to
      32; a comma leads to the next item and the end of the text ends the list. */
  lemma ParseItem(sp: string, sign: string, ds: string, rest: string, room: nat)
    requires AllSpaces(sp) && IsSign(sign) && ds != "" && AllDigits(ds) && room > 0
    ensures ParseList(sp + sign + (ds + ""), room) == Some([ToInt(Clamp(WithSign(sign, Value(ds))))])
    ensures ParseList(sp + sign + (ds + ("," + rest)), room) ==
              Prepend([ToInt(Clamp(WithSign(sign, Value(ds))))], ParseList(rest, room - 1))
  {
    hide Strtol, ToInt, ParseList, Clamp, WithSign, Value, AllSpaces, AllDigits, IsSign;
    StrtolReads(sp, sign, ds, "");
    ParseLast(sp + sign + (ds + ""), room);
    StrtolReads(sp, sign, ds, "," + rest);
    var s, end := sp + sign + (ds + ("," + rest)), |sp| + |sign| + |ds|;
    assert s == sp + sign + ds + "," + rest;
    assert s[end] == ',' && s[end + 1..] == rest;
    ParseComma(s, end, room);
  }

  /** Anything but a comma after the digits, or no digits at all, spoils the whole list. */
  lemma ParseJunk(sp: string, sign: string, ds: string, rest: string, room: nat)
    requires AllSpaces(sp) && IsSign(sign) && AllDigits(ds)
    requires ds == "" && sign == "" && rest != "" ==> !IsSpace(rest[0]) && rest[0] != '+' && rest[0] != '-'
    requires rest != "" ==> !IsDigit(rest[0]) && (ds != "" ==> rest[0] != ',')
    requires sp + sign != "" || rest != ""
    requires ds != "" ==> rest != ""
    ensures ParseList(sp + sign + (ds + rest), room) == None
  {
    hide Strtol, ToInt, ParseList, AllSpaces, AllDigits, IsSign;
    var s := sp + sign + (ds + rest);
    if ds == "" {
      assert ds + rest == rest;
      StrtolNothing(sp, sign, rest);
    } else {
      StrtolReads(sp, sign, ds, rest);
      assert s == sp + sign + ds + rest;
      assert s[|sp| + |sign| + |ds|] == rest[0];
    }
    ParseStops(s, room);
  }

  /** Parsing a printed list gives the list back. */
  lemma {:induction false} ParseJoined(vs: seq<int>, room: nat)
    requires vs != [] && |vs| <= room && forall i | 0 <= i < |vs| :: IsInt(vs[i])
    ensures ParseList(Joined(vs), room) == Some(vs) && Joined(vs) != ""
    decreases |vs|
  {
    hide Strtol, Print, ToInt, ParseList;
    var s, first := Joined(vs), Print(vs[0]);
    if |vs| == 1 {
      StrtolPrint(vs[0], "");
      assert first + "" == s;
      ParseLast(s, room);
      assert [vs[0]] == vs;
    } else {
      var tail := Joined(vs[1..]);
      StrtolPrint(vs[0], "," + tail);
      assert s == first + ("," + tail);
      ParseComma(s, |first|, room);
      assert s[|first| + 1..] == tail;
      ParseJoined(vs[1..], room - 1);
      assert [vs[0]] + vs[1..] == vs;
    }
  }

  lemma VersionListRoundTrip(vs: seq<int>, capacity: nat)
    requires vs != [] && |vs| <= capacity && forall i | 0 <= i < |vs| :: IsInt(vs[i])
    ensures ClientVersions(CLIENT_PREFIX + Joined(vs), capacity) == vs
  {
    ParseJoined(vs, capacity);
    var line := CLIENT_PREFIX + Joined(vs);
    assert line[|CLIENT_PREFIX|..] == Joined(vs);
  }

  /** What comes after the prefix is the list; without the prefix, or with nothing after it, there is none. */
  lemma ClientPrefix(line: string, list: string, capacity: nat)
    ensures !("HELLO CLIENT_VERSIONS=" <= line) ==> ClientVersions(line, capacity) == []
    ensures ClientVersions("HELLO CLIENT_VERSIONS=", capacity) == []
    ensures var vs := ClientVersions("HELLO CLIENT_VERSIONS=" + list, capacity); var r := ParseList(list, capacity);
            list != "" ==> vs == if r.Some? then r.value else []
  {
    hide ParseList;
    assert ("HELLO CLIENT_VERSIONS=" + list)[22..] == list;
  }

  /** parse_client_versions as the loop it is: `out[..count]` with count 0 on any mismatch. */
  method ParseClientVersions(line: string, capacity: nat) returns (out: seq<int>)
    ensures out == ClientVersions(line, capacity)
  {
    hide Strtol, ToInt, ParseList;
    if |line| < |CLIENT_PREFIX| || line[..|CLIENT_PREFIX|] != CLIENT_PREFIX {
      return [];
    }
    if |line| == |CLIENT_PREFIX| {
      return [];
    }
    out := ParseVersions(line[|CLIENT_PREFIX|..], capacity);
  }

  method ParseVersions(list: string, capacity: nat) returns (out: seq<int>)
    requires list != ""
    ensures var r := ParseList(list, capacity); out == if r.Some? then r.value else []
  {
    hide Strtol, ToInt, ParseList;
    ghost var whole := ParseList(list, capacity);
    var p := 0;
    out := [];
    assert list[p..] == list;
    assert whole == Prepend(out, whole) by { if whole.Some? { assert [] + whole.value == whole.value; } }
    while p < |list|
      invariant 0 <= p <= |list| && |out| <= capacity
      invariant whole == Prepend(out, ParseList(list[p..], capacity - |out|))
    {
      ghost var room := capacity - |out|;
      var rest := list[p..];
      if |out| >= capacity {
        ParseStops(rest, room);
        return [];
      }
      var (v, end) := Strtol(rest);
      if end == 0 {
        ParseStops(rest, room);
        return [];
      }
      ghost var done := out;
      out := out + [ToInt(v)];
      p := p + end;
      if p < |list| && list[p] == ',' {
        ParseComma(rest, end, room);
        PrependTwice(done, [ToInt(v)], ParseList(rest[end + 1..], room - 1));
        p := p + 1;
        assert rest[end + 1..] == list[p..];
      } else if p < |list| {
        ParseStops(rest, room);
        return [];
      } else {
        ParseLast(rest, room);
        assert list[p..] == "" && out + [] == out;
        ParseEmpty(room - 1);
      }
    }
    assert list[p..] == "" && out + [] == out;
    ParseEmpty(capacity - |out|);
  }

  lemma ParseEmpty(room: nat)
    ensures ParseList("", room) == Some([])
  {
  }

  lemma PrependTwice(us: seq<int>, vs: seq<int>, r: Option<seq<int>>)
    ensures Prepend(us, Prepend(vs, r)) == Prepend(us + vs, r)
  {
    if r.Some? { assert us + (vs + r.value) == us + vs + r.value; }
  }

  // ---------------------------------------------------------------- negotiation

  /** `best` is the largest positive version in both lists, or 0 if there is none. */
  ghost predicate HighestCommon(best: int, server: seq<int>, client: seq<int>) {
    && (best == 0 || (best > 0 && best in server && best in client))
    && forall v | v in server && v in client :: v <= best || v <= 0
  }

  /** It is determined by the two sets of versions: order and repetitions play no part. */
  lemma HighestCommonUnique(
      b1: int, b2: int, server1: seq<int>, client1: seq<int>, server2: seq<int>, client2: seq<int>)
    requires forall v :: v in server1 && v in client1 <==> v in server2 && v in client2
    requires HighestCommon(b1, server1, client1) && HighestCommon(b2, server2, client2)
    ensures b1 == b2
  {
  }

  /** highest_common_version */
  method HighestCommonVersion(server: seq<int>, client: seq<int>) returns (best: int)
    ensures HighestCommon(best, server, client)
  {
    best := 0;
    for i := 0 to |server|
      invariant best == 0 || (best > 0 && best in server && best in client)
      invariant forall k | 0 <= k < i :: server[k] in client ==> server[k] <= best || server[k] <= 0
    {
      for j := 0 to |client|
        invariant best == 0 || (best > 0 && best in server && best in client)
        invariant forall k | 0 <= k < i :: server[k] in client ==> server[k] <= best || server[k] <= 0
        invariant server[i] in client[..j] ==> server[i] <= best || server[i] <= 0
      {
        if client[j] == server[i] && server[i] > best {
          best := server[i];
        }
      }
      assert client[..|client|] == client;
    }
  }
}
