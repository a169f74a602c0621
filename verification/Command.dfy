/** The command listener: one line at a time, SET_INTERVAL on the radio control object and
    TRIGGER_ALERT on the ingest queue. */
module Command {
  import opened Basics
  import opened Decimal
  import opened Messages
  import opened MsgQueues
  import opened Wire

  const DEFAULT_INTERVAL_MS: nat := 1000
  const ULONG_MAX: nat := 0xffff_ffff_ffff_ffff

  class RadioControl {
    var intervalMs: nat

    ghost predicate Valid()
      reads this
    {
      1 <= intervalMs < UINT32
    }

    constructor (initial: nat)
      requires initial < UINT32
      ensures Valid() && intervalMs == if initial == 0 then 1000 else initial
    {
      intervalMs := if initial == 0 then DEFAULT_INTERVAL_MS else initial;
    }

    method Get() returns (ms: nat)
      requires Valid()
      ensures ms == intervalMs && 1 <= ms < UINT32
    {
      ms := intervalMs;
    }

    method Set(ms: nat)
      requires Valid() && ms < UINT32
      modifies this
      ensures Valid() && intervalMs == if ms == 0 then old(intervalMs) else ms
    {
      if ms == 0 {
        return;
      }
      intervalMs := ms;
    }
  }

  // ---------------------------------------------------------------- what a line means

  datatype Effect = Ignored | SetTo(ms: nat) | Raise(code: string, antenna: nat)

  /** Length of the leading run of non-white-space characters, at most `width`. */
  function WordRun(s: string, width: nat): (n: nat)
    ensures n <= |s| && n <= width && (forall i | 0 <= i < n :: !IsSpace(s[i]))
    ensures n < width && n < |s| ==> IsSpace(s[n])
  {
    if s == "" || width == 0 || IsSpace(s[0]) then 0 else 1 + WordRun(s[1..], width - 1)
  }

  /** %u: clamped to unsigned long, negated modulo 2^64 after a minus sign, cut to 32 bits. */
  function Unsigned(s: string, v: nat): (r: nat)
    ensures r < UINT32
  {
    (if v > ULONG_MAX then ULONG_MAX else Signed(s, v)) % UINT32
  }

  /** The %u conversion at the start of s. */
  function ScanNumber(s: string): Option<nat> {
    var t := s[Spaces(s)..];
    var ds := t[SignLength(t)..];
    var n := DigitRun(ds);
    if n == 0 then None else Some(Unsigned(t, Value(ds[..n])))
  }

  /** sscanf(args, "%31s %u") with both conversions made. */
  function ScanAlert(args: string): (e: Effect)
    ensures !e.SetTo? && (e.Raise? ==> 1 <= |e.code| <= CODE_MAX && e.antenna < UINT32)
  {
    var a := args[Spaces(args)..];
    var w := WordRun(a, CODE_MAX);
    if w == 0 then Ignored
    else var number := ScanNumber(a[w..]);
         if number.None? then Ignored else Raise(a[..w], number.value)
  }

  function ScanInterval(args: string): (e: Effect)
    ensures !e.Raise? && (e.SetTo? ==> e.ms < UINT32)
  {
    var (ms, end) := Strtol(args);
    if end == 0 || ms <= 0 then Ignored else SetTo(ms % UINT32)
  }

  function FirstSpace(s: string): (n: nat)
    ensures n <= |s| && ' ' !in s[..n] && (n < |s| ==> s[n] == ' ')
  {
    if s == "" || s[0] == ' ' then 0 else 1 + FirstSpace(s[1..])
  }

  /** apply_command up to its effect. */
  function Interpret(line: string): Effect {
    var k := FirstSpace(line);
    if k == |line| then Ignored
    else if line[..k] == "SET_INTERVAL" then ScanInterval(line[k + 1..])
    else if line[..k] == "TRIGGER_ALERT" then ScanAlert(line[k + 1..])
    else Ignored
  }

  // ---------------------------------------------------------------- applying it

  datatype Station = Station(interval: nat, ingest: View<Body>) {
    ghost predicate Valid() { 1 <= interval < UINT32 && |ingest.contents| <= ingest.capacity }
  }

  /** `memory` is whether malloc succeeds for a triggered alert. */
  function Applied(s: Station, e: Effect, memory: bool): Station {
    match e
    case Ignored => s
    case SetTo(ms) => if ms == 0 then s else s.(interval := ms)
    case Raise(code, antenna) =>
      if s.ingest.Full() || !memory then s
      else s.(ingest := s.ingest.(contents := s.ingest.contents + [RawAlert(code, antenna)]))
  }

  /** What surrounds one command: the critical sections of other threads on the ingest queue
      since the one before, and whether malloc succeeds. */
  datatype Around = Around(turn: seq<Change<Body>>, memory: bool)

  function Disturbed(s: Station, turn: seq<Change<Body>>): Station { s.(ingest := AfterTurn(s.ingest, turn)) }

  function AppliedAll(s: Station, lines: seq<string>, around: nat -> Around): Station
    decreases |lines|
  {
    if lines == [] then s
    else
      var n := |lines| - 1;
      var before := Disturbed(AppliedAll(s, lines[..n], around), around(n).turn);
      Applied(before, Interpret(CString(lines[n])), around(n).memory)
  }

  ghost function Now(control: RadioControl, ingest: MsgQueue<Body>): Station
    reads control, ingest
  {
    Station(control.intervalMs, ingest.Seen())
  }

  method ApplySetInterval(control: RadioControl, args: string)
    requires control.Valid()
    modifies control
    ensures control.Valid()
    ensures var e := ScanInterval(args);
            control.intervalMs == if e.SetTo? && e.ms != 0 then e.ms else old(control.intervalMs)
  {
    hide Strtol;
    var (ms, end) := Strtol(args);
    if end == 0 || ms <= 0 {
      return;
    }
    control.Set(ms % UINT32);
  }

  method ApplyTriggerAlert(ingest: MsgQueue<Body>, args: string, memory: bool)
    requires ingest.Valid()
    modifies ingest, ingest.items
    ensures ingest.Valid()
    ensures var e := ScanAlert(args);
            ingest.Seen() == if e.Raise? && memory && !old(ingest.Seen()).Full()
                             then old(ingest.Seen()).(contents := old(ingest.contents) + [RawAlert(e.code, e.antenna)])
                             else old(ingest.Seen())
  {
    var scanned := ScanAlert(args);
    if !scanned.Raise? {
      return;
    }
    if !memory {
      return;
    }
    var queued := ingest.TryEnqueue(RawAlert(scanned.code, scanned.antenna));
  }

  /** apply_command */
  method ApplyCommand(line: string, ingest: MsgQueue<Body>, control: RadioControl, memory: bool)
    requires ingest.Valid() && control.Valid()
    modifies ingest, ingest.items, control
    ensures ingest.Valid() && control.Valid()
    ensures Now(control, ingest) == Applied(old(Now(control, ingest)), Interpret(line), memory)
  {
    hide ScanInterval, ScanAlert, MsgQueue.Valid;
    var space := FirstSpace(line);
    if space == |line| {
      return;
    }
    var args := line[space + 1..];
    if line[..space] == "SET_INTERVAL" {
      ApplySetInterval(control, args);
    } else if line[..space] == "TRIGGER_ALERT" {
      ApplyTriggerAlert(ingest, args, memory);
    }
  }

  // ---------------------------------------------------------------- what commands can do

  lemma EffectsAreSound(line: string)
    ensures Interpret(line).SetTo? ==> Interpret(line).ms < UINT32
    ensures Interpret(line).Raise? ==> WellFormedCode(Interpret(line).code) && Interpret(line).antenna < UINT32
    ensures Interpret(line).Raise? ==> forall c | c in Interpret(line).code :: c in line
  {
    hide ScanInterval, ScanAlert;
    var k := FirstSpace(line);
    if k < |line| { AlertCode(line[k + 1..]); }
  }

  lemma AlertCode(args: string)
    ensures ScanAlert(args).Raise? ==> WellFormedCode(ScanAlert(args).code)
    ensures ScanAlert(args).Raise? ==> forall c | c in ScanAlert(args).code :: c in args
  {
    hide ScanNumber;
  }

  /** `x` is put by another thread before one of the first `n` commands. */
  ghost predicate FromOthers(x: Body, n: nat, around: nat -> Around) {
    exists i: nat | i < n :: TheyPut(x) in around(i).turn
  }

  /** What a turn leaves in the queue was there before or put during the turn, and the bound holds. */
  lemma {:induction false} TurnSources(v: View<Body>, turn: seq<Change<Body>>)
    requires |v.contents| <= v.capacity
    ensures var r := AfterTurn(v, turn);
            && |r.contents| <= r.capacity == v.capacity
            && forall x | x in r.contents :: x in v.contents || TheyPut(x) in turn
    decreases |turn|
  {
    if turn != [] {
      TurnSources(v, turn[..|turn| - 1]);
    }
  }

  /** Whatever other threads do in between, no sequence of lines, however malformed, takes the
      interval out of 1..2^32-1, overfills the queue, or brings anything into it but well-formed,
      NUL-free alerts. */
  lemma {:induction false} CommandsKeepStation(s: Station, lines: seq<string>, around: nat -> Around)
    requires s.Valid()
    ensures var r := AppliedAll(s, lines, around);
            && r.Valid() && r.ingest.capacity == s.ingest.capacity
            && forall x | x in r.ingest.contents ::
                 x in s.ingest.contents || FromOthers(x, |lines|, around) || GoodAlert(x)
    decreases |lines|
  {
    hide Interpret, GoodAlert;
    if lines != [] {
      var n := |lines| - 1;
      CommandsKeepStation(s, lines[..n], around);
      var before := AppliedAll(s, lines[..n], around);
      TurnSources(before.ingest, around(n).turn);
      AppliedKeeps(Disturbed(before, around(n).turn), CString(lines[n]), around(n).memory);
      forall x | x in Disturbed(before, around(n).turn).ingest.contents
        ensures x in s.ingest.contents || FromOthers(x, |lines|, around) || GoodAlert(x)
      {
        assert TheyPut(x) in around(n).turn ==> FromOthers(x, |lines|, around);
      }
    }
  }

  lemma AppliedKeeps(s: Station, line: string, memory: bool)
    requires s.Valid() && '\0' !in line
    ensures var r := Applied(s, Interpret(line), memory);
            && r.Valid() && r.ingest.capacity == s.ingest.capacity && r.ingest.shut == s.ingest.shut
            && s.ingest.contents <= r.ingest.contents && |r.ingest.contents| <= |s.ingest.contents| + 1
            && forall i | |s.ingest.contents| <= i < |r.ingest.contents| :: GoodAlert(r.ingest.contents[i])
  {
    hide Interpret;
    EffectsAreSound(line);
  }

  /** With no other thread at the queue, the commands leave what it held untouched, in front. */
  lemma {:induction false} CommandsOnlyAppend(s: Station, lines: seq<string>, around: nat -> Around)
    requires s.Valid() && forall i: nat | i < |lines| :: around(i).turn == []
    ensures var r := AppliedAll(s, lines, around);
            && r.Valid() && r.ingest.capacity == s.ingest.capacity && r.ingest.shut == s.ingest.shut
            && s.ingest.contents <= r.ingest.contents
            && |r.ingest.contents| <= |s.ingest.contents| + |lines|
            && forall i | |s.ingest.contents| <= i < |r.ingest.contents| :: GoodAlert(r.ingest.contents[i])
    decreases |lines|
  {
    hide Interpret, Applied, GoodAlert;
    if lines != [] {
      var n := |lines| - 1;
      CommandsOnlyAppend(s, lines[..n], around);
      AppliedKeeps(AppliedAll(s, lines[..n], around), CString(lines[n]), around(n).memory);
    }
  }

  // ---------------------------------------------------------------- round trips

  lemma FirstSpaceOf(name: string, args: string)
    requires ' ' !in name
    ensures FirstSpace(name + " " + args) == |name|
  {
    var s := name + " " + args;
    if name != "" {
      assert s[1..] == name[1..] + " " + args;
      FirstSpaceOf(name[1..], args);
    }
  }

  lemma InterpretNamed(args: string)
    ensures Interpret("SET_INTERVAL " + args) == ScanInterval(args)
    ensures Interpret("TRIGGER_ALERT " + args) == ScanAlert(args)
  {
    hide ScanInterval, ScanAlert, FirstSpace;
    FirstSpaceOf("SET_INTERVAL", args);
    FirstSpaceOf("TRIGGER_ALERT", args);
    assert "SET_INTERVAL" + " " + args == "SET_INTERVAL " + args;
    assert "TRIGGER_ALERT" + " " + args == "TRIGGER_ALERT " + args;
    assert ("SET_INTERVAL " + args)[..12] == "SET_INTERVAL" && ("SET_INTERVAL " + args)[13..] == args;
    assert ("TRIGGER_ALERT " + args)[..13] == "TRIGGER_ALERT" && ("TRIGGER_ALERT " + args)[14..] == args;
  }

  lemma IntervalScanned(ms: int)
    requires LONG_MIN <= ms <= LONG_MAX
    ensures ScanInterval(Print(ms)) == if ms <= 0 then Ignored else SetTo(ms % UINT32)
  {
    hide Strtol, Print;
    StrtolPrint(ms, "");
    assert Print(ms) + "" == Print(ms);
  }

  /** A line without NUL is taken whole. */
  lemma CStringWhole(s: string)
    requires '\0' !in s
    ensures CString(s) == s
  {
  }

  /** SET_INTERVAL installs exactly the requested number if and only if it is positive and below
      2^32; the code checks only the first half. */
  lemma SetIntervalExactIff(s: Station, ms: int, memory: bool)
    requires s.Valid() && LONG_MIN <= ms <= LONG_MAX
    ensures Applied(s, Interpret(CString("SET_INTERVAL " + Print(ms))), memory).interval == ms <==> 0 < ms < UINT32
  {
    hide Print, Interpret, ScanInterval, CString;
    IntervalLine(ms);
    InterpretNamed(Print(ms));
    IntervalScanned(ms);
    SetToApplied(s, ms, memory);
  }

  lemma IntervalLine(ms: int)
    ensures CString("SET_INTERVAL " + Print(ms)) == "SET_INTERVAL " + Print(ms)
  {
    hide Print;
    CStringWhole("SET_INTERVAL " + Print(ms));
  }

  lemma SetToApplied(s: Station, ms: int, memory: bool)
    requires s.Valid()
    ensures (if ms <= 0 then s else Applied(s, SetTo(ms % UINT32), memory)).interval == ms <==> 0 < ms < UINT32
  {
    assert ms >= 0 ==> ms % UINT32 <= ms && ms % UINT32 < UINT32;
  }

  /** 4294967297 milliseconds becomes one. */
  lemma LargeIntervalWraps(s: Station, memory: bool)
    requires s.Valid()
    ensures Applied(s, Interpret(CString("SET_INTERVAL " + Print(0x1_0000_0001))), memory).interval == 1
  {
    hide Print, Interpret, ScanInterval, CString;
    IntervalLine(0x1_0000_0001);
    InterpretNamed(Print(0x1_0000_0001));
    IntervalScanned(0x1_0000_0001);
  }

  lemma WordRunOf(code: string, rest: string, width: nat)
    requires |code| <= width && (|code| == width || rest == "" || IsSpace(rest[0])) && NoSpaces(code)
    ensures WordRun(code + rest, width) == |code|
  {
    if code == "" {
      assert code + rest == rest;
    } else {
      assert (code + rest)[1..] == code[1..] + rest;
      WordRunOf(code[1..], rest, width - 1);
    }
  }

  lemma ScanPrinted(antenna: nat)
    requires antenna < UINT32
    ensures ScanNumber(" " + Print(antenna)) == Some(antenna)
  {
    hide Digits, Value, DigitRun;
    var ds := Digits(antenna);
    var s := " " + ds;
    assert s[1..] == ds;
    assert Spaces(s) == 1;
    assert SignLength(ds) == 0;
    DigitRunOf(ds, "");
    assert ds + "" == ds && ds[0..] == ds && ds[..|ds|] == ds;
    DigitsValue(antenna);
  }

  function TriggerLine(code: string, antenna: nat): string { "TRIGGER_ALERT " + (code + " " + Print(antenna)) }

  lemma TriggerScanned(code: string, antenna: nat)
    requires antenna < UINT32 && WellFormedCode(code)
    ensures ScanAlert(code + " " + Print(antenna)) == Raise(code, antenna)
  {
    hide Print, ScanNumber;
    var number := " " + Print(antenna);
    var args := code + " " + Print(antenna);
    assert args == code + number;
    assert Spaces(args) == 0;
    assert args[0..] == args;
    WordRunOf(code, number, CODE_MAX);
    assert args[|code|..] == number && args[..|code|] == code;
    ScanPrinted(antenna);
  }

  /** A TRIGGER_ALERT line, as the program reads it, means the alert it spells out if and only if
      the code has 1 to 31 characters, none of them white space or NUL. */
  lemma TriggerExactIff(code: string, antenna: nat)
    requires antenna < UINT32
    ensures Interpret(CString(TriggerLine(code, antenna))) == Raise(code, antenna) <==>
              WellFormedCode(code) && '\0' !in code
  {
    hide Print, Interpret, ScanAlert, CString, WellFormedCode;
    var line := TriggerLine(code, antenna);
    EffectsAreSound(CString(line));
    if WellFormedCode(code) && '\0' !in code {
      assert '\0' !in line by { TriggerNoNul(code, antenna); }
      CStringWhole(line);
      InterpretNamed(code + " " + Print(antenna));
      TriggerScanned(code, antenna);
    }
  }

  lemma TriggerNoNul(code: string, antenna: nat)
    requires '\0' !in code
    ensures '\0' !in TriggerLine(code, antenna)
  {
    hide Print;
    assert '\0' !in "TRIGGER_ALERT " && '\0' !in " " && '\0' !in Print(antenna);
  }

  // ---------------------------------------------------------------- what every line means

  /** A line without a space, or whose first word is not one of the two commands, means nothing. */
  lemma {:induction false} UnknownIgnored(name: string, args: string)
    requires ' ' !in name
    ensures Interpret(name) == Ignored
    ensures name != "SET_INTERVAL" && name != "TRIGGER_ALERT" ==> Interpret(name + " " + args) == Ignored
  {
    hide ScanInterval, ScanAlert, FirstSpace;
    FirstSpaceOf(name, args);
    assert (name + " " + args)[..|name|] == name;
    assert FirstSpace(name) == |name|;
  }

  /** SET_INTERVAL takes the first number, positive as a 64-bit number, modulo 2^32. */
  lemma {:induction false} IntervalMeans(sp: string, sign: string, ds: string, rest: string)
    requires AllSpaces(sp) && IsSign(sign) && ds != "" && AllDigits(ds) && (rest != "" ==> !IsDigit(rest[0]))
    ensures var ms := Clamp(WithSign(sign, Value(ds)));
            Interpret("SET_INTERVAL " + (sp + sign + (ds + rest))) ==
            if ms <= 0 then Ignored else SetTo(ms % 4294967296)
  {
    hide Interpret, Strtol, Clamp, WithSign, Value, AllSpaces, AllDigits, IsSign;
    InterpretNamed(sp + sign + (ds + rest));
    StrtolReads(sp, sign, ds, rest);
  }

  /** Without a number it means nothing. */
  lemma {:induction false} IntervalMissing(sp: string, sign: string, rest: string)
    requires AllSpaces(sp) && IsSign(sign) && (rest != "" ==> !IsDigit(rest[0]))
    requires sign == "" && rest != "" ==> !IsSpace(rest[0]) && rest[0] != '+' && rest[0] != '-'
    ensures Interpret("SET_INTERVAL " + (sp + sign + rest)) == Ignored
  {
    hide Interpret, Strtol, AllSpaces, IsSign;
    InterpretNamed(sp + sign + rest);
    StrtolNothing(sp, sign, rest);
  }

  /** %u takes any 64-bit number modulo 2^32, with a minus sign its negative; larger ones count as
      2^64 - 1. */
  function Antenna(sign: string, v: nat): nat {
    if v > 18446744073709551615 then 4294967295 else WithSign(sign, v) % 4294967296
  }

  lemma {:induction false} ScanParts(s: string, a: nat, b: nat, ds: string, d: string)
    requires Spaces(s) == a && SignLength(s[a..]) == b && b <= |s| - a && s[a..][b..] == d
    requires DigitRun(d) == |ds| <= |d| && d[..|ds|] == ds && ds != "" && AllDigits(ds)
    ensures ScanNumber(s) == Some(Unsigned(s[a..], Value(ds)))
  {
    hide Value, Spaces, DigitRun, SignLength, Unsigned;
  }

  lemma {:induction false} ScanAfter(sp: string, sign: string, ds: string, d: string)
    requires AllSpaces(sp) && IsSign(sign) && ds != "" && AllDigits(ds)
    requires DigitRun(d) == |ds| <= |d| && d[..|ds|] == ds && IsDigit(d[0])
    ensures ScanNumber(sp + sign + d) == Some(Antenna(sign, Value(ds)))
  {
    hide ScanNumber, Value, Spaces, DigitRun, SignLength, Signed, WithSign, AllSpaces, AllDigits, IsSign;
    AfterSpaces(sp, sign, d);
    SignedBy(sign, d, Value(ds));
    ScanParts(sp + sign + d, |sp|, |sign|, ds, d);
  }

  lemma {:induction false} ScanReads(sp: string, sign: string, ds: string, rest: string)
    requires AllSpaces(sp) && IsSign(sign) && ds != "" && AllDigits(ds) && (rest != "" ==> !IsDigit(rest[0]))
    ensures ScanNumber(sp + sign + (ds + rest)) == Some(Antenna(sign, Value(ds)))
  {
    hide ScanNumber, Value, DigitRun, Antenna, AllSpaces, IsSign;
    DigitRunOf(ds, rest);
    assert (ds + rest)[..|ds|] == ds;
    ScanAfter(sp, sign, ds, ds + rest);
  }

  lemma {:induction false} ScanNothing(sp: string, sign: string, rest: string)
    requires AllSpaces(sp) && IsSign(sign) && (rest != "" ==> !IsDigit(rest[0]))
    requires sign == "" && rest != "" ==> !IsSpace(rest[0]) && rest[0] != '+' && rest[0] != '-'
    ensures ScanNumber(sp + sign + rest) == None
  {
    hide Spaces, SignLength, Value, Signed;
    AfterSpaces(sp, sign, rest);
  }

  /** TRIGGER_ALERT takes a word, cut after 31 characters, and what %u makes of what follows. */
  lemma {:induction false} AlertMeans(pre: string, code: string, after: string)
    requires AllSpaces(pre) && 1 <= |code| <= 31 && NoSpaces(code)
    requires |code| == 31 || after == "" || IsSpace(after[0])
    ensures var number := ScanNumber(after);
            Interpret("TRIGGER_ALERT " + (pre + (code + after))) ==
            if number.Some? then Raise(code, number.value) else Ignored
  {
    hide Interpret, ScanNumber, Spaces, WordRun, AllSpaces;
    var args, a := pre + (code + after), code + after;
    InterpretNamed(args);
    SpacesOf(pre, a);
    assert args[|pre|..] == a;
    WordRunOf(code, after, 31);
    assert a[..|code|] == code && a[|code|..] == after;
  }

  /** Without a word it means nothing. */
  lemma {:induction false} AlertMissing(pre: string)
    requires AllSpaces(pre)
    ensures Interpret("TRIGGER_ALERT " + pre) == Ignored
  {
    hide Interpret, ScanNumber;
    InterpretNamed(pre);
    SpacesOf(pre, "");
    assert pre + "" == pre;
  }

  /** In the end: the interval becomes the number modulo 2^32 unless that is 0 or the number is not
      positive, and the queue is untouched. */
  lemma {:induction false} IntervalApplied(s: Station, sp: string, sign: string, ds: string, rest: string, memory: bool)
    requires AllSpaces(sp) && IsSign(sign) && ds != "" && AllDigits(ds) && (rest != "" ==> !IsDigit(rest[0]))
    ensures var ms := Clamp(WithSign(sign, Value(ds)));
            var interval := if ms > 0 && ms % 4294967296 != 0 then ms % 4294967296 else s.interval;
            Applied(s, Interpret("SET_INTERVAL " + (sp + sign + (ds + rest))), memory) == Station(interval, s.ingest)
  {
    hide Interpret, Clamp, WithSign, Value, AllSpaces, AllDigits, IsSign;
    IntervalMeans(sp, sign, ds, rest);
  }

  /** ... and a triggered alert goes to the end of the queue if there is room and memory; otherwise
      nothing changes. */
  lemma {:induction false} AlertApplied(
      s: Station, pre: string, code: string, gap: string, sign: string, ds: string, rest: string, memory: bool)
    requires AllSpaces(pre) && 1 <= |code| <= 31 && NoSpaces(code) && gap != "" && AllSpaces(gap)
    requires IsSign(sign) && ds != "" && AllDigits(ds) && (rest != "" ==> !IsDigit(rest[0]))
    ensures var line := "TRIGGER_ALERT " + (pre + (code + (gap + sign + (ds + rest))));
            var alert := RawAlert(code, Antenna(sign, Value(ds)));
            Applied(s, Interpret(line), memory) ==
            if |s.ingest.contents| < s.ingest.capacity && memory
            then Station(s.interval, View(s.ingest.contents + [alert], s.ingest.capacity, s.ingest.shut))
            else s
  {
    hide Interpret, ScanNumber, Antenna, Value, AllDigits, IsSign;
    ScanReads(gap, sign, ds, rest);
    AlertMeans(pre, code, gap + sign + (ds + rest));
  }
}
