/** The version handshake: the server's HELLO, one line from the client, ACK or NACK. */
module Handshake {
  import opened Basics
  import opened Decimal
  import opened Wire
  import opened Versions

  const SERVER_VERSIONS: seq<int> := [1]
  const NACK := "HELLO_NACK REASON=no_common_version\n"

  function Hello(server: seq<int>): string { SERVER_PREFIX + Joined(server) + "\n" }

  function Ack(v: int): string { "HELLO_ACK VERSION=" + Print(v) + "\n" }

  /** The HELLO line up to and including version number i. */
  function Greeting(server: seq<int>, i: nat): string
    requires i <= |server|
  {
    SERVER_PREFIX + Joined(server[..i])
  }

  function Piece(server: seq<int>, i: nat): string
    requires i < |server|
  {
    (if i == 0 then "" else ",") + Print(server[i])
  }

  lemma GreetingStep(server: seq<int>, i: nat)
    requires i < |server|
    ensures Greeting(server, i + 1) == Greeting(server, i) + Piece(server, i)
  {
    hide Joined, Print;
    JoinedSnoc(server[..i], server[i]);
    assert server[..i + 1] == server[..i] + [server[i]];
  }

  lemma GreetingEnds(server: seq<int>, i: nat)
    requires i <= |server|
    ensures Greeting(server, 0) == SERVER_PREFIX
    ensures Hello(server) == Greeting(server, |server|) + "\n"
    ensures |Greeting(server, i)| <= |Greeting(server, |server|)|
  {
    assert server[..0] == [] && server[..|server|] == server;
    JoinedGrows(server[..i], server[i..]);
    assert server[..i] + server[i..] == server;
  }

  /** Formats the version list piece by piece, stopping as soon as the buffer is full; the
      result is the length of all the text formatted so far. */
  method FormatHello(line: array<char>, server: seq<int>) returns (n: nat)
    requires line.Length == LINE_MAX
    modifies line
    ensures n < LINE_MAX ==> line[..n] + "\n" == Hello(server)
    ensures n >= LINE_MAX ==> |Hello(server)| > LINE_MAX
  {
    hide Greeting, Piece, Hello;
    n := Snprintf(line, 0, SERVER_PREFIX);
    var i := 0;
    GreetingEnds(server, 0);
    while n < LINE_MAX && i < |server|
      invariant 0 <= i <= |server|
      invariant n == |Greeting(server, i)|
      invariant n < LINE_MAX ==> line[..n] == Greeting(server, i)
      decreases |server| - i
    {
      GreetingStep(server, i);
      var more := Snprintf(line, n, Piece(server, i));
      n, i := n + more, i + 1;
    }
    GreetingEnds(server, i);
  }

  /** send_hello: a line of 127 characters or more (newline not counted) sends nothing. */
  method SendHello(socket: Socket, server: seq<int>) returns (ok: bool)
    modifies socket`sent, socket`writeScript
    ensures var hello := Hello(server);
            && (ok <==> |hello| < LINE_MAX && Left(old(socket.writeScript), |hello|).Some?)
            && (ok ==> socket.sent == old(socket.sent) + hello)
            && (ok ==> socket.writeScript == Left(old(socket.writeScript), |hello|).value)
            && (!ok ==> old(socket.sent) <= socket.sent < old(socket.sent) + hello)
            && (|hello| >= LINE_MAX ==> socket.sent == old(socket.sent))
  {
    hide Left, Hello;
    var line := new char[LINE_MAX];
    var n := FormatHello(line, server);
    if n >= LINE_MAX - 1 {
      return false;
    }
    line[n] := '\n';
    n := n + 1;
    assert line[..n] == Hello(server);
    ok := socket.WriteAll(line[..n]);
  }

  // ---------------------------------------------------------------- the whole exchange

  datatype Outcome = HelloFailed | NoLine | Rejected(told: bool) | AckFailed(tried: int) | Agreed(version: int)

  /** The versions a line offers, as handshake_perform sees them. */
  function Offered(line: string): seq<int> { ClientVersions(CString(line), LINE_MAX) }

  /** What the server has written when the handshake ends that way: whole earlier lines and a
      beginning of the last one. No NACK goes out unless a line was read. */
  ghost predicate Transcript(before: string, after: string, server: seq<int>, outcome: Outcome) {
    var greeted := before + Hello(server);
    match outcome
    case HelloFailed => before <= after < greeted
    case NoLine => after == greeted
    case Rejected(told) => if told then after == greeted + NACK else greeted <= after < greeted + NACK
    case AckFailed(v) => greeted <= after < greeted + Ack(v)
    case Agreed(v) => after == greeted + Ack(v)
  }

  /** Which outcome it is, by the write script, what arrives and the line. */
  ghost predicate Justified(outcome: Outcome, server: seq<int>, script: seq<WriteResult>, arrived: bool, line: string) {
    var first := if |Hello(server)| < LINE_MAX then Left(script, |Hello(server)|) else None;
    match outcome
    case HelloFailed => first.None?
    case NoLine => first.Some? && !arrived
    case Rejected(told) =>
      first.Some? && arrived && HighestCommon(0, server, Offered(line)) && told == Left(first.value, |NACK|).Some?
    case AckFailed(v) =>
      first.Some? && arrived && v > 0 && HighestCommon(v, server, Offered(line)) && Left(first.value, |Ack(v)|).None?
    case Agreed(v) =>
      first.Some? && arrived && v > 0 && HighestCommon(v, server, Offered(line)) && Left(first.value, |Ack(v)|).Some?
  }

  lemma OutcomeUnique(o1: Outcome, o2: Outcome, server: seq<int>, script: seq<WriteResult>, arrived: bool, line: string)
    requires Justified(o1, server, script, arrived, line) && Justified(o2, server, script, arrived, line)
    ensures o1 == o2
  {
    hide Left, Hello, Ack, Offered;
  }

  /** With the server's own list the outcome is version 1 or nothing. */
  lemma OnlyVersionOne(v: int, client: seq<int>)
    ensures HighestCommon(v, SERVER_VERSIONS, client) <==> v == if 1 in client then 1 else 0
  {
    assert forall w :: w in SERVER_VERSIONS <==> w == 1;
  }

  class Connection {
    const socket: Socket
    var negotiatedVersion: int

    constructor (socket: Socket)
      ensures this.socket == socket
    {
      this.socket := socket;
      negotiatedVersion := 0;
    }

    /** send_nack: best effort. */
    method SendNack() returns (ghost told: bool)
      modifies socket`sent, socket`writeScript
      ensures told == Left(old(socket.writeScript), |NACK|).Some?
      ensures if told then socket.sent == old(socket.sent) + NACK
              else old(socket.sent) <= socket.sent < old(socket.sent) + NACK
    {
      told := socket.WriteAll(NACK);
    }

    /** Formats and sends the acknowledgement; 30 characters at most, so it always fits. */
    method SendAck(v: int) returns (ok: bool)
      requires IsInt(v)
      modifies socket`sent, socket`writeScript
      ensures ok == Left(old(socket.writeScript), |Ack(v)|).Some?
      ensures ok ==> socket.sent == old(socket.sent) + Ack(v)
      ensures !ok ==> old(socket.sent) <= socket.sent < old(socket.sent) + Ack(v)
    {
      hide Left, Print;
      var ack := new char[LINE_MAX];
      PrintLengths(v);
      var n := Snprintf(ack, 0, Ack(v));
      ok := n < LINE_MAX;
      if ok {
        ok := socket.WriteAll(ack[..n]);
      }
    }

    /** The version to acknowledge, 0 for none. */
    method Choose(server: seq<int>, line: string) returns (best: int)
      ensures HighestCommon(best, server, Offered(line))
    {
      hide ClientVersions;
      var client := ParseClientVersions(CString(line), LINE_MAX);
      if client == [] {
        return 0;
      }
      best := HighestCommonVersion(server, client);
    }

    /** handshake_perform */
    method Perform(server: seq<int>) returns (ok: bool, ghost outcome: Outcome, ghost line: string)
      requires forall i | 0 <= i < |server| :: IsInt(server[i])
      modifies this, socket`sent, socket`writeScript, socket`incoming, socket`readScript
      ensures ok == outcome.Agreed? == (negotiatedVersion != 0)
      ensures negotiatedVersion == if outcome.Agreed? then outcome.version else 0
      ensures Transcript(old(socket.sent), socket.sent, server, outcome)
      ensures Justified(outcome, server, old(socket.writeScript),
                        LineArrives(old(socket.incoming), Bytes(old(socket.readScript))), line)
      ensures outcome.HelloFailed? ==> socket.incoming == old(socket.incoming)
      ensures !outcome.HelloFailed? ==> Framed(old(socket.incoming), socket.incoming, !outcome.NoLine?, line)
    {
      hide Left, Print, Joined, Bytes, LineArrives, Framed, HighestCommon, Offered, Hello, Ack;
      negotiatedVersion := 0;
      line := "";
      ok := SendHello(socket, server);
      if !ok {
        return false, HelloFailed, line;
      }
      var got, text := socket.ReadLine();
      line := text;
      if !got {
        return false, NoLine, line;
      }
      var best := Choose(server, text);
      if best == 0 {
        ghost var told := SendNack();
        return false, Rejected(told), line;
      }
      CommonIsInt(best, server, Offered(text));
      ok := SendAck(best);
      if !ok {
        return false, AckFailed(best), line;
      }
      negotiatedVersion := best;
      return true, Agreed(best), line;
    }
  }

  lemma CommonIsInt(best: int, server: seq<int>, client: seq<int>)
    requires HighestCommon(best, server, client) && best != 0
    requires forall i | 0 <= i < |server| :: IsInt(server[i])
    ensures IsInt(best) && best > 0
  {
  }

  // ---------------------------------------------------------------- what the lines say

  /** The client finds the version number after the words and before the newline. */
  lemma AckReads(v: int)
    requires LONG_MIN <= v <= LONG_MAX
    ensures "HELLO_ACK VERSION=" <= Ack(v) && Strtol(Ack(v)[18..]) == (v, |Ack(v)| - 19)
    ensures Ack(v)[|Ack(v)| - 1] == '\n'
  {
    hide Print, Strtol;
    StrtolPrint(v, "\n");
    assert Ack(v)[18..] == Print(v) + "\n";
  }

  /** ... and the server's list between the words of the greeting and the newline. */
  lemma HelloReads(server: seq<int>)
    requires forall i | 0 <= i < |server| :: IsInt(server[i])
    ensures "HELLO SERVER_VERSIONS=" <= Hello(server) && Hello(server)[|Hello(server)| - 1] == '\n'
    ensures 22 < |Hello(server)| && ParseList(Hello(server)[22..|Hello(server)| - 1], |server|) == Some(server)
  {
    hide ParseList, Joined;
    var hello := Hello(server);
    assert hello[22..|hello| - 1] == Joined(server);
    if server == [] { JoinedNone(); ParseEmpty(0); } else { ParseJoined(server, |server|); }
  }

  lemma JoinedNone()
    ensures Joined([]) == ""
  {
  }

  /** The three lines of the shipped server. */
  lemma ShippedLines()
    ensures Hello(SERVER_VERSIONS) == "HELLO SERVER_VERSIONS=1\n"
    ensures Ack(1) == "HELLO_ACK VERSION=1\n"
    ensures NACK == "HELLO_NACK REASON=no_common_version\n"
  {
    assert Print(1) == "1";
  }

  /** A line offers what a client listed after the prefix; a NUL ends it. */
  lemma OfferedIs(vs: seq<int>, after: string)
    requires vs != [] && |vs| <= 128 && forall i | 0 <= i < |vs| :: IsInt(vs[i])
    ensures var line := "HELLO CLIENT_VERSIONS=" + Joined(vs);
            Offered(line + "") == vs && Offered(line + ("\0" + after)) == vs
  {
    hide ClientVersions, Joined, CString;
    JoinedNoNul(vs);
    VersionListRoundTrip(vs, LINE_MAX);
    NulFree(Joined(vs));
    CutAtNul("HELLO CLIENT_VERSIONS=" + Joined(vs), "");
    CutAtNul("HELLO CLIENT_VERSIONS=" + Joined(vs), "\0" + after);
  }

  lemma NulFree(s: string)
    requires '\0' !in s
    ensures '\0' !in "HELLO CLIENT_VERSIONS=" + s
  {
  }

  lemma {:induction false} JoinedNoNul(vs: seq<int>)
    ensures '\0' !in Joined(vs)
    decreases |vs|
  {
    hide Print;
    if |vs| > 1 { JoinedNoNul(vs[1..]); }
  }

  lemma {:induction false} CutAtNul(s: string, after: string)
    requires '\0' !in s && (after == "" || after[0] == '\0')
    ensures CString(s + after) == s
  {
    if s == "" {
      assert s + after == after;
    } else {
      assert (s + after)[1..] == s[1..] + after;
      CutAtNul(s[1..], after);
    }
  }

  /** A client that offers version 1 among others is told so and served version 1; any other line
      earns the refusal. Here with every byte written. */
  lemma ShippedExchange(before: string, after: string, outcome: Outcome, script: seq<WriteResult>, line: string)
    requires Transcript(before, after, SERVER_VERSIONS, outcome)
    requires Justified(outcome, SERVER_VERSIONS, script, true, line)
    requires Left(script, 24).Some?
    requires Left(Left(script, 24).value, 20).Some? && Left(Left(script, 24).value, 36).Some?
    ensures 1 in Offered(line) ==>
              outcome == Agreed(1) && after == before + "HELLO SERVER_VERSIONS=1\nHELLO_ACK VERSION=1\n"
    ensures 1 !in Offered(line) ==> outcome == Rejected(true)
    ensures 1 !in Offered(line) ==>
              after == before + "HELLO SERVER_VERSIONS=1\nHELLO_NACK REASON=no_common_version\n"
  {
    hide Left, Offered, HighestCommon, Hello, Ack, Print;
    ShippedLines();
    OnlyVersionOne(0, Offered(line));
    OnlyVersionOne(1, Offered(line));
    if outcome.AckFailed? { OnlyVersionOne(outcome.tried, Offered(line)); }
    if outcome.Agreed? { OnlyVersionOne(outcome.version, Offered(line)); }
  }
}
