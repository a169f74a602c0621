/** One client connection as the server reads it: the handshake takes the first line of the
    socket's stream, the command listener the lines after it. */
module Session {
  import opened Messages
  import opened MsgQueues
  import opened Wire
  import opened Versions
  import opened Handshake
  import opened Command

  /** command_listener_routine: it acts on exactly the lines heard, in order, and then declares
      the peer gone, whatever other threads do to the ingest queue in between. */
  method Listen(socket: Socket, ingest: MsgQueue<Body>, control: RadioControl, around: nat -> Around)
    returns (peerAlive: bool)
    requires ingest.Valid() && control.Valid()
    modifies socket`incoming, socket`pollScript, ingest, ingest.items, control
    ensures ingest.Valid() && control.Valid() && !peerAlive
    ensures Now(control, ingest) ==
            AppliedAll(
              old(Now(control, ingest)), Heard(old(socket.incoming), PolledBytes(old(socket.pollScript))), around)
  {
    hide MsgQueue.Valid, Applied, Interpret, PolledBytes, LineArrives, Framed, Heard, Now, AppliedAll, Disturbed;
    ghost var all := Heard(socket.incoming, PolledBytes(socket.pollScript));
    ghost var done := [];
    var k := 0;
    AppliedNone(Now(control, ingest), around);
    ghost var stream, n := socket.incoming, PolledBytes(socket.pollScript);
    var more, line := socket.ReadCommandLine();
    while more
      invariant ingest.Valid() && control.Valid()
      invariant all == done + Heard(stream, n) && more == LineArrives(stream, n)
      invariant Framed(stream, socket.incoming, more, line)
      invariant more ==> n == |line| + 1 + PolledBytes(socket.pollScript)
      invariant k == |done| && Now(control, ingest) == AppliedAll(old(Now(control, ingest)), done, around)
      decreases n
    {
      HeardFirst(stream, socket.incoming, line, n);
      OneMore(old(Now(control, ingest)), done, line, around);
      Handle(line, ingest, control, around(k));
      k, done := k + 1, done + [line];
      stream, n := socket.incoming, PolledBytes(socket.pollScript);
      more, line := socket.ReadCommandLine();
    }
    HeardNothing(stream, n);
    assert all == done;
    return false;
  }

  /** Other threads' turn, then the command. */
  method Handle(line: string, ingest: MsgQueue<Body>, control: RadioControl, around: Around)
    requires ingest.Valid() && control.Valid()
    modifies ingest, ingest.items, control
    ensures ingest.Valid() && control.Valid()
    ensures Now(control, ingest) ==
            Applied(Disturbed(old(Now(control, ingest)), around.turn), Interpret(CString(line)), around.memory)
  {
    hide MsgQueue.Valid, Applied, Interpret, CString;
    ingest.LetOthersRun(around.turn);
    ApplyCommand(CString(line), ingest, control, around.memory);
  }

  lemma HeardNothing(stream: string, n: nat)
    requires !LineArrives(stream, n)
    ensures Heard(stream, n) == []
  {
  }

  /** The reading side of one connection. */
  method Serve(conn: Connection, server: seq<int>, ingest: MsgQueue<Body>, control: RadioControl, around: nat -> Around)
    returns (agreed: bool, ghost outcome: Handshake.Outcome, ghost hello: string, ghost commands: seq<string>)
    requires ingest.Valid() && control.Valid()
    requires forall i | 0 <= i < |server| :: IsInt(server[i])
    modifies conn, conn.socket, ingest, ingest.items, control
    ensures ingest.Valid() && control.Valid() && agreed == outcome.Agreed? == (conn.negotiatedVersion != 0)
    ensures Justified(outcome, server, old(conn.socket.writeScript),
                      LineArrives(old(conn.socket.incoming), Bytes(old(conn.socket.readScript))), hello)
    ensures Now(control, ingest) == AppliedAll(old(Now(control, ingest)), commands, around)
    ensures !agreed ==> commands == []
    ensures agreed ==> HighestCommon(conn.negotiatedVersion, server, Offered(hello))
    ensures agreed ==> hello + "\n" <= old(conn.socket.incoming)
    ensures agreed ==>
              commands == Heard(old(conn.socket.incoming)[|hello| + 1..], PolledBytes(old(conn.socket.pollScript)))
    ensures agreed ==> [hello] + commands <= Lines(old(conn.socket.incoming))
  {
    hide MsgQueue.Valid, Applied, Interpret, PolledBytes, LineArrives, Heard, Now, AppliedAll, Lines;
    hide HighestCommon, Offered, Transcript, Bytes, Left, Hello, Ack;
    agreed, outcome, hello := conn.Perform(server);
    commands := [];
    AppliedNone(Now(control, ingest), around);
    if agreed {
      assert conn.socket.incoming == old(conn.socket.incoming)[|hello| + 1..];
      ReadTakesFirst(old(conn.socket.incoming), conn.socket.incoming, hello);
      commands := Heard(conn.socket.incoming, PolledBytes(conn.socket.pollScript));
      HeardIsPrefix(conn.socket.incoming, PolledBytes(conn.socket.pollScript));
      var alive := Listen(conn.socket, ingest, control, around);
    }
  }

  lemma AppliedNone(s: Station, around: nat -> Around)
    ensures AppliedAll(s, [], around) == s
  {
  }

  lemma OneMore(s: Station, done: seq<string>, line: string, around: nat -> Around)
    ensures AppliedAll(s, done + [line], around) ==
            Applied(Disturbed(AppliedAll(s, done, around), around(|done|).turn),
                    Interpret(CString(line)), around(|done|).memory)
  {
    hide Interpret, Applied, Disturbed, CString;
    assert (done + [line])[..|done|] == done;
  }
}
