/** The client's socket: an arbitrary incoming byte stream, an arbitrary script of what each
    read, write and poll returns, and the loops that send whole buffers and read single lines
    over it (write_all, read_line, read_command_line). */
module Wire {
  import opened Basics

  const LINE_MAX: nat := 128

  /** What string functions see of a buffer: everything up to the first NUL. */
  function CString(s: string): (r: string)
    ensures r <= s && '\0' !in r && (r == s || s[|r|] == '\0')
  {
    if s == "" || s[0] == '\0' then "" else [s[0]] + CString(s[1..])
  }

  /** snprintf(buf + at, size - at, ...): as much of the text as fits before a NUL; the result
      is the length of the whole text. */
  method Snprintf(buf: array<char>, at: nat, text: string) returns (n: nat)
    requires at < buf.Length
    modifies buf
    ensures n == |text|
    ensures var k := if n < buf.Length - at then n else buf.Length - at - 1;
            buf[..at + k] == old(buf[..at]) + text[..k] && buf[at + k] == '\0'
    ensures n < buf.Length - at ==> buf[..at + n] == old(buf[..at]) + text
  {
    var k := if |text| < buf.Length - at then |text| else buf.Length - at - 1;
    for i := 0 to k
      invariant buf[..at + i] == old(buf[..at]) + text[..i]
    {
      buf[at + i] := text[i];
    }
    buf[at + k] := '\0';
    assert text[..|text|] == text;
    return |text|;
  }

  datatype WriteResult = Wrote(n: nat) | WriteInterrupted | WriteFailed

  datatype ReadResult = Byte | ReadInterrupted | ReadFailed

  datatype PollResult = PollInterrupted | PollFailed | TimedOut(stop: bool) | HungUp | Readable(r: ReadResult)

  class Socket {
    var sent: string
    var incoming: string
    var writeScript: seq<WriteResult>
    var readScript: seq<ReadResult>
    var pollScript: seq<PollResult>

    constructor (
        incoming: string, writeScript: seq<WriteResult>, readScript: seq<ReadResult>, pollScript: seq<PollResult>)
      ensures this.sent == "" && this.incoming == incoming
      ensures this.writeScript == writeScript && this.readScript == readScript && this.pollScript == pollScript
    {
      this.sent, this.incoming := "", incoming;
      this.writeScript, this.readScript, this.pollScript := writeScript, readScript, pollScript;
    }

    /** write(2): accepts at most the whole buffer; a used-up script means the peer is gone. */
    method Write(buf: string) returns (n: int, interrupted: bool)
      requires buf != ""
      modifies this`sent, this`writeScript
      ensures -1 <= n <= |buf| && (interrupted ==> n == -1)
      ensures sent == old(sent) + if n > 0 then buf[..n] else ""
      ensures interrupted ==> |writeScript| < |old(writeScript)|
      ensures Left(old(writeScript), |buf|) ==
              if interrupted then Left(writeScript, |buf|) else if n > 0 then Left(writeScript, |buf| - n) else None
    {
      if writeScript == [] || writeScript[0].WriteFailed? {
        return -1, false;
      }
      var w := writeScript[0];
      writeScript := writeScript[1..];
      if w.WriteInterrupted? {
        return -1, true;
      }
      n := if w.n <= |buf| then w.n else |buf|;
      sent := sent + buf[..n];
      return n, false;
    }

    /** write_all: true exactly when the script lets the whole buffer through, and then exactly
        the buffer was sent; otherwise a strict prefix of it. */
    method WriteAll(buf: string) returns (ok: bool)
      modifies this`sent, this`writeScript
      ensures ok == Left(old(writeScript), |buf|).Some?
      ensures ok ==> sent == old(sent) + buf && writeScript == Left(old(writeScript), |buf|).value
      ensures !ok ==> old(sent) <= sent < old(sent) + buf
    {
      var written := 0;
      while written < |buf|
        invariant 0 <= written <= |buf|
        invariant sent == old(sent) + buf[..written]
        invariant Left(old(writeScript), |buf|) == Left(writeScript, |buf| - written)
        decreases |buf| - written, |writeScript|
      {
        var n, interrupted := Write(buf[written..]);
        if n < 0 {
          if interrupted {
            continue;
          }
          return false;
        }
        if n == 0 {
          return false;
        }
        assert buf[..written + n] == buf[..written] + buf[written..][..n];
        written := written + n;
      }
      assert buf[..written] == buf;
      return true;
    }

    /** read(2) of one byte: 1 with the byte, 0 at end of file, -1 on error. */
    method Read(r: ReadResult) returns (n: int, c: char)
      modifies this`incoming
      ensures n == 1 ==> old(incoming) == [c] + incoming
      ensures n != 1 ==> incoming == old(incoming)
      ensures n == 0 ==> incoming == ""
      ensures n == 0 || n == 1 <==> r.Byte?
      ensures -1 <= n <= 1
    {
      c := '\0';
      if !r.Byte? {
        return -1, c;
      }
      if incoming == "" {
        return 0, c;
      }
      c := incoming[0];
      incoming := incoming[1..];
      return 1, c;
    }

    /** read_line of the handshake. */
    method ReadLine() returns (ok: bool, line: string)
      modifies this`incoming, this`readScript
      ensures Framed(old(incoming), incoming, ok, line)
      ensures ok == LineArrives(old(incoming), Bytes(old(readScript)))
    {
      hide FirstNewline, LineArrives;
      line := "";
      while |line| + 1 < LINE_MAX
        invariant |line| < LINE_MAX && '\n' !in line
        invariant old(incoming) == line + incoming
        invariant Bytes(old(readScript)) == |line| + Bytes(readScript)
        decreases |readScript|
      {
        LineMissing(line, incoming, |line| + Bytes(readScript));
        if readScript == [] {
          return false, line;
        }
        var r := readScript[0];
        readScript := readScript[1..];
        var n, c := Read(r);
        if n < 0 {
          if r.ReadInterrupted? {
            continue;
          }
          return false, line;
        }
        if n == 0 {
          return false, line;
        }
        if c == '\n' {
          LineEnds(old(incoming), line, incoming, Bytes(old(readScript)));
          return true, line;
        }
        line := line + [c];
      }
      LineMissing(line, incoming, |line| + Bytes(readScript));
      return false, line;
    }

    /** read_command_line: the same line, each byte gated by poll. */
    method ReadCommandLine() returns (ok: bool, line: string)
      modifies this`incoming, this`pollScript
      ensures Framed(old(incoming), incoming, ok, line)
      ensures ok == LineArrives(old(incoming), PolledBytes(old(pollScript)))
      ensures ok ==> |pollScript| < |old(pollScript)|
      ensures ok ==> PolledBytes(old(pollScript)) == |line| + 1 + PolledBytes(pollScript)
    {
      hide FirstNewline, LineArrives;
      line := "";
      while |line| + 1 < LINE_MAX
        invariant |line| < LINE_MAX && '\n' !in line
        invariant old(incoming) == line + incoming
        invariant |pollScript| <= |old(pollScript)|
        invariant PolledBytes(old(pollScript)) == |line| + PolledBytes(pollScript)
        decreases |pollScript|
      {
        LineMissing(line, incoming, |line| + PolledBytes(pollScript));
        if pollScript == [] {
          return false, line;
        }
        var p := pollScript[0];
        pollScript := pollScript[1..];
        match p {
          case PollInterrupted => continue;
          case PollFailed => return false, line;
          case TimedOut(stop) =>
            if stop {
              return false, line;
            }
            continue;
          case HungUp => return false, line;
          case Readable(r) =>
            var n, c := Read(r);
            if n < 0 {
              if r.ReadInterrupted? {
                continue;
              }
              return false, line;
            }
            if n == 0 {
              return false, line;
            }
            if c == '\n' {
              LineEnds(old(incoming), line, incoming, PolledBytes(old(pollScript)));
              return true, line;
            }
            line := line + [c];
        }
      }
      LineMissing(line, incoming, |line| + PolledBytes(pollScript));
      return false, line;
    }
  }

  /** What is left of the script once `len` more bytes are out; None if a write fails or makes
      no progress before that. */
  function Left(script: seq<WriteResult>, len: nat): Option<seq<WriteResult>>
    decreases |script|
  {
    if len == 0 then Some(script)
    else if script == [] then None
    else match script[0]
      case WriteFailed => None
      case WriteInterrupted => Left(script[1..], len)
      case Wrote(n) => if n == 0 then None else Left(script[1..], if n <= len then len - n else 0)
  }

  /** How many bytes the script lets in before a read fails. */
  function Bytes(script: seq<ReadResult>): nat
    decreases |script|
  {
    if script == [] || script[0].ReadFailed? then 0
    else (if script[0].Byte? then 1 else 0) + Bytes(script[1..])
  }

  /** The same through poll: time-outs and interruptions retry, a stop request or a hang-up ends. */
  function PolledBytes(script: seq<PollResult>): nat
    decreases |script|
  {
    if script == [] then 0
    else match script[0]
      case PollInterrupted => PolledBytes(script[1..])
      case TimedOut(stop) => if stop then 0 else PolledBytes(script[1..])
      case Readable(r) => if r.ReadFailed? then 0 else (if r.Byte? then 1 else 0) + PolledBytes(script[1..])
      case _ => 0
  }

  /** A complete line of at most 126 characters is within the first `n` bytes. */
  predicate LineArrives(stream: string, n: nat) {
    var k := FirstNewline(stream); k < |stream| && k <= LINE_MAX - 2 && k < n
  }

  lemma LineEnds(stream: string, line: string, rest: string, n: nat)
    requires stream == line + (['\n'] + rest) && '\n' !in line && |line| <= LINE_MAX - 2 && |line| < n
    ensures LineArrives(stream, n) && stream == line + "\n" + rest
  {
    FirstNewlineAfter(line, ['\n'] + rest);
  }

  lemma LineMissing(line: string, rest: string, n: nat)
    requires '\n' !in line && n >= |line|
    ensures n == |line| || rest == "" || |line| >= LINE_MAX - 1 ==> !LineArrives(line + rest, n)
  {
    FirstNewlineAfter(line, rest);
  }

  /** What reading one line does to the stream: success consumes exactly one line and its
      newline, at most 126 characters long; failure consumes part of the first line only, and
      at most 127 characters. */
  ghost predicate Framed(before: string, after: string, ok: bool, line: string) {
    && '\n' !in line
    && (ok ==> before == line + "\n" + after && |line| <= LINE_MAX - 2)
    && (!ok ==> before == line + after && |line| <= LINE_MAX - 1)
  }

  // ---------------------------------------------------------------- lines of a stream

  /** The newline-terminated lines of a stream, without the newlines. */
  function Lines(s: string): (ls: seq<string>)
    decreases |s|
  {
    var n := FirstNewline(s);
    if n == |s| then [] else [s[..n]] + Lines(s[n + 1..])
  }

  function FirstNewline(s: string): (n: nat)
    ensures n <= |s| && '\n' !in s[..n] && (n < |s| ==> s[n] == '\n')
  {
    if s == "" || s[0] == '\n' then 0 else 1 + FirstNewline(s[1..])
  }

  /** Where the first newline is, seen from a newline-free beginning of the stream. */
  lemma FirstNewlineAfter(line: string, rest: string)
    requires '\n' !in line
    ensures FirstNewline(line + rest) >= |line|
    ensures rest == "" || rest[0] == '\n' ==> FirstNewline(line + rest) == |line|
  {
    if line == "" {
      assert line + rest == rest;
    } else {
      assert (line + rest)[1..] == line[1..] + rest;
      FirstNewlineAfter(line[1..], rest);
    }
  }

  lemma FirstNewlineOf(line: string, rest: string)
    requires '\n' !in line
    ensures FirstNewline(line + "\n" + rest) == |line|
  {
    var s := line + "\n" + rest;
    if line != "" {
      assert s[1..] == line[1..] + "\n" + rest;
      FirstNewlineOf(line[1..], rest);
    }
  }

  /** One successful read takes the first line off the stream's lines. */
  lemma ReadTakesFirst(before: string, after: string, line: string)
    requires Framed(before, after, true, line)
    ensures Lines(before) == [line] + Lines(after)
  {
    FirstNewlineOf(line, after);
    assert before[..|line|] == line && before[|line| + 1..] == after;
  }

  /** The lines heard from a stream whose first `n` bytes get through: reading stops for good at
      the first line that is cut off or too long. */
  function Heard(stream: string, n: nat): seq<string>
    decreases |stream|
  {
    if !LineArrives(stream, n) then []
    else var k := FirstNewline(stream); [stream[..k]] + Heard(stream[k + 1..], n - k - 1)
  }

  /** They are an initial part of the stream's lines, each of at most 126 characters: no line is
      split, merged, skipped or repeated. */
  lemma {:induction false} HeardIsPrefix(stream: string, n: nat)
    ensures Heard(stream, n) <= Lines(stream)
    ensures forall i | 0 <= i < |Heard(stream, n)| :: |Heard(stream, n)[i]| <= LINE_MAX - 2
    decreases |stream|
  {
    if LineArrives(stream, n) {
      var k := FirstNewline(stream);
      HeardIsPrefix(stream[k + 1..], n - k - 1);
    }
  }

  /** And all of them if every byte gets through and no line is too long. */
  lemma {:induction false} HeardAll(stream: string, n: nat)
    requires n >= |stream| && forall i | 0 <= i < |Lines(stream)| :: |Lines(stream)[i]| <= LINE_MAX - 2
    ensures Heard(stream, n) == Lines(stream)
    decreases |stream|
  {
    var k := FirstNewline(stream);
    if k < |stream| {
      hide FirstNewline;
      var rest := stream[k + 1..];
      assert Lines(stream)[0] == stream[..k];
      assert forall i | 0 <= i < |Lines(rest)| :: Lines(rest)[i] == Lines(stream)[i + 1];
      HeardAll(rest, n - k - 1);
    }
  }

  lemma HeardFirst(before: string, after: string, line: string, n: nat)
    requires Framed(before, after, true, line) && LineArrives(before, n)
    ensures n > |line| && Heard(before, n) == [line] + Heard(after, n - |line| - 1)
  {
    FirstNewlineOf(line, after);
    assert before[..|line|] == line && before[|line| + 1..] == after;
  }

  // ---------------------------------------------------------------- what a script means

  /** An interrupted read, wherever it comes, changes nothing. */
  lemma {:induction false} ReadRetries(a: seq<ReadResult>, b: seq<ReadResult>)
    ensures Bytes(a + [ReadInterrupted] + b) == Bytes(a + b)
    decreases |a|
  {
    var s, t := a + [ReadInterrupted] + b, a + b;
    if a == [] {
      assert s[1..] == b == t;
    } else {
      assert s[1..] == a[1..] + [ReadInterrupted] + b && t[1..] == a[1..] + b;
      ReadRetries(a[1..], b);
    }
  }

  /** Nothing after the first failed read counts. */
  lemma {:induction false} ReadFails(a: seq<ReadResult>, b: seq<ReadResult>)
    ensures Bytes(a + [ReadFailed] + b) == Bytes(a)
    decreases |a|
  {
    var s := a + [ReadFailed] + b;
    if a != [] {
      assert s[1..] == a[1..] + [ReadFailed] + b;
      ReadFails(a[1..], b);
    }
  }

  /** Every successful read before that brings one byte. */
  lemma {:induction false} ReadCounts(n: nat)
    ensures Bytes(seq(n, _ => Byte)) == n
  {
    if n > 0 {
      assert seq(n, _ => Byte)[1..] == seq(n - 1, _ => Byte);
      ReadCounts(n - 1);
    }
  }

  /** An interrupted poll or read and a time-out without a stop request, wherever they come,
      change nothing: the listener polls again. */
  lemma {:induction false} PollRetries(a: seq<PollResult>, r: PollResult, b: seq<PollResult>)
    requires r == PollInterrupted || r == TimedOut(false) || r == Readable(ReadInterrupted)
    ensures PolledBytes(a + [r] + b) == PolledBytes(a + b)
    decreases |a|
  {
    var s, t := a + [r] + b, a + b;
    if a == [] {
      assert s[1..] == b == t;
    } else {
      assert s[1..] == a[1..] + [r] + b && t[1..] == a[1..] + b;
      PollRetries(a[1..], r, b);
    }
  }

  /** Nothing counts after the first failed poll or read, hang-up, or time-out with a stop request. */
  lemma {:induction false} PollEnds(a: seq<PollResult>, r: PollResult, b: seq<PollResult>)
    requires r == PollFailed || r == HungUp || r == TimedOut(true) || r == Readable(ReadFailed)
    ensures PolledBytes(a + [r] + b) == PolledBytes(a)
    decreases |a|
  {
    var s := a + [r] + b;
    if a != [] {
      assert s[1..] == a[1..] + [r] + b;
      PollEnds(a[1..], r, b);
    }
  }

  /** Every readable byte before that counts once. */
  lemma {:induction false} PollCounts(n: nat)
    ensures PolledBytes(seq(n, _ => Readable(Byte))) == n
  {
    if n > 0 {
      assert seq(n, _ => Readable(Byte))[1..] == seq(n - 1, _ => Readable(Byte));
      PollCounts(n - 1);
    }
  }

  /** An interrupted write, wherever it comes, changes nothing about the outcome. */
  lemma {:induction false} WriteRetries(a: seq<WriteResult>, b: seq<WriteResult>, len: nat)
    ensures Left(a + [WriteInterrupted] + b, len).Some? == Left(a + b, len).Some?
    decreases |a|
  {
    var s, t := a + [WriteInterrupted] + b, a + b;
    if a == [] {
      assert s[1..] == b == t;
    } else {
      assert s[1..] == a[1..] + [WriteInterrupted] + b && t[1..] == a[1..] + b;
      match a[0]
      case Wrote(n) => WriteRetries(a[1..], b, if n <= len then len - n else 0);
      case _ => WriteRetries(a[1..], b, len);
    }
  }

  /** A buffer that is not out before the first failed or empty write never gets out. */
  lemma {:induction false} WriteFails(a: seq<WriteResult>, r: WriteResult, b: seq<WriteResult>, len: nat)
    requires r == WriteFailed || r == Wrote(0)
    ensures Left(a + [r] + b, len).Some? == Left(a, len).Some?
    decreases |a|
  {
    var s := a + [r] + b;
    if a != [] {
      assert s[1..] == a[1..] + [r] + b;
      match a[0]
      case Wrote(n) => WriteFails(a[1..], r, b, if n <= len then len - n else 0);
      case _ => WriteFails(a[1..], r, b, len);
    }
  }

  function Sum(chunks: seq<nat>): nat { if chunks == [] then 0 else chunks[0] + Sum(chunks[1..]) }

  function Writes(chunks: seq<nat>): (r: seq<WriteResult>)
    ensures |r| == |chunks| && forall i | 0 <= i < |r| :: r[i] == Wrote(chunks[i])
  {
    seq(|chunks|, i requires 0 <= i < |chunks| => Wrote(chunks[i]))
  }

  /** Non-empty writes get a buffer out exactly when they add up to its length. */
  lemma {:induction false} WriteCounts(chunks: seq<nat>, len: nat)
    requires 0 !in chunks
    ensures Left(Writes(chunks), len).Some? <==> Sum(chunks) >= len
    decreases |chunks|
  {
    if chunks != [] && len > 0 {
      var n := chunks[0];
      assert Writes(chunks)[1..] == Writes(chunks[1..]);
      WriteCounts(chunks[1..], if n <= len then len - n else 0);
    }
  }

  /** What is left is what follows the shortest beginning of the script that gets the buffer out. */
  lemma {:induction false} WriteLeaves(script: seq<WriteResult>, len: nat)
    requires Left(script, len).Some?
    ensures var rest := Left(script, len).value; var used := |script| - |rest|;
            && 0 <= used && rest == script[used..] && Left(script[..used], len) == Some([])
            && forall k | 0 <= k < used :: Left(script[..k], len).None?
    decreases |script|
  {
    if len > 0 {
      var more := match script[0] case Wrote(n) => if n <= len then len - n else 0 case _ => len;
      WriteLeaves(script[1..], more);
      var rest := Left(script[1..], more).value;
      var used := |script| - |rest|;
      assert script[..used][1..] == script[1..][..used - 1];
      forall k | 0 <= k < used
        ensures Left(script[..k], len).None?
      {
        if k > 0 { assert script[..k][1..] == script[1..][..k - 1]; }
      }
    }
  }

  /** A line gets through exactly when it has at most 126 characters and it and its newline are
      within the bytes that do. */
  lemma LineArrivesIff(line: string, rest: string, n: nat)
    requires '\n' !in line
    ensures LineArrives(line + "\n" + rest, n) <==> |line| <= 126 && |line| + 1 <= n
    ensures !LineArrives(line, n)
  {
    FirstNewlineOf(line, rest);
    FirstNewlineAfter(line, "");
    assert line + "" == line;
  }

  /** Reading on after a line that got through, and never after one that did not. */
  lemma HeardNext(line: string, rest: string, n: nat)
    requires '\n' !in line
    ensures Heard(line, n) == []
    ensures Heard(line + "\n" + rest, n) ==
              if |line| <= 126 && |line| + 1 <= n then [line] + Heard(rest, n - |line| - 1) else []
  {
    LineArrivesIff(line, rest, n);
    if |line| <= 126 && |line| + 1 <= n { HeardFirst(line + "\n" + rest, rest, line, n); }
  }
}
