/** serve_client: the two subscriber queues of one connection onto its socket, while the worker
    threads keep publishing into both queues. */
module Feed {
  import opened Basics
  import opened Messages
  import opened MsgQueues
  import opened Wire
  import opened Records

  /** What the workers publish into the two queues at one moment. */
  datatype Arrivals = Arrivals(telemetry: seq<Body>, alerts: seq<Body>)

  /** One pass of the loop: whether it may go on (peer alive, no shutdown), what arrives before its
      look at the telemetry queue, and what arrives before its look at the alerts queue. */
  datatype Pass = Pass(go: bool, early: Arrivals, late: Arrivals)

  ghost predicate Routed(telemetry: seq<Body>, alerts: seq<Body>) {
    && (forall i | 0 <= i < |telemetry| :: telemetry[i].TelemetryMsg? && Plain(telemetry[i]))
    && (forall i | 0 <= i < |alerts| :: alerts[i].AlertMsg? && Plain(alerts[i]))
  }

  ghost predicate PassOk(p: Pass) {
    Routed(p.early.telemetry, p.early.alerts) && Routed(p.late.telemetry, p.late.alerts)
  }

  ghost predicate AllRouted(ps: seq<Pass>) { forall i | 0 <= i < |ps| :: PassOk(ps[i]) }

  ghost predicate Disjoint(q: MsgQueue<Body>, r: MsgQueue<Body>) { q != r && q.items != r.items }

  // ---------------------------------------------------------------- what a pass does

  function Fitting(q: seq<Body>, capacity: nat, items: seq<Body>): seq<Body> {
    if |q| >= capacity then [] else if |q| + |items| <= capacity then items else items[..capacity - |q|]
  }

  /** The first of them, as many as there is room for: nothing is refused while there is any. */
  lemma FittingMeans(q: seq<Body>, capacity: nat, items: seq<Body>)
    ensures var r := Fitting(q, capacity, items);
            && r <= items && (|q| <= capacity ==> |q| + |r| <= capacity)
            && (r == items || |q| + |r| >= capacity)
  {
  }

  /** Both queues and everything taken from them so far. */
  datatype Desk = Desk(telemetry: seq<Body>, alerts: seq<Body>, served: seq<Body>)

  function Admitted(d: Desk, room: (nat, nat), n: Arrivals): Desk {
    d.(telemetry := d.telemetry + Fitting(d.telemetry, room.0, n.telemetry),
       alerts := d.alerts + Fitting(d.alerts, room.1, n.alerts))
  }

  /** The second look, at the alerts. */
  function AlertServed(d: Desk): Desk {
    if d.alerts == [] then d else Desk(d.telemetry, d.alerts[1..], d.served + [d.alerts[0]])
  }

  /** Telemetry goes first; an alert only when the first look found no telemetry. */
  function OnePass(d: Desk, room: (nat, nat), p: Pass): Desk {
    var first := Admitted(d, room, p.early);
    if first.telemetry != []
    then Desk(first.telemetry[1..], first.alerts, first.served + [first.telemetry[0]])
    else AlertServed(Admitted(first, room, p.late))
  }

  function Passes(d: Desk, room: (nat, nat), ps: seq<Pass>): Desk
    decreases |ps|
  {
    if ps == [] then d else OnePass(Passes(d, room, ps[..|ps| - 1]), room, ps[|ps| - 1])
  }

  // ---------------------------------------------------------------- the loop

  /** Workers publish into a queue: the first items fit, the rest are dropped. */
  method Arrive(q: MsgQueue<Body>, items: seq<Body>)
    requires q.Valid()
    modifies q, q.items
    ensures q.Valid()
    ensures q.Seen() == old(q.Seen()).(contents := old(q.contents) + Fitting(old(q.contents), q.items.Length, items))
  {
    hide MsgQueue.Valid;
    ghost var before := q.contents;
    for i := 0 to |items|
      invariant q.Valid()
      invariant q.Seen() == old(q.Seen()).(contents := before + Fitting(before, q.items.Length, items[..i]))
    {
      assert items[..i + 1] == items[..i] + [items[i]];
      var ok := q.TryEnqueue(items[i]);
      assert ok ==> before + Fitting(before, q.items.Length, items[..i]) + [items[i]] ==
                    before + Fitting(before, q.items.Length, items[..i + 1]);
    }
    assert items[..|items|] == items;
  }

  ghost predicate BothValid(telemetry: MsgQueue<Body>, alerts: MsgQueue<Body>)
    reads telemetry, telemetry.items, alerts, alerts.items
  {
    telemetry.Valid() && alerts.Valid()
  }

  ghost function Look(telemetry: MsgQueue<Body>, alerts: MsgQueue<Body>, served: seq<Body>): Desk
    reads telemetry, alerts
  {
    Desk(telemetry.contents, alerts.contents, served)
  }

  ghost function Room(telemetry: MsgQueue<Body>, alerts: MsgQueue<Body>): (nat, nat) {
    (telemetry.items.Length, alerts.items.Length)
  }

  method ArriveBoth(telemetry: MsgQueue<Body>, alerts: MsgQueue<Body>, n: Arrivals, ghost served: seq<Body>)
    requires BothValid(telemetry, alerts) && Disjoint(telemetry, alerts)
    modifies telemetry, telemetry.items, alerts, alerts.items
    ensures BothValid(telemetry, alerts)
    ensures Look(telemetry, alerts, served) ==
            Admitted(old(Look(telemetry, alerts, served)), Room(telemetry, alerts), n)
  {
    hide MsgQueue.Valid, Fitting;
    Arrive(telemetry, n.telemetry);
    Arrive(alerts, n.alerts);
  }

  /** The next message to send, if any: two try_dequeues, with workers at the queues before each. */
  method Next(telemetry: MsgQueue<Body>, alerts: MsgQueue<Body>, p: Pass, ghost served: seq<Body>)
    returns (m: Option<Body>)
    requires BothValid(telemetry, alerts) && Disjoint(telemetry, alerts)
    modifies telemetry, telemetry.items, alerts, alerts.items
    ensures BothValid(telemetry, alerts)
    ensures Look(telemetry, alerts, if m.Some? then served + [m.value] else served) ==
            OnePass(old(Look(telemetry, alerts, served)), Room(telemetry, alerts), p)
  {
    hide MsgQueue.Valid, Admitted;
    ArriveBoth(telemetry, alerts, p.early, served);
    m := telemetry.TryDequeue();
    if m.None? {
      ArriveBoth(telemetry, alerts, p.late, served);
      m := alerts.TryDequeue();
    }
  }

  ghost predicate Delivered(before: string, after: string, served: seq<Body>, alive: bool)
    requires AllPlain(served)
  {
    if alive then after == before + Stream(served)
    else served != [] && before + Stream(served[..|served| - 1]) <= after < before + Stream(served)
  }

  /** What is left of the write script once all these records are out; None if a write fails. */
  ghost function Written(script: seq<WriteResult>, ms: seq<Body>): Option<seq<WriteResult>>
    requires AllPlain(ms)
    decreases |ms|
  {
    if ms == [] then Some(script)
    else var before := Written(script, ms[..|ms| - 1]);
         if before.None? then None else Left(before.value, |Record(ms[|ms| - 1])|)
  }

  /** The socket after serving these messages: all written out, or the last one cut short by the
      first failing write. */
  ghost predicate SentSoFar(
      sent0: string, script0: seq<WriteResult>, sent: string, script: seq<WriteResult>, served: seq<Body>, alive: bool)
  {
    && AllPlain(served) && Delivered(sent0, sent, served, alive)
    && Written(script0, served) == (if alive then Some(script) else None)
    && (!alive ==> Written(script0, served[..|served| - 1]).Some?)
  }

  lemma NothingSent(sent: string, script: seq<WriteResult>)
    ensures SentSoFar(sent, script, sent, script, [], true)
  {
    assert Stream([]) == "" && sent + "" == sent;
  }

  /** serve_client. Every message taken is written out in full, in the order taken, as long as the
      client lives; when it does not, the last one is cut short. */
  method ServeClient(socket: Socket, telemetry: MsgQueue<Body>, alerts: MsgQueue<Body>, passes: seq<Pass>)
    returns (clientAlive: bool, ghost k: nat, ghost served: seq<Body>)
    requires BothValid(telemetry, alerts) && Disjoint(telemetry, alerts)
    requires Routed(telemetry.contents, alerts.contents) && AllRouted(passes)
    modifies socket`sent, socket`writeScript, telemetry, telemetry.items, alerts, alerts.items
    ensures BothValid(telemetry, alerts) && k <= |passes| && forall i | 0 <= i < k :: passes[i].go
    ensures clientAlive ==> k == |passes| || !passes[k].go
    ensures Look(telemetry, alerts, served) ==
            Passes(old(Look(telemetry, alerts, [])), Room(telemetry, alerts), passes[..k])
    ensures SentSoFar(
              old(socket.sent), old(socket.writeScript), socket.sent, socket.writeScript, served, clientAlive)
  {
    hide BothValid, Passes, OnePass, PassOk, SentSoFar, Routed, Plain;
    clientAlive, k, served := true, 0, [];
    var i := 0;
    ghost var room := Room(telemetry, alerts);
    ghost var start := Look(telemetry, alerts, []);
    NoPasses(start, room);
    NothingSent(socket.sent, socket.writeScript);
    assert passes[..0] == [];
    while clientAlive && i < |passes| && passes[i].go
      invariant BothValid(telemetry, alerts) && Routed(telemetry.contents, alerts.contents)
      invariant k == i <= |passes| && forall j | 0 <= j < i :: passes[j].go
      invariant Look(telemetry, alerts, served) == Passes(start, room, passes[..k])
      invariant SentSoFar(
                  old(socket.sent), old(socket.writeScript), socket.sent, socket.writeScript, served, clientAlive)
      decreases |passes| - i
    {
      NextPass(start, room, passes, k);
      var m := TakePass(telemetry, alerts, passes[i], served);
      i, k := i + 1, k + 1;
      if m.Some? {
        clientAlive := SendNext(socket, m.value, old(socket.sent), old(socket.writeScript), served);
        served := served + [m.value];
      }
    }
  }

  method SendNext(
      socket: Socket, m: Body, ghost sent0: string, ghost script0: seq<WriteResult>, ghost served: seq<Body>)
    returns (ok: bool)
    requires Plain(m) && SentSoFar(sent0, script0, socket.sent, socket.writeScript, served, true)
    modifies socket`sent, socket`writeScript
    ensures SentSoFar(sent0, script0, socket.sent, socket.writeScript, served + [m], ok)
  {
    hide Stream, InRange, Record, Left;
    StreamSnoc(served, m);
    Assoc(sent0, Stream(served), Record(m));
    assert (served + [m])[..|served|] == served;
    ok := SendRecord(socket, m);
  }

  /** Formats one message into the line buffer and writes it; a record always fits. */
  method SendRecord(socket: Socket, m: Body) returns (ok: bool)
    requires Plain(m)
    modifies socket`sent, socket`writeScript
    ensures ok == Left(old(socket.writeScript), |Record(m)|).Some?
    ensures ok ==> socket.sent == old(socket.sent) + Record(m)
    ensures ok ==> socket.writeScript == Left(old(socket.writeScript), |Record(m)|).value
    ensures !ok ==> old(socket.sent) <= socket.sent < old(socket.sent) + Record(m)
  {
    hide Record, Left;
    var line := new char[RECORD_MAX];
    RecordFits(m);
    var n := Snprintf(line, 0, Record(m));
    ok := true;
    if 0 < n < RECORD_MAX {
      ok := socket.WriteAll(line[..n]);
    }
  }

  lemma AdmittedRouted(d: Desk, room: (nat, nat), n: Arrivals)
    requires Routed(d.telemetry, d.alerts) && Routed(n.telemetry, n.alerts)
    ensures var r := Admitted(d, room, n); Routed(r.telemetry, r.alerts)
  {
    hide Plain;
  }

  /** Queues stay routed, and what a pass serves is printable. */
  lemma PassRouted(d: Desk, room: (nat, nat), p: Pass)
    requires Routed(d.telemetry, d.alerts) && PassOk(p)
    ensures var r := OnePass(d, room, p);
            && Routed(r.telemetry, r.alerts)
            && (r.served == d.served || (|r.served| == |d.served| + 1 && Plain(r.served[|d.served|])))
  {
    hide Plain, Admitted;
    var first := Admitted(d, room, p.early);
    AdmittedRouted(d, room, p.early);
    AdmittedRouted(first, room, p.late);
    AdmittedServed(d, room, p.early);
    AdmittedServed(first, room, p.late);
  }

  /** Next, together with what is known of the message. */
  method TakePass(telemetry: MsgQueue<Body>, alerts: MsgQueue<Body>, p: Pass, ghost served: seq<Body>)
    returns (m: Option<Body>)
    requires BothValid(telemetry, alerts) && Disjoint(telemetry, alerts)
    requires Routed(telemetry.contents, alerts.contents) && PassOk(p)
    modifies telemetry, telemetry.items, alerts, alerts.items
    ensures BothValid(telemetry, alerts) && Routed(telemetry.contents, alerts.contents)
    ensures m.Some? ==> Plain(m.value)
    ensures Look(telemetry, alerts, if m.Some? then served + [m.value] else served) ==
            OnePass(old(Look(telemetry, alerts, served)), Room(telemetry, alerts), p)
  {
    hide BothValid, OnePass, Routed, Plain, PassOk;
    PassRouted(Look(telemetry, alerts, served), Room(telemetry, alerts), p);
    m := Next(telemetry, alerts, p, served);
  }

  lemma AdmittedServed(d: Desk, room: (nat, nat), n: Arrivals)
    ensures Admitted(d, room, n).served == d.served
  {
  }

  lemma NoPasses(d: Desk, room: (nat, nat))
    ensures Passes(d, room, []) == d
  {
  }

  lemma NextPass(d: Desk, room: (nat, nat), ps: seq<Pass>, k: nat)
    requires k < |ps|
    ensures Passes(d, room, ps[..k + 1]) == OnePass(Passes(d, room, ps[..k]), room, ps[k])
  {
    hide OnePass;
    assert ps[..k + 1][..k] == ps[..k];
  }

  // ---------------------------------------------------------------- what the feed guarantees

  /** The messages of one kind, in order. */
  ghost function Telemetry(ms: seq<Body>): seq<Body>
    decreases |ms|
  {
    if ms == [] then []
    else Telemetry(ms[..|ms| - 1]) + if ms[|ms| - 1].TelemetryMsg? then [ms[|ms| - 1]] else []
  }

  ghost function Alerts(ms: seq<Body>): seq<Body>
    decreases |ms|
  {
    if ms == [] then []
    else Alerts(ms[..|ms| - 1]) + if ms[|ms| - 1].TelemetryMsg? then [] else [ms[|ms| - 1]]
  }

  /** What finds room in the telemetry queue (the alerts queue) during one pass. */
  function TelemetryGot(d: Desk, room: (nat, nat), p: Pass): seq<Body> {
    var first := Admitted(d, room, p.early);
    Fitting(d.telemetry, room.0, p.early.telemetry)
    + if first.telemetry != [] then [] else Fitting(first.telemetry, room.0, p.late.telemetry)
  }

  function AlertsGot(d: Desk, room: (nat, nat), p: Pass): seq<Body> {
    var first := Admitted(d, room, p.early);
    Fitting(d.alerts, room.1, p.early.alerts)
    + if first.telemetry != [] then [] else Fitting(first.alerts, room.1, p.late.alerts)
  }

  /** ... and over all the passes. */
  function TelemetryIn(d: Desk, room: (nat, nat), ps: seq<Pass>): seq<Body>
    decreases |ps|
  {
    if ps == [] then []
    else var before := ps[..|ps| - 1];
         TelemetryIn(d, room, before) + TelemetryGot(Passes(d, room, before), room, ps[|ps| - 1])
  }

  function AlertsIn(d: Desk, room: (nat, nat), ps: seq<Pass>): seq<Body>
    decreases |ps|
  {
    if ps == [] then []
    else var before := ps[..|ps| - 1];
         AlertsIn(d, room, before) + AlertsGot(Passes(d, room, before), room, ps[|ps| - 1])
  }

  /** Nothing that entered a queue is lost, repeated, reordered or sent under the other type: what
      was there plus what came in is what was served plus what is still there. */
  lemma {:induction false} FeedConserves(t: seq<Body>, a: seq<Body>, room: (nat, nat), ps: seq<Pass>)
    requires Routed(t, a) && AllRouted(ps)
    ensures var d := Desk(t, a, []); var r := Passes(d, room, ps);
            && t + TelemetryIn(d, room, ps) == Telemetry(r.served) + r.telemetry
            && a + AlertsIn(d, room, ps) == Alerts(r.served) + r.alerts
            && Routed(r.telemetry, r.alerts)
    decreases |ps|
  {
    hide OnePass, Telemetry, Alerts, Routed, TelemetryGot, AlertsGot, PassOk;
    NothingServed();
    if ps != [] {
      var before, p, d := ps[..|ps| - 1], ps[|ps| - 1], Desk(t, a, []);
      FeedConserves(t, a, room, before);
      var r := Passes(d, room, before);
      PassConserves(r, room, p);
      Joins(t, TelemetryIn(d, room, before), Telemetry(r.served), r.telemetry, TelemetryGot(r, room, p));
      Joins(a, AlertsIn(d, room, before), Alerts(r.served), r.alerts, AlertsGot(r, room, p));
    }
  }

  lemma NothingServed()
    ensures Telemetry([]) == [] && Alerts([]) == []
  {
  }

  lemma Joins(a: seq<Body>, b: seq<Body>, c: seq<Body>, d: seq<Body>, more: seq<Body>)
    requires a + b == c + d
    ensures a + (b + more) == c + (d + more)
  {
    assert a + (b + more) == (a + b) + more == (c + d) + more == c + (d + more);
  }

  lemma ServedMore(served: seq<Body>, m: Body)
    ensures Telemetry(served + [m]) == Telemetry(served) + if m.TelemetryMsg? then [m] else []
    ensures Alerts(served + [m]) == Alerts(served) + if m.TelemetryMsg? then [] else [m]
  {
    assert (served + [m])[..|served|] == served;
  }

  /** Taking the first of a queue and putting it behind what was served. */
  lemma Moved(done: seq<Body>, queue: seq<Body>)
    requires queue != []
    ensures done + [queue[0]] + queue[1..] == done + queue
  {
  }

  lemma PassConserves(d: Desk, room: (nat, nat), p: Pass)
    requires Routed(d.telemetry, d.alerts) && PassOk(p)
    ensures var r := OnePass(d, room, p);
            && Telemetry(d.served) + (d.telemetry + TelemetryGot(d, room, p)) == Telemetry(r.served) + r.telemetry
            && Alerts(d.served) + (d.alerts + AlertsGot(d, room, p)) == Alerts(r.served) + r.alerts
            && Routed(r.telemetry, r.alerts)
  {
    hide Plain, Telemetry, Alerts, Fitting;
    PassRouted(d, room, p);
    AdmittedRouted(d, room, p.early);
    var first := Admitted(d, room, p.early);
    var e := (Fitting(d.telemetry, room.0, p.early.telemetry), Fitting(d.alerts, room.1, p.early.alerts));
    if first.telemetry != [] {
      assert e.0 + [] == e.0 && e.1 + [] == e.1;
      ServedMore(d.served, first.telemetry[0]);
      Moved(Telemetry(d.served), first.telemetry);
    } else {
      AdmittedRouted(first, room, p.late);
      var second := Admitted(first, room, p.late);
      Together(d.telemetry, e.0, Fitting(first.telemetry, room.0, p.late.telemetry));
      Together(d.alerts, e.1, Fitting(first.alerts, room.1, p.late.alerts));
      if second.alerts != [] {
        ServedMore(d.served, second.alerts[0]);
        Moved(Alerts(d.served), second.alerts);
      }
    }
  }

  lemma Together(q: seq<Body>, a: seq<Body>, b: seq<Body>)
    ensures q + (a + b) == q + a + b
  {
  }

  /** The desk after n passes without arrivals: the telemetry backlog goes out, then the alerts. */
  function Quiet(t: seq<Body>, a: seq<Body>, n: nat): Desk {
    if n <= |t| then Desk(t[n..], a, t[..n])
    else if n <= |t| + |a| then Desk([], a[n - |t|..], t + a[..n - |t|])
    else Desk([], [], t + a)
  }

  const NOBODY := Arrivals([], [])

  lemma QuietStep(t: seq<Body>, a: seq<Body>, room: (nat, nat), n: nat, p: Pass)
    requires p.early == NOBODY && p.late == NOBODY
    ensures OnePass(Quiet(t, a, n), room, p) == Quiet(t, a, n + 1)
  {
    hide Admitted;
    NoArrivals(Quiet(t, a, n), room);
    if n < |t| {
      assert t[..n + 1] == t[..n] + [t[n]];
    } else if n < |t| + |a| {
      var k := n - |t|;
      assert a[..k + 1] == a[..k] + [a[k]] && t[n - k..] == [] && a[0..] == a && t[..|t|] == t;
      assert t + a[..k + 1] == t + a[..k] + [a[k]];
    } else {
      assert t[|t|..] == [] && a[|a|..] == [] && t[..|t|] == t && a[..|a|] == a;
      assert a == [] ==> t + a == t;
    }
  }

  lemma {:induction false} QuietFeed(t: seq<Body>, a: seq<Body>, room: (nat, nat), ps: seq<Pass>)
    requires forall i | 0 <= i < |ps| :: ps[i].early == NOBODY && ps[i].late == NOBODY
    ensures Passes(Desk(t, a, []), room, ps) == Quiet(t, a, |ps|)
    decreases |ps|
  {
    hide Quiet, OnePass;
    if ps == [] {
      QuietStart(t, a);
    } else {
      QuietFeed(t, a, room, ps[..|ps| - 1]);
      QuietStep(t, a, room, |ps| - 1, ps[|ps| - 1]);
    }
  }

  lemma QuietStart(t: seq<Body>, a: seq<Body>)
    ensures Quiet(t, a, 0) == Desk(t, a, [])
  {
  }

  lemma NoArrivals(d: Desk, room: (nat, nat))
    ensures Admitted(d, room, NOBODY) == d
  {
    assert d.telemetry + [] == d.telemetry && d.alerts + [] == d.alerts;
  }

  // ---------------------------------------------------------------- when an alert gets through

  /** How much telemetry has come in when the last of these passes makes its first look. */
  function TelemetryBy(d: Desk, room: (nat, nat), ps: seq<Pass>): nat
    requires ps != []
  {
    var before := ps[..|ps| - 1];
    |TelemetryIn(d, room, before)|
    + |Fitting(Passes(d, room, before).telemetry, room.0, ps[|ps| - 1].early.telemetry)|
  }

  /** A pass finds telemetry unless backlog and arrivals together are used up by the passes before. */
  lemma FindsTelemetryIff(t: seq<Body>, a: seq<Body>, room: (nat, nat), ps: seq<Pass>)
    requires Routed(t, a) && AllRouted(ps) && ps != []
    requires var r := Passes(Desk(t, a, []), room, ps[..|ps| - 1]); |Telemetry(r.served)| == |ps| - 1
    ensures var d := Desk(t, a, []); var r := Passes(d, room, ps[..|ps| - 1]);
            Admitted(r, room, ps[|ps| - 1].early).telemetry != [] <==> |t| + TelemetryBy(d, room, ps) >= |ps|
  {
    hide Passes, TelemetryIn, Fitting, Telemetry, Alerts, Routed, PassOk;
    FeedConserves(t, a, room, ps[..|ps| - 1]);
    var d, before := Desk(t, a, []), ps[..|ps| - 1];
    var r := Passes(d, room, before);
    assert |t + TelemetryIn(d, room, before)| == |Telemetry(r.served) + r.telemetry|;
  }

  /** One more pass over an alert that waits. */
  lemma WaitingStep(d: Desk, room: (nat, nat), p: Pass)
    requires Routed(d.telemetry, d.alerts) && PassOk(p) && d.alerts != []
    ensures var r := OnePass(d, room, p);
            if Admitted(d, room, p.early).telemetry != []
            then Alerts(r.served) == Alerts(d.served) && |Telemetry(r.served)| == |Telemetry(d.served)| + 1
            else |Alerts(r.served)| == |Alerts(d.served)| + 1
  {
    hide Plain, Telemetry, Alerts, Fitting;
    AdmittedRouted(d, room, p.early);
    var first := Admitted(d, room, p.early);
    if first.telemetry != [] {
      ServedMore(d.served, first.telemetry[0]);
    } else {
      AdmittedRouted(first, room, p.late);
      ServedMore(d.served, Admitted(first, room, p.late).alerts[0]);
    }
  }

  ghost predicate AlwaysTelemetry(t: seq<Body>, a: seq<Body>, room: (nat, nat), ps: seq<Pass>) {
    forall k | 0 < k <= |ps| :: |t| + TelemetryBy(Desk(t, a, []), room, ps[..k]) >= k
  }

  lemma AlwaysTelemetryLast(t: seq<Body>, a: seq<Body>, room: (nat, nat), ps: seq<Pass>)
    requires ps != []
    ensures AlwaysTelemetry(t, a, room, ps) <==>
              AlwaysTelemetry(t, a, room, ps[..|ps| - 1]) && |t| + TelemetryBy(Desk(t, a, []), room, ps) >= |ps|
  {
    hide TelemetryBy;
    var before := ps[..|ps| - 1];
    assert ps[..|ps|] == ps;
    forall k | 0 < k <= |before| ensures before[..k] == ps[..k] {}
  }

  /** An alert that waits gets through exactly when some pass finds the telemetry used up: when the
      backlog and all that has come in by then are fewer than the passes so far. */
  lemma {:induction false} AlertWaitsIff(t: seq<Body>, a: seq<Body>, room: (nat, nat), ps: seq<Pass>)
    requires Routed(t, a) && AllRouted(ps) && a != []
    ensures var r := Passes(Desk(t, a, []), room, ps);
            && (Alerts(r.served) == [] <==> AlwaysTelemetry(t, a, room, ps))
            && (Alerts(r.served) == [] ==> |Telemetry(r.served)| == |ps| && r.alerts != [])
    decreases |ps|
  {
    hide OnePass, Telemetry, Alerts, Routed, PassOk, TelemetryBy, AlwaysTelemetry, Fitting, Admitted;
    NothingServed();
    if ps == [] {
      assert AlwaysTelemetry(t, a, room, ps) by { AlwaysNone(t, a, room); }
    } else {
      var before, p := ps[..|ps| - 1], ps[|ps| - 1];
      var r := Passes(Desk(t, a, []), room, before);
      AlertWaitsIff(t, a, room, before);
      AlwaysTelemetryLast(t, a, room, ps);
      FeedConserves(t, a, room, before);
      FeedConserves(t, a, room, ps);
      if Alerts(r.served) == [] {
        FindsTelemetryIff(t, a, room, ps);
        WaitingStep(r, room, p);
        StillWaiting(a, AlertsIn(Desk(t, a, []), room, ps), Passes(Desk(t, a, []), room, ps));
      } else {
        NeverUnserved(r, room, p);
      }
    }
  }

  lemma StillWaiting(a: seq<Body>, more: seq<Body>, r: Desk)
    requires a != [] && a + more == Alerts(r.served) + r.alerts
    ensures Alerts(r.served) == [] ==> r.alerts != []
  {
    assert |a + more| == |Alerts(r.served)| + |r.alerts|;
  }

  lemma AlwaysNone(t: seq<Body>, a: seq<Body>, room: (nat, nat))
    ensures AlwaysTelemetry(t, a, room, [])
  {
  }

  lemma NeverUnserved(d: Desk, room: (nat, nat), p: Pass)
    requires Alerts(d.served) != []
    ensures Alerts(OnePass(d, room, p).served) != []
  {
    hide Fitting, Alerts;
    var r := OnePass(d, room, p);
    if r.served != d.served { ServedMore(d.served, r.served[|d.served|]); }
  }

  lemma ServesTelemetry(d: Desk, room: (nat, nat), p: Pass)
    requires Routed(d.telemetry, d.alerts) && PassOk(p) && room.0 > 0 && p.early.telemetry != []
    ensures var r := OnePass(d, room, p); |r.served| == |d.served| + 1 && Alerts(r.served) == Alerts(d.served)
  {
    hide Plain, Alerts;
    AdmittedRouted(d, room, p.early);
    var first := Admitted(d, room, p.early);
    assert first.telemetry != [];
    ServedMore(d.served, first.telemetry[0]);
  }

  /** So an alert, there from the start or arriving later, can wait for ever: as long as every pass
      is preceded by new telemetry. */
  lemma {:induction false} AlertsStarve(t: seq<Body>, a: seq<Body>, room: (nat, nat), ps: seq<Pass>)
    requires Routed(t, a) && AllRouted(ps)
    requires room.0 > 0 && forall i | 0 <= i < |ps| :: ps[i].early.telemetry != []
    ensures var r := Passes(Desk(t, a, []), room, ps); |r.served| == |ps| && Alerts(r.served) == []
    ensures a != [] ==> AlwaysTelemetry(t, a, room, ps)
    decreases |ps|
  {
    hide OnePass, Alerts, Telemetry, Routed, PassOk, AlwaysTelemetry;
    NothingServed();
    if ps != [] {
      var before := ps[..|ps| - 1];
      AlertsStarve(t, a, room, before);
      FeedConserves(t, a, room, before);
      ServesTelemetry(Passes(Desk(t, a, []), room, before), room, ps[|ps| - 1]);
    }
    if a != [] { AlertWaitsIff(t, a, room, ps); }
  }

  // ---------------------------------------------------------------- what the client sees

  /** After whatever lines came before (the handshake's), the client reads one JSON text per
      message served; a message cut short by the broken connection does not show up as a line. */
  lemma ClientView(before: string, after: string, served: seq<Body>, alive: bool)
    requires AllPlain(served) && Delivered(before, after, served, alive)
    requires before == "" || before[|before| - 1] == '\n'
    ensures var whole := if alive then served else served[..|served| - 1];
            Lines(after) == Lines(before) + Jsons(whole)
  {
    hide Stream, Record, InRange, Lines, OneLine, Jsons;
    var whole := if alive then served else served[..|served| - 1];
    var cut := "";
    if !alive {
      var last := served[|served| - 1];
      StreamSnoc(whole, last);
      assert whole + [last] == served;
      var sofar := before + Stream(whole);
      Assoc(before, Stream(whole), Record(last));
      cut := after[|sofar|..];
      assert after == sofar + cut;
      CutIsNoLine(sofar, cut, last);
    }
    Assoc(before, Stream(whole), cut);
    assert after == before + (Stream(whole) + cut);
    ClientReadsWholeRecords(whole, cut);
    LinesAppend(before, Stream(whole) + cut);
  }

  lemma CutIsNoLine(sofar: string, cut: string, m: Body)
    requires Plain(m) && sofar + cut < sofar + Record(m)
    ensures '\n' !in cut
  {
    hide Record, InRange;
    RecordIsOneLine(m);
    forall i | 0 <= i < |cut|
      ensures cut[i] != '\n'
    {
      assert cut[i] == (sofar + cut)[|sofar| + i] == (sofar + Record(m))[|sofar| + i] == Record(m)[i];
      assert Record(m)[..|Record(m)| - 1][i] == Record(m)[i];
    }
  }
}
