/** Every message a worker publishes can be printed: its fields are in range and its code has no
    white space, whatever the client sends and whenever it sends it. */
module Printable {
  import opened Decimal
  import opened Messages
  import opened System
  import opened Lifetimes
  import opened Ownership
  import opened Routing
  import opened Sequence
  import opened SystemTheorems
  import opened Records
  import opened Feed

  predicate BodyOk(b: Body) {
    match b
    case RawTelemetry(battery, rssi) => 0 <= battery < UINT32 && INT_MIN <= rssi <= INT_MAX
    case RawAlert(_, _) => GoodAlert(b)
    case _ => Plain(b)
  }

  ghost predicate HeapOk(h: map<Pid, Body>) { forall p | p in h :: BodyOk(h[p]) }

  ghost predicate MessagesOk(ws: map<Wid, Worker>) { forall w | w in ws && HasMsg(ws[w]) :: Plain(ws[w].msg) }

  ghost predicate BodiesOk(s: State) { HeapOk(s.mem.heap) && MessagesOk(s.th.workers) }

  lemma EnrichPlain(b: Body, n: nat, ts: int)
    requires BodyOk(b) && n < UINT32 && LONG_MIN <= ts <= LONG_MAX
    ensures Plain(Enrich(b, n, ts))
  {
  }

  lemma ProducerCodes(antenna: nat)
    requires antenna < UINT32
    ensures GoodAlert(RawAlert("ANTENNA_UNPLUGGED", antenna)) && GoodAlert(RawAlert("BATTERY_LOW", antenna))
  {
  }

  lemma ProducerBodies(s: State, a: Action)
    requires BodiesOk(s) && StepProducer(s, a).Some?
    ensures BodiesOk(StepProducer(s, a).value)
  {
    hide GoodAlert, Push, Usable, Live, MessagesOk;
    ProducerCodes(1 + s.th.ticks % 2);
  }

  lemma WorkerBodies(s: State, a: Action)
    requires BodiesOk(s) && OfWorker(a) && StepWorker(s, a).Some?
    ensures BodiesOk(StepWorker(s, a).value)
  {
    hide BodyOk, Plain, Enrich, Pop, Receive, Usable, Live, Readable;
    var me := s.th.workers[a.w];
    if a.Stamp? && me.WRaw? && LONG_MIN <= a.ts <= LONG_MAX {
      RawDefault();
      var b := if me.it.payload in s.mem.heap then s.mem.heap[me.it.payload] else RawTelemetry(0, 0);
      EnrichPlain(b, SeqNumber(s.issued), a.ts);
    }
    if a.Clone? && HasMsg(me) { PlainBody(me.msg); }
  }

  lemma RawDefault()
    ensures BodyOk(RawTelemetry(0, 0))
  {
  }

  lemma PlainBody(b: Body)
    requires Plain(b)
    ensures BodyOk(b)
  {
  }

  lemma ListenerBodies(s: State, a: Action)
    requires BodiesOk(s) && StepListener(s, a).Some?
    ensures BodiesOk(StepListener(s, a).value)
  {
    hide GoodAlert, Push, Usable, Live, MessagesOk;
  }

  lemma SameBodies(s: State, a: Action)
    ensures StepConsumer(s).Some? ==> SameStore(s, StepConsumer(s).value)
    ensures a.Create? && StepCreate(s, a.q, a.ok).Some? ==> SameStore(s, StepCreate(s, a.q, a.ok).value)
  {
    hide Pop, Usable, Readable;
  }

  ghost predicate SameStore(s: State, t: State) { t.mem.heap == s.mem.heap && t.th.workers == s.th.workers }

  lemma TransportStore(s: State, ok: bool)
    requires ConnectionOk(s.env, s.conn) && StepTransport(s, ok).Some?
    ensures SameStore(s, StepTransport(s, ok).value)
  {
    hide StepSubT, StepSubA, StepUnsubT, StepUnsubA, Pop, Usable, Readable, Emptied;
    if !Serving(s.conn.stage) && !s.conn.stage.DropT? && !s.conn.stage.DropA? { QuietTransport(s, ok); }
  }

  lemma SocketStore(s: State, a: Action)
    requires StepSocket(s, a).Some?
    ensures SameStore(s, StepSocket(s, a).value)
  {
    hide Readable;
  }

  lemma MainStore(s: State)
    requires StepMain(s).Some?
    ensures SameStore(s, StepMain(s).value)
  {
    hide Shut, Emptied, Usable, Joined, Left;
  }

  lemma StepBodies(s: State, a: Action)
    requires BodiesOk(s) && LifeOk(s) && Step(s, a).Some?
    ensures BodiesOk(Step(s, a).value)
  {
    hide HeapOk, MessagesOk;
    hide StepProducer, StepWorker, StepConsumer, StepCreate, StepTransport, StepSocket, StepListener, StepMain;
    if OfProducer(a) { ProducerBodies(s, a); }
    else if OfWorker(a) { WorkerBodies(s, a); }
    else if a.ConsumerStep? || a.Create? { SameBodies(s, a); }
    else if a.TransportStep? { TransportStore(s, a.ok); }
    else if OfSocket(a) { SocketStore(s, a); }
    else if OfListener(a) { ListenerBodies(s, a); }
    else { MainStore(s); }
  }

  lemma {:induction false} RunBodies(s: State, run: seq<Action>)
    requires BodiesOk(s) && Inv(s) && Exec(s, run).Some?
    ensures BodiesOk(Exec(s, run).value)
    decreases |run|
  {
    hide BodiesOk, Step, LifeOk, OwnOk, TypesOk, SeqOk, StampedOk;
    if run != [] {
      StepInv(s, run[0]);
      StepBodies(s, run[0]);
      RunBodies(Step(s, run[0]).value, run[1..]);
    }
  }

  ghost predicate Stored(s: State, q: Qid) {
    q in s.queues && forall i | 0 <= i < |s.queues[q].items| :: s.queues[q].items[i].payload in s.mem.heap
  }

  /** The messages waiting in a queue. */
  ghost function Waiting(s: State, q: Qid): seq<Body>
    requires Stored(s, q)
  {
    var items := s.queues[q].items;
    seq(|items|, i requires 0 <= i < |items| => s.mem.heap[items[i].payload])
  }

  /** In every reachable state the two queues of a connection hold what serving a client needs:
      printable telemetry in the one, printable alerts in the other. */
  lemma ConnectionIsPrintable(s0: State, run: seq<Action>)
    requires Init(s0) && Exec(s0, run).Some?
    ensures var s := Exec(s0, run).value; var c := s.conn;
            c.tq.Some? && c.aq.Some? ==>
              Stored(s, c.tq.value) && Stored(s, c.aq.value) && Routed(Waiting(s, c.tq.value), Waiting(s, c.aq.value))
  {
    hide Step, OwnOk, TypesOk, SeqOk, StampedOk, HeapOk, Plain, BodyOk;
    InitInv(s0);
    assert BodiesOk(s0) by { InitBodies(s0); }
    RunInv(s0, run);
    RunBodies(s0, run);
    var s := Exec(s0, run).value;
    StockedOf(s);
    if s.conn.tq.Some? && s.conn.aq.Some? {
      QueuePrintable(s, s.conn.tq.value);
      QueuePrintable(s, s.conn.aq.value);
      var t, a := Waiting(s, s.conn.tq.value), Waiting(s, s.conn.aq.value);
      forall i | 0 <= i < |t| ensures t[i].TelemetryMsg? && Plain(t[i]) { assert t[i] in t; }
      forall i | 0 <= i < |a| ensures a[i].AlertMsg? && Plain(a[i]) {
        assert a[i] in a;
        PlainIsMessage(a[i]);
      }
    }
  }

  lemma PlainIsMessage(m: Body)
    requires Plain(m)
    ensures m.TelemetryMsg? || m.AlertMsg?
  {
  }

  lemma InitBodies(s: State)
    requires Init(s)
    ensures BodiesOk(s)
  {
  }

  lemma QueuePrintable(s: State, q: Qid)
    requires TypesOk(s) && BodiesOk(s) && q in s.env.roles && q in s.queues && s.env.roles[q] != Raw
    ensures Stored(s, q)
    ensures forall m | m in Waiting(s, q) :: Plain(m) && m.TelemetryMsg? == (s.env.roles[q] == TelemetrySub)
  {
    hide Plain, TypesOk;
    forall i | 0 <= i < |s.queues[q].items|
      ensures s.queues[q].items[i].payload in s.mem.heap
      ensures var b := s.mem.heap[s.queues[q].items[i].payload];
              Plain(b) && b.TelemetryMsg? == (s.env.roles[q] == TelemetrySub)
    {
      StoredFits(s, q, s.queues[q].items[i]);
    }
  }

  /** So every record the client is sent is one line of fewer than 256 bytes. */
  lemma ClientRecordsFit(s0: State, run: seq<Action>, m: Body)
    requires Init(s0) && Exec(s0, run).Some?
    requires var s := Exec(s0, run).value;
             && s.conn.held.Some? && s.conn.held.value.payload in s.mem.heap
             && m == s.mem.heap[s.conn.held.value.payload]
    ensures Plain(m) && 0 < |Record(m)| < RECORD_MAX && OneLine(Record(m))
  {
    hide Step, OwnOk, SeqOk, StampedOk, InRange, QueuesFit, WorkersFit, Record;
    InitInv(s0);
    assert BodiesOk(s0) by { InitBodies(s0); }
    RunInv(s0, run);
    RunBodies(s0, run);
    assert BodyOk(m);
    RecordFits(m);
    RecordIsOneLine(m);
  }
}
