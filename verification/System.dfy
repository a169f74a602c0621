/** The whole process as one step machine: the producer, any number of workers, the consumer,
    the transport thread and its command listener, and main from its first subscribe to its
    last destroy. One step is one critical section (or one private action); a publish holds the
    registry lock over many steps. Anything the C program must never do raises `fault`:
    using a destroyed queue, control or context, reading or freeing a payload that is not live,
    or casting a payload to the wrong record. */
module System {
  import opened Basics
  import opened Messages
  import opened Decimal
  import Registry

  type Pid = nat
  type Qid = nat
  type Wid = nat

  const INGEST: Qid := 0
  const CONSUMER_TELEMETRY: Qid := 1
  const CONSUMER_ALERTS: Qid := 2

  datatype Topic = Telemetries | Alerts

  /** What a queue was created for. */
  datatype Role = Raw | TelemetrySub | AlertSub

  datatype Item = Item(id: nat, kind: MsgType, payload: Pid)

  /** `seen` lists the sequence numbers of the messages this queue ever accepted. */
  datatype Queue = Queue(items: seq<Item>, capacity: nat, shut: bool, seen: seq<nat>) {
    predicate Full() { |items| >= capacity }
  }

  type Queues = map<Qid, Queue>

  datatype Producer = PIdle | PTop | PTelemetry(p: Pid) | PNext | PAlert(p: Pid) | PRest | PDone

  datatype Worker =
    | WWait
    | WRaw(it: Item)
    | WMsg(it: Item, msg: Body, topic: Topic)
    | WFan(it: Item, msg: Body, topic: Topic, i: nat)
    | WCopy(it: Item, msg: Body, topic: Topic, i: nat, copy: Pid)
    | WFree(it: Item)
    | WDone(arrivals: nat)

  /** CDone records how many messages its telemetry queue had accepted when it returned. */
  datatype Consumer = CIdle | CWait | CTelemetry(it: Item) | CPoll | CAlert(it: Item) | CDone(accepted: nat)

  /** Where transport_routine is. In Greet it sits in the handshake and in Writing in write_all,
      blocked until the client does something; neither looks at the shutdown flag. */
  datatype Stage =
    | Accept | Poll | Greet | Answer | MakeT | MakeA | SubT | SubA | Start
    | Serve | ServeA | Send | Writing | Join | UnsubT | UnsubA | DropT | DropA | Gone

  datatype Listener = LOff | LRead | LHold(p: Pid) | LOut

  /** transport_routine's locals: the two queues, which subscribes succeeded, the item in hand,
      and the listener thread of the same connection. */
  datatype Connection = Connection(
    stage: Stage, tq: Option<Qid>, aq: Option<Qid>, st: bool, sa: bool,
    held: Option<Item>, heldTopic: Topic, listener: Listener, peerAlive: bool)

  const NO_CONNECTION := Connection(Accept, None, None, false, false, None, Telemetries, LOff, false)

  // main's position, in program order
  const SUBSCRIBE_T: nat := 0
  const SUBSCRIBE_A: nat := 1
  const START_PRODUCER: nat := 2
  const START_CONSUMER: nat := 3
  const AWAIT_SIGNAL: nat := 4
  const SHUT_INGEST: nat := 5
  const SHUT_T: nat := 6
  const SHUT_A: nat := 7
  const JOIN_PRODUCER: nat := 8
  const JOIN_WORKERS: nat := 9
  const JOIN_CONSUMER: nat := 10
  const UNSUB_T: nat := 11
  const UNSUB_A: nat := 12
  const DROP_T: nat := 13
  const DROP_A: nat := 14
  const JOIN_TRANSPORT: nat := 15
  const DROP_INGEST: nat := 16
  const DROP_CONTROL: nat := 17
  const DROP_CONTEXT: nat := 18
  const EXIT: nat := 19

  /** main's position, the shutdown flag, what exists and what has been destroyed, and the
      registry with the owner of its lock. */
  datatype Env = Env(
    main: nat, stop: bool, controlGone: bool, contextGone: bool,
    roles: map<Qid, Role>, dead: set<Qid>, subsT: seq<Qid>, subsA: seq<Qid>, lock: Option<Wid>)

  /** What has happened so far. `polls` has one entry for each look of the consumer at its alerts
      queue: how many alerts that queue had accepted by then. `stamped` lists the numbers
      next_sequence has handed out, `times` the clock readings and `origins` the raw payloads that
      went with them. `accepted` lists the raw payloads the ingest queue took, in order, and `made`
      the items among them that came from the producer. */
  datatype Book = Book(
    polls: seq<nat>, stamped: seq<nat>, times: seq<int>, origins: seq<Pid>, accepted: seq<Pid>, made: seq<Item>)

  datatype Threads = Threads(
    producer: Producer, ticks: nat, consumer: Consumer, workers: map<Wid, Worker>, book: Book)

  /** Every payload ever allocated, with its contents; what was freed; what a destroy left behind. */
  datatype Memory = Memory(heap: map<Pid, Body>, freed: multiset<Pid>, lost: multiset<Pid>)

  datatype State = State(
    env: Env, conn: Connection, th: Threads, queues: Queues, mem: Memory, issued: nat, arrivals: nat, fault: bool)

  datatype Action =
    | Tick(p: Pid, memory: bool) | Put | MakeAlert(p: Pid, memory: bool) | TryPut | Rest
    | Take(w: Wid) | Stamp(w: Wid, ts: int) | LockRegistry(w: Wid) | Clone(w: Wid, p: Pid, memory: bool)
    | Deliver(w: Wid) | UnlockRegistry(w: Wid) | Release(w: Wid)
    | ConsumerStep
    | Create(q: Qid, ok: bool) | TransportStep(ok: bool) | Connect | Speak | Block | Unblock(ok: bool)
    | SetInterval | Trigger(p: Pid, code: string, antenna: nat) | Inject | Hangup | TimeOut
    | MainStep

  // ---------------------------------------------------------------- primitive effects

  function At(qs: Queues, q: Qid): Queue { if q in qs then qs[q] else Queue([], 0, true, []) }

  predicate Usable(e: Env, q: Qid) { q in e.roles && q !in e.dead }

  function Push(qs: Queues, q: Qid, it: Item): Queues { qs[q := At(qs, q).(items := At(qs, q).items + [it])] }

  function Pop(qs: Queues, q: Qid): Queues
    requires At(qs, q).items != []
  {
    qs[q := At(qs, q).(items := At(qs, q).items[1..])]
  }

  function Shut(qs: Queues, q: Qid): Queues { qs[q := At(qs, q).(shut := true)] }

  /** A subscriber queue accepts a message. */
  function Receive(qs: Queues, q: Qid, it: Item): Queues {
    qs[q := At(qs, q).(items := At(qs, q).items + [it], seen := At(qs, q).seen + [it.id])]
  }

  function Emptied(qs: Queues, q: Qid): Queues { qs[q := At(qs, q).(items := [])] }

  function Alloc(m: Memory, p: Pid, b: Body): Memory { m.(heap := m.heap[p := b]) }

  predicate Live(m: Memory, p: Pid) { p in m.heap && p !in m.freed && p !in m.lost }

  function Free(m: Memory, p: Pid): Memory { m.(freed := m.freed + multiset{p}) }

  function Pids(items: seq<Item>): seq<Pid> { seq(|items|, i requires 0 <= i < |items| => items[i].payload) }

  /** msg_queue_destroy frees the ring but not the payloads still in it. */
  function Abandon(m: Memory, q: Queue): Memory { m.(lost := m.lost + multiset(Pids(q.items))) }

  predicate IsShape(b: Body, kind: MsgType, raw: bool) {
    if raw then (kind == Telemetry && b.RawTelemetry?) || (kind == Alert && b.RawAlert?)
    else (kind == Telemetry && b.TelemetryMsg?) || (kind == Alert && b.AlertMsg?)
  }

  /** The payload may be read as the record the reader casts it to. */
  predicate Readable(m: Memory, p: Pid, kind: MsgType, raw: bool) {
    Live(m, p) && IsShape(m.heap[p], kind, raw)
  }

  function KindOf(t: Topic): MsgType { if t.Telemetries? then Telemetry else Alert }

  function Subs(e: Env, t: Topic): seq<Qid> { if t.Telemetries? then e.subsT else e.subsA }

  predicate CanJoin(l: seq<Qid>, q: Qid) { q in l || |l| < Registry.MAX_SUBSCRIBERS }

  function Joined(l: seq<Qid>, q: Qid): seq<Qid> { if q in l then l else l + [q] }

  function Left(l: seq<Qid>, q: Qid): seq<Qid> {
    if q in l then Registry.SwapRemove(l, Registry.IndexOf(l, q)) else l
  }

  /** The n-th number handed out by next_sequence: a uint32 counter starting at 1. */
  function SeqNumber(n: nat): nat { (n + 1) % UINT32 }

  function SeqOf(b: Body): nat { if b.TelemetryMsg? || b.AlertMsg? then b.seqNo else 0 }

  // ---------------------------------------------------------------- threads

  function Produce(s: State, pc: Producer, qs: Queues, m: Memory, bad: bool): State {
    s.(th := s.th.(producer := pc), queues := qs, mem := m, fault := s.fault || bad)
  }

  /** The ingest queue has accepted the raw payload `p`. */
  function Counted(s: State, p: Pid): State {
    s.(arrivals := s.arrivals + 1, th := s.th.(book := s.th.book.(accepted := s.th.book.accepted + [p])))
  }

  /** ... from the producer. */
  function Made(s: State, it: Item): State {
    s.(arrivals := s.arrivals + 1,
       th := s.th.(book := s.th.book.(accepted := s.th.book.accepted + [it.payload], made := s.th.book.made + [it])))
  }

  function StepProducer(s: State, a: Action): Option<State> {
    var pc, ingest, n := s.th.producer, At(s.queues, INGEST), s.th.ticks;
    match a
    case Tick(p, memory) =>
      if pc != PTop || p in s.mem.heap then None
      else if s.env.stop then Some(Produce(s, PDone, s.queues, s.mem, false))
      else
        var n1 := (n + 1) % UINT32;
        if !memory then Some(s.(th := s.th.(ticks := n1, producer := PDone)))
        else Some(s.(th := s.th.(ticks := n1, producer := PTelemetry(p)),
                     mem := Alloc(s.mem, p, RawTelemetry(100 - n1 % 101, -40 - n1 % 50))))
    case Put =>
      if !pc.PTelemetry? || (ingest.Full() && !ingest.shut) then None
      else if ingest.Full() then
        Some(Produce(s, PDone, s.queues, Free(s.mem, pc.p), !Usable(s.env, INGEST) || !Live(s.mem, pc.p)))
      else Some(Made(Produce(s, PNext, Push(s.queues, INGEST, Item(n, Telemetry, pc.p)), s.mem,
                             !Usable(s.env, INGEST)), Item(n, Telemetry, pc.p)))
    case MakeAlert(p, memory) =>
      if pc != PNext || p in s.mem.heap then None
      else if n % 5 != 0 then Some(Produce(s, PRest, s.queues, s.mem, false))
      else if !memory then Some(Produce(s, PDone, s.queues, s.mem, false))
      else
        var code := if (n / 5) % 2 == 0 then "ANTENNA_UNPLUGGED" else "BATTERY_LOW";
        Some(Produce(s, PAlert(p), s.queues, Alloc(s.mem, p, RawAlert(code, 1 + n % 2)), false))
    case TryPut =>
      if !pc.PAlert? then None
      else if ingest.Full() then
        Some(Produce(s, PDone, s.queues, Free(s.mem, pc.p), !Usable(s.env, INGEST) || !Live(s.mem, pc.p)))
      else Some(Made(Produce(s, PRest, Push(s.queues, INGEST, Item(n, Alert, pc.p)), s.mem,
                             !Usable(s.env, INGEST)), Item(n, Alert, pc.p)))
    case Rest =>
      if pc != PRest then None else Some(Produce(s, PTop, s.queues, s.mem, s.env.controlGone))
    case _ => None
  }

  /** The message a worker builds from a raw payload. */
  function Enrich(b: Body, seqNo: nat, ts: int): Body {
    match b
    case RawTelemetry(battery, rssi) => TelemetryMsg(seqNo, ts, battery, rssi)
    case RawAlert(code, antenna) => AlertMsg(seqNo, ts, code, antenna)
    case _ => b
  }

  function Stamped(b: Book, n: nat, ts: int, p: Pid): Book {
    b.(stamped := b.stamped + [n], times := b.times + [ts], origins := b.origins + [p])
  }

  function SetWorker(th: Threads, w: Wid, pc: Worker): Threads { th.(workers := th.workers[w := pc]) }

  predicate OfWorker(a: Action) {
    a.Take? || a.Stamp? || a.LockRegistry? || a.Clone? || a.Deliver? || a.UnlockRegistry? || a.Release?
  }

  function StepWorker(s: State, a: Action): Option<State>
    requires OfWorker(a)
  {
    if a.w !in s.th.workers then None else
    var me, ingest := s.th.workers[a.w], At(s.queues, INGEST);
    match a
    case Take(w) =>
      if me != WWait || (ingest.items == [] && !ingest.shut) then None
      else if ingest.items == [] then
        Some(s.(th := SetWorker(s.th, w, WDone(s.arrivals)), fault := s.fault || !Usable(s.env, INGEST)))
      else Some(s.(th := SetWorker(s.th, w, WRaw(ingest.items[0])), queues := Pop(s.queues, INGEST),
                   fault := s.fault || !Usable(s.env, INGEST)))
    case Stamp(w, ts) =>
      if !me.WRaw? || !(LONG_MIN <= ts <= LONG_MAX) then None
      else if me.it.kind.Unknown? then Some(s.(th := SetWorker(s.th, w, WFree(me.it))))
      else
        var b := if me.it.payload in s.mem.heap then s.mem.heap[me.it.payload] else RawTelemetry(0, 0);
        var topic := if me.it.kind == Telemetry then Telemetries else Alerts;
        Some(s.(th := SetWorker(s.th, w, WMsg(me.it, Enrich(b, SeqNumber(s.issued), ts), topic))
                      .(book := Stamped(s.th.book, SeqNumber(s.issued), ts, me.it.payload)),
                issued := s.issued + 1, fault := s.fault || !Readable(s.mem, me.it.payload, me.it.kind, true)))
    case LockRegistry(w) =>
      if !me.WMsg? || s.env.lock.Some? then None
      else Some(s.(th := SetWorker(s.th, w, WFan(me.it, me.msg, me.topic, 0)),
                   env := s.env.(lock := Some(w)), fault := s.fault || s.env.contextGone))
    case Clone(w, p, memory) =>
      if !me.WFan? || me.i >= |Subs(s.env, me.topic)| || p in s.mem.heap then None
      else if !memory then Some(s.(th := SetWorker(s.th, w, WFan(me.it, me.msg, me.topic, me.i + 1))))
      else Some(s.(th := SetWorker(s.th, w, WCopy(me.it, me.msg, me.topic, me.i, p)), mem := Alloc(s.mem, p, me.msg)))
    case Deliver(w) =>
      if !me.WCopy? || me.i >= |Subs(s.env, me.topic)| then None
      else
        var q := Subs(s.env, me.topic)[me.i];
        var th1 := SetWorker(s.th, w, WFan(me.it, me.msg, me.topic, me.i + 1));
        if At(s.queues, q).Full() then
          Some(s.(th := th1, mem := Free(s.mem, me.copy),
                  fault := s.fault || !Usable(s.env, q) || !Live(s.mem, me.copy)))
        else Some(s.(th := th1, queues := Receive(s.queues, q, Item(SeqOf(me.msg), KindOf(me.topic), me.copy)),
                     fault := s.fault || !Usable(s.env, q)))
    case UnlockRegistry(w) =>
      if !me.WFan? || me.i < |Subs(s.env, me.topic)| then None
      else Some(s.(th := SetWorker(s.th, w, WFree(me.it)), env := s.env.(lock := None),
                   fault := s.fault || s.env.contextGone))
    case Release(w) =>
      if !me.WFree? then None
      else Some(s.(th := SetWorker(s.th, w, WWait), mem := Free(s.mem, me.it.payload),
                   fault := s.fault || !Live(s.mem, me.it.payload)))
  }

  function Consume(s: State, pc: Consumer, qs: Queues, m: Memory, bad: bool): State {
    s.(th := s.th.(consumer := pc), queues := qs, mem := m, fault := s.fault || bad)
  }

  function StepConsumer(s: State): Option<State> {
    var t, al := At(s.queues, CONSUMER_TELEMETRY), At(s.queues, CONSUMER_ALERTS);
    match s.th.consumer
    case CWait =>
      if t.items == [] && !t.shut then None
      else if t.items == [] then
        Some(Consume(s, CDone(|t.seen|), s.queues, s.mem, !Usable(s.env, CONSUMER_TELEMETRY)))
      else Some(Consume(s, CTelemetry(t.items[0]), Pop(s.queues, CONSUMER_TELEMETRY), s.mem,
                        !Usable(s.env, CONSUMER_TELEMETRY)))
    case CTelemetry(it) =>
      Some(Consume(s, CPoll, s.queues, Free(s.mem, it.payload), !Readable(s.mem, it.payload, Telemetry, false)))
    case CPoll =>
      var s1 := s.(th := s.th.(book := s.th.book.(polls := s.th.book.polls + [|al.seen|])));
      if al.items == [] then Some(Consume(s1, CWait, s.queues, s.mem, !Usable(s.env, CONSUMER_ALERTS)))
      else Some(Consume(s1, CAlert(al.items[0]), Pop(s.queues, CONSUMER_ALERTS), s.mem,
                        !Usable(s.env, CONSUMER_ALERTS)))
    case CAlert(it) =>
      Some(Consume(s, CWait, s.queues, Free(s.mem, it.payload), !Readable(s.mem, it.payload, Alert, false)))
    case _ => None
  }

  const FRESH := Queue([], 1024, false, [])

  /** msg_queue_create for the connection; `ok` is false when malloc fails. */
  function StepCreate(s: State, q: Qid, ok: bool): Option<State> {
    var c := s.conn;
    if q in s.env.roles || (c.stage != MakeT && c.stage != MakeA) then None
    else if !ok then Some(s.(conn := c.(stage := if c.stage == MakeT then MakeA else SubT)))
    else if c.stage == MakeT then
      Some(s.(queues := s.queues[q := FRESH], env := s.env.(roles := s.env.roles[q := TelemetrySub]),
              conn := c.(stage := MakeA, tq := Some(q))))
    else
      Some(s.(queues := s.queues[q := FRESH], env := s.env.(roles := s.env.roles[q := AlertSub]),
              conn := c.(stage := SubT, aq := Some(q))))
  }

  /** pubsub_subscribe of the connection's telemetry queue ... */
  function StepSubT(s: State): Option<State> {
    var c, e := s.conn, s.env;
    if c.tq.None? then Some(s.(conn := c.(stage := SubA)))
    else if e.lock.Some? then None
    else if !CanJoin(e.subsT, c.tq.value) then Some(s.(conn := c.(stage := SubA), fault := s.fault || e.contextGone))
    else Some(s.(env := e.(subsT := Joined(e.subsT, c.tq.value)), conn := c.(stage := SubA, st := true),
                 fault := s.fault || e.contextGone))
  }

  /** ... and of its alerts queue; only if both worked is the client served. */
  function StepSubA(s: State): Option<State> {
    var c, e := s.conn, s.env;
    if c.aq.None? then Some(s.(conn := c.(stage := UnsubT)))
    else if e.lock.Some? then None
    else if !CanJoin(e.subsA, c.aq.value) then Some(s.(conn := c.(stage := UnsubT), fault := s.fault || e.contextGone))
    else Some(s.(env := e.(subsA := Joined(e.subsA, c.aq.value)),
                 conn := c.(stage := if c.st then Start else UnsubT, sa := true), fault := s.fault || e.contextGone))
  }

  /** serve_client: its look at the telemetry queue ... */
  function StepServe(s: State): Option<State> {
    var c := s.conn;
    if !c.peerAlive || s.env.stop then Some(s.(conn := c.(stage := Join, peerAlive := false)))
    else if c.tq.None? then None
    else
      var t := At(s.queues, c.tq.value);
      if t.items == [] then Some(s.(conn := c.(stage := ServeA), fault := s.fault || !Usable(s.env, c.tq.value)))
      else Some(s.(queues := Pop(s.queues, c.tq.value),
                   conn := c.(stage := Send, held := Some(t.items[0]), heldTopic := Telemetries),
                   fault := s.fault || !Usable(s.env, c.tq.value)))
  }

  /** ... and, if that was empty, at the alerts queue. */
  function StepServeA(s: State): Option<State> {
    var c := s.conn;
    if c.aq.None? then None
    else
      var al := At(s.queues, c.aq.value);
      if al.items == [] then Some(s.(conn := c.(stage := Serve), fault := s.fault || !Usable(s.env, c.aq.value)))
      else Some(s.(queues := Pop(s.queues, c.aq.value),
                   conn := c.(stage := Send, held := Some(al.items[0]), heldTopic := Alerts),
                   fault := s.fault || !Usable(s.env, c.aq.value)))
  }

  /** Format the item in hand, write it, free it; `ok` is what write_all returned. */
  function StepSend(s: State, ok: bool): Option<State> {
    var c := s.conn;
    if c.held.None? then None
    else
      var p := c.held.value.payload;
      Some(s.(conn := c.(stage := if ok then Serve else Join, held := None, peerAlive := c.peerAlive && ok),
              mem := Free(s.mem, p), fault := s.fault || !Readable(s.mem, p, KindOf(c.heldTopic), false)))
  }

  function StepUnsubT(s: State): Option<State> {
    var c, e := s.conn, s.env;
    if !c.st || c.tq.None? then Some(s.(conn := c.(stage := UnsubA)))
    else if e.lock.Some? then None
    else Some(s.(env := e.(subsT := Left(e.subsT, c.tq.value)), conn := c.(stage := UnsubA, st := false),
                 fault := s.fault || e.contextGone))
  }

  function StepUnsubA(s: State): Option<State> {
    var c, e := s.conn, s.env;
    if !c.sa || c.aq.None? then Some(s.(conn := c.(stage := DropT)))
    else if e.lock.Some? then None
    else Some(s.(env := e.(subsA := Left(e.subsA, c.aq.value)), conn := c.(stage := DropT, sa := false),
                 fault := s.fault || e.contextGone))
  }

  function Destroy(s: State, q: Qid): State {
    s.(env := s.env.(dead := s.env.dead + {q}), queues := Emptied(s.queues, q),
       mem := Abandon(s.mem, At(s.queues, q)), fault := s.fault || !Usable(s.env, q))
  }

  function StepDrop(s: State): Option<State>
    requires s.conn.stage == DropT || s.conn.stage == DropA
  {
    var c := s.conn;
    if c.stage == DropT then
      if c.tq.None? then Some(s.(conn := c.(stage := DropA)))
      else Some(Destroy(s, c.tq.value).(conn := c.(stage := DropA, tq := None)))
    else if c.aq.None? then Some(s.(conn := NO_CONNECTION))
    else Some(Destroy(s, c.aq.value).(conn := NO_CONNECTION))
  }

  function StepTransport(s: State, ok: bool): Option<State> {
    var c := s.conn;
    match c.stage
    case Accept => Some(s.(conn := c.(stage := if s.env.stop then Gone else Poll)))
    case Poll => Some(s.(conn := c.(stage := if ok then Accept else Gone)))  // timed out, or failed for good
    case Answer => Some(s.(conn := c.(stage := if ok then MakeT else Accept)))
    case SubT => StepSubT(s)
    case SubA => StepSubA(s)
    case Start => Some(s.(conn := c.(stage := Serve, peerAlive := true, listener := if ok then LRead else c.listener)))
    case Serve => StepServe(s)
    case ServeA => StepServeA(s)
    case Send => StepSend(s, ok)
    case Join =>
      if c.listener == LOff || c.listener == LOut then Some(s.(conn := c.(stage := UnsubT, listener := LOff))) else None
    case UnsubT => StepUnsubT(s)
    case UnsubA => StepUnsubA(s)
    case DropT => StepDrop(s)
    case DropA => StepDrop(s)
    case _ => None
  }

  /** What the socket does to the transport thread: a client connects; it completes the handshake
      line or goes away; a write finds the socket full; the client reads on or goes away. */
  function StepSocket(s: State, a: Action): Option<State> {
    var c := s.conn;
    match a
    case Connect => if c.stage != Poll then None else Some(s.(conn := c.(stage := Greet)))
    case Speak => if c.stage != Greet then None else Some(s.(conn := c.(stage := Answer)))
    case Block => if c.stage != Send then None else Some(s.(conn := c.(stage := Writing)))
    case Unblock(ok) => if c.stage != Writing then None else StepSend(s, ok)
    case _ => None
  }

  function StepListener(s: State, a: Action): Option<State> {
    var c, ingest := s.conn, At(s.queues, INGEST);
    match a
    case SetInterval => if c.listener != LRead then None else Some(s.(fault := s.fault || s.env.controlGone))
    case Trigger(p, code, antenna) =>
      if c.listener != LRead || p in s.mem.heap || !GoodAlert(RawAlert(code, antenna)) then None
      else Some(s.(mem := Alloc(s.mem, p, RawAlert(code, antenna)), conn := c.(listener := LHold(p))))
    case Inject =>
      if !c.listener.LHold? then None
      else if ingest.Full() then
        Some(s.(conn := c.(listener := LRead), mem := Free(s.mem, c.listener.p),
                fault := s.fault || !Usable(s.env, INGEST) || !Live(s.mem, c.listener.p)))
      else Some(Counted(s.(conn := c.(listener := LRead),
                           queues := Push(s.queues, INGEST, Item(0, Alert, c.listener.p)),
                           fault := s.fault || !Usable(s.env, INGEST)), c.listener.p))
    case Hangup => if c.listener != LRead then None else Some(s.(conn := c.(listener := LOut, peerAlive := false)))
    case TimeOut =>  // poll found nothing to read, and it is time to stop
      if c.listener != LRead || !(s.env.stop || !c.peerAlive) then None
      else Some(s.(conn := c.(listener := LOut, peerAlive := false)))
    case _ => None
  }

  /** main(): subscribe the consumer's two queues. */
  function StepMainSubscribe(s: State): Option<State> {
    var e := s.env;
    if e.lock.Some? then None
    else if e.main == SUBSCRIBE_T then
      if !CanJoin(e.subsT, CONSUMER_TELEMETRY) then None
      else Some(s.(env := e.(main := SUBSCRIBE_A, subsT := Joined(e.subsT, CONSUMER_TELEMETRY)),
                   fault := s.fault || e.contextGone))
    else
      if !CanJoin(e.subsA, CONSUMER_ALERTS) then None
      else Some(s.(env := e.(main := START_PRODUCER, subsA := Joined(e.subsA, CONSUMER_ALERTS)),
                   fault := s.fault || e.contextGone))
  }

  /** main(): start the producer and the consumer, then wait for the signal. */
  function StepMainStart(s: State): State {
    var e := s.env;
    if e.main == START_PRODUCER then s.(env := e.(main := START_CONSUMER), th := s.th.(producer := PTop))
    else if e.main == START_CONSUMER then s.(env := e.(main := AWAIT_SIGNAL), th := s.th.(consumer := CWait))
    else s.(env := e.(main := SHUT_INGEST, stop := true))
  }

  /** The queue main() shuts down or destroys at its current position. */
  function MainQueue(main: nat): Qid {
    if main == SHUT_T || main == DROP_T then CONSUMER_TELEMETRY
    else if main == SHUT_A || main == DROP_A then CONSUMER_ALERTS else INGEST
  }

  /** main(): msg_queue_shutdown of the ingest queue, then of the consumer's two. */
  function StepMainShut(s: State): State {
    var q := MainQueue(s.env.main);
    s.(env := s.env.(main := s.env.main + 1), queues := Shut(s.queues, q), fault := s.fault || !Usable(s.env, q))
  }

  /** main(): the four joins, each waiting for its thread or threads to have returned. */
  function StepMainJoin(s: State): Option<State> {
    var e := s.env;
    var ready := if e.main == JOIN_PRODUCER then s.th.producer == PDone
                 else if e.main == JOIN_WORKERS then forall w | w in s.th.workers :: s.th.workers[w].WDone?
                 else if e.main == JOIN_CONSUMER then s.th.consumer.CDone?
                 else s.conn.stage == Gone;
    if ready then Some(s.(env := e.(main := e.main + 1))) else None
  }

  /** main(): the consumer's unsubscribes. */
  function StepMainUnsub(s: State): Option<State> {
    var e := s.env;
    if e.lock.Some? then None
    else if e.main == UNSUB_T then
      Some(s.(env := e.(main := UNSUB_A, subsT := Left(e.subsT, CONSUMER_TELEMETRY)),
              fault := s.fault || e.contextGone))
    else
      Some(s.(env := e.(main := DROP_T, subsA := Left(e.subsA, CONSUMER_ALERTS)), fault := s.fault || e.contextGone))
  }

  /** main(): the queue destroys. */
  function StepMainDestroy(s: State): State {
    var t := Destroy(s, MainQueue(s.env.main));
    t.(env := t.env.(main := s.env.main + 1))
  }

  /** main(): control, then context. */
  function StepMainFinish(s: State): State {
    var e := s.env;
    if e.main == DROP_CONTROL then
      s.(env := e.(main := DROP_CONTEXT, controlGone := true), fault := s.fault || e.controlGone)
    else
      s.(env := e.(main := EXIT, contextGone := true), fault := s.fault || e.contextGone)
  }

  function StepMain(s: State): Option<State> {
    var m := s.env.main;
    if m <= SUBSCRIBE_A then StepMainSubscribe(s)
    else if m <= AWAIT_SIGNAL then Some(StepMainStart(s))
    else if m <= SHUT_A then Some(StepMainShut(s))
    else if m <= JOIN_CONSUMER || m == JOIN_TRANSPORT then StepMainJoin(s)
    else if m <= UNSUB_A then StepMainUnsub(s)
    else if m <= DROP_INGEST then Some(StepMainDestroy(s))
    else if m <= DROP_CONTEXT then Some(StepMainFinish(s))
    else None
  }

  predicate OfProducer(a: Action) { a.Tick? || a.Put? || a.MakeAlert? || a.TryPut? || a.Rest? }
  predicate OfListener(a: Action) { a.SetInterval? || a.Trigger? || a.Inject? || a.Hangup? || a.TimeOut? }
  predicate OfSocket(a: Action) { a.Connect? || a.Speak? || a.Block? || a.Unblock? }

  /** What only the client can bring about; everything else the process does by itself. */
  predicate OfPeer(a: Action) {
    a.Connect? || a.Speak? || a.Unblock? || a.SetInterval? || a.Trigger? || a.Hangup?
  }

  function Step(s: State, a: Action): Option<State> {
    if OfProducer(a) then StepProducer(s, a)
    else if OfWorker(a) then StepWorker(s, a)
    else if a.ConsumerStep? then StepConsumer(s)
    else if a.Create? then StepCreate(s, a.q, a.ok)
    else if a.TransportStep? then StepTransport(s, a.ok)
    else if OfSocket(a) then StepSocket(s, a)
    else if OfListener(a) then StepListener(s, a)
    else StepMain(s)
  }

  /** main has created the context, the three queues, the control, the workers and the
      transport thread, and is about to subscribe the consumer. */
  predicate Init(s: State) {
    && s.env == Env(SUBSCRIBE_T, false, false, false,
                    map[INGEST := Raw, CONSUMER_TELEMETRY := TelemetrySub, CONSUMER_ALERTS := AlertSub],
                    {}, [], [], None)
    && s.conn == NO_CONNECTION
    && s.th.producer == PIdle && s.th.ticks == 0 && s.th.consumer == CIdle && s.th.book == Book([], [], [], [], [], [])
    && s.th.workers != map[] && (forall w | w in s.th.workers :: s.th.workers[w] == WWait)
    && s.queues == map[INGEST := FRESH, CONSUMER_TELEMETRY := FRESH, CONSUMER_ALERTS := FRESH]
    && s.mem == Memory(map[], multiset{}, multiset{})
    && s.issued == 0 && s.arrivals == 0 && !s.fault
  }

  function Exec(s: State, run: seq<Action>): Option<State>
    decreases |run|
  {
    if run == [] then Some(s)
    else var s1 := Step(s, run[0]); if s1.None? then None else Exec(s1.value, run[1..])
  }
}
