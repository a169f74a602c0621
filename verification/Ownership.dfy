/** Every payload is in exactly one place: one thread's hand, one queue slot, freed, or left
    behind by a queue destroy. Stated as one equation between multisets. */
module Ownership {
  import opened Basics
  import opened System
  import opened Lifetimes
  import Messages

  // ---------------------------------------------------------------- totals over a map

  type Holdings = map<nat, multiset<Pid>>

  ghost function Total(m: Holdings): multiset<Pid>
    decreases |m|
  {
    if m == map[] then multiset{} else var k :| k in m; m[k] + Total(m - {k})
  }

  lemma {:induction false} TotalSplit(m: Holdings, k: nat)
    requires k in m
    ensures Total(m) == m[k] + Total(m - {k})
    decreases |m|
  {
    var j :| j in m && Total(m) == m[j] + Total(m - {j});
    if j != k {
      TotalSplit(m - {j}, k);
      TotalSplit(m - {k}, j);
      assert m - {j} - {k} == m - {k} - {j};
    }
  }

  lemma TotalUpdate(m: Holdings, k: nat, v: multiset<Pid>)
    ensures Total(m[k := v]) + (if k in m then m[k] else multiset{}) == Total(m) + v
  {
    TotalSplit(m[k := v], k);
    if k in m {
      TotalSplit(m, k);
      assert m[k := v] - {k} == m - {k};
    } else {
      assert m[k := v] - {k} == m;
    }
  }

  // ---------------------------------------------------------------- who holds what

  ghost function Slots(q: Queue): multiset<Pid> { multiset(Pids(q.items)) }

  ghost function WorkerHand(pc: Worker): multiset<Pid> {
    match pc
    case WWait => multiset{}
    case WDone(_) => multiset{}
    case WCopy(it, _, _, _, copy) => multiset{it.payload, copy}
    case _ => multiset{pc.it.payload}
  }

  ghost function ProducerHand(pc: Producer): multiset<Pid> {
    if pc.PTelemetry? || pc.PAlert? then multiset{pc.p} else multiset{}
  }

  ghost function ConsumerHand(pc: Consumer): multiset<Pid> {
    if pc.CTelemetry? || pc.CAlert? then multiset{pc.it.payload} else multiset{}
  }

  ghost function ConnectionHand(c: Connection): multiset<Pid> {
    (if c.held.Some? then multiset{c.held.value.payload} else multiset{})
    + (if c.listener.LHold? then multiset{c.listener.p} else multiset{})
  }

  ghost function QueueHoldings(qs: Queues): Holdings { map q | q in qs :: Slots(qs[q]) }

  ghost function WorkerHoldings(ws: map<Wid, Worker>): Holdings { map w | w in ws :: WorkerHand(ws[w]) }

  ghost function Queued(qs: Queues): multiset<Pid> { Total(QueueHoldings(qs)) }

  ghost function WorkersHold(ws: map<Wid, Worker>): multiset<Pid> { Total(WorkerHoldings(ws)) }

  ghost function Held(s: State): multiset<Pid> {
    ProducerHand(s.th.producer) + ConsumerHand(s.th.consumer) + ConnectionHand(s.conn) + WorkersHold(s.th.workers)
  }

  ghost function Placed(s: State): multiset<Pid> { Held(s) + Queued(s.queues) + s.mem.freed + s.mem.lost }

  // ---------------------------------------------------------------- effect of each primitive

  lemma QueueHoldingsUpdate(qs: Queues, q: Qid, v: Queue)
    ensures QueueHoldings(qs[q := v]) == QueueHoldings(qs)[q := Slots(v)]
  {
    hide Slots;
  }

  lemma WorkerHoldingsUpdate(ws: map<Wid, Worker>, w: Wid, pc: Worker)
    ensures WorkerHoldings(ws[w := pc]) == WorkerHoldings(ws)[w := WorkerHand(pc)]
  {
    hide WorkerHand;
  }

  lemma QueuedUpdate(qs: Queues, q: Qid, v: Queue, p: Pid)
    ensures Queued(qs[q := v])[p] + (if q in qs then Slots(qs[q])[p] else 0) == Queued(qs)[p] + Slots(v)[p]
  {
    hide Slots, Total;
    QueueHoldingsUpdate(qs, q, v);
    TotalUpdate(QueueHoldings(qs), q, Slots(v));
    var old' := if q in qs then Slots(qs[q]) else multiset{};
    assert (Queued(qs[q := v]) + old')[p] == (Queued(qs) + Slots(v))[p];
  }

  lemma WorkersUpdate(ws: map<Wid, Worker>, w: Wid, pc: Worker, p: Pid)
    requires w in ws
    ensures WorkersHold(ws[w := pc])[p] + WorkerHand(ws[w])[p] == WorkersHold(ws)[p] + WorkerHand(pc)[p]
  {
    hide WorkerHand, Total;
    WorkerHoldingsUpdate(ws, w, pc);
    TotalUpdate(WorkerHoldings(ws), w, WorkerHand(pc));
    assert (WorkersHold(ws[w := pc]) + WorkerHand(ws[w]))[p] == (WorkersHold(ws) + WorkerHand(pc))[p];
  }

  lemma SlotsAppend(items: seq<Item>, it: Item, p: Pid)
    ensures multiset(Pids(items + [it]))[p] == multiset(Pids(items))[p] + One(p == it.payload)
  {
    assert Pids(items + [it]) == Pids(items) + [it.payload];
  }

  lemma SlotsPop(items: seq<Item>, p: Pid)
    requires items != []
    ensures multiset(Pids(items))[p] == multiset(Pids(items[1..]))[p] + One(p == items[0].payload)
  {
    assert Pids(items) == [items[0].payload] + Pids(items[1..]);
  }

  lemma PushQueued(qs: Queues, q: Qid, it: Item, p: Pid)
    requires q in qs
    ensures Queued(Push(qs, q, it))[p] == Queued(qs)[p] + One(p == it.payload)
    ensures Queued(Receive(qs, q, it))[p] == Queued(qs)[p] + One(p == it.payload)
  {
    hide Queued, Pids;
    SlotsAppend(qs[q].items, it, p);
    QueuedUpdate(qs, q, qs[q].(items := qs[q].items + [it]), p);
    QueuedUpdate(qs, q, qs[q].(items := qs[q].items + [it], seen := qs[q].seen + [it.id]), p);
  }

  lemma PopQueued(qs: Queues, q: Qid, p: Pid)
    requires q in qs && qs[q].items != []
    ensures Queued(qs)[p] == Queued(Pop(qs, q))[p] + One(p == qs[q].items[0].payload)
  {
    hide Queued, Pids;
    SlotsPop(qs[q].items, p);
    QueuedUpdate(qs, q, qs[q].(items := qs[q].items[1..]), p);
  }

  lemma ShutQueued(qs: Queues, q: Qid, p: Pid)
    requires q in qs
    ensures Queued(Shut(qs, q))[p] == Queued(qs)[p]
  {
    hide Queued, Pids;
    QueuedUpdate(qs, q, qs[q].(shut := true), p);
  }

  lemma CreateQueued(qs: Queues, q: Qid, p: Pid)
    requires q !in qs
    ensures Queued(qs[q := FRESH])[p] == Queued(qs)[p]
  {
    hide Queued;
    QueuedUpdate(qs, q, FRESH, p);
  }

  lemma EmptiedQueued(qs: Queues, q: Qid, p: Pid)
    requires q in qs
    ensures Queued(qs)[p] == Queued(Emptied(qs, q))[p] + multiset(Pids(qs[q].items))[p]
  {
    hide Queued;
    QueuedUpdate(qs, q, qs[q].(items := []), p);
  }

  // ---------------------------------------------------------------- preservation

  /** How often `p` occurs in each kind of hand. */
  ghost function InProducer(pc: Producer, p: Pid): nat { One((pc.PTelemetry? || pc.PAlert?) && pc.p == p) }
  ghost function InConsumer(pc: Consumer, p: Pid): nat { One((pc.CTelemetry? || pc.CAlert?) && pc.it.payload == p) }
  ghost function InConnection(c: Connection, p: Pid): nat {
    One(c.held.Some? && c.held.value.payload == p) + One(c.listener.LHold? && c.listener.p == p)
  }
  ghost function InWorker(pc: Worker, p: Pid): nat {
    One(!pc.WWait? && !pc.WDone? && pc.it.payload == p) + One(pc.WCopy? && pc.copy == p)
  }

  ghost function Count(s: State, p: Pid): nat {
    InProducer(s.th.producer, p) + InConsumer(s.th.consumer, p) + InConnection(s.conn, p)
    + WorkersHold(s.th.workers)[p] + Queued(s.queues)[p] + s.mem.freed[p] + s.mem.lost[p]
  }

  lemma ProducerHandIs(pc: Producer, p: Pid)
    ensures ProducerHand(pc)[p] == InProducer(pc, p)
  {
  }

  lemma ConsumerHandIs(pc: Consumer, p: Pid)
    ensures ConsumerHand(pc)[p] == InConsumer(pc, p)
  {
  }

  lemma ConnectionHandIs(c: Connection, p: Pid)
    ensures ConnectionHand(c)[p] == InConnection(c, p)
  {
  }

  lemma CountIsPlaced(s: State, p: Pid)
    ensures Count(s, p) == Placed(s)[p]
  {
    hide WorkersHold, Queued, ProducerHand, ConsumerHand, ConnectionHand, InProducer, InConsumer, InConnection;
    ProducerHandIs(s.th.producer, p);
    ConsumerHandIs(s.th.consumer, p);
    ConnectionHandIs(s.conn, p);
  }

  lemma FreeCount(m: Memory, x: Pid, p: Pid)
    ensures Free(m, x).freed[p] == m.freed[p] + One(x == p)
    ensures Free(m, x).lost == m.lost && Free(m, x).heap == m.heap
  {
  }

  lemma HandIs(pc: Worker, p: Pid)
    ensures WorkerHand(pc)[p] == InWorker(pc, p)
  {
  }

  lemma SetWorkerCount(th: Threads, w: Wid, pc: Worker, p: Pid)
    requires w in th.workers
    ensures WorkersHold(SetWorker(th, w, pc).workers)[p] + InWorker(th.workers[w], p) ==
            WorkersHold(th.workers)[p] + InWorker(pc, p)
  {
    hide WorkersHold, WorkerHand;
    WorkersUpdate(th.workers, w, pc, p);
    HandIs(pc, p);
    HandIs(th.workers[w], p);
  }

  /** `p` moved between places, or was allocated, and nothing else happened to it. */
  ghost predicate Balanced(s: State, t: State, p: Pid) {
    Count(t, p) + One(p in s.mem.heap) == Count(s, p) + One(p in t.mem.heap)
  }

  ghost predicate Stocked(s: State) {
    && s.queues.Keys == s.env.roles.Keys
    && INGEST in s.queues && CONSUMER_TELEMETRY in s.queues && CONSUMER_ALERTS in s.queues
  }

  lemma ProducerOwn(s: State, a: Action, p: Pid)
    requires Stocked(s) && StepProducer(s, a).Some?
    ensures Balanced(s, StepProducer(s, a).value, p)
  {
    hide Queued, WorkersHold, Push, Usable, Live, Free, InConsumer, InConnection;
    var pc := s.th.producer;
    match a {
      case Put =>
        PushQueued(s.queues, INGEST, Item(s.th.ticks, Messages.Telemetry, pc.p), p);
        FreeCount(s.mem, pc.p, p);
      case TryPut =>
        PushQueued(s.queues, INGEST, Item(s.th.ticks, Messages.Alert, pc.p), p);
        FreeCount(s.mem, pc.p, p);
      case _ =>
    }
  }

  lemma ConsumerOwn(s: State, p: Pid)
    requires Stocked(s) && StepConsumer(s).Some?
    ensures Balanced(s, StepConsumer(s).value, p)
  {
    hide Queued, WorkersHold, Pop, Usable, Readable, Free, InProducer, InConnection;
    match s.th.consumer {
      case CWait =>
        if s.queues[CONSUMER_TELEMETRY].items != [] { PopQueued(s.queues, CONSUMER_TELEMETRY, p); }
      case CPoll =>
        if s.queues[CONSUMER_ALERTS].items != [] { PopQueued(s.queues, CONSUMER_ALERTS, p); }
      case CTelemetry(it) => FreeCount(s.mem, it.payload, p);
      case CAlert(it) => FreeCount(s.mem, it.payload, p);
      case _ =>
    }
  }

  lemma WorkerOwn(s: State, a: Action, p: Pid)
    requires Stocked(s) && OfWorker(a) && StepWorker(s, a).Some?
    requires a.Deliver? ==> var me := s.th.workers[a.w]; Subs(s.env, me.topic)[me.i] in s.queues
    ensures Balanced(s, StepWorker(s, a).value, p)
  {
    hide Queued, WorkersHold, Pop, Receive, Usable, Live, Readable, Free, Enrich, InProducer, InConsumer, InConnection;
    var me, t := s.th.workers[a.w], StepWorker(s, a).value;
    SetWorkerCount(s.th, a.w, t.th.workers[a.w], p);
    match a {
      case Take(_) => if s.queues[INGEST].items != [] { PopQueued(s.queues, INGEST, p); }
      case Deliver(_) =>
        PushQueued(s.queues, Subs(s.env, me.topic)[me.i], Item(SeqOf(me.msg), KindOf(me.topic), me.copy), p);
        FreeCount(s.mem, me.copy, p);
      case Release(_) => FreeCount(s.mem, me.it.payload, p);
      case _ =>
    }
  }

  lemma ListenerOwn(s: State, a: Action, p: Pid)
    requires Stocked(s) && StepListener(s, a).Some?
    ensures Balanced(s, StepListener(s, a).value, p)
  {
    hide Queued, WorkersHold, Push, Usable, Live, Free, InProducer, InConsumer;
    if a.Inject? {
      PushQueued(s.queues, INGEST, Item(0, Messages.Alert, s.conn.listener.p), p);
      FreeCount(s.mem, s.conn.listener.p, p);
    }
  }

  lemma CreateOwn(s: State, q: Qid, ok: bool, p: Pid)
    requires Stocked(s) && StepCreate(s, q, ok).Some?
    ensures Balanced(s, StepCreate(s, q, ok).value, p)
  {
    hide Queued, WorkersHold, InProducer, InConsumer;
    CreateQueued(s.queues, q, p);
  }

  lemma DestroyCount(s: State, q: Qid, p: Pid)
    requires q in s.queues
    ensures Queued(Destroy(s, q).queues)[p] + Destroy(s, q).mem.lost[p] == Queued(s.queues)[p] + s.mem.lost[p]
    ensures Destroy(s, q).mem == s.mem.(lost := Destroy(s, q).mem.lost)
    ensures Destroy(s, q).th == s.th && Destroy(s, q).conn == s.conn
  {
    hide Queued, Emptied, Pids;
    EmptiedQueued(s.queues, q, p);
  }

  ghost predicate HasQueues(s: State) {
    && (s.conn.tq.Some? ==> s.conn.tq.value in s.queues)
    && (s.conn.aq.Some? ==> s.conn.aq.value in s.queues)
  }

  lemma ServeOwn(s: State, p: Pid)
    requires s.conn.held.None? && HasQueues(s) && StepServe(s).Some?
    ensures Balanced(s, StepServe(s).value, p)
  {
    hide Queued, WorkersHold, Pop, Usable, InProducer, InConsumer;
    var c := s.conn;
    if c.tq.Some? && s.queues[c.tq.value].items != [] { PopQueued(s.queues, c.tq.value, p); }
  }

  lemma ServeAlertOwn(s: State, p: Pid)
    requires s.conn.held.None? && HasQueues(s) && StepServeA(s).Some?
    ensures Balanced(s, StepServeA(s).value, p)
  {
    hide Queued, WorkersHold, Pop, Usable, InProducer, InConsumer;
    var c := s.conn;
    if c.aq.Some? && s.queues[c.aq.value].items != [] { PopQueued(s.queues, c.aq.value, p); }
  }

  lemma DropOwn(s: State, p: Pid)
    requires HasQueues(s) && s.conn.held.None? && s.conn.listener.LOff?
    requires (s.conn.stage.DropT? || s.conn.stage.DropA?) && StepDrop(s).Some?
    ensures Balanced(s, StepDrop(s).value, p)
  {
    hide Queued, WorkersHold, Usable, Destroy, InProducer, InConsumer;
    if s.conn.tq.Some? { DestroyCount(s, s.conn.tq.value, p); }
    if s.conn.aq.Some? { DestroyCount(s, s.conn.aq.value, p); }
  }

  ghost predicate OnlyLists(s: State, t: State) {
    && t.queues == s.queues && t.mem == s.mem && t.th == s.th && t.env.roles == s.env.roles
    && t.conn.held == s.conn.held
    && (t.conn.listener == s.conn.listener || (!t.conn.listener.LHold? && !s.conn.listener.LHold?))
  }

  lemma ListsQuiet(s: State)
    ensures StepSubT(s).Some? ==> OnlyLists(s, StepSubT(s).value)
    ensures StepSubA(s).Some? ==> OnlyLists(s, StepSubA(s).value)
    ensures StepUnsubT(s).Some? ==> OnlyLists(s, StepUnsubT(s).value)
    ensures StepUnsubA(s).Some? ==> OnlyLists(s, StepUnsubA(s).value)
  {
    hide Left, Joined, CanJoin;
  }

  /** Stages that touch neither queues nor payloads. */
  lemma QuietTransport(s: State, ok: bool)
    requires StepTransport(s, ok).Some? && ConnectionOk(s.env, s.conn)
    requires !Serving(s.conn.stage) && !s.conn.stage.DropT? && !s.conn.stage.DropA?
    ensures OnlyLists(s, StepTransport(s, ok).value)
  {
    hide StepSubT, StepSubA, StepUnsubT, StepUnsubA, Usable;
    ListsQuiet(s);
  }

  lemma SendOwn(s: State, ok: bool, p: Pid)
    requires StepSend(s, ok).Some?
    ensures Balanced(s, StepSend(s, ok).value, p)
  {
    hide Queued, WorkersHold, Readable, Free, InProducer, InConsumer;
    FreeCount(s.mem, s.conn.held.value.payload, p);
  }

  lemma SocketOwn(s: State, a: Action, p: Pid)
    requires StepSocket(s, a).Some?
    ensures Balanced(s, StepSocket(s, a).value, p)
  {
    if a.Unblock? { SendOwn(s, a.ok, p); }
    hide Queued, WorkersHold, InProducer, InConsumer, StepSend;
  }

  lemma TransportOwn(s: State, ok: bool, p: Pid)
    requires HasQueues(s) && ConnectionOk(s.env, s.conn) && StepTransport(s, ok).Some?
    ensures Balanced(s, StepTransport(s, ok).value, p)
  {
    hide Queued, WorkersHold, InProducer, InConsumer;
    hide StepServe, StepServeA, StepSend, StepDrop, StepSubT, StepSubA, StepUnsubT, StepUnsubA;
    match s.conn.stage
    case Serve => ServeOwn(s, p);
    case ServeA => ServeAlertOwn(s, p);
    case Send => SendOwn(s, ok, p);
    case DropT => DropOwn(s, p);
    case DropA => DropOwn(s, p);
    case _ => QuietTransport(s, ok);
  }

  lemma MainStartOwn(s: State, p: Pid)
    requires MainOk(s.env, s.conn, s.th) && SUBSCRIBE_A < s.env.main <= AWAIT_SIGNAL
    ensures Balanced(s, StepMainStart(s), p)
  {
    hide Queued, WorkersHold, InConnection;
  }

  lemma MainOwn(s: State, p: Pid)
    requires Stocked(s) && MainOk(s.env, s.conn, s.th) && StepMain(s).Some?
    ensures Balanced(s, StepMain(s).value, p)
  {
    hide Queued, WorkersHold, StepMainStart, Destroy, Shut, Left, Joined, Usable, InConnection, InProducer, InConsumer;
    var m := s.env.main;
    if SUBSCRIBE_A < m <= AWAIT_SIGNAL { MainStartOwn(s, p); }
    else if AWAIT_SIGNAL < m <= SHUT_A { ShutQueued(s.queues, MainQueue(m), p); }
    else if UNSUB_A < m <= DROP_INGEST && m != JOIN_TRANSPORT { DestroyCount(s, MainQueue(m), p); }
  }

  lemma StepBalanced(s: State, a: Action, p: Pid)
    requires Stocked(s) && LifeOk(s) && Step(s, a).Some?
    ensures Balanced(s, Step(s, a).value, p)
  {
    hide Balanced;
    hide StepProducer, StepWorker, StepConsumer, StepCreate, StepTransport, StepSocket, StepListener, StepMain;
    if OfProducer(a) { ProducerOwn(s, a, p); }
    else if OfWorker(a) { DeliverTarget(s, a); WorkerOwn(s, a, p); }
    else if a.ConsumerStep? { ConsumerOwn(s, p); }
    else if a.Create? { CreateOwn(s, a.q, a.ok, p); }
    else if a.TransportStep? { TransportOwn(s, a.ok, p); }
    else if OfSocket(a) { SocketOwn(s, a, p); }
    else if OfListener(a) { ListenerOwn(s, a, p); }
    else { MainOwn(s, p); }
  }

  /** The queue a worker is about to deliver to exists and has not been destroyed. */
  lemma DeliverTarget(s: State, a: Action)
    requires LifeOk(s) && s.queues.Keys == s.env.roles.Keys && OfWorker(a) && StepWorker(s, a).Some?
    ensures a.Deliver? ==> var me := s.th.workers[a.w]; var q := Subs(s.env, me.topic)[me.i];
                           q in s.queues && Usable(s.env, q)
  {
    if a.Deliver? {
      var me := s.th.workers[a.w];
      assert !me.WDone?;
      assert s.env.main <= JOIN_WORKERS;
      assert Subs(s.env, me.topic)[me.i] in Subs(s.env, me.topic);
    }
  }

  // ---------------------------------------------------------------- the queues that exist

  ghost predicate SameKeys(s: State, t: State) {
    t.queues.Keys == s.queues.Keys && t.env.roles == s.env.roles
  }

  lemma ProducerStocked(s: State, a: Action)
    requires INGEST in s.queues && StepProducer(s, a).Some?
    ensures SameKeys(s, StepProducer(s, a).value)
  {
    hide Usable, Live, Free, Alloc;
  }

  lemma WorkerStocked(s: State, a: Action)
    requires Stocked(s) && LifeOk(s) && OfWorker(a) && StepWorker(s, a).Some?
    ensures SameKeys(s, StepWorker(s, a).value)
  {
    hide LifeOk, Usable, Live, Readable, Free, Alloc, Enrich, SetWorker;
    DeliverTarget(s, a);
  }

  lemma OthersStocked(s: State, a: Action)
    requires INGEST in s.queues && CONSUMER_TELEMETRY in s.queues && CONSUMER_ALERTS in s.queues
    ensures StepConsumer(s).Some? ==> SameKeys(s, StepConsumer(s).value)
    ensures StepListener(s, a).Some? ==> SameKeys(s, StepListener(s, a).value)
  {
    hide Usable, Live, Readable, Free, Alloc;
  }

  lemma ThreadsStocked(s: State, a: Action)
    requires Stocked(s) && LifeOk(s) && Step(s, a).Some?
    requires OfProducer(a) || OfWorker(a) || a.ConsumerStep? || OfListener(a)
    ensures SameKeys(s, Step(s, a).value)
  {
    hide StepProducer, StepWorker, StepConsumer, StepListener, StepTransport, StepCreate, StepMain;
    if OfProducer(a) { ProducerStocked(s, a); }
    else if OfWorker(a) { WorkerStocked(s, a); }
    else { OthersStocked(s, a); }
  }

  lemma ServeStocked(s: State)
    requires HasQueues(s)
    ensures StepServe(s).Some? ==> StepServe(s).value.queues.Keys == s.queues.Keys && StepServe(s).value.env == s.env
    ensures StepServeA(s).Some? ==> StepServeA(s).value.queues.Keys == s.queues.Keys && StepServeA(s).value.env == s.env
  {
    hide Usable;
  }

  lemma DropStocked(s: State)
    requires HasQueues(s) && (s.conn.stage.DropT? || s.conn.stage.DropA?) && StepDrop(s).Some?
    ensures StepDrop(s).value.queues.Keys == s.queues.Keys && StepDrop(s).value.env.roles == s.env.roles
  {
    hide Usable, Abandon;
  }

  lemma SocketStocked(s: State, a: Action)
    requires StepSocket(s, a).Some?
    ensures SameKeys(s, StepSocket(s, a).value)
  {
    hide Readable, Free;
  }

  lemma TransportStocked(s: State, ok: bool)
    requires HasQueues(s) && ConnectionOk(s.env, s.conn) && StepTransport(s, ok).Some?
    ensures StepTransport(s, ok).value.queues.Keys == s.queues.Keys
    ensures StepTransport(s, ok).value.env.roles == s.env.roles
  {
    hide Readable, Free, StepServe, StepServeA, StepDrop, StepSubT, StepSubA, StepUnsubT, StepUnsubA;
    match s.conn.stage
    case Serve => ServeStocked(s);
    case ServeA => ServeStocked(s);
    case Send =>
    case DropT => DropStocked(s);
    case DropA => DropStocked(s);
    case _ => QuietTransport(s, ok);
  }

  lemma MainStocked(s: State)
    requires Stocked(s) && StepMain(s).Some?
    ensures StepMain(s).value.queues.Keys == s.queues.Keys && StepMain(s).value.env.roles == s.env.roles
  {
    hide Usable, Left, Joined, Abandon;
  }

  lemma StepStocked(s: State, a: Action)
    requires Stocked(s) && LifeOk(s) && Step(s, a).Some?
    ensures Stocked(Step(s, a).value)
  {
    hide StepProducer, StepWorker, StepConsumer, StepTransport, StepSocket, StepListener, StepMain;
    if a.TransportStep? { TransportStocked(s, a.ok); }
    else if OfSocket(a) { SocketStocked(s, a); }
    else if a.MainStep? { MainStocked(s); }
    else if !a.Create? { ThreadsStocked(s, a); }
  }

  /** Conservation: allocated = held + queued + freed + left behind, payload by payload. */
  ghost predicate OwnOk(s: State) {
    Stocked(s) && Placed(s) == multiset(s.mem.heap.Keys)
  }

  lemma StepOwn(s: State, a: Action)
    requires OwnOk(s) && LifeOk(s) && Step(s, a).Some?
    ensures OwnOk(Step(s, a).value)
  {
    hide LifeOk, Placed, Step, Count;
    var t := Step(s, a).value;
    StepStocked(s, a);
    forall p: Pid ensures Placed(t)[p] == multiset(t.mem.heap.Keys)[p] {
      StepBalanced(s, a, p);
      CountIsPlaced(s, p);
      CountIsPlaced(t, p);
      assert Placed(s)[p] == multiset(s.mem.heap.Keys)[p];
    }
  }

  lemma InitOwn(s: State)
    requires Init(s)
    ensures OwnOk(s)
  {
    hide Total;
    TotalOfNothing(QueueHoldings(s.queues));
    TotalOfNothing(WorkerHoldings(s.th.workers));
    assert multiset(s.mem.heap.Keys) == multiset{};
  }

  lemma {:induction false} TotalOfNothing(m: Holdings)
    requires forall k | k in m :: m[k] == multiset{}
    ensures Total(m) == multiset{}
    decreases |m|
  {
    if m != map[] {
      var k :| k in m;
      TotalSplit(m, k);
      TotalOfNothing(m - {k});
    }
  }
}
