/** Every item's tag matches the record behind its payload, and a subscriber queue only ever
    holds messages of its own topic, so every cast in the workers, the consumer and the
    transport is right. */
module Routing {
  import opened System
  import opened Messages
  import opened Lifetimes
  import opened Ownership

  type Heap = map<Pid, Body>

  /** The payload of an item in a queue of this role. */
  predicate Fits(h: Heap, role: Role, it: Item) {
    && it.payload in h && IsShape(h[it.payload], it.kind, role.Raw?)
    && (role.TelemetrySub? ==> it.kind == Telemetry) && (role.AlertSub? ==> it.kind == Alert)
  }

  ghost predicate QueuesFit(roles: map<Qid, Role>, qs: Queues, h: Heap) {
    forall q, i | q in roles && q in qs && 0 <= i < |qs[q].items| :: Fits(h, roles[q], qs[q].items[i])
  }

  function RoleOf(t: Topic): Role { if t.Telemetries? then TelemetrySub else AlertSub }

  predicate WorkerFits(pc: Worker, h: Heap) {
    match pc
    case WWait => true
    case WDone(_) => true
    case WFree(it) => it.payload in h
    case WRaw(it) => Fits(h, Raw, it)
    case WMsg(it, msg, topic) => it.payload in h && IsShape(msg, KindOf(topic), false)
    case WFan(it, msg, topic, _) => it.payload in h && IsShape(msg, KindOf(topic), false)
    case WCopy(it, msg, topic, _, copy) =>
      it.payload in h && IsShape(msg, KindOf(topic), false) && copy in h && h[copy] == msg
  }

  ghost predicate WorkersFit(ws: map<Wid, Worker>, h: Heap) {
    forall w | w in ws :: WorkerFits(ws[w], h)
  }

  predicate HandsFit(pr: Producer, co: Consumer, c: Connection, h: Heap) {
    && (pr.PTelemetry? ==> pr.p in h && h[pr.p].RawTelemetry?)
    && (pr.PAlert? ==> pr.p in h && h[pr.p].RawAlert?)
    && (co.CTelemetry? ==> Fits(h, TelemetrySub, co.it))
    && (co.CAlert? ==> Fits(h, AlertSub, co.it))
    && (c.held.Some? ==> Fits(h, RoleOf(c.heldTopic), c.held.value))
    && (c.listener.LHold? ==> c.listener.p in h && h[c.listener.p].RawAlert?)
  }

  ghost predicate TypesOk(s: State) {
    && QueuesFit(s.env.roles, s.queues, s.mem.heap)
    && WorkersFit(s.th.workers, s.mem.heap)
    && HandsFit(s.th.producer, s.th.consumer, s.conn, s.mem.heap)
  }

  // ---------------------------------------------------------------- effect of each primitive

  /** A fresh allocation disturbs nothing. */
  lemma FitAlloc(roles: map<Qid, Role>, qs: Queues, ws: map<Wid, Worker>, h: Heap, p: Pid, b: Body)
    requires p !in h && QueuesFit(roles, qs, h) && WorkersFit(ws, h)
    ensures QueuesFit(roles, qs, h[p := b]) && WorkersFit(ws, h[p := b])
  {
  }

  lemma FitPush(roles: map<Qid, Role>, qs: Queues, h: Heap, q: Qid, it: Item)
    requires QueuesFit(roles, qs, h) && q in roles && q in qs && Fits(h, roles[q], it)
    ensures QueuesFit(roles, Push(qs, q, it), h) && QueuesFit(roles, Receive(qs, q, it), h)
  {
    hide Fits;
  }

  lemma FitPop(roles: map<Qid, Role>, qs: Queues, h: Heap, q: Qid)
    requires QueuesFit(roles, qs, h) && q in roles && q in qs && qs[q].items != []
    ensures QueuesFit(roles, Pop(qs, q), h) && Fits(h, roles[q], qs[q].items[0])
  {
    hide Fits;
  }

  lemma FitClose(roles: map<Qid, Role>, qs: Queues, h: Heap, q: Qid, role: Role)
    requires QueuesFit(roles, qs, h)
    ensures q in qs ==> QueuesFit(roles, Shut(qs, q), h) && QueuesFit(roles, Emptied(qs, q), h)
    ensures q !in qs ==> QueuesFit(roles[q := role], qs[q := FRESH], h)
  {
    hide Fits;
  }

  // ---------------------------------------------------------------- preservation

  lemma ProducerTypes(s: State, a: Action)
    requires TypesOk(s) && Stocked(s) && MainOk(s.env, s.conn, s.th) && StepProducer(s, a).Some?
    ensures TypesOk(StepProducer(s, a).value)
  {
    hide QueuesFit, WorkersFit, Push, Usable, Live;
    var pc, h := s.th.producer, s.mem.heap;
    match a {
      case Tick(p, _) =>
        FitAlloc(s.env.roles, s.queues, s.th.workers, h, p,
                 RawTelemetry(100 - (s.th.ticks + 1) % UINT32 % 101, -40 - (s.th.ticks + 1) % UINT32 % 50));
      case Put => FitPush(s.env.roles, s.queues, h, INGEST, Item(s.th.ticks, Telemetry, pc.p));
      case MakeAlert(p, memory) =>
        if s.th.ticks % 5 == 0 && memory {
          FitAlloc(s.env.roles, s.queues, s.th.workers, h, p, StepProducer(s, a).value.mem.heap[p]);
        }
      case TryPut => FitPush(s.env.roles, s.queues, h, INGEST, Item(s.th.ticks, Alert, pc.p));
      case _ =>
    }
  }

  lemma ConsumerTypes(s: State)
    requires TypesOk(s) && Stocked(s) && MainOk(s.env, s.conn, s.th) && StepConsumer(s).Some?
    ensures TypesOk(StepConsumer(s).value)
  {
    hide QueuesFit, WorkersFit, Pop, Usable, Readable;
    match s.th.consumer {
      case CWait =>
        if s.queues[CONSUMER_TELEMETRY].items != [] { FitPop(s.env.roles, s.queues, s.mem.heap, CONSUMER_TELEMETRY); }
      case CPoll =>
        if s.queues[CONSUMER_ALERTS].items != [] { FitPop(s.env.roles, s.queues, s.mem.heap, CONSUMER_ALERTS); }
      case _ =>
    }
  }

  /** Only the stepping worker changes, and its new point fits. */
  lemma WorkerMoves(ws: map<Wid, Worker>, w: Wid, pc: Worker, h: Heap)
    requires WorkersFit(ws, h) && WorkerFits(pc, h)
    ensures WorkersFit(ws[w := pc], h)
  {
    hide WorkerFits;
  }

  /** What the stepping worker holds afterwards still fits. */
  lemma WorkerPoint(s: State, a: Action)
    requires TypesOk(s) && Stocked(s) && MainOk(s.env, s.conn, s.th) && OfWorker(a) && StepWorker(s, a).Some?
    ensures var t := StepWorker(s, a).value; a.w in t.th.workers && WorkerFits(t.th.workers[a.w], t.mem.heap)
  {
    hide QueuesFit, Pop, Receive, Usable, Live, Readable;
    assert WorkerFits(s.th.workers[a.w], s.mem.heap);
    if a.Take? && s.queues[INGEST].items != [] { FitPop(s.env.roles, s.queues, s.mem.heap, INGEST); }
  }

  /** What the step does to queues and heap keeps them fitting. */
  lemma WorkerStores(s: State, a: Action)
    requires TypesOk(s) && Stocked(s) && LifeOk(s) && OfWorker(a) && StepWorker(s, a).Some?
    ensures var t := StepWorker(s, a).value;
            && QueuesFit(t.env.roles, t.queues, t.mem.heap) && WorkersFit(s.th.workers, t.mem.heap)
            && HandsFit(t.th.producer, t.th.consumer, t.conn, t.mem.heap)
            && t.th.workers == s.th.workers[a.w := t.th.workers[a.w]]
  {
    hide QueuesFit, WorkersFit, Pop, Receive, Live, Readable, LifeOk;
    var me, h := s.th.workers[a.w], s.mem.heap;
    match a {
      case Take(_) => if s.queues[INGEST].items != [] { FitPop(s.env.roles, s.queues, h, INGEST); }
      case Clone(_, p, memory) => FitAlloc(s.env.roles, s.queues, s.th.workers, h, p, me.msg);
      case Deliver(_) =>
        DeliverTarget(s, a);
        DeliverFits(s, a);
        FitPush(s.env.roles, s.queues, h, Subs(s.env, me.topic)[me.i], Item(SeqOf(me.msg), KindOf(me.topic), me.copy));
      case _ =>
    }
  }

  /** A registered queue has its topic's role, and the copy is a message of that topic. */
  lemma DeliverFits(s: State, a: Action)
    requires TypesOk(s) && LifeOk(s) && a.Deliver? && StepWorker(s, a).Some?
    ensures var me := s.th.workers[a.w]; var q := Subs(s.env, me.topic)[me.i];
            && q in s.env.roles && s.env.roles[q] == RoleOf(me.topic)
            && Fits(s.mem.heap, RoleOf(me.topic), Item(SeqOf(me.msg), KindOf(me.topic), me.copy))
  {
    hide QueuesFit;
    var me := s.th.workers[a.w];
    assert WorkerFits(me, s.mem.heap);
    assert Subs(s.env, me.topic)[me.i] in Subs(s.env, me.topic);
  }

  lemma WorkerTypes(s: State, a: Action)
    requires TypesOk(s) && Stocked(s) && LifeOk(s) && OfWorker(a) && StepWorker(s, a).Some?
    ensures TypesOk(StepWorker(s, a).value)
  {
    hide StepWorker, QueuesFit, WorkersFit, WorkerFits, HandsFit;
    var t := StepWorker(s, a).value;
    WorkerPoint(s, a);
    WorkerStores(s, a);
    WorkerMoves(s.th.workers, a.w, t.th.workers[a.w], t.mem.heap);
  }

  lemma ListenerTypes(s: State, a: Action)
    requires TypesOk(s) && Stocked(s) && MainOk(s.env, s.conn, s.th) && StepListener(s, a).Some?
    ensures TypesOk(StepListener(s, a).value)
  {
    hide QueuesFit, WorkersFit, Push, Usable, Live;
    match a {
      case Trigger(p, code, antenna) =>
        FitAlloc(s.env.roles, s.queues, s.th.workers, s.mem.heap, p, RawAlert(code, antenna));
      case Inject => FitPush(s.env.roles, s.queues, s.mem.heap, INGEST, Item(0, Alert, s.conn.listener.p));
      case _ =>
    }
  }

  lemma CreateTypes(s: State, q: Qid, ok: bool)
    requires TypesOk(s) && Stocked(s) && StepCreate(s, q, ok).Some?
    ensures TypesOk(StepCreate(s, q, ok).value)
  {
    hide QueuesFit, WorkersFit, Fits;
    FitClose(s.env.roles, s.queues, s.mem.heap, q, if s.conn.stage.MakeT? then TelemetrySub else AlertSub);
  }

  lemma ServeTypes(s: State)
    requires TypesOk(s) && Stocked(s) && ConnectionOk(s.env, s.conn)
    ensures StepServe(s).Some? ==> TypesOk(StepServe(s).value)
    ensures StepServeA(s).Some? ==> TypesOk(StepServeA(s).value)
  {
    hide QueuesFit, WorkersFit, Pop;
    var c := s.conn;
    if c.tq.Some? && s.queues[c.tq.value].items != [] { FitPop(s.env.roles, s.queues, s.mem.heap, c.tq.value); }
    if c.aq.Some? && s.queues[c.aq.value].items != [] { FitPop(s.env.roles, s.queues, s.mem.heap, c.aq.value); }
  }

  lemma DropTypes(s: State)
    requires TypesOk(s) && Stocked(s) && ConnectionOk(s.env, s.conn)
    requires (s.conn.stage.DropT? || s.conn.stage.DropA?) && StepDrop(s).Some?
    ensures TypesOk(StepDrop(s).value)
  {
    hide QueuesFit, WorkersFit, Emptied;
    if s.conn.tq.Some? { FitClose(s.env.roles, s.queues, s.mem.heap, s.conn.tq.value, Raw); }
    if s.conn.aq.Some? { FitClose(s.env.roles, s.queues, s.mem.heap, s.conn.aq.value, Raw); }
  }

  lemma SocketTypes(s: State, a: Action)
    requires TypesOk(s) && StepSocket(s, a).Some?
    ensures TypesOk(StepSocket(s, a).value)
  {
    hide QueuesFit, WorkersFit, Readable;
  }

  lemma TransportTypes(s: State, ok: bool)
    requires TypesOk(s) && Stocked(s) && ConnectionOk(s.env, s.conn) && StepTransport(s, ok).Some?
    ensures TypesOk(StepTransport(s, ok).value)
  {
    hide QueuesFit, WorkersFit, Readable, StepServe, StepServeA, StepDrop, StepSubT, StepSubA, StepUnsubT, StepUnsubA;
    match s.conn.stage
    case Serve => ServeTypes(s);
    case ServeA => ServeTypes(s);
    case Send =>
    case DropT => DropTypes(s);
    case DropA => DropTypes(s);
    case _ => QuietTransport(s, ok);
  }

  lemma MainStartTypes(s: State)
    requires TypesOk(s)
    ensures TypesOk(StepMainStart(s))
  {
    hide QueuesFit, WorkersFit, Fits;
  }

  lemma MainCloseTypes(s: State)
    requires TypesOk(s) && Stocked(s)
    ensures TypesOk(StepMainShut(s)) && TypesOk(StepMainDestroy(s))
  {
    hide QueuesFit, WorkersFit, HandsFit, Usable, Shut, Emptied, Pids;
    FitClose(s.env.roles, s.queues, s.mem.heap, MainQueue(s.env.main), Raw);
  }

  lemma MainQuietTypes(s: State)
    requires TypesOk(s)
    ensures StepMainSubscribe(s).Some? ==> TypesOk(StepMainSubscribe(s).value)
    ensures StepMainJoin(s).Some? ==> TypesOk(StepMainJoin(s).value)
    ensures StepMainUnsub(s).Some? ==> TypesOk(StepMainUnsub(s).value)
    ensures TypesOk(StepMainFinish(s))
  {
    hide QueuesFit, WorkersFit, HandsFit, Joined, Left;
  }

  lemma MainTypes(s: State)
    requires TypesOk(s) && Stocked(s) && StepMain(s).Some?
    ensures TypesOk(StepMain(s).value)
  {
    hide TypesOk;
    hide StepMainSubscribe, StepMainStart, StepMainShut, StepMainJoin, StepMainUnsub, StepMainDestroy, StepMainFinish;
    MainStartTypes(s);
    MainCloseTypes(s);
    MainQuietTypes(s);
  }

  lemma StepTypes(s: State, a: Action)
    requires TypesOk(s) && Stocked(s) && LifeOk(s) && Step(s, a).Some?
    ensures TypesOk(Step(s, a).value)
  {
    hide TypesOk, StepProducer, StepWorker, StepConsumer, StepCreate, StepTransport, StepSocket, StepListener, StepMain;
    if OfProducer(a) { ProducerTypes(s, a); }
    else if OfWorker(a) { WorkerTypes(s, a); }
    else if a.ConsumerStep? { ConsumerTypes(s); }
    else if a.Create? { CreateTypes(s, a.q, a.ok); }
    else if a.TransportStep? { TransportTypes(s, a.ok); }
    else if OfSocket(a) { SocketTypes(s, a); }
    else if OfListener(a) { ListenerTypes(s, a); }
    else { MainTypes(s); }
  }

  lemma InitTypes(s: State)
    requires Init(s)
    ensures TypesOk(s)
  {
  }
}
