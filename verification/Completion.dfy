/** How a requested shutdown ends. Every step after the request uses up some of a fixed amount of
    work, except that each command line may add a little; so apart from a client that never stops
    sending, the process either gets to the end of main or stops with the transport thread blocked
    in a call that only the client can finish. */
module Completion {
  import opened Messages
  import opened System
  import opened Lifetimes
  import opened Ownership
  import opened Routing
  import opened Sequence
  import opened SystemTheorems
  import Registry

  // ---------------------------------------------------------------- one more invariant

  /** What main's position says about the flags and the threads it has started. */
  ghost predicate FlagsOk(e: Env, th: Threads, qs: Queues) {
    && e.main <= EXIT && (e.main > AWAIT_SIGNAL <==> e.stop)
    && (e.main > START_PRODUCER ==> !th.producer.PIdle?) && (e.main > START_CONSUMER ==> !th.consumer.CIdle?)
    && (e.main > SHUT_INGEST ==> At(qs, INGEST).shut) && (e.main > SHUT_T ==> At(qs, CONSUMER_TELEMETRY).shut)
  }

  /** A publishing worker is within the list it walks. */
  ghost predicate FansOk(e: Env, ws: map<Wid, Worker>) {
    forall w | w in ws && Publishing(ws[w]) ::
      ws[w].i <= |Subs(e, ws[w].topic)| && (ws[w].WCopy? ==> ws[w].i < |Subs(e, ws[w].topic)|)
  }

  ghost predicate ListsOk(e: Env) {
    |e.subsT| <= Registry.MAX_SUBSCRIBERS && |e.subsA| <= Registry.MAX_SUBSCRIBERS
  }

  ghost predicate Ready(s: State) {
    FlagsOk(s.env, s.th, s.queues) && FansOk(s.env, s.th.workers) && ListsOk(s.env)
  }

  lemma ProducerReady(s: State, a: Action)
    requires Ready(s) && StepProducer(s, a).Some?
    ensures Ready(StepProducer(s, a).value)
  {
    hide FansOk, ListsOk, Usable, Live, Free, Alloc;
  }

  lemma ConsumerReady(s: State)
    requires Ready(s) && StepConsumer(s).Some?
    ensures Ready(StepConsumer(s).value)
  {
    hide FansOk, ListsOk, Usable, Readable, Free;
  }

  lemma ListenerReady(s: State, a: Action)
    requires Ready(s) && StepListener(s, a).Some?
    ensures Ready(StepListener(s, a).value)
  {
    hide FansOk, ListsOk, Usable, Live, Free, Alloc, GoodAlert;
  }

  lemma WorkerFlags(s: State, a: Action)
    requires FlagsOk(s.env, s.th, s.queues) && OfWorker(a) && StepWorker(s, a).Some?
    ensures var t := StepWorker(s, a).value; FlagsOk(t.env, t.th, t.queues)
  {
    hide Usable, Live, Readable, Free, Alloc, Enrich, Subs;
  }

  lemma WorkerLists(s: State, a: Action)
    requires OfWorker(a) && StepWorker(s, a).Some?
    ensures StepWorker(s, a).value.env.subsT == s.env.subsT && StepWorker(s, a).value.env.subsA == s.env.subsA
  {
    hide Usable, Live, Readable, Free, Alloc, Enrich, Pop, Receive;
  }

  lemma WorkerFans(s: State, a: Action)
    requires FansOk(s.env, s.th.workers) && OfWorker(a) && StepWorker(s, a).Some?
    ensures var t := StepWorker(s, a).value; FansOk(t.env, t.th.workers)
  {
    hide Usable, Live, Readable, Free, Alloc, Enrich, Pop, Receive;
  }

  lemma WorkerReady(s: State, a: Action)
    requires ListsOk(s.env) && OfWorker(a) && StepWorker(s, a).Some?
    ensures ListsOk(StepWorker(s, a).value.env)
  {
    hide StepWorker;
    WorkerLists(s, a);
  }

  /** Lists change only while nobody publishes. */
  lemma ListsReady(s: State, t: State)
    requires FansOk(s.env, s.th.workers) && LockOk(s.env, s.th) && t.th.workers == s.th.workers
    requires s.env.lock.None? || (t.env.subsT == s.env.subsT && t.env.subsA == s.env.subsA)
    ensures FansOk(t.env, t.th.workers)
  {
  }

  ghost predicate SameFlags(s: State, t: State) {
    && t.env.main == s.env.main && t.env.stop == s.env.stop && t.th == s.th
    && At(t.queues, INGEST).shut == At(s.queues, INGEST).shut
    && At(t.queues, CONSUMER_TELEMETRY).shut == At(s.queues, CONSUMER_TELEMETRY).shut
  }

  lemma FlagsKept(s: State, t: State)
    requires FlagsOk(s.env, s.th, s.queues) && SameFlags(s, t)
    ensures FlagsOk(t.env, t.th, t.queues)
  {
  }

  lemma ListsFlags(s: State)
    ensures StepSubT(s).Some? ==> SameFlags(s, StepSubT(s).value)
    ensures StepSubA(s).Some? ==> SameFlags(s, StepSubA(s).value)
    ensures StepUnsubT(s).Some? ==> SameFlags(s, StepUnsubT(s).value)
    ensures StepUnsubA(s).Some? ==> SameFlags(s, StepUnsubA(s).value)
  {
    hide Joined, Left, CanJoin;
  }

  lemma ServeFlags(s: State, ok: bool)
    requires ConnectionOk(s.env, s.conn)
    ensures StepServe(s).Some? ==> SameFlags(s, StepServe(s).value)
    ensures StepServeA(s).Some? ==> SameFlags(s, StepServeA(s).value)
    ensures StepSend(s, ok).Some? ==> SameFlags(s, StepSend(s, ok).value)
  {
    hide Usable, Readable, Free;
  }

  lemma DropFlags(s: State)
    requires ConnectionOk(s.env, s.conn) && (s.conn.stage.DropT? || s.conn.stage.DropA?) && StepDrop(s).Some?
    ensures SameFlags(s, StepDrop(s).value)
  {
    hide Usable, Abandon;
  }

  lemma TransportFlags(s: State, ok: bool)
    requires ConnectionOk(s.env, s.conn) && StepTransport(s, ok).Some?
    ensures SameFlags(s, StepTransport(s, ok).value)
  {
    hide StepSubT, StepSubA, StepUnsubT, StepUnsubA, StepServe, StepServeA, StepSend, StepDrop, At, ConnectionOk;
    match s.conn.stage
    case SubT => ListsFlags(s);
    case SubA => ListsFlags(s);
    case UnsubT => ListsFlags(s);
    case UnsubA => ListsFlags(s);
    case Serve => ServeFlags(s, ok);
    case ServeA => ServeFlags(s, ok);
    case Send => ServeFlags(s, ok);
    case DropT => DropFlags(s);
    case DropA => DropFlags(s);
    case _ =>
  }

  lemma JoinBounded(l: seq<Qid>, q: Qid)
    requires |l| <= Registry.MAX_SUBSCRIBERS
    ensures CanJoin(l, q) ==> |Joined(l, q)| <= Registry.MAX_SUBSCRIBERS
    ensures |Left(l, q)| <= Registry.MAX_SUBSCRIBERS
  {
  }

  lemma ConnectionLists(s: State)
    requires ListsOk(s.env)
    ensures StepSubT(s).Some? ==> ListsOk(StepSubT(s).value.env)
    ensures StepSubA(s).Some? ==> ListsOk(StepSubA(s).value.env)
    ensures StepUnsubT(s).Some? ==> ListsOk(StepUnsubT(s).value.env)
    ensures StepUnsubA(s).Some? ==> ListsOk(StepUnsubA(s).value.env)
  {
    if s.conn.tq.Some? { JoinBounded(s.env.subsT, s.conn.tq.value); }
    if s.conn.aq.Some? { JoinBounded(s.env.subsA, s.conn.aq.value); }
    hide CanJoin, Joined, Left;
  }

  ghost predicate SameLists(s: State, t: State) { t.env.subsT == s.env.subsT && t.env.subsA == s.env.subsA }

  lemma ServingLists(s: State, ok: bool)
    ensures StepServe(s).Some? ==> SameLists(s, StepServe(s).value)
    ensures StepServeA(s).Some? ==> SameLists(s, StepServeA(s).value)
    ensures StepSend(s, ok).Some? ==> SameLists(s, StepSend(s, ok).value)
    ensures (s.conn.stage.DropT? || s.conn.stage.DropA?) && StepDrop(s).Some? ==> SameLists(s, StepDrop(s).value)
  {
    hide Usable, Readable, Pop, Free, Abandon, Emptied;
  }

  lemma TransportLists(s: State, ok: bool)
    requires ListsOk(s.env) && StepTransport(s, ok).Some?
    ensures ListsOk(StepTransport(s, ok).value.env)
  {
    hide StepSubT, StepSubA, StepUnsubT, StepUnsubA, StepServe, StepServeA, StepSend, StepDrop;
    ConnectionLists(s);
    ServingLists(s, ok);
  }

  lemma MainLists(s: State)
    requires ListsOk(s.env) && StepMain(s).Some?
    ensures ListsOk(StepMain(s).value.env)
  {
    hide StepMainSubscribe, StepMainUnsub, StepMainJoin, StepMainShut, StepMainDestroy, StepMainStart, StepMainFinish;
    if StepMainSubscribe(s).Some? { MainJoins(s); }
    if StepMainUnsub(s).Some? { MainParts(s); }
    MainKeepsLists(s);
  }

  lemma MainJoins(s: State)
    requires ListsOk(s.env) && StepMainSubscribe(s).Some?
    ensures ListsOk(StepMainSubscribe(s).value.env)
  {
    JoinBounded(s.env.subsT, CONSUMER_TELEMETRY);
    JoinBounded(s.env.subsA, CONSUMER_ALERTS);
    hide CanJoin, Joined;
  }

  lemma MainParts(s: State)
    requires ListsOk(s.env) && StepMainUnsub(s).Some?
    ensures ListsOk(StepMainUnsub(s).value.env)
  {
    JoinBounded(s.env.subsT, CONSUMER_TELEMETRY);
    JoinBounded(s.env.subsA, CONSUMER_ALERTS);
    hide CanJoin, Joined, Left;
  }

  lemma MainKeepsLists(s: State)
    ensures StepMainJoin(s).Some? ==> SameLists(s, StepMainJoin(s).value)
    ensures SameLists(s, StepMainStart(s)) && SameLists(s, StepMainShut(s))
    ensures SameLists(s, StepMainDestroy(s)) && SameLists(s, StepMainFinish(s))
  {
    hide Usable, Shut, Abandon, Emptied;
  }

  lemma SocketReady(s: State, a: Action)
    requires Ready(s) && StepSocket(s, a).Some?
    ensures Ready(StepSocket(s, a).value)
  {
    hide FansOk, ListsOk, Readable, Free;
  }

  lemma MainListFlags(s: State)
    requires FlagsOk(s.env, s.th, s.queues)
    ensures s.env.main <= SUBSCRIBE_A && StepMainSubscribe(s).Some? ==>
              var t := StepMainSubscribe(s).value; FlagsOk(t.env, t.th, t.queues)
    ensures UNSUB_T <= s.env.main <= UNSUB_A && StepMainUnsub(s).Some? ==>
              var t := StepMainUnsub(s).value; FlagsOk(t.env, t.th, t.queues)
  {
    hide Joined, Left, CanJoin, At;
  }

  lemma MainQueueFlags(s: State)
    requires FlagsOk(s.env, s.th, s.queues)
    ensures SHUT_INGEST <= s.env.main <= SHUT_A ==> var t := StepMainShut(s); FlagsOk(t.env, t.th, t.queues)
    ensures DROP_T <= s.env.main <= DROP_INGEST ==> var t := StepMainDestroy(s); FlagsOk(t.env, t.th, t.queues)
  {
    hide Usable, Abandon;
  }

  lemma MainFlags(s: State)
    requires FlagsOk(s.env, s.th, s.queues) && StepMain(s).Some?
    ensures var t := StepMain(s).value; FlagsOk(t.env, t.th, t.queues)
  {
    hide StepMainSubscribe, StepMainUnsub, StepMainShut, StepMainDestroy, At;
    MainListFlags(s);
    MainQueueFlags(s);
  }

  lemma CreateReady(s: State, q: Qid, ok: bool)
    requires Ready(s) && MainOk(s.env, s.conn, s.th) && StepCreate(s, q, ok).Some?
    ensures Ready(StepCreate(s, q, ok).value)
  {
  }

  lemma StepReady(s: State, a: Action)
    requires Ready(s) && Stocked(s) && LifeOk(s) && Step(s, a).Some?
    ensures Ready(Step(s, a).value)
  {
    hide FlagsOk, FansOk, ListsOk;
    hide StepProducer, StepWorker, StepConsumer, StepCreate, StepTransport, StepSocket, StepListener, StepMain;
    if OfProducer(a) { ProducerReady(s, a); }
    else if OfWorker(a) { WorkerFlags(s, a); WorkerFans(s, a); WorkerReady(s, a); }
    else if a.ConsumerStep? { ConsumerReady(s); }
    else if a.Create? { CreateReady(s, a.q, a.ok); }
    else if a.TransportStep? {
      TransportSilent(s, a.ok);
      TransportFlags(s, a.ok);
      ListsReady(s, StepTransport(s, a.ok).value);
      FlagsKept(s, StepTransport(s, a.ok).value);
      TransportLists(s, a.ok);
    }
    else if OfSocket(a) { SocketReady(s, a); }
    else if OfListener(a) { ListenerReady(s, a); }
    else {
      MainSilent(s);
      MainFlags(s);
      ListsReady(s, StepMain(s).value);
      MainLists(s);
    }
  }

  ghost predicate Sane(s: State) { Inv(s) && Ready(s) }

  lemma StepSane(s: State, a: Action)
    requires Sane(s) && Step(s, a).Some?
    ensures Sane(Step(s, a).value)
  {
    hide Step, Ready, LifeOk, TypesOk, SeqOk, StampedOk;
    StepInv(s, a);
    StepReady(s, a);
  }

  lemma {:induction false} RunSane(s: State, run: seq<Action>)
    requires Sane(s) && Exec(s, run).Some?
    ensures Sane(Exec(s, run).value)
    decreases |run|
  {
    hide Sane, Step;
    if run != [] {
      StepSane(s, run[0]);
      RunSane(Step(s, run[0]).value, run[1..]);
    }
  }

  lemma InitSane(s: State)
    requires Init(s)
    ensures Sane(s)
  {
    InitInv(s);
    hide Inv;
  }

  // ---------------------------------------------------------------- the work left

  const MAX := Registry.MAX_SUBSCRIBERS

  /** Processing one ingest item takes fewer steps than this, whatever it leads to. */
  const ITEM: nat := 6 + 10 * MAX

  function Ahead(i: nat): nat { if i <= MAX then MAX - i else 0 }

  function WorkerRank(pc: Worker): nat {
    match pc
    case WDone(_) => 0
    case WWait => 1
    case WFree(_) => 2
    case WCopy(_, _, _, i, _) => 2 + 10 * Ahead(i)
    case WFan(_, _, _, i) => 3 + 10 * Ahead(i)
    case WMsg(_, _, _) => 4 + 10 * MAX
    case WRaw(_) => 5 + 10 * MAX
  }

  function ProducerRank(pc: Producer): nat {
    match pc
    case PDone => 0
    case PTop => 1
    case PRest => 2
    case PAlert(_) => 3 + ITEM
    case PNext => 4 + ITEM
    case PTelemetry(_) => 5 + 2 * ITEM
    case PIdle => 6 + 2 * ITEM
  }

  function ConsumerRank(pc: Consumer): nat {
    match pc
    case CDone(_) => 0
    case CWait => 1
    case CAlert(_) => 2
    case CPoll => 3
    case CTelemetry(_) => 4
    case CIdle => 5
  }

  function StageRank(g: Stage): nat {
    match g
    case Gone => 0
    case Accept => 1
    case DropA => 2
    case DropT => 3
    case UnsubA => 4
    case UnsubT => 5
    case Join => 6
    case Serve => 7
    case Writing => 8
    case Send => 9
    case ServeA => 10
    case Start => 11
    case SubA => 12
    case SubT => 13
    case MakeA => 14
    case MakeT => 15
    case Answer => 16
    case Greet => 17
    case Poll => 18
  }

  function ListenerRank(l: Listener): nat {
    match l
    case LOff => 0
    case LOut => 0
    case LRead => 1
    case LHold(_) => 2 + ITEM
  }

  function TransportRank(c: Connection): nat { 2 * StageRank(c.stage) + ListenerRank(c.listener) }

  ghost function WorkersRank(ws: map<Wid, Worker>): nat
    decreases |ws|
  {
    if ws == map[] then 0
    else var w :| w in ws; WorkerRank(ws[w]) + WorkersRank(ws - {w})
  }

  lemma {:induction false} RankSplit(ws: map<Wid, Worker>, w: Wid)
    requires w in ws
    ensures WorkersRank(ws) == WorkerRank(ws[w]) + WorkersRank(ws - {w})
    decreases |ws|
  {
    hide WorkerRank;
    var v :| v in ws && WorkersRank(ws) == WorkerRank(ws[v]) + WorkersRank(ws - {v});
    if v != w {
      RankSplit(ws - {v}, w);
      RankSplit(ws - {w}, v);
      assert ws - {v} - {w} == ws - {w} - {v};
    }
  }

  lemma RankUpdate(ws: map<Wid, Worker>, w: Wid, pc: Worker)
    requires w in ws
    ensures WorkersRank(ws[w := pc]) + WorkerRank(ws[w]) == WorkersRank(ws) + WorkerRank(pc)
  {
    hide WorkerRank;
    RankSplit(ws, w);
    RankSplit(ws[w := pc], w);
    assert ws[w := pc] - {w} == ws - {w};
  }

  /** How many items wait in the ingest queue, and how many messages for the consumer. */
  function Backlog(qs: Queues): nat { |At(qs, INGEST).items| }

  function Pending(qs: Queues): nat { |At(qs, CONSUMER_TELEMETRY).items| }

  function MainRank(main: nat): nat { if main <= EXIT then EXIT - main else 0 }

  ghost function Work(s: State): nat {
    MainRank(s.env.main) + ProducerRank(s.th.producer) + ConsumerRank(s.th.consumer) + WorkersRank(s.th.workers)
    + TransportRank(s.conn) + ITEM * Backlog(s.queues) + 4 * Pending(s.queues)
  }

  // ---------------------------------------------------------------- every step uses some of it

  /** A command line has been read. */
  predicate IsCommand(a: Action) { a.SetInterval? || a.Trigger? }

  ghost predicate SamePlace(s: State, t: State) { t.env.main == s.env.main }

  lemma ProducerWorks(s: State, a: Action)
    requires s.env.stop && StepProducer(s, a).Some?
    ensures Work(StepProducer(s, a).value) < Work(s) && SamePlace(s, StepProducer(s, a).value)
  {
    hide Usable, Live, Free, Alloc, WorkersRank, ConsumerRank, TransportRank, MainRank;
  }

  lemma ConsumerWorks(s: State)
    requires StepConsumer(s).Some?
    ensures Work(StepConsumer(s).value) < Work(s) && SamePlace(s, StepConsumer(s).value)
  {
    hide Usable, Readable, Free, WorkersRank, ProducerRank, TransportRank, MainRank;
  }

  lemma InjectWorks(s: State)
    requires StepListener(s, Inject).Some?
    ensures Work(StepListener(s, Inject).value) < Work(s) && SamePlace(s, StepListener(s, Inject).value)
  {
    hide Usable, Live, Free, WorkersRank, ProducerRank, ConsumerRank, StageRank, MainRank;
  }

  lemma ListenerWorks(s: State, a: Action)
    requires StepListener(s, a).Some?
    ensures !IsCommand(a) ==> Work(StepListener(s, a).value) < Work(s)
    ensures IsCommand(a) ==> Work(StepListener(s, a).value) <= Work(s) + 1 + ITEM
    ensures SamePlace(s, StepListener(s, a).value)
  {
    if a.Inject? {
      InjectWorks(s);
    } else {
      hide Alloc, GoodAlert, WorkersRank, ProducerRank, ConsumerRank, StageRank, MainRank, Backlog, Pending;
    }
  }

  lemma SocketWorks(s: State, a: Action)
    requires StepSocket(s, a).Some?
    ensures Work(StepSocket(s, a).value) < Work(s) && SamePlace(s, StepSocket(s, a).value)
  {
    hide Readable, Free, WorkersRank, ProducerRank, ConsumerRank, ListenerRank, MainRank, Backlog, Pending;
  }

  /** The part of the work that a worker's step can change. */
  function Load(pc: Worker, qs: Queues): nat { WorkerRank(pc) + ITEM * Backlog(qs) + 4 * Pending(qs) }

  lemma TakeLoad(s: State, a: Action)
    requires FansOk(s.env, s.th.workers) && ListsOk(s.env) && OfWorker(a) && !a.Deliver? && StepWorker(s, a).Some?
    ensures var t := StepWorker(s, a).value;
            a.w in t.th.workers && Load(t.th.workers[a.w], t.queues) < Load(s.th.workers[a.w], s.queues)
  {
    hide Usable, Live, Readable, Free, Alloc, Enrich, SeqNumber;
  }

  /** A delivery gives the consumer at most one message to handle, and is never to the ingest queue. */
  lemma DeliverLoad(s: State, a: Action)
    requires FansOk(s.env, s.th.workers) && ListsOk(s.env) && LifeOk(s) && a.Deliver? && StepWorker(s, a).Some?
    ensures var t := StepWorker(s, a).value;
            a.w in t.th.workers && Load(t.th.workers[a.w], t.queues) < Load(s.th.workers[a.w], s.queues)
  {
    DeliverElsewhere(s, a);
    hide Usable, Live, Free, LifeOk, Backlog;
  }

  lemma DeliverElsewhere(s: State, a: Action)
    requires LifeOk(s) && a.Deliver? && StepWorker(s, a).Some?
    ensures Backlog(StepWorker(s, a).value.queues) == Backlog(s.queues)
  {
    hide Live, Free, SetWorker;
    var me := s.th.workers[a.w];
    assert Subs(s.env, me.topic)[me.i] in Subs(s.env, me.topic);
  }

  /** Nothing but one worker, the queues, the lock and the books. */
  lemma WorkerOnly(s: State, a: Action)
    requires OfWorker(a) && StepWorker(s, a).Some?
    ensures var t := StepWorker(s, a).value;
            && t.env.main == s.env.main && t.conn == s.conn && t.th.producer == s.th.producer
            && t.th.consumer == s.th.consumer && a.w in s.th.workers && a.w in t.th.workers
            && t.th.workers == s.th.workers[a.w := t.th.workers[a.w]]
  {
    hide Usable, Live, Readable, Free, Alloc, Enrich, Pop, Receive, SeqNumber;
  }

  lemma WorkerWorks(s: State, a: Action)
    requires Ready(s) && LifeOk(s) && OfWorker(a) && StepWorker(s, a).Some?
    ensures Work(StepWorker(s, a).value) < Work(s) && SamePlace(s, StepWorker(s, a).value)
  {
    WorkerOnly(s, a);
    if a.Deliver? { DeliverLoad(s, a); } else { TakeLoad(s, a); }
    var t := StepWorker(s, a).value;
    RankUpdate(s.th.workers, a.w, t.th.workers[a.w]);
    hide StepWorker, Ready;
    hide WorkersRank, WorkerRank, ProducerRank, ConsumerRank, TransportRank, MainRank, Backlog, Pending;
  }

  lemma CreateWorks(s: State, q: Qid, ok: bool)
    requires MainOk(s.env, s.conn, s.th) && StepCreate(s, q, ok).Some?
    ensures Work(StepCreate(s, q, ok).value) < Work(s) && SamePlace(s, StepCreate(s, q, ok).value)
  {
    hide WorkersRank, ProducerRank, ConsumerRank, ListenerRank, MainRank;
  }

  /** What the transport thread does to the rest of the process: nothing that makes work. */
  ghost predicate Aside(s: State, t: State) {
    && t.env.main == s.env.main && t.th == s.th && TransportRank(t.conn) < TransportRank(s.conn)
    && Backlog(t.queues) == Backlog(s.queues) && Pending(t.queues) == Pending(s.queues)
  }

  lemma ListsAside(s: State)
    ensures s.conn.stage.SubT? && StepSubT(s).Some? ==> Aside(s, StepSubT(s).value)
    ensures s.conn.stage.SubA? && StepSubA(s).Some? ==> Aside(s, StepSubA(s).value)
  {
    hide Joined, CanJoin, ListenerRank, Backlog, Pending;
  }

  lemma UnlistsAside(s: State)
    ensures s.conn.stage.UnsubT? && StepUnsubT(s).Some? ==> Aside(s, StepUnsubT(s).value)
    ensures s.conn.stage.UnsubA? && StepUnsubA(s).Some? ==> Aside(s, StepUnsubA(s).value)
  {
    hide Left, ListenerRank, Backlog, Pending;
  }

  lemma ServeAside(s: State, ok: bool)
    requires ConnectionOk(s.env, s.conn) && s.env.stop
    ensures s.conn.stage.Serve? && StepServe(s).Some? ==> Aside(s, StepServe(s).value)
    ensures s.conn.stage.ServeA? && StepServeA(s).Some? ==> Aside(s, StepServeA(s).value)
    ensures s.conn.stage.Send? && StepSend(s, ok).Some? ==> Aside(s, StepSend(s, ok).value)
  {
    hide Usable, Readable, Free, ListenerRank;
  }

  lemma DropAside(s: State)
    requires ConnectionOk(s.env, s.conn) && (s.conn.stage.DropT? || s.conn.stage.DropA?) && StepDrop(s).Some?
    ensures Aside(s, StepDrop(s).value)
  {
    hide Usable, Abandon;
  }

  lemma TransportAside(s: State, ok: bool)
    requires ConnectionOk(s.env, s.conn) && s.env.stop && StepTransport(s, ok).Some?
    ensures Aside(s, StepTransport(s, ok).value)
  {
    hide StepSubT, StepSubA, StepUnsubT, StepUnsubA, StepServe, StepServeA, StepSend, StepDrop, Backlog, Pending;
    match s.conn.stage
    case SubT => ListsAside(s);
    case SubA => ListsAside(s);
    case UnsubT => UnlistsAside(s);
    case UnsubA => UnlistsAside(s);
    case Serve => ServeAside(s, ok);
    case ServeA => ServeAside(s, ok);
    case Send => ServeAside(s, ok);
    case DropT => DropAside(s);
    case DropA => DropAside(s);
    case _ =>
  }

  /** main's part: one position further, no new work. */
  ghost predicate Onward(s: State, t: State) {
    && t.env.main == s.env.main + 1 && t.th == s.th && t.conn == s.conn
    && Backlog(t.queues) <= Backlog(s.queues) && Pending(t.queues) <= Pending(s.queues)
  }

  lemma MainOnwardLists(s: State)
    ensures UNSUB_T <= s.env.main <= UNSUB_A && StepMainUnsub(s).Some? ==> Onward(s, StepMainUnsub(s).value)
    ensures StepMainJoin(s).Some? ==> Onward(s, StepMainJoin(s).value)
    ensures DROP_CONTROL <= s.env.main <= DROP_CONTEXT ==> Onward(s, StepMainFinish(s))
  {
    hide Left, Backlog, Pending;
  }

  lemma MainOnwardQueues(s: State)
    ensures Onward(s, StepMainShut(s)) && Onward(s, StepMainDestroy(s))
  {
    hide Usable, Abandon;
  }

  lemma MainOnward(s: State)
    requires s.env.main > AWAIT_SIGNAL && StepMain(s).Some?
    ensures Onward(s, StepMain(s).value) && s.env.main < EXIT
  {
    hide StepMainSubscribe, StepMainUnsub, StepMainJoin, StepMainShut, StepMainDestroy, StepMainStart, StepMainFinish;
    hide Onward;
    MainOnwardLists(s);
    MainOnwardQueues(s);
  }

  /** After the request every step but a command uses up work; a command adds a bounded amount. */
  lemma StepWorks(s: State, a: Action)
    requires Sane(s) && s.env.stop && Step(s, a).Some?
    ensures !IsCommand(a) ==> Work(Step(s, a).value) < Work(s)
    ensures IsCommand(a) ==> Work(Step(s, a).value) <= Work(s) + 1 + ITEM
    ensures Step(s, a).value.env.stop
  {
    SaneLife(s);
    assert Ready(s) && s.env.main > AWAIT_SIGNAL;
    assert Ready(Step(s, a).value) by { StepSane(s, a); }
    hide Sane, LifeOk, FansOk, ListsOk, Work, At;
    hide StepProducer, StepWorker, StepConsumer, StepCreate, StepTransport, StepSocket, StepListener, StepMain;
    if OfProducer(a) { ProducerWorks(s, a); }
    else if OfWorker(a) { WorkerWorks(s, a); }
    else if a.ConsumerStep? { ConsumerWorks(s); }
    else if a.Create? { PartsOf(s); CreateWorks(s, a.q, a.ok); }
    else if a.TransportStep? { PartsOf(s); TransportAside(s, a.ok); AsideWorks(s, StepTransport(s, a.ok).value); }
    else if OfSocket(a) { SocketWorks(s, a); }
    else if OfListener(a) { ListenerWorks(s, a); }
    else { MainOnward(s); OnwardWorks(s, StepMain(s).value); }
  }

  lemma SaneLife(s: State)
    requires Sane(s)
    ensures LifeOk(s)
  {
    hide LifeOk, OwnOk, TypesOk, SeqOk, StampedOk, Ready;
  }

  lemma AsideWorks(s: State, t: State)
    requires Aside(s, t)
    ensures Work(t) < Work(s)
  {
    hide WorkersRank, ProducerRank, ConsumerRank, TransportRank, MainRank, Backlog, Pending;
  }

  lemma OnwardWorks(s: State, t: State)
    requires Onward(s, t) && s.env.main < EXIT
    ensures Work(t) < Work(s)
  {
    hide WorkersRank, ProducerRank, ConsumerRank, TransportRank, Backlog, Pending;
  }
}
