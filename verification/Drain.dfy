/** What a shutdown leaves in the ingest queue. The documentation says queues are drained; the
    ingest queue is, exactly when no item was accepted after the last worker had returned. */
module Drain {
  import opened System
  import opened Messages
  import opened Lifetimes
  import opened Ownership
  import opened Routing
  import opened Sequence
  import opened SystemTheorems
  import opened Completion

  ghost predicate AllDone(ws: map<Wid, Worker>) { forall w | w in ws :: ws[w].WDone? }

  /** Worker `w` returned when `n` items had been accepted. */
  ghost predicate LeftAt(ws: map<Wid, Worker>, w: Wid, n: nat) { w in ws && ws[w] == WDone(n) }

  /** The backlog is what arrived since a worker found the queue empty and shut down. */
  ghost predicate Settled(backlog: nat, arrivals: nat, ws: map<Wid, Worker>, intact: bool) {
    && ws != map[]
    && (forall w, n: nat | LeftAt(ws, w, n) :: n <= arrivals && backlog <= arrivals - n)
    && (intact && AllDone(ws) ==> exists w, n: nat :: LeftAt(ws, w, n) && n <= arrivals && backlog == arrivals - n)
  }

  ghost predicate DrainOk(s: State) {
    Settled(Backlog(s.queues), s.arrivals, s.th.workers, s.env.main <= DROP_INGEST)
  }

  lemma BacklogKept(qs: Queues, q: Qid, it: Item)
    requires q != INGEST
    ensures Backlog(Push(qs, q, it)) == Backlog(Receive(qs, q, it)) == Backlog(Emptied(qs, q)) == Backlog(qs)
    ensures Backlog(qs[q := FRESH]) == Backlog(qs)
    ensures At(qs, q).items != [] ==> Backlog(Pop(qs, q)) == Backlog(qs)
  {
  }

  lemma ShutKeeps(qs: Queues, q: Qid)
    ensures Backlog(Shut(qs, q)) == Backlog(qs)
  {
  }

  /** One more arrival, one more in the queue. */
  lemma ArrivalSettles(backlog: nat, arrivals: nat, ws: map<Wid, Worker>, intact: bool)
    requires Settled(backlog, arrivals, ws, intact)
    ensures Settled(backlog + 1, arrivals + 1, ws, intact)
  {
    if intact && AllDone(ws) {
      var w, n: nat :| LeftAt(ws, w, n) && n <= arrivals && backlog == arrivals - n;
      assert LeftAt(ws, w, n) && backlog + 1 == arrivals + 1 - n;
    }
  }

  lemma ProducerDrain(s: State, a: Action)
    requires DrainOk(s) && StepProducer(s, a).Some?
    ensures DrainOk(StepProducer(s, a).value)
  {
    hide Settled, Usable, Live, Free;
    ArrivalSettles(Backlog(s.queues), s.arrivals, s.th.workers, s.env.main <= DROP_INGEST);
  }

  lemma ListenerDrain(s: State, a: Action)
    requires DrainOk(s) && StepListener(s, a).Some?
    ensures DrainOk(StepListener(s, a).value)
  {
    hide Settled, Usable, Live, Free;
    ArrivalSettles(Backlog(s.queues), s.arrivals, s.th.workers, s.env.main <= DROP_INGEST);
  }

  lemma ConsumerDrain(s: State)
    requires DrainOk(s) && StepConsumer(s).Some?
    ensures DrainOk(StepConsumer(s).value)
  {
    hide Settled, Backlog, Pop, Usable, Readable, Free;
    BacklogKept(s.queues, CONSUMER_TELEMETRY, Item(0, Alert, 0));
    BacklogKept(s.queues, CONSUMER_ALERTS, Item(0, Alert, 0));
  }

  /** A worker that takes an item is not done; one that leaves does so on an empty queue. */
  lemma MoveSettles(backlog: nat, arrivals: nat, ws: map<Wid, Worker>, intact: bool, w: Wid, pc: Worker)
    requires Settled(backlog, arrivals, ws, intact) && w in ws && !ws[w].WDone?
    ensures !pc.WDone? ==> Settled(backlog, arrivals, ws[w := pc], intact)
    ensures !pc.WDone? && backlog > 0 ==> Settled(backlog - 1, arrivals, ws[w := pc], intact)
    ensures pc == WDone(arrivals) && backlog == 0 ==> Settled(backlog, arrivals, ws[w := pc], intact)
  {
    var ws' := ws[w := pc];
    assert !pc.WDone? ==> !AllDone(ws') by { assert ws'[w] == pc; }
    forall v, n: nat | LeftAt(ws', v, n) && v != w ensures LeftAt(ws, v, n) {}
    if pc == WDone(arrivals) { assert LeftAt(ws', w, arrivals); }
  }

  lemma WorkerDrain(s: State, a: Action)
    requires DrainOk(s) && Stocked(s) && LifeOk(s) && OfWorker(a) && StepWorker(s, a).Some?
    ensures DrainOk(StepWorker(s, a).value)
  {
    if a.Deliver? { DeliverElsewhere(s, a); }
    hide Settled, Usable, Live, Readable, Free, LifeOk, Receive;
    var t := StepWorker(s, a).value;
    MoveSettles(Backlog(s.queues), s.arrivals, s.th.workers, s.env.main <= DROP_INGEST, a.w, t.th.workers[a.w]);
  }

  lemma ServeDrain(s: State)
    requires DrainOk(s) && ConnectionOk(s.env, s.conn)
    ensures StepServe(s).Some? ==> DrainOk(StepServe(s).value)
    ensures StepServeA(s).Some? ==> DrainOk(StepServeA(s).value)
  {
    hide Settled, Backlog, Pop;
    if s.conn.tq.Some? { BacklogKept(s.queues, s.conn.tq.value, Item(0, Alert, 0)); }
    if s.conn.aq.Some? { BacklogKept(s.queues, s.conn.aq.value, Item(0, Alert, 0)); }
  }

  lemma DropDrain(s: State)
    requires DrainOk(s) && ConnectionOk(s.env, s.conn)
    requires (s.conn.stage.DropT? || s.conn.stage.DropA?) && StepDrop(s).Some?
    ensures DrainOk(StepDrop(s).value)
  {
    hide Settled, Backlog, Emptied, Abandon;
    if s.conn.tq.Some? { BacklogKept(s.queues, s.conn.tq.value, Item(0, Alert, 0)); }
    if s.conn.aq.Some? { BacklogKept(s.queues, s.conn.aq.value, Item(0, Alert, 0)); }
  }

  lemma ListsDrain(s: State)
    requires DrainOk(s)
    ensures StepSubT(s).Some? ==> DrainOk(StepSubT(s).value)
    ensures StepSubA(s).Some? ==> DrainOk(StepSubA(s).value)
    ensures StepUnsubT(s).Some? ==> DrainOk(StepUnsubT(s).value)
    ensures StepUnsubA(s).Some? ==> DrainOk(StepUnsubA(s).value)
  {
    hide Settled, Backlog, Joined, Left;
  }

  lemma SocketDrain(s: State, a: Action)
    requires DrainOk(s) && StepSocket(s, a).Some?
    ensures DrainOk(StepSocket(s, a).value)
  {
    hide Settled, Backlog, Readable, Free;
  }

  lemma TransportDrain(s: State, ok: bool)
    requires DrainOk(s) && ConnectionOk(s.env, s.conn) && StepTransport(s, ok).Some?
    ensures DrainOk(StepTransport(s, ok).value)
  {
    hide Settled, Backlog, Readable, Free, StepServe, StepServeA, StepDrop, StepSubT, StepSubA, StepUnsubT, StepUnsubA;
    match s.conn.stage
    case Serve => ServeDrain(s);
    case ServeA => ServeDrain(s);
    case DropT => DropDrain(s);
    case DropA => DropDrain(s);
    case SubT => ListsDrain(s);
    case SubA => ListsDrain(s);
    case UnsubT => ListsDrain(s);
    case UnsubA => ListsDrain(s);
    case _ =>
  }

  lemma CreateDrain(s: State, q: Qid, ok: bool)
    requires DrainOk(s) && Stocked(s) && StepCreate(s, q, ok).Some?
    ensures DrainOk(StepCreate(s, q, ok).value)
  {
    hide Settled, Backlog;
    BacklogKept(s.queues, q, Item(0, Alert, 0));
  }

  lemma MainDestroyDrain(s: State)
    requires DrainOk(s) && (UNSUB_A < s.env.main <= DROP_A || s.env.main == DROP_INGEST)
    ensures DrainOk(StepMainDestroy(s))
  {
    hide Usable, Abandon;
    if MainQueue(s.env.main) != INGEST { BacklogKept(s.queues, MainQueue(s.env.main), Item(0, Alert, 0)); }
  }

  lemma MainDrain(s: State)
    requires DrainOk(s) && StepMain(s).Some?
    ensures DrainOk(StepMain(s).value)
  {
    hide Usable, Left, Joined, Shut, Backlog, StepMainDestroy, LeftAt;
    ShutKeeps(s.queues, MainQueue(s.env.main));
    if UNSUB_A < s.env.main <= DROP_INGEST && s.env.main != JOIN_TRANSPORT { MainDestroyDrain(s); }
  }

  lemma StepDrain(s: State, a: Action)
    requires DrainOk(s) && Inv(s) && Step(s, a).Some?
    ensures DrainOk(Step(s, a).value)
  {
    hide DrainOk, StepProducer, StepWorker, StepConsumer, StepCreate, StepTransport, StepSocket, StepListener, StepMain;
    if OfProducer(a) { ProducerDrain(s, a); }
    else if OfWorker(a) { WorkerDrain(s, a); }
    else if a.ConsumerStep? { ConsumerDrain(s); }
    else if a.Create? { CreateDrain(s, a.q, a.ok); }
    else if a.TransportStep? { TransportDrain(s, a.ok); }
    else if OfSocket(a) { SocketDrain(s, a); }
    else if OfListener(a) { ListenerDrain(s, a); }
    else { MainDrain(s); }
  }

  lemma {:induction false} RunDrain(s: State, run: seq<Action>)
    requires Inv(s) && DrainOk(s) && Exec(s, run).Some?
    ensures DrainOk(Exec(s, run).value)
    decreases |run|
  {
    hide Inv, DrainOk, Step;
    if run != [] {
      StepInv(s, run[0]);
      StepDrain(s, run[0]);
      RunDrain(Step(s, run[0]).value, run[1..]);
    }
  }

  lemma SettledIff(backlog: nat, arrivals: nat, ws: map<Wid, Worker>)
    requires Settled(backlog, arrivals, ws, true) && AllDone(ws)
    ensures backlog == 0 <==> exists w | w in ws :: ws[w] == WDone(arrivals)
  {
    forall w | w in ws && ws[w] == WDone(arrivals) ensures backlog == 0 {
      assert LeftAt(ws, w, arrivals);
    }
    var w, n: nat :| LeftAt(ws, w, n) && n <= arrivals && backlog == arrivals - n;
  }

  lemma InitDrain(s: State)
    requires Init(s)
    ensures DrainOk(s)
  {
    assert exists w :: w in s.th.workers;
  }

  /** When main is about to destroy the ingest queue, it is empty if and only if some worker
      returned after the last item had been accepted. */
  lemma IngestDrainedIff(s0: State, run: seq<Action>)
    requires Init(s0) && Exec(s0, run).Some? && Exec(s0, run).value.env.main == DROP_INGEST
    ensures var s := Exec(s0, run).value;
            At(s.queues, INGEST).items == [] <==> exists w | w in s.th.workers :: s.th.workers[w] == WDone(s.arrivals)
  {
    hide Step, Init, OwnOk, TypesOk, SeqOk, ConnectionOk, RegistryOk, LockOk, Settled;
    SystemTheorems.InitInv(s0);
    InitDrain(s0);
    RunDrain(s0, run);
    RunInv(s0, run);
    var s := Exec(s0, run).value;
    SettledIff(Backlog(s.queues), s.arrivals, s.th.workers);
  }
}
