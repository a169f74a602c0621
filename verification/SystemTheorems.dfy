/** The guarantees of the whole process over every interleaving. */
module SystemTheorems {
  import opened System
  import opened Messages
  import opened Lifetimes
  import opened Ownership
  import opened Routing
  import opened Sequence
  import Registry

  // ---------------------------------------------------------------- what is held is live

  /** One occurrence anywhere but among the freed and the lost uses up the only one there is. */
  lemma CountedIsLive(s: State, p: Pid)
    requires OwnOk(s) && Count(s, p) > s.mem.freed[p] + s.mem.lost[p]
    ensures Live(s.mem, p)
  {
    hide Count, Placed;
    CountIsPlaced(s, p);
    assert Placed(s)[p] == multiset(s.mem.heap.Keys)[p] <= 1;
  }

  lemma HandsLive(s: State)
    requires OwnOk(s)
    ensures s.th.producer.PTelemetry? || s.th.producer.PAlert? ==> Live(s.mem, s.th.producer.p)
    ensures s.th.consumer.CTelemetry? || s.th.consumer.CAlert? ==> Live(s.mem, s.th.consumer.it.payload)
    ensures s.conn.held.Some? ==> Live(s.mem, s.conn.held.value.payload)
    ensures s.conn.listener.LHold? ==> Live(s.mem, s.conn.listener.p)
  {
    hide OwnOk, Live, Queued, WorkersHold;
    if s.th.producer.PTelemetry? || s.th.producer.PAlert? { CountedIsLive(s, s.th.producer.p); }
    if s.th.consumer.CTelemetry? || s.th.consumer.CAlert? { CountedIsLive(s, s.th.consumer.it.payload); }
    if s.conn.held.Some? { CountedIsLive(s, s.conn.held.value.payload); }
    if s.conn.listener.LHold? { CountedIsLive(s, s.conn.listener.p); }
  }

  lemma WorkerHoldsIt(ws: map<Wid, Worker>, w: Wid, p: Pid)
    requires w in ws
    ensures WorkersHold(ws)[p] >= InWorker(ws[w], p)
  {
    hide Total;
    TotalSplit(WorkerHoldings(ws), w);
    HandIs(ws[w], p);
    assert (WorkerHand(ws[w]) + Total(WorkerHoldings(ws) - {w}))[p] >= WorkerHand(ws[w])[p];
  }

  lemma WorkerLive(s: State, w: Wid)
    requires OwnOk(s) && w in s.th.workers
    ensures var pc := s.th.workers[w];
            && (!pc.WWait? && !pc.WDone? ==> Live(s.mem, pc.it.payload))
            && (pc.WCopy? ==> Live(s.mem, pc.copy))
  {
    hide OwnOk, Live, Queued, WorkersHold, InProducer, InConsumer, InConnection;
    var pc := s.th.workers[w];
    if !pc.WWait? && !pc.WDone? {
      WorkerHoldsIt(s.th.workers, w, pc.it.payload);
      CountedIsLive(s, pc.it.payload);
    }
    if pc.WCopy? {
      WorkerHoldsIt(s.th.workers, w, pc.copy);
      CountedIsLive(s, pc.copy);
    }
  }

  // ---------------------------------------------------------------- no step faults

  ghost predicate Good(s: State) { LifeOk(s) && OwnOk(s) && TypesOk(s) && !s.fault }

  lemma ProducerSafe(s: State, a: Action)
    requires Good(s) && StepProducer(s, a).Some?
    ensures !StepProducer(s, a).value.fault
  {
    HandsLive(s);
    hide OwnOk, TypesOk, Live, Push, Free;
  }

  lemma ConsumerSafe(s: State)
    requires Good(s) && StepConsumer(s).Some?
    ensures !StepConsumer(s).value.fault
  {
    HandsLive(s);
    hide OwnOk, QueuesFit, WorkersFit, Pop, Free;
  }

  lemma WorkerSafe(s: State, a: Action)
    requires Good(s) && OfWorker(a) && StepWorker(s, a).Some?
    ensures !StepWorker(s, a).value.fault
  {
    DeliverTarget(s, a);
    WorkerLive(s, a.w);
    assert WorkerFits(s.th.workers[a.w], s.mem.heap);
    hide OwnOk, QueuesFit, WorkersFit, HandsFit, Pop, Receive, Free, ConnectionOk, RegistryOk;
  }

  lemma ListenerSafe(s: State, a: Action)
    requires Good(s) && StepListener(s, a).Some?
    ensures !StepListener(s, a).value.fault
  {
    HandsLive(s);
    hide OwnOk, TypesOk, Live, Push, Free;
  }

  lemma TransportSafe(s: State, ok: bool)
    requires Good(s) && StepTransport(s, ok).Some?
    ensures !StepTransport(s, ok).value.fault
  {
    HandsLive(s);
    hide OwnOk, QueuesFit, WorkersFit, Pop, Free, Left, Joined, Emptied, Abandon;
  }

  lemma SocketSafe(s: State, a: Action)
    requires Good(s) && StepSocket(s, a).Some?
    ensures !StepSocket(s, a).value.fault
  {
    HandsLive(s);
    hide OwnOk, QueuesFit, WorkersFit, Free, RegistryOk, LockOk, MainOk;
  }

  lemma MainSafe(s: State)
    requires Good(s) && StepMain(s).Some?
    ensures !StepMain(s).value.fault
  {
    hide OwnOk, TypesOk, ConnectionOk, RegistryOk, Shut, Left, Joined, Emptied, Abandon;
  }

  lemma StepSafe(s: State, a: Action)
    requires Good(s) && Step(s, a).Some?
    ensures !Step(s, a).value.fault
  {
    hide LifeOk, OwnOk, TypesOk;
    hide StepProducer, StepWorker, StepConsumer, StepTransport, StepSocket, StepListener, StepMain;
    if OfProducer(a) { ProducerSafe(s, a); }
    else if OfWorker(a) { WorkerSafe(s, a); }
    else if a.ConsumerStep? { ConsumerSafe(s); }
    else if a.Create? { }
    else if a.TransportStep? { TransportSafe(s, a.ok); }
    else if OfSocket(a) { SocketSafe(s, a); }
    else if OfListener(a) { ListenerSafe(s, a); }
    else { MainSafe(s); }
  }

  // ---------------------------------------------------------------- every reachable state

  ghost predicate Inv(s: State) { Good(s) && SeqOk(s) && StampedOk(s) }

  lemma StepInv(s: State, a: Action)
    requires Inv(s) && Step(s, a).Some?
    ensures Inv(Step(s, a).value)
  {
    hide Step, LifeOk, TypesOk, SeqOk, StampedOk;
    StepLife(s, a);
    StepOwn(s, a);
    StepTypes(s, a);
    StepSeq(s, a);
    StepStamped(s, a);
    StepSafe(s, a);
  }

  lemma InitInv(s: State)
    requires Init(s)
    ensures Inv(s)
  {
    InitLife(s);
    InitOwn(s);
    InitTypes(s);
    InitSeq(s);
  }

  lemma {:induction false} RunInv(s: State, run: seq<Action>)
    requires Inv(s) && Exec(s, run).Some?
    ensures Inv(Exec(s, run).value)
    decreases |run|
  {
    hide Inv, Step;
    if run != [] {
      StepInv(s, run[0]);
      RunInv(Step(s, run[0]).value, run[1..]);
    }
  }

  /** No interleaving ever uses a destroyed queue, control or context, frees a payload twice,
      touches a freed one, or casts one to the wrong record. */
  lemma NoFaultEver(s0: State, run: seq<Action>)
    requires Init(s0) && Exec(s0, run).Some?
    ensures !Exec(s0, run).value.fault
  {
    hide Step;
    InitInv(s0);
    RunInv(s0, run);
  }

  /** A registered queue is alive and has exactly the role of the list it is in. */
  lemma RegisteredAlive(s: State, q: Qid)
    requires LifeOk(s)
    ensures q in s.env.subsT ==> Usable(s.env, q) && s.env.roles[q] == TelemetrySub
    ensures q in s.env.subsA ==> Usable(s.env, q) && s.env.roles[q] == AlertSub
  {
    hide Registry.NoDuplicates, LockOk;
  }

  lemma StoredFits(s: State, q: Qid, it: Item)
    requires TypesOk(s) && q in s.env.roles && q in s.queues && it in s.queues[q].items
    ensures Fits(s.mem.heap, s.env.roles[q], it)
  {
    hide Fits, WorkersFit, HandsFit;
    var i :| 0 <= i < |s.queues[q].items| && s.queues[q].items[i] == it;
  }

  /** Registry liveness: in every reachable state every registered queue exists, has not been
      destroyed, and is registered under one topic only. */
  lemma RegistryNeverDangles(s0: State, run: seq<Action>, q: Qid)
    requires Init(s0) && Exec(s0, run).Some?
    ensures var e := Exec(s0, run).value.env;
            && (q in e.subsT || q in e.subsA ==> Usable(e, q))
            && !(q in e.subsT && q in e.subsA)
  {
    hide Step, LifeOk, OwnOk, TypesOk, SeqOk, Init;
    InitInv(s0);
    RunInv(s0, run);
    RegisteredAlive(Exec(s0, run).value, q);
  }

  /** Type routing: the ingest queue holds raw items whose tag names their record, and a queue
      registered under a topic holds messages of that topic only. */
  lemma RoutingIsTyped(s0: State, run: seq<Action>, q: Qid, it: Item)
    requires Init(s0) && Exec(s0, run).Some?
    requires q in Exec(s0, run).value.queues && it in Exec(s0, run).value.queues[q].items
    ensures var s := Exec(s0, run).value;
            && it.payload in s.mem.heap
            && (q == INGEST ==> IsShape(s.mem.heap[it.payload], it.kind, true))
            && (q in s.env.subsT ==> it.kind == Telemetry && s.mem.heap[it.payload].TelemetryMsg?)
            && (q in s.env.subsA ==> it.kind == Alert && s.mem.heap[it.payload].AlertMsg?)
  {
    hide Step, OwnOk, TypesOk, SeqOk, Init;
    InitInv(s0);
    RunInv(s0, run);
    var s := Exec(s0, run).value;
    RegisteredAlive(s, q);
    assert q in s.env.roles by { StockedOf(s); }
    StoredFits(s, q, it);
    hide RegistryOk, ConnectionOk, LockOk;
  }

  lemma StockedOf(s: State)
    requires OwnOk(s)
    ensures Stocked(s)
  {
  }

  /** Payload conservation: every payload ever allocated is in exactly one hand, queue slot,
      the freed set or the set a destroy left behind, so the totals add up. */
  lemma EveryPayloadInOnePlace(s0: State, run: seq<Action>)
    requires Init(s0) && Exec(s0, run).Some?
    ensures var s := Exec(s0, run).value;
            && Held(s) + Queued(s.queues) + s.mem.freed + s.mem.lost == multiset(s.mem.heap.Keys)
            && |Held(s)| + |Queued(s.queues)| + |s.mem.freed| + |s.mem.lost| == |s.mem.heap|
            && (forall p: Pid :: s.mem.freed[p] <= 1)
  {
    hide Step;
    InitInv(s0);
    RunInv(s0, run);
    hide LifeOk, TypesOk, SeqOk, Held, Queued;
    var s := Exec(s0, run).value;
    assert Placed(s) == multiset(s.mem.heap.Keys);
    forall p: Pid ensures s.mem.freed[p] <= 1 {
      assert Placed(s)[p] >= s.mem.freed[p];
    }
  }

  /** Sequence numbers over any interleaving of workers: exactly `issued` have been handed out, and
      no two of them are equal if and only if there are at most 2^32. */
  lemma StampsDistinctIff(s0: State, run: seq<Action>)
    requires Init(s0) && Exec(s0, run).Some?
    ensures var s := Exec(s0, run).value;
            && |s.th.book.stamped| == s.issued
            && (forall k | 0 <= k < s.issued :: s.th.book.stamped[k] == (k + 1) % 4294967296)
            && (Registry.NoDuplicates(s.th.book.stamped) <==> s.issued <= UINT32)
  {
    hide Step, Init, LifeOk, TypesOk, OwnOk, SeqOk;
    InitInv(s0);
    RunInv(s0, run);
    StampedDistinctIff(Exec(s0, run).value);
  }

  /** Sequence numbers: until 2^32 have been issued, no queue's history repeats one. */
  lemma NoRepeatedSequence(s0: State, run: seq<Action>, q: Qid)
    requires Init(s0) && Exec(s0, run).Some?
    ensures var s := Exec(s0, run).value;
            s.issued <= UINT32 && q in s.queues ==> Registry.NoDuplicates(s.queues[q].seen)
  {
    hide Step;
    InitInv(s0);
    RunInv(s0, run);
    hide LifeOk, TypesOk, OwnOk, AllUnsent;
    var s := Exec(s0, run).value;
    if q in s.queues { assert Histories(s.queues)[q] == s.queues[q].seen; }
  }
}
