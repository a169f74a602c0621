/** Which queues, control and context are alive when, and who may be registered. */
module Lifetimes {
  import opened Basics
  import opened System
  import Registry

  /** main's teardown order: every destroy comes after the joins that make it safe. */
  ghost predicate MainOk(e: Env, c: Connection, th: Threads) {
    && INGEST in e.roles && CONSUMER_TELEMETRY in e.roles && CONSUMER_ALERTS in e.roles
    && e.roles[INGEST] == Raw && e.roles[CONSUMER_TELEMETRY] == TelemetrySub && e.roles[CONSUMER_ALERTS] == AlertSub
    && e.dead <= e.roles.Keys
    && (e.main <= DROP_INGEST ==> INGEST !in e.dead)
    && (e.main <= DROP_T ==> CONSUMER_TELEMETRY !in e.dead)
    && (e.main <= DROP_A ==> CONSUMER_ALERTS !in e.dead)
    && (e.main <= DROP_CONTROL ==> !e.controlGone) && (e.main <= DROP_CONTEXT ==> !e.contextGone)
    && (e.main <= START_PRODUCER ==> th.producer.PIdle?) && (e.main > JOIN_PRODUCER ==> th.producer.PDone?)
    && (e.main <= START_CONSUMER ==> th.consumer.CIdle?) && (e.main > JOIN_CONSUMER ==> th.consumer.CDone?)
    && (e.main > JOIN_WORKERS ==> forall w | w in th.workers :: th.workers[w].WDone?)
    && (e.main > JOIN_TRANSPORT ==> c.stage.Gone?)
  }

  predicate Serving(g: Stage) { g.Serve? || g.ServeA? || g.Send? || g.Writing? }

  predicate BeforeQueues(g: Stage) { g.Accept? || g.Poll? || g.Greet? || g.Answer? || g.MakeT? }

  ghost predicate OwnQueue(e: Env, q: Option<Qid>, role: Role) {
    q.Some? ==> q.value > CONSUMER_ALERTS && Usable(e, q.value) && e.roles[q.value] == role
  }

  /** The connection's queues live exactly as long as it may touch them. */
  ghost predicate ConnectionOk(e: Env, c: Connection) {
    && OwnQueue(e, c.tq, TelemetrySub) && OwnQueue(e, c.aq, AlertSub)
    && (c.st ==> c.tq.Some?) && (c.sa ==> c.aq.Some?)
    && (c.held.Some? <==> c.stage.Send? || c.stage.Writing?)
    && (BeforeQueues(c.stage) || c.stage.Gone? ==> c.tq.None? && c.aq.None? && !c.st && !c.sa)
    && (c.stage.MakeA? ==> c.aq.None? && !c.st && !c.sa)
    && (c.stage.SubT? ==> !c.st && !c.sa)
    && (c.stage.SubA? ==> !c.sa)
    && (c.stage.Start? || Serving(c.stage) || c.stage.Join? ==> c.st && c.sa)
    && (c.stage.UnsubA? ==> !c.st)
    && (c.stage.DropT? || c.stage.DropA? ==> !c.st && !c.sa)
    && (c.stage.DropA? ==> c.tq.None?)
    && (!c.listener.LOff? ==> Serving(c.stage) || c.stage.Join?)
  }

  /** Every registered queue belongs to main or to the connection, which has not let go of it. */
  ghost predicate RegistryOk(e: Env, c: Connection) {
    && Registry.NoDuplicates(e.subsT) && Registry.NoDuplicates(e.subsA)
    && (forall q | q in e.subsT ::
          (q == CONSUMER_TELEMETRY && SUBSCRIBE_T < e.main <= UNSUB_T) || (c.st && c.tq == Some(q)))
    && (forall q | q in e.subsA ::
          (q == CONSUMER_ALERTS && SUBSCRIBE_A < e.main <= UNSUB_A) || (c.sa && c.aq == Some(q)))
  }

  predicate Publishing(pc: Worker) { pc.WFan? || pc.WCopy? }

  /** A worker is inside publish exactly while it owns the registry lock. */
  ghost predicate LockOk(e: Env, th: Threads) {
    && (e.lock.Some? ==> e.lock.value in th.workers && Publishing(th.workers[e.lock.value]))
    && (forall w | w in th.workers && Publishing(th.workers[w]) :: e.lock == Some(w))
  }

  ghost predicate LifeOk(s: State) {
    MainOk(s.env, s.conn, s.th) && ConnectionOk(s.env, s.conn) && RegistryOk(s.env, s.conn) && LockOk(s.env, s.th)
  }

  lemma PartsOf(s: State)
    requires LifeOk(s)
    ensures MainOk(s.env, s.conn, s.th) && ConnectionOk(s.env, s.conn)
  {
  }

  lemma LeaveRemoves(l: seq<Qid>, q: Qid)
    requires Registry.NoDuplicates(l)
    ensures Registry.NoDuplicates(Left(l, q))
    ensures forall x :: x in Left(l, q) <==> x in l && x != q
  {
    if q in l { Registry.SwapRemoveExact(l, Registry.IndexOf(l, q)); }
  }

  lemma JoinAdds(l: seq<Qid>, q: Qid)
    requires Registry.NoDuplicates(l)
    ensures Registry.NoDuplicates(Joined(l, q))
    ensures forall x :: x in Joined(l, q) <==> x in l || x == q
  {
  }

  lemma InitLife(s: State)
    requires Init(s)
    ensures LifeOk(s)
  {
  }

  lemma ProducerLife(s: State, a: Action)
    requires LifeOk(s) && StepProducer(s, a).Some?
    ensures LifeOk(StepProducer(s, a).value)
  {
    hide Registry.NoDuplicates, Joined, Left;
  }

  lemma WorkerLife(s: State, a: Action)
    requires LifeOk(s) && OfWorker(a) && StepWorker(s, a).Some?
    ensures LifeOk(StepWorker(s, a).value)
  {
    hide Registry.NoDuplicates, Joined, Left;
  }

  lemma ConsumerLife(s: State)
    requires LifeOk(s) && StepConsumer(s).Some?
    ensures LifeOk(StepConsumer(s).value)
  {
    hide Registry.NoDuplicates, Joined, Left;
  }

  lemma CreateLife(s: State, q: Qid, ok: bool)
    requires LifeOk(s) && StepCreate(s, q, ok).Some?
    ensures LifeOk(StepCreate(s, q, ok).value)
  {
    hide Registry.NoDuplicates, Joined, Left;
  }

  lemma SubTRegistry(s: State)
    requires RegistryOk(s.env, s.conn) && s.conn.stage.SubT? && !s.conn.st && StepSubT(s).Some?
    ensures RegistryOk(StepSubT(s).value.env, StepSubT(s).value.conn)
  {
    hide Registry.NoDuplicates, Joined, Left;
    if s.conn.tq.Some? { JoinAdds(s.env.subsT, s.conn.tq.value); }
  }

  lemma SubTLife(s: State)
    requires LifeOk(s) && s.conn.stage.SubT? && StepSubT(s).Some?
    ensures LifeOk(StepSubT(s).value)
  {
    hide Joined, Left;
    SubTRegistry(s);
    hide RegistryOk;
  }

  lemma SubARegistry(s: State)
    requires RegistryOk(s.env, s.conn) && s.conn.stage.SubA? && !s.conn.sa && StepSubA(s).Some?
    ensures RegistryOk(StepSubA(s).value.env, StepSubA(s).value.conn)
  {
    hide Registry.NoDuplicates, Joined, Left;
    if s.conn.aq.Some? { JoinAdds(s.env.subsA, s.conn.aq.value); }
  }

  lemma SubALife(s: State)
    requires LifeOk(s) && s.conn.stage.SubA? && StepSubA(s).Some?
    ensures LifeOk(StepSubA(s).value)
  {
    SubARegistry(s);
    hide RegistryOk;
  }

  lemma ServeLife(s: State)
    requires LifeOk(s)
    ensures s.conn.stage.Serve? && StepServe(s).Some? ==> LifeOk(StepServe(s).value)
    ensures s.conn.stage.ServeA? && StepServeA(s).Some? ==> LifeOk(StepServeA(s).value)
  {
    hide Registry.NoDuplicates, LockOk;
  }

  lemma SendLife(s: State, ok: bool)
    requires LifeOk(s) && (s.conn.stage.Send? || s.conn.stage.Writing?) && StepSend(s, ok).Some?
    ensures LifeOk(StepSend(s, ok).value)
  {
    hide Registry.NoDuplicates, LockOk, Readable, Free;
  }

  lemma UnsubTLife(s: State)
    requires LifeOk(s) && s.conn.stage.UnsubT? && StepUnsubT(s).Some?
    ensures LifeOk(StepUnsubT(s).value)
  {
    hide Registry.NoDuplicates, Joined, Left;
    if s.conn.tq.Some? { LeaveRemoves(s.env.subsT, s.conn.tq.value); }
  }

  lemma UnsubALife(s: State)
    requires LifeOk(s) && s.conn.stage.UnsubA? && StepUnsubA(s).Some?
    ensures LifeOk(StepUnsubA(s).value)
  {
    hide Registry.NoDuplicates, Joined, Left;
    if s.conn.aq.Some? { LeaveRemoves(s.env.subsA, s.conn.aq.value); }
  }

  lemma DropLife(s: State)
    requires LifeOk(s) && (s.conn.stage.DropT? || s.conn.stage.DropA?) && StepDrop(s).Some?
    ensures LifeOk(StepDrop(s).value)
  {
    hide Registry.NoDuplicates, Joined, Left;
  }

  lemma TransportLife(s: State, ok: bool)
    requires LifeOk(s) && StepTransport(s, ok).Some?
    ensures LifeOk(StepTransport(s, ok).value)
  {
    hide StepSubT, StepSubA, StepServe, StepServeA, StepSend, StepUnsubT, StepUnsubA, StepDrop;
    match s.conn.stage
    case SubT => SubTLife(s);
    case SubA => SubALife(s);
    case Serve => ServeLife(s);
    case ServeA => ServeLife(s);
    case Send => SendLife(s, ok);
    case UnsubT => UnsubTLife(s);
    case UnsubA => UnsubALife(s);
    case DropT => DropLife(s);
    case DropA => DropLife(s);
    case _ =>
  }

  lemma SocketLife(s: State, a: Action)
    requires LifeOk(s) && StepSocket(s, a).Some?
    ensures LifeOk(StepSocket(s, a).value)
  {
    if a.Unblock? { SendLife(s, a.ok); }
    hide Registry.NoDuplicates, StepSend;
  }

  lemma ListenerLife(s: State, a: Action)
    requires LifeOk(s) && StepListener(s, a).Some?
    ensures LifeOk(StepListener(s, a).value)
  {
    hide Registry.NoDuplicates, Joined, Left;
  }

  lemma MainSubscribeLife(s: State)
    requires LifeOk(s) && s.env.main <= SUBSCRIBE_A && StepMainSubscribe(s).Some?
    ensures LifeOk(StepMainSubscribe(s).value)
  {
    hide Registry.NoDuplicates, Joined, Left;
    JoinAdds(s.env.subsT, CONSUMER_TELEMETRY);
    JoinAdds(s.env.subsA, CONSUMER_ALERTS);
  }

  lemma MainStartLife(s: State)
    requires LifeOk(s) && SUBSCRIBE_A < s.env.main <= AWAIT_SIGNAL
    ensures LifeOk(StepMainStart(s))
  {
    hide Registry.NoDuplicates, Joined, Left;
  }

  lemma MainShutLife(s: State)
    requires LifeOk(s) && AWAIT_SIGNAL < s.env.main <= SHUT_A
    ensures LifeOk(StepMainShut(s))
  {
    hide Registry.NoDuplicates, Joined, Left;
  }

  lemma MainJoinLife(s: State)
    requires LifeOk(s) && (SHUT_A < s.env.main <= JOIN_CONSUMER || s.env.main == JOIN_TRANSPORT)
    requires StepMainJoin(s).Some?
    ensures LifeOk(StepMainJoin(s).value)
  {
    hide Registry.NoDuplicates, Joined, Left;
  }

  lemma MainUnsubLife(s: State)
    requires LifeOk(s) && JOIN_CONSUMER < s.env.main <= UNSUB_A && StepMainUnsub(s).Some?
    ensures LifeOk(StepMainUnsub(s).value)
  {
    hide Registry.NoDuplicates, Joined, Left;
    LeaveRemoves(s.env.subsT, CONSUMER_TELEMETRY);
    LeaveRemoves(s.env.subsA, CONSUMER_ALERTS);
  }

  lemma MainDestroyLife(s: State)
    requires LifeOk(s) && (UNSUB_A < s.env.main <= DROP_A || s.env.main == DROP_INGEST)
    ensures LifeOk(StepMainDestroy(s))
  {
    hide Registry.NoDuplicates, Joined, Left;
  }

  lemma MainFinishLife(s: State)
    requires LifeOk(s) && DROP_INGEST < s.env.main <= DROP_CONTEXT
    ensures LifeOk(StepMainFinish(s))
  {
    hide Registry.NoDuplicates, Joined, Left;
  }

  lemma MainLife(s: State)
    requires LifeOk(s) && StepMain(s).Some?
    ensures LifeOk(StepMain(s).value)
  {
    hide LifeOk;
    hide StepMainSubscribe, StepMainStart, StepMainShut, StepMainJoin, StepMainUnsub, StepMainDestroy, StepMainFinish;
    var m := s.env.main;
    if m <= SUBSCRIBE_A { MainSubscribeLife(s); }
    else if m <= AWAIT_SIGNAL { MainStartLife(s); }
    else if m <= SHUT_A { MainShutLife(s); }
    else if m <= JOIN_CONSUMER || m == JOIN_TRANSPORT { MainJoinLife(s); }
    else if m <= UNSUB_A { MainUnsubLife(s); }
    else if m <= DROP_INGEST { MainDestroyLife(s); }
    else { MainFinishLife(s); }
  }

  lemma StepLife(s: State, a: Action)
    requires LifeOk(s) && Step(s, a).Some?
    ensures LifeOk(Step(s, a).value)
  {
    hide LifeOk, StepProducer, StepWorker, StepConsumer, StepCreate, StepTransport, StepSocket, StepListener, StepMain;
    if OfProducer(a) { ProducerLife(s, a); }
    else if OfWorker(a) { WorkerLife(s, a); }
    else if a.ConsumerStep? { ConsumerLife(s); }
    else if a.Create? { CreateLife(s, a.q, a.ok); }
    else if a.TransportStep? { TransportLife(s, a.ok); }
    else if OfSocket(a) { SocketLife(s, a); }
    else if OfListener(a) { ListenerLife(s, a); }
    else { MainLife(s); }
  }
}
