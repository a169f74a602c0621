/** What a shutdown leaves in main's three queues. The consumer returns when it finds its telemetry
    queue empty and shut down, and looks at its alerts queue once per telemetry message; what is
    delivered later, or never looked for, is abandoned when main destroys the queues. */
module Leftovers {
  import opened Basics
  import opened Messages
  import opened System
  import opened Lifetimes
  import opened Ownership
  import opened Routing
  import opened Sequence
  import opened SystemTheorems
  import opened Completion
  import opened Drain
  import opened Polls

  predicate InHand(co: Consumer) { co.CTelemetry? || co.CPoll? }

  /** The consumer's books. Every telemetry message taken leads to one look at the alerts, every
      look finds an alert if one is there, and what was not taken is still in the queue until main
      destroys it. */
  ghost predicate Balance(t: Queue, a: Queue, co: Consumer, looks: seq<nat>, main: nat) {
    && Rising(looks, |a.seen|)
    && (main <= DROP_A ==> |a.items| + Found(looks) == |a.seen|)
    && if co.CDone? then |looks| == co.accepted <= |t.seen| && (main <= DROP_T ==> |t.items| + co.accepted == |t.seen|)
       else main <= JOIN_CONSUMER && |t.items| + |looks| + One(InHand(co)) == |t.seen|
  }

  ghost predicate BookOk(s: State) {
    Balance(At(s.queues, CONSUMER_TELEMETRY), At(s.queues, CONSUMER_ALERTS), s.th.consumer, s.th.book.polls, s.env.main)
  }

  /** Nothing of what the books are about has changed. */
  ghost predicate Elsewhere(s: State, t: State) {
    && At(t.queues, CONSUMER_TELEMETRY) == At(s.queues, CONSUMER_TELEMETRY)
    && At(t.queues, CONSUMER_ALERTS) == At(s.queues, CONSUMER_ALERTS)
    && t.th.consumer == s.th.consumer && t.th.book.polls == s.th.book.polls && t.env.main == s.env.main
  }

  lemma ProducerElsewhere(s: State, a: Action)
    requires StepProducer(s, a).Some?
    ensures Elsewhere(s, StepProducer(s, a).value)
  {
    hide Usable, Live, Free, Alloc;
  }

  lemma ListenerElsewhere(s: State, a: Action)
    requires StepListener(s, a).Some?
    ensures Elsewhere(s, StepListener(s, a).value)
  {
    hide Usable, Live, Free, Alloc, GoodAlert;
  }

  lemma CreateElsewhere(s: State, q: Qid, ok: bool)
    requires MainOk(s.env, s.conn, s.th) && StepCreate(s, q, ok).Some?
    ensures Elsewhere(s, StepCreate(s, q, ok).value)
  {
  }

  lemma ServeElsewhere(s: State, ok: bool)
    requires ConnectionOk(s.env, s.conn)
    ensures StepServe(s).Some? ==> Elsewhere(s, StepServe(s).value)
    ensures StepServeA(s).Some? ==> Elsewhere(s, StepServeA(s).value)
    ensures StepSend(s, ok).Some? ==> Elsewhere(s, StepSend(s, ok).value)
  {
    hide Usable, Readable, Free;
  }

  lemma DropElsewhere(s: State)
    requires ConnectionOk(s.env, s.conn) && (s.conn.stage.DropT? || s.conn.stage.DropA?) && StepDrop(s).Some?
    ensures Elsewhere(s, StepDrop(s).value)
  {
    hide Usable, Abandon;
  }

  lemma ListsElsewhere(s: State)
    ensures StepSubT(s).Some? ==> Elsewhere(s, StepSubT(s).value)
    ensures StepSubA(s).Some? ==> Elsewhere(s, StepSubA(s).value)
    ensures StepUnsubT(s).Some? ==> Elsewhere(s, StepUnsubT(s).value)
    ensures StepUnsubA(s).Some? ==> Elsewhere(s, StepUnsubA(s).value)
  {
    hide Joined, Left, CanJoin, At;
  }

  lemma TransportElsewhere(s: State, ok: bool)
    requires ConnectionOk(s.env, s.conn) && StepTransport(s, ok).Some?
    ensures Elsewhere(s, StepTransport(s, ok).value)
  {
    hide StepSubT, StepSubA, StepUnsubT, StepUnsubA, StepServe, StepServeA, StepSend, StepDrop, At, ConnectionOk;
    match s.conn.stage
    case SubT => ListsElsewhere(s);
    case SubA => ListsElsewhere(s);
    case UnsubT => ListsElsewhere(s);
    case UnsubA => ListsElsewhere(s);
    case Serve => ServeElsewhere(s, ok);
    case ServeA => ServeElsewhere(s, ok);
    case Send => ServeElsewhere(s, ok);
    case DropT => DropElsewhere(s);
    case DropA => DropElsewhere(s);
    case _ =>
  }

  lemma SocketElsewhere(s: State, a: Action)
    requires StepSocket(s, a).Some?
    ensures Elsewhere(s, StepSocket(s, a).value)
  {
    hide Readable, Free, At;
  }

  lemma WorkerElsewhere(s: State, a: Action)
    requires OfWorker(a) && !a.Deliver? && StepWorker(s, a).Some?
    ensures Elsewhere(s, StepWorker(s, a).value)
  {
    hide Usable, Live, Readable, Free, Alloc, Enrich, SeqNumber;
  }

  /** One more delivery to either queue. */
  lemma DeliveryBalances(t: Queue, a: Queue, co: Consumer, looks: seq<nat>, main: nat, it: Item)
    requires Balance(t, a, co, looks, main)
    ensures Balance(t.(items := t.items + [it], seen := t.seen + [it.id]), a, co, looks, main)
    ensures Balance(t, a.(items := a.items + [it], seen := a.seen + [it.id]), co, looks, main)
  {
    RisingMore(looks, |a.seen|, |a.seen| + 1);
  }

  lemma DeliverBook(s: State, a: Action)
    requires BookOk(s) && a.Deliver? && StepWorker(s, a).Some?
    ensures BookOk(StepWorker(s, a).value)
  {
    hide Balance, Usable, Live, Free;
    var me := s.th.workers[a.w];
    DeliveryBalances(At(s.queues, CONSUMER_TELEMETRY), At(s.queues, CONSUMER_ALERTS), s.th.consumer,
                     s.th.book.polls, s.env.main, Item(SeqOf(me.msg), KindOf(me.topic), me.copy));
  }

  /** The consumer's own steps. */
  lemma TakeBalances(t: Queue, a: Queue, co: Consumer, looks: seq<nat>, main: nat)
    requires Balance(t, a, co, looks, main) && main <= JOIN_CONSUMER
    ensures co.CWait? && t.items != [] ==> Balance(t.(items := t.items[1..]), a, CTelemetry(t.items[0]), looks, main)
    ensures co.CWait? && t.items == [] ==> Balance(t, a, CDone(|t.seen|), looks, main)
    ensures co.CTelemetry? ==> Balance(t, a, CPoll, looks, main)
    ensures co.CAlert? ==> Balance(t, a, CWait, looks, main)
  {
  }

  lemma PollBalances(t: Queue, a: Queue, looks: seq<nat>, main: nat)
    requires Balance(t, a, CPoll, looks, main)
    ensures a.items == [] ==> Balance(t, a, CWait, looks + [|a.seen|], main)
    ensures a.items != [] ==> Balance(t, a.(items := a.items[1..]), CAlert(a.items[0]), looks + [|a.seen|], main)
  {
    RisingMore(looks, |a.seen|, |a.seen|);
    assert (looks + [|a.seen|])[..|looks|] == looks;
  }

  lemma ConsumerBook(s: State)
    requires BookOk(s) && StepConsumer(s).Some?
    ensures BookOk(StepConsumer(s).value)
  {
    var t, a, main := At(s.queues, CONSUMER_TELEMETRY), At(s.queues, CONSUMER_ALERTS), s.env.main;
    TakeBalances(t, a, s.th.consumer, s.th.book.polls, main);
    if s.th.consumer.CPoll? { PollBalances(t, a, s.th.book.polls, main); }
    hide Balance, Usable, Readable, Free;
  }

  /** Later positions of main promise less. */
  lemma LaterBalances(t: Queue, a: Queue, co: Consumer, looks: seq<nat>, main: nat)
    requires Balance(t, a, co, looks, main)
    ensures main != JOIN_CONSUMER || co.CDone? ==> Balance(t, a, co, looks, main + 1)
    ensures co.CIdle? && main < JOIN_CONSUMER ==> Balance(t, a, CWait, looks, main + 1)
    ensures Balance(t.(shut := true), a, co, looks, main) && Balance(t, a.(shut := true), co, looks, main)
    ensures main == DROP_T ==> Balance(t.(items := []), a, co, looks, main + 1)
    ensures main == DROP_A ==> Balance(t, a.(items := []), co, looks, main + 1)
  {
  }

  lemma MainShutBook(s: State)
    requires BookOk(s) && SHUT_INGEST <= s.env.main <= SHUT_A
    ensures BookOk(StepMainShut(s))
  {
    hide Balance, Usable;
    var t, a := At(s.queues, CONSUMER_TELEMETRY), At(s.queues, CONSUMER_ALERTS);
    LaterBalances(t, a, s.th.consumer, s.th.book.polls, s.env.main);
    LaterBalances(t.(shut := true), a, s.th.consumer, s.th.book.polls, s.env.main);
    LaterBalances(t, a.(shut := true), s.th.consumer, s.th.book.polls, s.env.main);
  }

  lemma MainDestroyBook(s: State)
    requires BookOk(s) && (DROP_T <= s.env.main <= DROP_A || s.env.main == DROP_INGEST)
    ensures BookOk(StepMainDestroy(s))
  {
    hide Balance, Usable, Abandon;
    var t, a := At(s.queues, CONSUMER_TELEMETRY), At(s.queues, CONSUMER_ALERTS);
    LaterBalances(t, a, s.th.consumer, s.th.book.polls, s.env.main);
  }

  lemma MainBook(s: State)
    requires BookOk(s) && MainOk(s.env, s.conn, s.th) && StepMain(s).Some?
    ensures BookOk(StepMain(s).value)
  {
    var t, a := At(s.queues, CONSUMER_TELEMETRY), At(s.queues, CONSUMER_ALERTS);
    LaterBalances(t, a, s.th.consumer, s.th.book.polls, s.env.main);
    if SHUT_INGEST <= s.env.main <= SHUT_A { MainShutBook(s); }
    if DROP_T <= s.env.main <= DROP_A || s.env.main == DROP_INGEST { MainDestroyBook(s); }
    hide Balance, At, StepMainShut, StepMainDestroy, Joined, Left, CanJoin;
  }

  lemma StepBook(s: State, a: Action)
    requires BookOk(s) && LifeOk(s) && Step(s, a).Some?
    ensures BookOk(Step(s, a).value)
  {
    hide Balance, At;
    hide StepProducer, StepWorker, StepConsumer, StepCreate, StepTransport, StepSocket, StepListener, StepMain;
    if OfProducer(a) { ProducerElsewhere(s, a); }
    else if OfWorker(a) { if a.Deliver? { DeliverBook(s, a); } else { WorkerElsewhere(s, a); } }
    else if a.ConsumerStep? { ConsumerBook(s); }
    else if a.Create? { CreateElsewhere(s, a.q, a.ok); }
    else if a.TransportStep? { TransportElsewhere(s, a.ok); }
    else if OfSocket(a) { SocketElsewhere(s, a); }
    else if OfListener(a) { ListenerElsewhere(s, a); }
    else { MainBook(s); }
  }

  /** All invariants together. */
  ghost predicate Kept(s: State) { Sane(s) && DrainOk(s) && BookOk(s) }

  lemma StepKept(s: State, a: Action)
    requires Kept(s) && Step(s, a).Some?
    ensures Kept(Step(s, a).value)
  {
    hide Step, Ready, LifeOk, OwnOk, TypesOk, SeqOk, StampedOk, DrainOk, BookOk;
    StepSane(s, a);
    StepDrain(s, a);
    StepBook(s, a);
  }

  lemma {:induction false} RunKept(s: State, run: seq<Action>)
    requires Kept(s) && Exec(s, run).Some?
    ensures Kept(Exec(s, run).value)
    decreases |run|
  {
    hide Kept, Step;
    if run != [] {
      StepKept(s, run[0]);
      RunKept(Step(s, run[0]).value, run[1..]);
    }
  }

  lemma InitBook(s: State)
    requires Init(s)
    ensures BookOk(s)
  {
  }

  lemma InitKept(s: State)
    requires Init(s)
    ensures Kept(s)
  {
    hide Init, Sane, DrainOk, BookOk;
    InitSane(s);
    InitDrain(s);
    InitBook(s);
  }

  lemma ReachableKept(s0: State, run: seq<Action>)
    requires Init(s0) && Exec(s0, run).Some?
    ensures Kept(Exec(s0, run).value)
  {
    hide Init, Step, Kept;
    InitKept(s0);
    RunKept(s0, run);
  }

  // ---------------------------------------------------------------- queue by queue

  function SeenT(s: State): nat { |At(s.queues, CONSUMER_TELEMETRY).seen| }

  function SeenA(s: State): nat { |At(s.queues, CONSUMER_ALERTS).seen| }

  lemma ConsumerBack(s: State)
    requires Kept(s) && s.env.main > JOIN_CONSUMER
    ensures s.th.consumer.CDone? && s.env.main <= EXIT
  {
    hide Good, SeqOk, StampedOk, FansOk, DrainOk;
  }

  /** When main is about to destroy the consumer's telemetry queue, it holds what was delivered after
      the consumer had returned; nothing if and only if nothing was. */
  lemma TelemetryLeftIff(s0: State, run: seq<Action>)
    requires Init(s0) && Exec(s0, run).Some? && Exec(s0, run).value.env.main == DROP_T
    ensures var s := Exec(s0, run).value; var t := At(s.queues, CONSUMER_TELEMETRY);
            && s.th.consumer.CDone? && |t.items| == |t.seen| - s.th.consumer.accepted
            && (t.items == [] <==> s.th.consumer == CDone(|t.seen|))
  {
    hide Init, Step, Sane, DrainOk;
    ReachableKept(s0, run);
    ConsumerBack(Exec(s0, run).value);
  }

  /** When main is about to destroy the consumer's alerts queue, it holds every alert delivered but
      not found by a look; there were exactly as many looks as telemetry messages taken; and nothing
      is left if and only if every alert was followed by enough looks. */
  lemma AlertsLeftIff(s0: State, run: seq<Action>)
    requires Init(s0) && Exec(s0, run).Some? && Exec(s0, run).value.env.main == DROP_A
    ensures var s := Exec(s0, run).value; var a, looks := At(s.queues, CONSUMER_ALERTS), s.th.book.polls;
            && s.th.consumer.CDone? && |looks| == s.th.consumer.accepted <= SeenT(s)
            && |a.items| == |a.seen| - Found(looks) && |a.items| >= |a.seen| - |looks|
            && (a.items == [] <==> EnoughLooks(looks, |a.seen|))
  {
    hide Init, Step, Sane, DrainOk, EnoughLooks;
    ReachableKept(s0, run);
    var s := Exec(s0, run).value;
    ConsumerBack(s);
    FoundAtMost(s.th.book.polls, SeenA(s), 0);
    FoundAllIff(s.th.book.polls, SeenA(s));
  }

  // ---------------------------------------------------------------- all three together

  /** How many items this step abandons in one of main's queues. */
  function Leaves(s: State, a: Action): nat {
    if a.MainStep? && (s.env.main == DROP_T || s.env.main == DROP_A || s.env.main == DROP_INGEST)
    then |At(s.queues, MainQueue(s.env.main)).items| else 0
  }

  function MainLeaves(s: State, run: seq<Action>): nat
    requires Exec(s, run).Some?
    decreases |run|
  {
    if run == [] then 0 else Leaves(s, run[0]) + MainLeaves(Step(s, run[0]).value, run[1..])
  }

  /** They are lost: nobody will ever free them. */
  lemma LeavesAreLost(s: State)
    requires StepMain(s).Some?
    ensures |StepMain(s).value.mem.lost| == |s.mem.lost| + Leaves(s, MainStep)
  {
    hide Usable, Left, Joined, CanJoin, Shut, Emptied;
  }

  ghost predicate LastOut(ws: map<Wid, Worker>, arrivals: nat) { exists w | w in ws :: ws[w] == WDone(arrivals) }

  /** Of the queues destroyed so far none held anything. */
  ghost predicate Clean(s: State) {
    && (s.env.main > DROP_T ==> s.th.consumer == CDone(SeenT(s)))
    && (s.env.main > DROP_A ==> Found(s.th.book.polls) == SeenA(s))
    && (s.env.main > DROP_INGEST ==> LastOut(s.th.workers, s.arrivals))
  }

  ghost predicate SameLeft(s: State, t: State) {
    && SeenT(t) == SeenT(s) && SeenA(t) == SeenA(s) && t.th.consumer == s.th.consumer
    && t.th.book.polls == s.th.book.polls && t.th.workers == s.th.workers
    && (s.env.main > DROP_INGEST ==> t.arrivals == s.arrivals)
  }

  /** By then producer, workers and consumer have returned. */
  lemma OthersBack(s: State, a: Action)
    requires Kept(s) && s.env.main > DROP_T && Step(s, a).Some? && !a.MainStep?
    ensures a.Create? || a.TransportStep? || OfSocket(a) || OfListener(a)
    ensures LifeOk(s) && HasQueues(s)
  {
    hide Balance, DrainOk, SeqOk, StampedOk, Ready, OwnOk, TypesOk, ConnectionOk, RegistryOk, LockOk;
    SaneLife(s);
    assert Stocked(s) by { StockedOf(s); }
    QueuesOf(s);
    hide StepTransport, StepSocket, StepListener, StepCreate;
  }

  lemma ElsewhereLeft(s: State, t: State)
    requires Elsewhere(s, t) && t.th.workers == s.th.workers && (s.env.main > DROP_INGEST ==> t.arrivals == s.arrivals)
    ensures SameLeft(s, t) && t.env.main == s.env.main
  {
  }

  lemma LateStep(s: State, a: Action)
    requires Kept(s) && s.env.main > DROP_T && Step(s, a).Some? && !a.MainStep?
    ensures SameLeft(s, Step(s, a).value) && Step(s, a).value.env.main == s.env.main
  {
    hide Kept, LifeOk, MainOk, ConnectionOk, Elsewhere, SameLeft, HasQueues;
    hide StepProducer, StepWorker, StepConsumer, StepTransport, StepSocket, StepListener, StepCreate, StepMain;
    OthersBack(s, a);
    PartsOf(s);
    if a.Create? { CreateElsewhere(s, a.q, a.ok); CreateThreads(s, a.q, a.ok); }
    else if a.TransportStep? { TransportElsewhere(s, a.ok); TransportThreads(s, a.ok); }
    else if OfSocket(a) { SocketElsewhere(s, a); SocketThreads(s, a); }
    else { ListenerElsewhere(s, a); ListenerThreads(s, a); }
    ElsewhereLeft(s, Step(s, a).value);
  }

  lemma CreateThreads(s: State, q: Qid, ok: bool)
    requires StepCreate(s, q, ok).Some?
    ensures var t := StepCreate(s, q, ok).value; t.th == s.th && t.arrivals == s.arrivals
  {
  }

  lemma TransportThreads(s: State, ok: bool)
    requires ConnectionOk(s.env, s.conn) && StepTransport(s, ok).Some?
    ensures var t := StepTransport(s, ok).value; t.th == s.th && t.arrivals == s.arrivals
  {
    hide Usable, Readable, Pop, Free, Abandon, Emptied, Joined, Left, CanJoin;
  }

  lemma SocketThreads(s: State, a: Action)
    requires StepSocket(s, a).Some?
    ensures var t := StepSocket(s, a).value; t.th == s.th && t.arrivals == s.arrivals
  {
    hide Readable, Free;
  }

  /** The listener is gone with its connection. */
  lemma ListenerThreads(s: State, a: Action)
    requires LifeOk(s) && StepListener(s, a).Some?
    ensures var t := StepListener(s, a).value;
            t.th.workers == s.th.workers && (s.env.main > DROP_INGEST ==> t.arrivals == s.arrivals)
  {
    hide Usable, Live, Free, Alloc, Push, GoodAlert, RegistryOk, LockOk;
  }

  /** One of main's destroys keeps the account clean exactly when the queue is empty. */
  lemma DestroyClean(s: State)
    requires Kept(s) && (s.env.main == DROP_T || s.env.main == DROP_A || s.env.main == DROP_INGEST)
    ensures Clean(StepMainDestroy(s)) <==> Clean(s) && Leaves(s, MainStep) == 0
  {
    ConsumerBack(s);
    if s.env.main == DROP_INGEST { IngestEmptyIff(s); }
    hide Sane, DrainOk, LastOut, Abandon, Usable;
  }

  lemma IngestEmptyIff(s: State)
    requires Kept(s) && s.env.main == DROP_INGEST
    ensures Leaves(s, MainStep) == 0 <==> LastOut(s.th.workers, s.arrivals)
  {
    hide OwnOk, TypesOk, SeqOk, StampedOk, Ready, BookOk, ConnectionOk, RegistryOk, LockOk, Settled;
    SettledIff(Completion.Backlog(s.queues), s.arrivals, s.th.workers);
  }

  lemma MainRest(s: State)
    requires StepMain(s).Some? && (s.env.main == JOIN_TRANSPORT || s.env.main > DROP_INGEST)
    ensures var t := StepMain(s).value; t.th == s.th && t.queues == s.queues && t.arrivals == s.arrivals
  {
  }

  lemma MainEarly(s: State)
    requires s.env.main <= AWAIT_SIGNAL && StepMain(s).Some?
    ensures StepMain(s).value.env.main <= SHUT_INGEST
  {
    hide Joined, CanJoin;
  }

  lemma MainClean(s: State)
    requires Kept(s) && StepMain(s).Some?
    ensures Clean(StepMain(s).value) <==> Clean(s) && Leaves(s, MainStep) == 0
  {
    hide LastOut, At, Found;
    if s.env.main > AWAIT_SIGNAL { MainOnward(s); } else { MainEarly(s); }
    if s.env.main == DROP_T || s.env.main == DROP_A || s.env.main == DROP_INGEST {
      DestroyClean(s);
      hide Kept, StepMainDestroy, Clean;
    } else {
      if s.env.main > DROP_T { MainRest(s); }
      hide Kept, StepMain;
    }
  }

  lemma StepClean(s: State, a: Action)
    requires Kept(s) && Step(s, a).Some?
    ensures Clean(Step(s, a).value) <==> Clean(s) && Leaves(s, a) == 0
  {
    hide Kept, StepMain, LastOut, At;
    if a.MainStep? {
      MainClean(s);
    } else if s.env.main > DROP_T {
      LateStep(s, a);
    } else {
      MainStays(s, a);
    }
  }

  lemma MainStays(s: State, a: Action)
    requires Kept(s) && Step(s, a).Some? && !a.MainStep?
    ensures Step(s, a).value.env.main == s.env.main
  {
    hide Balance, DrainOk, At;
    hide StepProducer, StepWorker, StepConsumer, StepCreate, StepTransport, StepSocket, StepListener, StepMain;
    SaneLife(s);
    if OfProducer(a) { ProducerElsewhere(s, a); }
    else if OfWorker(a) { WorkerMain(s, a); }
    else if a.ConsumerStep? { ConsumerMain(s); }
    else if a.Create? { CreateElsewhere(s, a.q, a.ok); }
    else if a.TransportStep? { TransportElsewhere(s, a.ok); }
    else if OfSocket(a) { SocketElsewhere(s, a); }
    else { ListenerElsewhere(s, a); }
  }

  lemma WorkerMain(s: State, a: Action)
    requires OfWorker(a) && StepWorker(s, a).Some?
    ensures StepWorker(s, a).value.env.main == s.env.main
  {
    hide Usable, Live, Readable, Free, Alloc, Enrich, Pop, Receive;
  }

  lemma ConsumerMain(s: State)
    requires StepConsumer(s).Some?
    ensures StepConsumer(s).value.env.main == s.env.main
  {
    hide Usable, Readable, Free, Pop;
  }

  lemma {:induction false} RunClean(s: State, run: seq<Action>)
    requires Kept(s) && Exec(s, run).Some?
    ensures Clean(Exec(s, run).value) <==> Clean(s) && MainLeaves(s, run) == 0
    decreases |run|
  {
    hide Kept, Step, Clean, Leaves;
    if run != [] {
      StepKept(s, run[0]);
      StepClean(s, run[0]);
      RunClean(Step(s, run[0]).value, run[1..]);
    }
  }

  /** "Queues are drained", exactly: a complete run abandons nothing in main's three queues if and
      only if some worker returned after the last item had been accepted, the consumer returned
      after the last telemetry message had been delivered to it, and every alert delivered to it
      was followed by enough looks for that one and those after it. */
  lemma NothingLeftIff(s0: State, run: seq<Action>)
    requires Init(s0) && Exec(s0, run).Some? && Exec(s0, run).value.env.main == EXIT
    ensures var s := Exec(s0, run).value;
            MainLeaves(s0, run) == 0 <==>
              && LastOut(s.th.workers, s.arrivals)
              && s.th.consumer == CDone(SeenT(s))
              && EnoughLooks(s.th.book.polls, SeenA(s))
  {
    hide Step, Sane, DrainOk, EnoughLooks, LastOut;
    InitKept(s0);
    RunKept(s0, run);
    RunClean(s0, run);
    var s := Exec(s0, run).value;
    FoundAllIff(s.th.book.polls, SeenA(s));
  }
}
