/** Runs from the start of the program that go wrong: two complete ones that abandon something, and
    one that never completes. */
module LostRuns {
  import opened Basics
  import opened Messages
  import opened System
  import opened Completion
  import opened Shutdown

  // ---------------------------------------------------------------- a sample accepted too late

  function Env1(main: nat, stop: bool, dead: set<Qid>, subsT: seq<Qid>, subsA: seq<Qid>): Env {
    Env(main, stop, false, false, map[INGEST := Raw, CONSUMER_TELEMETRY := TelemetrySub, CONSUMER_ALERTS := AlertSub],
        dead, subsT, subsA, None)
  }

  function Queues1(shutI: bool, shutC: bool, items: seq<Item>): Queues {
    map[INGEST := Queue(items, 1024, shutI, []), CONSUMER_TELEMETRY := Queue([], 1024, shutC, []),
        CONSUMER_ALERTS := Queue([], 1024, shutC, [])]
  }

  const SAMPLE := RawTelemetry(99, -41)
  const BLANK := Book([], [], [], [], [], [])
  const ACCEPTED := Book([], [], [], [], [0], [Item(1, Telemetry, 0)])
  const ONE_WORKER: map<Wid, Worker> := map[0 := WWait]
  const START := State(Env1(SUBSCRIBE_T, false, {}, [], []), NO_CONNECTION, Threads(PIdle, 0, CIdle, ONE_WORKER, BLANK),
                       Queues1(false, false, []), Memory(map[], multiset{}, multiset{}), 0, 0, false)

  /** A sample is in the producer's hand when the ingest queue is shut down. */
  const AFTER_SHUT := State(Env1(SHUT_T, true, {}, [1], [2]), NO_CONNECTION,
                            Threads(PTelemetry(0), 1, CWait, ONE_WORKER, BLANK), Queues1(true, false, []),
                            Memory(map[0 := SAMPLE], multiset{}, multiset{}), 0, 0, false)

  /** The only worker leaves; the sample is then accepted. */
  const AFTER_PUT := AFTER_SHUT.(th := Threads(PNext, 1, CWait, map[0 := WDone(0)], ACCEPTED),
                                 queues := Queues1(true, false, [Item(1, Telemetry, 0)]), arrivals := 1)

  const AFTER_PRODUCER := AFTER_PUT.(th := Threads(PDone, 1, CWait, map[0 := WDone(0)], ACCEPTED))

  const AFTER_SHUTS := AFTER_PRODUCER.(env := Env1(JOIN_PRODUCER, true, {}, [1], [2]),
                                       queues := Queues1(true, true, [Item(1, Telemetry, 0)]))

  const AFTER_JOINS := AFTER_SHUTS.(env := Env1(UNSUB_T, true, {}, [1], [2]),
                                    th := Threads(PDone, 1, CDone(0), map[0 := WDone(0)], ACCEPTED))

  const AFTER_UNSUBS := AFTER_JOINS.(env := Env1(DROP_T, true, {}, [], []))

  const AFTER_DROPS := AFTER_JOINS.(env := Env1(JOIN_TRANSPORT, true, {1, 2}, [], []))

  lemma Then(s: State, run: seq<Action>, a: Action)
    requires Exec(s, run).Some?
    ensures Exec(s, run + [a]) == Step(Exec(s, run).value, a)
  {
    hide Step;
    ExecThen(s, run, [a]);
    var t := Exec(s, run).value;
    assert [a][1..] == [];
  }

  lemma ReachShut() returns (run: seq<Action>)
    ensures Exec(START, run) == Some(AFTER_SHUT)
  {
    run := [];
    assert [] + [1] == [1] && [] + [2] == [2];
    Then(START, run, MainStep); run := run + [MainStep];
    Then(START, run, MainStep); run := run + [MainStep];
    Then(START, run, MainStep); run := run + [MainStep];
    Then(START, run, Tick(0, true)); run := run + [Tick(0, true)];
    Then(START, run, MainStep); run := run + [MainStep];
    Then(START, run, MainStep); run := run + [MainStep];
    Then(START, run, MainStep); run := run + [MainStep];
    var s := Exec(START, run).value;
    assert s.env == AFTER_SHUT.env;
    assert s.mem == AFTER_SHUT.mem;
    assert s.queues == AFTER_SHUT.queues;
  }

  lemma ReachPut() returns (run: seq<Action>)
    ensures Exec(AFTER_SHUT, run) == Some(AFTER_PUT)
  {
    run := [];
    var it := Item(1, Telemetry, 0);
    assert [] + [it] == [it] && [] + [0] == [0];
    Then(AFTER_SHUT, run, Take(0)); run := run + [Take(0)];
    Then(AFTER_SHUT, run, Put); run := run + [Put];
    var s := Exec(AFTER_SHUT, run).value;
    assert s.th == AFTER_PUT.th;
    assert s.queues == AFTER_PUT.queues;
  }

  lemma ReachProducer() returns (run: seq<Action>)
    ensures Exec(AFTER_PUT, run) == Some(AFTER_PRODUCER)
  {
    run := [];
    Then(AFTER_PUT, run, MakeAlert(1, true)); run := run + [MakeAlert(1, true)];
    Then(AFTER_PUT, run, Rest); run := run + [Rest];
    Then(AFTER_PUT, run, Tick(1, true)); run := run + [Tick(1, true)];
  }

  lemma ReachShuts() returns (run: seq<Action>)
    ensures Exec(AFTER_PRODUCER, run) == Some(AFTER_SHUTS)
  {
    run := [];
    Then(AFTER_PRODUCER, run, MainStep); run := run + [MainStep];
    Then(AFTER_PRODUCER, run, MainStep); run := run + [MainStep];
    assert Exec(AFTER_PRODUCER, run).value.queues == AFTER_SHUTS.queues;
  }

  lemma ReachJoins() returns (run: seq<Action>)
    ensures Exec(AFTER_SHUTS, run) == Some(AFTER_JOINS)
  {
    run := [];
    Then(AFTER_SHUTS, run, MainStep); run := run + [MainStep];
    Then(AFTER_SHUTS, run, MainStep); run := run + [MainStep];
    Then(AFTER_SHUTS, run, ConsumerStep); run := run + [ConsumerStep];
    Then(AFTER_SHUTS, run, MainStep); run := run + [MainStep];
  }

  lemma ReachUnsubs() returns (run: seq<Action>)
    ensures Exec(AFTER_JOINS, run) == Some(AFTER_UNSUBS)
  {
    run := [];
    assert Left([1], 1) == [] && Left([2], 2) == [];
    Then(AFTER_JOINS, run, MainStep); run := run + [MainStep];
    Then(AFTER_JOINS, run, MainStep); run := run + [MainStep];
  }

  lemma ReachDrops() returns (run: seq<Action>)
    ensures Exec(AFTER_UNSUBS, run) == Some(AFTER_DROPS)
  {
    run := [];
    assert Pids([]) == [];
    Then(AFTER_UNSUBS, run, MainStep); run := run + [MainStep];
    Then(AFTER_UNSUBS, run, MainStep); run := run + [MainStep];
    var s := Exec(AFTER_UNSUBS, run).value;
    assert s.env.dead == {1, 2};
    assert s.queues == AFTER_DROPS.queues;
    assert s.mem == AFTER_DROPS.mem;
  }

  lemma ReachExit() returns (run: seq<Action>)
    ensures Exec(AFTER_DROPS, run).Some?
    ensures var s := Exec(AFTER_DROPS, run).value;
            s.env.main == EXIT && s.mem.lost == multiset{0} && s.mem.freed == multiset{}
  {
    run := [];
    assert Pids([Item(1, Telemetry, 0)]) == [0];
    Then(AFTER_DROPS, run, TransportStep(true)); run := run + [TransportStep(true)];
    Then(AFTER_DROPS, run, MainStep); run := run + [MainStep];
    Then(AFTER_DROPS, run, MainStep); run := run + [MainStep];
    Then(AFTER_DROPS, run, MainStep); run := run + [MainStep];
    Then(AFTER_DROPS, run, MainStep); run := run + [MainStep];
  }

  lemma StartIsInit()
    ensures Init(START)
  {
    assert 0 in START.th.workers;
  }

  /** A clean shutdown can lose a sample: accepted by the ingest queue, never processed, never
      freed, because the only worker had already left when the producer's enqueue succeeded. */
  lemma ShutdownCanLoseAnItem() returns (s0: State, run: seq<Action>)
    ensures Init(s0) && Exec(s0, run).Some?
    ensures var s := Exec(s0, run).value; s.env.main == EXIT && s.mem.lost == multiset{0} && s.mem.freed == multiset{}
  {
    hide Step, Init;
    StartIsInit();
    s0 := START;
    run := ReachShut();
    var next := ReachPut();
    ExecThen(s0, run, next); run := run + next;
    next := ReachProducer();
    ExecThen(s0, run, next); run := run + next;
    next := ReachShuts();
    ExecThen(s0, run, next); run := run + next;
    next := ReachJoins();
    ExecThen(s0, run, next); run := run + next;
    next := ReachUnsubs();
    ExecThen(s0, run, next); run := run + next;
    next := ReachDrops();
    ExecThen(s0, run, next); run := run + next;
    next := ReachExit();
    ExecThen(s0, run, next); run := run + next;
  }

  // ---------------------------------------------------------------- a message published too late

  const MESSAGE := TelemetryMsg(1, 0, 99, -41)
  const RAW_ITEM := Item(1, Telemetry, 0)
  const COPY_ITEM := Item(1, Telemetry, 1)
  const ONE_STAMP := Book([], [1], [0], [0], [0], [RAW_ITEM])

  function Queues2(shutA: bool, items: seq<Item>, seen: seq<nat>): Queues {
    map[INGEST := Queue([], 1024, true, []), CONSUMER_TELEMETRY := Queue(items, 1024, true, seen),
        CONSUMER_ALERTS := Queue([], 1024, shutA, [])]
  }

  /** The worker holds the sample; the consumer has found its queue empty and shut down. */
  const HELD := State(Env1(SHUT_A, true, {}, [1], [2]), NO_CONNECTION,
                      Threads(PNext, 1, CDone(0), map[0 := WRaw(RAW_ITEM)], ACCEPTED), Queues2(false, [], []),
                      Memory(map[0 := SAMPLE], multiset{}, multiset{}), 0, 1, false)

  /** The message has been stamped and delivered to the consumer's queue. */
  const SENT := HELD.(th := Threads(PNext, 1, CDone(0), ONE_WORKER, ONE_STAMP),
                      queues := Queues2(false, [COPY_ITEM], [1]),
                      mem := Memory(map[0 := SAMPLE, 1 := MESSAGE], multiset{0}, multiset{}), issued := 1)

  const ALL_BACK := SENT.(th := Threads(PDone, 1, CDone(0), map[0 := WDone(1)], ONE_STAMP))

  const JOINED := ALL_BACK.(env := Env1(UNSUB_T, true, {}, [1], [2]), queues := Queues2(true, [COPY_ITEM], [1]))

  const UNSUBSCRIBED := JOINED.(env := Env1(DROP_T, true, {}, [], []))

  const DROPPED := JOINED.(env := Env1(JOIN_TRANSPORT, true, {1, 2}, [], []), queues := Queues2(true, [], [1]),
                           mem := SENT.mem.(lost := multiset{1}))

  const STARTED := START.(env := Env1(AWAIT_SIGNAL, false, {}, [1], [2]),
                          th := Threads(PTop, 0, CWait, ONE_WORKER, BLANK))

  const PUT := STARTED.(th := Threads(PNext, 1, CWait, ONE_WORKER, ACCEPTED),
                        queues := Queues1(false, false, [RAW_ITEM]),
                        mem := HELD.mem, arrivals := 1)

  const TAKEN := PUT.(th := Threads(PNext, 1, CWait, map[0 := WRaw(RAW_ITEM)], ACCEPTED),
                      queues := Queues1(false, false, []))

  lemma ReachStarted() returns (run: seq<Action>)
    ensures Exec(START, run) == Some(STARTED) && NoPeer(run)
  {
    run := [];
    assert [] + [1] == [1] && [] + [2] == [2];
    Then(START, run, MainStep); run := run + [MainStep];
    Then(START, run, MainStep); run := run + [MainStep];
    Then(START, run, MainStep); run := run + [MainStep];
    Then(START, run, MainStep); run := run + [MainStep];
  }

  lemma ReachQueued() returns (run: seq<Action>)
    ensures Exec(STARTED, run) == Some(PUT)
  {
    run := [];
    assert [] + [RAW_ITEM] == [RAW_ITEM] && [] + [0] == [0];
    Then(STARTED, run, Tick(0, true)); run := run + [Tick(0, true)];
    Then(STARTED, run, Put); run := run + [Put];
    var s := Exec(STARTED, run).value;
    assert s.queues == PUT.queues;
    assert s.mem == PUT.mem;
  }

  lemma ReachTaken() returns (run: seq<Action>)
    ensures Exec(PUT, run) == Some(TAKEN)
  {
    run := [];
    assert [RAW_ITEM][1..] == [];
    Then(PUT, run, Take(0)); run := run + [Take(0)];
    var s := Exec(PUT, run).value;
    assert s.queues == TAKEN.queues;
    assert s.th == TAKEN.th;
  }

  const CLOSED := HELD.(th := TAKEN.th)

  lemma ReachClosed() returns (run: seq<Action>)
    ensures Exec(TAKEN, run) == Some(CLOSED)
  {
    run := [];
    Then(TAKEN, run, MainStep); run := run + [MainStep];
    Then(TAKEN, run, MainStep); run := run + [MainStep];
    Then(TAKEN, run, MainStep); run := run + [MainStep];
    assert Exec(TAKEN, run).value.queues == CLOSED.queues;
  }

  lemma ReachHeld() returns (run: seq<Action>)
    ensures Exec(CLOSED, run) == Some(HELD)
  {
    run := [];
    Then(CLOSED, run, ConsumerStep); run := run + [ConsumerStep];
  }

  /** Inside publish, with the copy in hand. */
  const CLONED := HELD.(env := HELD.env.(lock := Some(0)),
                        th := Threads(PNext, 1, CDone(0), map[0 := WCopy(RAW_ITEM, MESSAGE, Telemetries, 0, 1)],
                                      ONE_STAMP),
                        mem := Memory(map[0 := SAMPLE, 1 := MESSAGE], multiset{}, multiset{}), issued := 1)

  lemma ReachCloned() returns (run: seq<Action>)
    ensures Exec(HELD, run) == Some(CLONED)
  {
    run := [];
    Then(HELD, run, Stamp(0, 0)); run := run + [Stamp(0, 0)];
    Then(HELD, run, LockRegistry(0)); run := run + [LockRegistry(0)];
    Then(HELD, run, Clone(0, 1, true)); run := run + [Clone(0, 1, true)];
    var s := Exec(HELD, run).value;
    assert s.th == CLONED.th;
    assert s.mem == CLONED.mem;
  }

  const DELIVERED := CLONED.(queues := SENT.queues,
                             th := Threads(PNext, 1, CDone(0), map[0 := WFan(RAW_ITEM, MESSAGE, Telemetries, 1)],
                                           ONE_STAMP))

  lemma ReachDelivered() returns (run: seq<Action>)
    ensures Exec(CLONED, run) == Some(DELIVERED)
  {
    run := [];
    assert [] + [COPY_ITEM] == [COPY_ITEM] && [] + [1] == [1];
    Then(CLONED, run, Deliver(0)); run := run + [Deliver(0)];
    var s := Exec(CLONED, run).value;
    assert s.th == DELIVERED.th;
    assert s.queues == DELIVERED.queues;
  }

  lemma ReachSent() returns (run: seq<Action>)
    ensures Exec(DELIVERED, run) == Some(SENT)
  {
    run := [];
    Then(DELIVERED, run, UnlockRegistry(0)); run := run + [UnlockRegistry(0)];
    Then(DELIVERED, run, Release(0)); run := run + [Release(0)];
    var s := Exec(DELIVERED, run).value;
    assert s.th == SENT.th;
    assert s.mem == SENT.mem;
  }

  lemma ReachAllBack() returns (run: seq<Action>)
    ensures Exec(SENT, run) == Some(ALL_BACK)
  {
    run := [];
    Then(SENT, run, Take(0)); run := run + [Take(0)];
    Then(SENT, run, MakeAlert(2, true)); run := run + [MakeAlert(2, true)];
    Then(SENT, run, Rest); run := run + [Rest];
    Then(SENT, run, Tick(2, true)); run := run + [Tick(2, true)];
    assert Exec(SENT, run).value.th == ALL_BACK.th;
  }

  lemma ReachJoined() returns (run: seq<Action>)
    ensures Exec(ALL_BACK, run) == Some(JOINED)
  {
    run := [];
    Then(ALL_BACK, run, MainStep); run := run + [MainStep];
    Then(ALL_BACK, run, MainStep); run := run + [MainStep];
    Then(ALL_BACK, run, MainStep); run := run + [MainStep];
    Then(ALL_BACK, run, MainStep); run := run + [MainStep];
    assert Exec(ALL_BACK, run).value.queues == JOINED.queues;
  }

  lemma ReachUnsubscribed() returns (run: seq<Action>)
    ensures Exec(JOINED, run) == Some(UNSUBSCRIBED)
  {
    run := [];
    assert Left([1], 1) == [] && Left([2], 2) == [];
    Then(JOINED, run, MainStep); run := run + [MainStep];
    Then(JOINED, run, MainStep); run := run + [MainStep];
  }

  lemma ReachDropped() returns (run: seq<Action>)
    ensures Exec(UNSUBSCRIBED, run) == Some(DROPPED)
  {
    run := [];
    assert Pids([]) == [] && Pids([COPY_ITEM]) == [1];
    Then(UNSUBSCRIBED, run, MainStep); run := run + [MainStep];
    Then(UNSUBSCRIBED, run, MainStep); run := run + [MainStep];
    var s := Exec(UNSUBSCRIBED, run).value;
    assert s.env.dead == {1, 2};
    assert s.queues == DROPPED.queues;
    assert s.mem == DROPPED.mem;
  }

  const TRANSPORT_JOINED := DROPPED.(env := Env1(DROP_INGEST, true, {1, 2}, [], []),
                                     conn := NO_CONNECTION.(stage := Gone))

  lemma ReachTransportJoined() returns (run: seq<Action>)
    ensures Exec(DROPPED, run) == Some(TRANSPORT_JOINED)
  {
    run := [];
    Then(DROPPED, run, TransportStep(true)); run := run + [TransportStep(true)];
    Then(DROPPED, run, MainStep); run := run + [MainStep];
  }

  lemma ReachEnd() returns (run: seq<Action>)
    ensures Exec(TRANSPORT_JOINED, run).Some?
    ensures var s := Exec(TRANSPORT_JOINED, run).value;
            s.env.main == EXIT && s.mem == DROPPED.mem && s.arrivals == 1 && s.th == DROPPED.th
  {
    run := [];
    assert Pids([]) == [];
    Then(TRANSPORT_JOINED, run, MainStep); run := run + [MainStep];
    Then(TRANSPORT_JOINED, run, MainStep); run := run + [MainStep];
    Then(TRANSPORT_JOINED, run, MainStep); run := run + [MainStep];
    assert Exec(TRANSPORT_JOINED, run).value.mem == DROPPED.mem;
  }

  /** A message can be lost although the ingest queue was drained and its worker came back last:
      published after the consumer had returned, it stays in the consumer's queue. */
  lemma PublishedMessageCanBeLost() returns (s0: State, run: seq<Action>)
    ensures Init(s0) && Exec(s0, run).Some?
    ensures var s := Exec(s0, run).value;
            && s.env.main == EXIT && s.th.workers == map[0 := WDone(s.arrivals)]
            && s.mem.lost == multiset{1} && s.mem.freed == multiset{0} && 1 in s.mem.heap && s.mem.heap[1] == MESSAGE
  {
    hide Step, Init;
    StartIsInit();
    s0 := START;
    run := ReachStarted();
    var next := ReachQueued();
    ExecThen(s0, run, next); run := run + next;
    next := ReachTaken();
    ExecThen(s0, run, next); run := run + next;
    next := ReachClosed();
    ExecThen(s0, run, next); run := run + next;
    next := ReachHeld();
    ExecThen(s0, run, next); run := run + next;
    next := ReachCloned();
    ExecThen(s0, run, next); run := run + next;
    next := ReachDelivered();
    ExecThen(s0, run, next); run := run + next;
    next := ReachSent();
    ExecThen(s0, run, next); run := run + next;
    next := ReachAllBack();
    ExecThen(s0, run, next); run := run + next;
    next := ReachJoined();
    ExecThen(s0, run, next); run := run + next;
    next := ReachUnsubscribed();
    ExecThen(s0, run, next); run := run + next;
    next := ReachDropped();
    ExecThen(s0, run, next); run := run + next;
    next := ReachTransportJoined();
    ExecThen(s0, run, next); run := run + next;
    next := ReachEnd();
    ExecThen(s0, run, next); run := run + next;
  }

  // ---------------------------------------------------------------- a client that says nothing

  const CONNECTED := STARTED.(conn := NO_CONNECTION.(stage := Greet))

  /** A client connects and is silent ... */
  lemma ReachConnected() returns (run: seq<Action>)
    ensures Exec(STARTED, run) == Some(CONNECTED)
    ensures forall i | 0 <= i < |run| && OfPeer(run[i]) :: run[i] == Connect
  {
    run := [];
    Then(STARTED, run, TransportStep(true)); run := run + [TransportStep(true)];
    Then(STARTED, run, Connect); run := run + [Connect];
  }

  lemma SignalStops()
    ensures Step(CONNECTED, MainStep).Some?
    ensures Step(CONNECTED, MainStep).value.env.stop && Step(CONNECTED, MainStep).value.conn.stage == Greet
  {
  }

  /** ... and then the signal arrives. */
  lemma ReachSilence() returns (run: seq<Action>)
    ensures Exec(START, run).Some? && Exec(START, run).value.env.stop && Exec(START, run).value.conn.stage == Greet
    ensures forall i | 0 <= i < |run| && OfPeer(run[i]) :: run[i] == Connect
  {
    hide Step;
    run := ReachStarted();
    var next := ReachConnected();
    ExecThen(START, run, next); run := run + next;
    Then(START, run, MainStep); run := run + [MainStep];
    SignalStops();
  }

  /** The shutdown then gets as far as the join of the transport thread and no further: producer,
      workers and consumer have returned, and no thread of the process can ever move again. */
  lemma SilentClientHangs() returns (s0: State, run: seq<Action>)
    ensures Init(s0) && Exec(s0, run).Some?
    ensures forall i | 0 <= i < |run| && OfPeer(run[i]) :: run[i] == Connect
    ensures var s := Exec(s0, run).value;
            && s.env.stop && s.env.main == JOIN_TRANSPORT && s.conn.stage == Greet
            && Stuck(s) && !CanEndAlone(s)
  {
    hide Init, Step, Sane, Work;
    StartIsInit();
    s0 := START;
    var first := ReachSilence();
    InitSane(s0);
    RunSane(s0, first);
    var rest, s := Alone(Exec(s0, first).value);
    ExecThen(s0, first, rest);
    run := first + rest;
    WaitingHoldsMain(s);
    StuckIff(s0, run);
    CompletesAloneIff(s0, run);
  }
}
