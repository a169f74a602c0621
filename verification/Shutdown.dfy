/** What becomes of a requested shutdown, over every interleaving and every client. */
module Shutdown {
  import opened Basics
  import opened Messages
  import opened System
  import opened Lifetimes
  import opened Sequence
  import opened SystemTheorems
  import opened Completion

  // ---------------------------------------------------------------- a bound on the run

  function Commands(run: seq<Action>): nat {
    if run == [] then 0 else One(IsCommand(run[0])) + Commands(run[1..])
  }

  /** However the threads are scheduled, a run after the request is no longer than the work there was
      plus a fixed amount for every command received. */
  lemma {:induction false} RunsAreBounded(s: State, run: seq<Action>)
    requires Sane(s) && s.env.stop && Exec(s, run).Some?
    ensures |run| + Work(Exec(s, run).value) <= Work(s) + (2 + ITEM) * Commands(run)
    decreases |run|
  {
    hide Sane, Step, Work;
    if run != [] {
      StepWorks(s, run[0]);
      StepSane(s, run[0]);
      RunsAreBounded(Step(s, run[0]).value, run[1..]);
    }
  }

  lemma ShutdownIsBounded(s0: State, before: seq<Action>, run: seq<Action>)
    requires Init(s0) && Exec(s0, before).Some? && Exec(s0, before).value.env.stop
    requires Exec(Exec(s0, before).value, run).Some?
    ensures |run| <= Work(Exec(s0, before).value) + (2 + ITEM) * Commands(run)
  {
    hide Init, Step, Sane, Work;
    InitSane(s0);
    RunSane(s0, before);
    RunsAreBounded(Exec(s0, before).value, run);
  }

  /** The commands have to be counted: a client that keeps sending keeps the listener reading. */
  lemma {:induction false} FloodDelays(s: State, n: nat)
    requires Sane(s) && s.conn.listener.LRead?
    ensures Exec(s, seq(n, _ => SetInterval)) == Some(s)
  {
    if n > 0 {
      var run := seq(n, _ => SetInterval);
      assert run[1..] == seq(n - 1, _ => SetInterval);
      assert Step(s, SetInterval) == Some(s) by { IdleCommand(s); }
      FloodDelays(s, n - 1);
    }
  }

  lemma IdleCommand(s: State)
    requires Sane(s) && s.conn.listener.LRead?
    ensures Step(s, SetInterval) == Some(s)
  {
    SaneLife(s);
    hide Sane, RegistryOk, LockOk;
  }

  // ---------------------------------------------------------------- what the process can do by itself

  /** The transport thread sits in a call that only the client can finish. */
  predicate Waiting(g: Stage) { g.Greet? || g.Writing? }

  /** Everybody else has returned, and main waits for the transport thread. */
  predicate Blocked(s: State) {
    && s.env.main == JOIN_TRANSPORT && Waiting(s.conn.stage)
    && !s.conn.listener.LRead? && !s.conn.listener.LHold?
  }

  /** There is always an unused number. */
  lemma {:induction false} Unused(used: set<nat>) returns (n: nat)
    ensures forall m | m in used :: m < n
    decreases |used|
  {
    n := 0;
    if used != {} {
      var m :| m in used;
      var rest := Unused(used - {m});
      n := if m < rest then rest else m + 1;
      assert forall k | k in used :: k == m || k in used - {m};
    }
  }

  lemma ProducerAble(s: State) returns (a: Action)
    requires Sane(s) && s.env.main == JOIN_PRODUCER && !s.th.producer.PDone?
    ensures OfProducer(a) && StepProducer(s, a).Some?
  {
    hide Good, SeqOk, StampedOk, FansOk, ListsOk, Usable, Live, Free, Push;
    var p := Unused(s.mem.heap.Keys);
    a := match s.th.producer
         case PTelemetry(_) => Put
         case PNext => MakeAlert(p, true)
         case PAlert(_) => TryPut
         case PRest => Rest
         case _ => Tick(p, true);
  }

  lemma ConsumerAble(s: State)
    requires Sane(s) && s.env.main == JOIN_CONSUMER && !s.th.consumer.CDone?
    ensures StepConsumer(s).Some?
  {
    hide Good, SeqOk, StampedOk, FansOk, ListsOk, Usable, Readable, Free;
  }

  /** Whoever holds the registry lock, or, if nobody does, any worker that has not returned. */
  lemma NextWorker(s: State) returns (w: Wid)
    requires Sane(s) && exists v :: v in s.th.workers && !s.th.workers[v].WDone?
    ensures w in s.th.workers && !s.th.workers[w].WDone? && (s.env.lock.None? || s.env.lock == Some(w))
  {
    SaneLife(s);
    hide Sane, MainOk, ConnectionOk, RegistryOk;
    if s.env.lock.Some? {
      w := s.env.lock.value;
    } else {
      w :| w in s.th.workers && !s.th.workers[w].WDone?;
    }
  }

  lemma WorkerAble(s: State) returns (a: Action)
    requires Sane(s) && s.env.main == JOIN_WORKERS && exists v :: v in s.th.workers && !s.th.workers[v].WDone?
    ensures OfWorker(a) && StepWorker(s, a).Some?
  {
    var w := NextWorker(s);
    hide Good, SeqOk, StampedOk, ListsOk, Usable, Live, Readable, Free, Alloc, Enrich, Pop, Receive;
    var p := Unused(s.mem.heap.Keys);
    a := match s.th.workers[w]
         case WRaw(_) => Stamp(w, 0)
         case WMsg(_, _, _) => LockRegistry(w)
         case WFan(_, _, topic, i) => if i < |Subs(s.env, topic)| then Clone(w, p, true) else UnlockRegistry(w)
         case WCopy(_, _, _, _, _) => Deliver(w)
         case WFree(_) => Release(w)
         case _ => Take(w);
  }

  /** With the workers gone nobody holds the registry lock. */
  lemma LockFree(s: State)
    requires Sane(s) && s.env.main > JOIN_WORKERS
    ensures s.env.lock.None?
  {
    SaneLife(s);
    hide Sane, ConnectionOk, RegistryOk;
  }

  lemma ListenerAble(s: State)
    requires s.env.stop
    ensures s.conn.listener.LHold? ==> StepListener(s, Inject).Some?
    ensures s.conn.listener.LRead? ==> StepListener(s, TimeOut).Some?
  {
    hide Usable, Live, Free, Push;
  }

  lemma StageAble(s: State)
    requires ConnectionOk(s.env, s.conn) && s.env.lock.None?
    requires !s.conn.stage.MakeT? && !s.conn.stage.MakeA? && !s.conn.stage.Gone? && !Waiting(s.conn.stage)
    requires !s.conn.listener.LRead? && !s.conn.listener.LHold?
    ensures StepTransport(s, true).Some?
  {
    hide Joined, Left, CanJoin, Usable, Readable, Pop, Free, Abandon, Emptied;
  }

  lemma TransportAble(s: State) returns (a: Action)
    requires Sane(s) && s.env.main == JOIN_TRANSPORT && !s.conn.stage.Gone? && !Blocked(s)
    ensures !OfPeer(a) && !a.Block? && Step(s, a).Some?
  {
    LockFree(s);
    SaneLife(s);
    assert s.env.stop;
    PartsOf(s);
    ListenerAble(s);
    hide Sane, LifeOk, MainOk, ConnectionOk, StepTransport, StepListener, StepCreate;
    var c := s.conn;
    if c.listener.LHold? {
      a := Inject;
    } else if c.listener.LRead? {
      a := TimeOut;
    } else if c.stage.MakeT? || c.stage.MakeA? {
      var q := Unused(s.env.roles.Keys);
      a := Create(q, true);
      CreateAble(s, q);
    } else {
      a := TransportStep(true);
      StageAble(s);
    }
  }

  lemma CreateAble(s: State, q: Qid)
    requires (s.conn.stage.MakeT? || s.conn.stage.MakeA?) && q !in s.env.roles
    ensures StepCreate(s, q, true).Some?
  {
  }

  lemma MainAble(s: State)
    requires Sane(s) && s.env.stop && s.env.main != EXIT
    requires s.env.main == JOIN_PRODUCER ==> s.th.producer.PDone?
    requires s.env.main == JOIN_WORKERS ==> forall w | w in s.th.workers :: s.th.workers[w].WDone?
    requires s.env.main == JOIN_CONSUMER ==> s.th.consumer.CDone?
    requires s.env.main == JOIN_TRANSPORT ==> s.conn.stage.Gone?
    ensures StepMain(s).Some?
  {
    if s.env.main > JOIN_WORKERS { LockFree(s); }
    assert AWAIT_SIGNAL < s.env.main <= EXIT;
    hide Sane, StepMainShut, StepMainDestroy, StepMainFinish, Left;
  }

  /** Unless it is blocked, a process that is shutting down can do something by itself. */
  lemma Able(s: State) returns (a: Action)
    requires Sane(s) && s.env.stop && s.env.main != EXIT && !Blocked(s)
    ensures !OfPeer(a) && !a.Block? && Step(s, a).Some?
  {
    hide Sane, Blocked, StepProducer, StepWorker, StepConsumer, StepTransport, StepListener, StepMain;
    if s.env.main == JOIN_PRODUCER && !s.th.producer.PDone? {
      a := ProducerAble(s);
    } else if s.env.main == JOIN_WORKERS && exists v :: v in s.th.workers && !s.th.workers[v].WDone? {
      a := WorkerAble(s);
    } else if s.env.main == JOIN_CONSUMER && !s.th.consumer.CDone? {
      a := ConsumerStep;
      ConsumerAble(s);
    } else if s.env.main == JOIN_TRANSPORT && !s.conn.stage.Gone? {
      a := TransportAble(s);
    } else {
      a := MainStep;
      MainAble(s);
    }
  }

  lemma ReturnedThreads(s: State, a: Action)
    ensures s.th.producer.PDone? ==> StepProducer(s, a).None?
    ensures s.th.consumer.CDone? ==> StepConsumer(s).None?
  {
  }

  lemma ReturnedWorkers(s: State, a: Action)
    requires OfWorker(a) && forall w | w in s.th.workers :: s.th.workers[w].WDone?
    ensures StepWorker(s, a).None?
  {
  }

  lemma WaitingSocket(s: State, a: Action)
    requires Waiting(s.conn.stage) && !OfPeer(a)
    ensures StepSocket(s, a).None?
    ensures a.TransportStep? ==> StepTransport(s, a.ok).None?
    ensures a.Create? ==> StepCreate(s, a.q, a.ok).None?
  {
    hide StepSend;
  }

  lemma ReturnedListener(s: State, a: Action)
    requires !s.conn.listener.LRead? && !s.conn.listener.LHold?
    ensures StepListener(s, a).None?
  {
  }

  /** A blocked process can do nothing by itself. */
  lemma BlockedIsStuck(s: State, a: Action)
    requires Sane(s) && Blocked(s) && !OfPeer(a)
    ensures Step(s, a).None?
  {
    SaneLife(s);
    PartsOf(s);
    hide Sane, LifeOk, ConnectionOk;
    hide StepProducer, StepWorker, StepConsumer, StepTransport, StepSocket, StepCreate, StepListener;
    ReturnedThreads(s, a);
    if OfWorker(a) { ReturnedWorkers(s, a); }
    WaitingSocket(s, a);
    ReturnedListener(s, a);
  }

  ghost predicate Stuck(s: State) { forall a | !OfPeer(a) :: Step(s, a).None? }

  /** The exact condition: a process that is shutting down is stuck if and only if main waits for a
      transport thread that sits in the handshake or in a write, and the listener has returned. */
  lemma StuckIff(s0: State, run: seq<Action>)
    requires Init(s0) && Exec(s0, run).Some?
    requires Exec(s0, run).value.env.stop && Exec(s0, run).value.env.main != EXIT
    ensures Stuck(Exec(s0, run).value) <==> Blocked(Exec(s0, run).value)
  {
    hide Init, Step, Sane, Blocked;
    InitSane(s0);
    RunSane(s0, run);
    var s := Exec(s0, run).value;
    if Blocked(s) {
      forall a | !OfPeer(a) ensures Step(s, a).None? { BlockedIsStuck(s, a); }
    } else {
      var a := Able(s);
    }
  }

  // ---------------------------------------------------------------- with and without the client

  ghost predicate NoPeer(run: seq<Action>) { forall i | 0 <= i < |run| :: !OfPeer(run[i]) }

  /** By itself the process neither enters the handshake nor leaves either call. */
  ghost predicate KeepsWaiting(s: State, t: State, a: Action) {
    && (Waiting(s.conn.stage) ==> t.conn.stage == s.conn.stage)
    && (!Waiting(s.conn.stage) && !a.Block? ==> !Waiting(t.conn.stage))
  }

  lemma ThreadsKeepWaiting(s: State, a: Action)
    ensures OfProducer(a) && StepProducer(s, a).Some? ==> StepProducer(s, a).value.conn == s.conn
    ensures StepConsumer(s).Some? ==> StepConsumer(s).value.conn == s.conn
  {
    hide Usable, Live, Readable, Free, Alloc, Push, Pop;
  }

  lemma ListenerKeepsWaiting(s: State, a: Action)
    requires StepListener(s, a).Some?
    ensures StepListener(s, a).value.conn.stage == s.conn.stage
  {
    hide Usable, Live, Free, Alloc, Push, GoodAlert;
  }

  lemma ListsNotWaiting(s: State)
    ensures StepSubT(s).Some? ==> !Waiting(StepSubT(s).value.conn.stage)
    ensures StepSubA(s).Some? ==> !Waiting(StepSubA(s).value.conn.stage)
    ensures StepUnsubT(s).Some? ==> !Waiting(StepUnsubT(s).value.conn.stage)
    ensures StepUnsubA(s).Some? ==> !Waiting(StepUnsubA(s).value.conn.stage)
  {
    hide Joined, Left, CanJoin;
  }

  lemma ServeNotWaiting(s: State, ok: bool)
    ensures StepServe(s).Some? ==> !Waiting(StepServe(s).value.conn.stage)
    ensures StepServeA(s).Some? ==> !Waiting(StepServeA(s).value.conn.stage)
    ensures StepSend(s, ok).Some? ==> !Waiting(StepSend(s, ok).value.conn.stage)
    ensures (s.conn.stage.DropT? || s.conn.stage.DropA?) && StepDrop(s).Some? ==>
              !Waiting(StepDrop(s).value.conn.stage)
  {
    hide Usable, Readable, Free, Pop, Abandon, Emptied;
  }

  lemma TransportKeepsWaiting(s: State, ok: bool)
    requires StepTransport(s, ok).Some?
    ensures !Waiting(s.conn.stage) && !Waiting(StepTransport(s, ok).value.conn.stage)
  {
    hide StepSubT, StepSubA, StepUnsubT, StepUnsubA, StepServe, StepServeA, StepSend, StepDrop;
    match s.conn.stage
    case SubT => ListsNotWaiting(s);
    case SubA => ListsNotWaiting(s);
    case UnsubT => ListsNotWaiting(s);
    case UnsubA => ListsNotWaiting(s);
    case Serve => ServeNotWaiting(s, ok);
    case ServeA => ServeNotWaiting(s, ok);
    case Send => ServeNotWaiting(s, ok);
    case DropT => ServeNotWaiting(s, ok);
    case DropA => ServeNotWaiting(s, ok);
    case _ =>
  }

  lemma StepKeepsWaiting(s: State, a: Action)
    requires Sane(s) && s.env.stop && !OfPeer(a) && Step(s, a).Some?
    ensures KeepsWaiting(s, Step(s, a).value, a)
  {
    assert s.env.main > AWAIT_SIGNAL;
    hide Sane, StepProducer, StepWorker, StepConsumer, StepTransport, StepListener, StepMain;
    if OfProducer(a) || a.ConsumerStep? { ThreadsKeepWaiting(s, a); }
    else if OfWorker(a) { WorkerOnly(s, a); }
    else if a.Create? { }
    else if a.TransportStep? { TransportKeepsWaiting(s, a.ok); }
    else if OfSocket(a) { }
    else if OfListener(a) { ListenerKeepsWaiting(s, a); }
    else { MainOnward(s); }
  }

  /** Left to itself the process goes on until main has ended or it is blocked. */
  lemma {:induction false} Alone(s: State) returns (run: seq<Action>, t: State)
    requires Sane(s) && s.env.stop
    ensures Exec(s, run) == Some(t) && NoPeer(run) && Sane(t) && t.env.stop && Work(t) <= Work(s)
    ensures t.env.main == EXIT || Blocked(t)
    ensures !Waiting(s.conn.stage) ==> !Waiting(t.conn.stage)
    ensures Waiting(s.conn.stage) ==> t.conn.stage == s.conn.stage
    decreases Work(s)
  {
    hide Sane, Step, Work, Blocked, Waiting;
    if s.env.main == EXIT || Blocked(s) {
      run, t := [], s;
    } else {
      var a := Able(s);
      StepWorks(s, a);
      StepSane(s, a);
      StepKeepsWaiting(s, a);
      var rest;
      rest, t := Alone(Step(s, a).value);
      run := [a] + rest;
      assert run[1..] == rest;
    }
  }

  lemma {:induction false} StaysWaiting(s: State, run: seq<Action>)
    requires Sane(s) && s.env.stop && Waiting(s.conn.stage) && NoPeer(run) && Exec(s, run).Some?
    ensures Sane(Exec(s, run).value) && Waiting(Exec(s, run).value.conn.stage)
    decreases |run|
  {
    hide Sane, Step, Waiting, Work;
    if run != [] {
      assert !OfPeer(run[0]);
      StepKeepsWaiting(s, run[0]);
      StepWorks(s, run[0]);
      StepSane(s, run[0]);
      StaysWaiting(Step(s, run[0]).value, run[1..]);
    }
  }

  /** main does not get past the join while the transport thread waits. */
  lemma WaitingHoldsMain(s: State)
    requires Sane(s) && Waiting(s.conn.stage)
    ensures s.env.main != EXIT
  {
    SaneLife(s);
    hide Sane, ConnectionOk, RegistryOk, LockOk;
  }

  ghost predicate CanEndAlone(s: State) {
    exists run :: NoPeer(run) && Exec(s, run).Some? && Exec(s, run).value.env.main == EXIT
  }

  /** Without any help from the client the shutdown can be completed if and only if the transport
      thread is not already in one of the two calls. */
  lemma CompletesAloneIff(s0: State, run: seq<Action>)
    requires Init(s0) && Exec(s0, run).Some? && Exec(s0, run).value.env.stop
    ensures CanEndAlone(Exec(s0, run).value) <==> !Waiting(Exec(s0, run).value.conn.stage)
  {
    hide Init, Step, Sane, Waiting;
    InitSane(s0);
    RunSane(s0, run);
    var s := Exec(s0, run).value;
    if Waiting(s.conn.stage) {
      forall more | NoPeer(more) && Exec(s, more).Some? ensures Exec(s, more).value.env.main != EXIT {
        StaysWaiting(s, more);
        WaitingHoldsMain(Exec(s, more).value);
      }
    } else {
      var more, t := Alone(s);
    }
  }

  /** The client finishes the call: it completes its line or goes away, it reads on or goes away. */
  predicate Helps(a: Action) { a.Speak? || a.Unblock? }

  lemma SocketHelps(s: State)
    ensures s.conn.stage.Greet? ==> StepSocket(s, Speak).Some?
    ensures s.conn.stage.Writing? && s.conn.held.Some? ==> StepSocket(s, Unblock(true)).Some?
  {
    hide Readable, Free;
  }

  lemma HelpWorks(s: State) returns (a: Action)
    requires Sane(s) && Blocked(s)
    ensures Helps(a) && Step(s, a).Some?
  {
    SaneLife(s);
    PartsOf(s);
    SocketHelps(s);
    hide Sane, LifeOk, MainOk, StepSocket;
    a := if s.conn.stage.Greet? then Speak else Unblock(true);
  }

  lemma {:induction false} Finish(s: State) returns (run: seq<Action>)
    requires Sane(s) && s.env.stop
    ensures Exec(s, run).Some? && Exec(s, run).value.env.main == EXIT
    ensures forall i | 0 <= i < |run| && OfPeer(run[i]) :: Helps(run[i])
    decreases Work(s)
  {
    hide Sane, Step, Work, Blocked, OfPeer, Helps;
    var first, mid := Alone(s);
    if mid.env.main == EXIT {
      run := first;
    } else {
      var a := HelpWorks(mid);
      assert !IsCommand(a) by { HelpIsNoCommand(a); }
      StepWorks(mid, a);
      StepSane(mid, a);
      var last := Finish(Step(mid, a).value);
      var rest := [a] + last;
      assert rest[1..] == last;
      ExecThen(s, first, rest);
      run := first + rest;
    }
  }

  lemma HelpIsNoCommand(a: Action)
    requires Helps(a)
    ensures !IsCommand(a)
  {
  }

  lemma {:induction false} ExecThen(s: State, a: seq<Action>, b: seq<Action>)
    requires Exec(s, a).Some?
    ensures Exec(s, a + b) == Exec(Exec(s, a).value, b)
    decreases |a|
  {
    hide Step;
    if a == [] {
      assert a + b == b;
    } else {
      ExecThen(Step(s, a[0]).value, a[1..], b);
      assert (a + b)[1..] == a[1..] + b;
    }
  }

  /** With the client's help, and no more of it than finishing those calls, every reachable state
      after the request leads to a completed shutdown: threads joined, everything destroyed. */
  lemma ShutdownCanComplete(s0: State, run: seq<Action>) returns (more: seq<Action>)
    requires Init(s0) && Exec(s0, run).Some? && Exec(s0, run).value.env.stop
    ensures Exec(s0, run + more).Some? && Exec(s0, run + more).value.env.main == EXIT
    ensures forall i | 0 <= i < |more| && OfPeer(more[i]) :: Helps(more[i])
  {
    hide Step, Init, Sane;
    InitSane(s0);
    RunSane(s0, run);
    more := Finish(Exec(s0, run).value);
    ExecThen(s0, run, more);
  }
}
