/** What the producer puts on the ingest queue: one sample per tick, an alert after every fifth, each
    with the values its tick number fixes. */
module Production {
  import opened Messages
  import opened System
  import opened Lifetimes
  import opened Ownership
  import opened Routing
  import opened Sequence
  import opened SystemTheorems

  /** The values of tick `n`. */
  ghost predicate Sample(n: nat, b: Body) { b == RawTelemetry(100 - n % 101, -40 - n % 50) }

  ghost predicate Warning(n: nat, b: Body) {
    b == RawAlert(if n / 5 % 2 == 0 then "ANTENNA_UNPLUGGED" else "BATTERY_LOW", 1 + n % 2)
  }

  ghost predicate Right(it: Item, h: map<Pid, Body>) {
    && it.payload in h
    && (it.kind == Telemetry ==> Sample(it.id, h[it.payload]))
    && (it.kind == Alert ==> it.id % 5 == 0 && Warning(it.id, h[it.payload]))
    && (it.kind == Telemetry || it.kind == Alert)
  }

  /** What comes next: the alert of a tick that is a multiple of five, else the sample of the next
      tick; the tick counter has 32 bits. */
  ghost predicate Follows(it: Item, next: Item) {
    if it.kind == Telemetry && it.id % 5 == 0 then next.kind == Alert && next.id == it.id
    else next.kind == Telemetry && next.id == (it.id + 1) % 4294967296
  }

  ghost predicate InOrder(made: seq<Item>) {
    && (made != [] ==> made[0].kind == Telemetry && made[0].id == 1)
    && forall i | 0 <= i < |made| - 1 :: Follows(made[i], made[i + 1])
  }

  ghost predicate AllRight(made: seq<Item>, h: map<Pid, Body>) { forall i | 0 <= i < |made| :: Right(made[i], h) }

  /** Everything for tick `n` has been made. */
  ghost predicate DoneWith(made: seq<Item>, n: nat) {
    if made == [] then n == 0
    else var it := made[|made| - 1]; it.id == n && (it.kind == Alert || n % 5 != 0)
  }

  /** Only the sample of tick `n` has been made. */
  ghost predicate Sampled(made: seq<Item>, n: nat) {
    made != [] && made[|made| - 1].id == n && made[|made| - 1].kind == Telemetry
  }

  ghost predicate Between(pc: Producer, made: seq<Item>, n: nat, h: map<Pid, Body>) {
    match pc
    case PIdle => DoneWith(made, n)
    case PTop => DoneWith(made, n)
    case PTelemetry(p) =>
      p in h && Sample(n, h[p]) && exists m: nat :: DoneWith(made, m) && n == (m + 1) % 4294967296
    case PNext => Sampled(made, n)
    case PAlert(p) => Sampled(made, n) && n % 5 == 0 && p in h && Warning(n, h[p])
    case PRest => DoneWith(made, n)
    case PDone => true
  }

  ghost predicate ProductionOk(s: State) {
    && InOrder(s.th.book.made) && AllRight(s.th.book.made, s.mem.heap)
    && Between(s.th.producer, s.th.book.made, s.th.ticks, s.mem.heap)
  }

  lemma RightStill(made: seq<Item>, h: map<Pid, Body>, p: Pid, b: Body)
    requires AllRight(made, h) && p !in h
    ensures AllRight(made, h[p := b])
  {
    hide Sample, Warning;
  }

  lemma TickMakes(s: State, a: Action)
    requires ProductionOk(s) && a.Tick? && StepProducer(s, a).Some?
    ensures ProductionOk(StepProducer(s, a).value)
  {
    var t := StepProducer(s, a).value;
    if a.p in t.mem.heap { RightStill(s.th.book.made, s.mem.heap, a.p, t.mem.heap[a.p]); }
    hide InOrder, AllRight, DoneWith;
  }

  lemma AlertMakes(s: State, a: Action)
    requires ProductionOk(s) && a.MakeAlert? && StepProducer(s, a).Some?
    ensures ProductionOk(StepProducer(s, a).value)
  {
    var t := StepProducer(s, a).value;
    if a.p in t.mem.heap { RightStill(s.th.book.made, s.mem.heap, a.p, t.mem.heap[a.p]); }
    hide InOrder, AllRight;
  }

  lemma PutMakes(s: State, a: Action)
    requires ProductionOk(s) && (a.Put? || a.TryPut?) && StepProducer(s, a).Some?
    ensures ProductionOk(StepProducer(s, a).value)
  {
    hide Usable, Live, Push;
  }

  lemma RestMakes(s: State)
    requires ProductionOk(s) && StepProducer(s, Rest).Some?
    ensures ProductionOk(StepProducer(s, Rest).value)
  {
    hide InOrder, AllRight, DoneWith;
  }

  /** Everybody else only adds payloads. */
  ghost predicate OnlyAdds(s: State, t: State) {
    && t.th.book.made == s.th.book.made && t.th.producer == s.th.producer && t.th.ticks == s.th.ticks
    && forall p | p in s.mem.heap :: p in t.mem.heap && t.mem.heap[p] == s.mem.heap[p]
  }

  lemma OnlyAddsOk(s: State, t: State)
    requires ProductionOk(s) && OnlyAdds(s, t)
    ensures ProductionOk(t)
  {
    hide Sample, Warning, InOrder, DoneWith, Sampled;
  }

  lemma WorkerOnlyAdds(s: State, a: Action)
    requires OfWorker(a) && StepWorker(s, a).Some?
    ensures OnlyAdds(s, StepWorker(s, a).value)
  {
    hide Usable, Live, Readable, Enrich, Pop, Receive, SeqNumber;
  }

  lemma ListenerOnlyAdds(s: State, a: Action)
    requires StepListener(s, a).Some?
    ensures OnlyAdds(s, StepListener(s, a).value)
  {
    hide Usable, Live, Push, GoodAlert;
  }

  lemma ConsumerOnlyAdds(s: State)
    requires StepConsumer(s).Some?
    ensures OnlyAdds(s, StepConsumer(s).value)
  {
    hide Usable, Readable, Pop;
  }

  lemma CreateOnlyAdds(s: State, q: Qid, ok: bool)
    requires StepCreate(s, q, ok).Some?
    ensures OnlyAdds(s, StepCreate(s, q, ok).value)
  {
  }

  lemma ServeOnlyAdds(s: State, ok: bool)
    ensures StepServe(s).Some? ==> OnlyAdds(s, StepServe(s).value)
    ensures StepServeA(s).Some? ==> OnlyAdds(s, StepServeA(s).value)
    ensures StepSend(s, ok).Some? ==> OnlyAdds(s, StepSend(s, ok).value)
    ensures (s.conn.stage.DropT? || s.conn.stage.DropA?) && StepDrop(s).Some? ==> OnlyAdds(s, StepDrop(s).value)
  {
    hide Usable, Readable, Pop, Emptied;
  }

  lemma TransportOnlyAdds(s: State, ok: bool)
    requires ConnectionOk(s.env, s.conn) && StepTransport(s, ok).Some?
    ensures OnlyAdds(s, StepTransport(s, ok).value)
  {
    if !Serving(s.conn.stage) && !s.conn.stage.DropT? && !s.conn.stage.DropA? {
      hide StepTransport, ConnectionOk;
      QuietTransport(s, ok);
    } else {
      hide StepServe, StepServeA, StepSend, StepDrop, ConnectionOk, OnlyAdds;
      ServeOnlyAdds(s, ok);
    }
  }

  lemma SocketOnlyAdds(s: State, a: Action)
    requires StepSocket(s, a).Some?
    ensures OnlyAdds(s, StepSocket(s, a).value)
  {
    hide Readable;
  }

  lemma MainOnlyAdds(s: State)
    requires StepMain(s).Some? && s.env.main != START_PRODUCER
    ensures OnlyAdds(s, StepMain(s).value)
  {
    hide Usable, Left, Joined, CanJoin, Shut, Emptied;
  }

  lemma StartProduces(s: State)
    requires ProductionOk(s) && MainOk(s.env, s.conn, s.th) && StepMain(s).Some? && s.env.main == START_PRODUCER
    ensures ProductionOk(StepMain(s).value)
  {
    hide InOrder, AllRight, DoneWith;
  }

  lemma StepProduction(s: State, a: Action)
    requires ProductionOk(s) && LifeOk(s) && Step(s, a).Some?
    ensures ProductionOk(Step(s, a).value)
  {
    PartsOf(s);
    hide ProductionOk, LifeOk, MainOk, ConnectionOk, OnlyAdds;
    hide StepProducer, StepWorker, StepConsumer, StepCreate, StepTransport, StepSocket, StepListener, StepMain;
    if OfProducer(a) {
      if a.Tick? { TickMakes(s, a); }
      else if a.MakeAlert? { AlertMakes(s, a); }
      else if a.Rest? { RestMakes(s); }
      else { PutMakes(s, a); }
    } else if a.MainStep? && s.env.main == START_PRODUCER {
      StartProduces(s);
    } else {
      if OfWorker(a) { WorkerOnlyAdds(s, a); }
      else if a.ConsumerStep? { ConsumerOnlyAdds(s); }
      else if a.Create? { CreateOnlyAdds(s, a.q, a.ok); }
      else if a.TransportStep? { TransportOnlyAdds(s, a.ok); }
      else if OfSocket(a) { SocketOnlyAdds(s, a); }
      else if OfListener(a) { ListenerOnlyAdds(s, a); }
      else { MainOnlyAdds(s); }
      OnlyAddsOk(s, Step(s, a).value);
    }
  }

  lemma {:induction false} RunProduction(s: State, run: seq<Action>)
    requires ProductionOk(s) && Inv(s) && Exec(s, run).Some?
    ensures ProductionOk(Exec(s, run).value)
    decreases |run|
  {
    hide ProductionOk, Step, LifeOk, OwnOk, TypesOk, SeqOk, StampedOk;
    if run != [] {
      StepInv(s, run[0]);
      StepProduction(s, run[0]);
      RunProduction(Step(s, run[0]).value, run[1..]);
    }
  }

  /** In every run the items accepted from the producer are, in order: the sample of tick 1, 2, 3, ...,
      and after the sample of every fifth tick its alert, each with the values of its tick. */
  lemma ProducerItems(s0: State, run: seq<Action>)
    requires Init(s0) && Exec(s0, run).Some?
    ensures var s := Exec(s0, run).value; InOrder(s.th.book.made) && AllRight(s.th.book.made, s.mem.heap)
  {
    hide Step, InOrder, AllRight, DoneWith;
    InitInv(s0);
    assert ProductionOk(s0) by { InitProduction(s0); }
    RunProduction(s0, run);
  }

  lemma InitProduction(s: State)
    requires Init(s)
    ensures ProductionOk(s)
  {
  }
}
