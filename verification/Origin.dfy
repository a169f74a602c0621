/** Where messages come from: every message in a subscriber's queue is one raw item that the ingest
    queue accepted, with a number and a timestamp added, and no raw item is numbered twice. */
module Origin {
  import opened Messages
  import opened System
  import opened Lifetimes
  import opened Ownership
  import opened Routing
  import opened Sequence
  import opened SystemTheorems
  import Registry

  predicate IsRaw(b: Body) { b.RawTelemetry? || b.RawAlert? }

  predicate IsMessage(b: Body) { b.TelemetryMsg? || b.AlertMsg? }

  /** Number `k` went to a raw payload, and `m` is that payload, field by field, with this number and
      the time it was handed out. */
  ghost predicate MadeFrom(m: Body, k: nat, h: map<Pid, Body>, b: Book) {
    && k < |b.origins| && k < |b.stamped| && k < |b.times| && b.origins[k] in h
    && match h[b.origins[k]]
       case RawTelemetry(battery, rssi) =>
         m.TelemetryMsg? && m.seqNo == b.stamped[k] && m.ts == b.times[k] && m.battery == battery && m.rssi == rssi
       case RawAlert(code, antenna) =>
         m.AlertMsg? && m.seqNo == b.stamped[k] && m.ts == b.times[k] && m.code == code && m.antenna == antenna
       case _ => false
  }

  ghost predicate HasOrigin(m: Body, h: map<Pid, Body>, b: Book) { exists k: nat :: MadeFrom(m, k, h, b) }

  /** The books list each payload at most once. */
  ghost predicate ListedOnce(h: map<Pid, Body>, b: Book) {
    && Registry.NoDuplicates(b.accepted) && Registry.NoDuplicates(b.origins)
    && |b.origins| == |b.stamped| == |b.times|
    && (forall i | 0 <= i < |b.accepted| :: b.accepted[i] in h)
    && (forall i | 0 <= i < |b.origins| :: b.origins[i] in b.accepted)
  }

  /** A raw payload that was accepted and has no number yet. */
  ghost predicate Unnumbered(p: Pid, b: Book) { p in b.accepted && p !in b.origins }

  /** The raw items in the ingest queue and in workers' hands, all different. */
  ghost predicate RawApart(items: seq<Item>, ws: map<Wid, Worker>, b: Book) {
    && (forall i | 0 <= i < |items| :: Unnumbered(items[i].payload, b))
    && (forall w | w in ws && ws[w].WRaw? :: Unnumbered(ws[w].it.payload, b))
    && (forall i, j | 0 <= i < j < |items| :: items[i].payload != items[j].payload)
    && (forall w, i | w in ws && ws[w].WRaw? && 0 <= i < |items| :: ws[w].it.payload != items[i].payload)
    && (forall v, w | v in ws && w in ws && v != w && ws[v].WRaw? && ws[w].WRaw? ::
          ws[v].it.payload != ws[w].it.payload)
  }

  /** What the producer and the listener are about to queue is new. */
  ghost predicate HandsNew(pr: Producer, l: Listener, h: map<Pid, Body>, b: Book) {
    && (pr.PTelemetry? || pr.PAlert? ==> pr.p in h && pr.p !in b.accepted)
    && (l.LHold? ==> l.p in h && l.p !in b.accepted)
    && ((pr.PTelemetry? || pr.PAlert?) && l.LHold? ==> pr.p != l.p)
  }

  ghost predicate AllMade(h: map<Pid, Body>, ws: map<Wid, Worker>, b: Book) {
    && (forall p | p in h && IsMessage(h[p]) :: HasOrigin(h[p], h, b))
    && (forall w | w in ws && HasMsg(ws[w]) :: HasOrigin(ws[w].msg, h, b))
  }

  ghost predicate OriginOk(s: State) {
    && ListedOnce(s.mem.heap, s.th.book)
    && RawApart(At(s.queues, INGEST).items, s.th.workers, s.th.book)
    && HandsNew(s.th.producer, s.conn.listener, s.mem.heap, s.th.book)
    && AllMade(s.mem.heap, s.th.workers, s.th.book)
  }

  // ---------------------------------------------------------------- allocation, acceptance, numbering

  lemma MadeStill(m: Body, h: map<Pid, Body>, b: Book, p: Pid, x: Body)
    requires HasOrigin(m, h, b) && p !in h
    ensures HasOrigin(m, h[p := x], b)
  {
    var k: nat :| MadeFrom(m, k, h, b);
    assert MadeFrom(m, k, h[p := x], b);
  }

  /** A fresh payload that is raw, or a message with an origin. */
  lemma AllocMade(h: map<Pid, Body>, ws: map<Wid, Worker>, b: Book, p: Pid, x: Body)
    requires ListedOnce(h, b) && AllMade(h, ws, b) && p !in h && (IsMessage(x) ==> HasOrigin(x, h, b))
    ensures ListedOnce(h[p := x], b) && AllMade(h[p := x], ws, b) && p !in b.accepted
  {
    hide HasOrigin, Registry.NoDuplicates;
    var g := h[p := x];
    forall q | q in g && IsMessage(g[q]) ensures HasOrigin(g[q], g, b) { MadeStill(g[q], h, b, p, x); }
    forall w | w in ws && HasMsg(ws[w]) ensures HasOrigin(ws[w].msg, g, b) { MadeStill(ws[w].msg, h, b, p, x); }
  }

  /** Origins do not depend on what was accepted since. */
  lemma MadeSame(h: map<Pid, Body>, ws: map<Wid, Worker>, b: Book, c: Book)
    requires AllMade(h, ws, b) && c.origins == b.origins && c.stamped == b.stamped && c.times == b.times
    ensures AllMade(h, ws, c)
  {
    forall m | HasOrigin(m, h, b) ensures HasOrigin(m, h, c) {
      var k: nat :| MadeFrom(m, k, h, b);
      assert MadeFrom(m, k, h, c);
    }
    hide HasOrigin;
  }

  /** The ingest queue accepts a new raw payload. */
  lemma AcceptApart(items: seq<Item>, ws: map<Wid, Worker>, h: map<Pid, Body>, b: Book, c: Book, it: Item)
    requires ListedOnce(h, b) && RawApart(items, ws, b) && it.payload in h && it.payload !in b.accepted
    requires c.accepted == b.accepted + [it.payload]
    requires c.origins == b.origins && c.stamped == b.stamped && c.times == b.times
    ensures ListedOnce(h, c) && RawApart(items + [it], ws, c)
  {
    forall p | Unnumbered(p, b) ensures Unnumbered(p, c) && p != it.payload {}
    assert it.payload in c.accepted && it.payload !in c.origins;
  }

  lemma TakeApart(items: seq<Item>, ws: map<Wid, Worker>, b: Book, w: Wid)
    requires RawApart(items, ws, b) && items != [] && w in ws && !ws[w].WRaw?
    ensures RawApart(items[1..], ws[w := WRaw(items[0])], b)
  {
    hide Unnumbered;
  }

  /** A worker numbers the raw item in its hand. */
  lemma StampApart(
      items: seq<Item>, ws: map<Wid, Worker>, h: map<Pid, Body>, b: Book, w: Wid, pc: Worker, n: nat, ts: int)
    requires ListedOnce(h, b) && RawApart(items, ws, b) && w in ws && ws[w].WRaw? && !pc.WRaw?
    ensures var c := Stamped(b, n, ts, ws[w].it.payload); ListedOnce(h, c) && RawApart(items, ws[w := pc], c)
  {
    var p := ws[w].it.payload;
    var c := Stamped(b, n, ts, p);
    assert Unnumbered(p, b);
    forall q | Unnumbered(q, b) && q != p ensures Unnumbered(q, c) {}
    hide Unnumbered;
  }

  lemma StampMade(h: map<Pid, Body>, ws: map<Wid, Worker>, b: Book, p: Pid, n: nat, ts: int)
    requires AllMade(h, ws, b) && |b.origins| == |b.stamped| == |b.times|
    ensures AllMade(h, ws, Stamped(b, n, ts, p))
  {
    var c := Stamped(b, n, ts, p);
    forall m | HasOrigin(m, h, b) ensures HasOrigin(m, h, c) {
      var k: nat :| MadeFrom(m, k, h, b);
      assert c.origins[k] == b.origins[k] && c.stamped[k] == b.stamped[k] && c.times[k] == b.times[k];
      assert MadeFrom(m, k, h, c);
    }
    hide HasOrigin;
  }

  lemma StampGives(h: map<Pid, Body>, b: Book, p: Pid, n: nat, ts: int)
    requires p in h && IsRaw(h[p]) && |b.origins| == |b.stamped| == |b.times|
    ensures HasOrigin(Enrich(h[p], n, ts), h, Stamped(b, n, ts, p))
  {
    var c := Stamped(b, n, ts, p);
    assert c.origins[|b.origins|] == p && c.stamped[|b.origins|] == n && c.times[|b.origins|] == ts;
    assert MadeFrom(Enrich(h[p], n, ts), |b.origins|, h, c);
  }

  /** A worker moves on without a raw item, with a message that has an origin or none. */
  lemma MoveWorker(items: seq<Item>, ws: map<Wid, Worker>, h: map<Pid, Body>, b: Book, w: Wid, pc: Worker)
    requires w in ws && !pc.WRaw? && (HasMsg(pc) ==> HasOrigin(pc.msg, h, b))
    ensures RawApart(items, ws, b) ==> RawApart(items, ws[w := pc], b)
    ensures AllMade(h, ws, b) ==> AllMade(h, ws[w := pc], b)
  {
    hide HasOrigin, Unnumbered;
  }

  // ---------------------------------------------------------------- steps

  lemma ProducerOrigin(s: State, a: Action)
    requires OriginOk(s) && StepProducer(s, a).Some?
    ensures OriginOk(StepProducer(s, a).value)
  {
    if a.Tick? || a.MakeAlert? { ProducerMakes(s, a); } else { ProducerPuts(s, a); }
  }

  lemma ProducerMakes(s: State, a: Action)
    requires OriginOk(s) && StepProducer(s, a).Some? && (a.Tick? || a.MakeAlert?)
    ensures OriginOk(StepProducer(s, a).value)
  {
    var t := StepProducer(s, a).value;
    if a.p in t.mem.heap {
      AllocMade(s.mem.heap, s.th.workers, s.th.book, a.p, t.mem.heap[a.p]);
      assert t.mem.heap == s.mem.heap[a.p := t.mem.heap[a.p]];
    }
    hide ListedOnce, RawApart, AllMade, At;
  }

  lemma ProducerPuts(s: State, a: Action)
    requires OriginOk(s) && StepProducer(s, a).Some? && (a.Put? || a.TryPut? || a.Rest?)
    ensures OriginOk(StepProducer(s, a).value)
  {
    var t, items := StepProducer(s, a).value, At(s.queues, INGEST).items;
    if t.arrivals > s.arrivals {
      var it := Item(s.th.ticks, if a.Put? then Telemetry else Alert, s.th.producer.p);
      AcceptApart(items, s.th.workers, s.mem.heap, s.th.book, t.th.book, it);
      MadeSame(s.mem.heap, s.th.workers, s.th.book, t.th.book);
    }
    hide ListedOnce, RawApart, AllMade, Usable, Live;
  }

  lemma ListenerOrigin(s: State, a: Action)
    requires OriginOk(s) && StepListener(s, a).Some?
    ensures OriginOk(StepListener(s, a).value)
  {
    if a.Trigger? { TriggerOrigin(s, a); }
    else if a.Inject? { InjectOrigin(s); }
    else { hide ListedOnce, RawApart, AllMade, At; }
  }

  lemma TriggerOrigin(s: State, a: Action)
    requires OriginOk(s) && a.Trigger? && StepListener(s, a).Some?
    ensures OriginOk(StepListener(s, a).value)
  {
    AllocMade(s.mem.heap, s.th.workers, s.th.book, a.p, RawAlert(a.code, a.antenna));
    hide ListedOnce, RawApart, AllMade, At, GoodAlert;
  }

  lemma InjectOrigin(s: State)
    requires OriginOk(s) && StepListener(s, Inject).Some?
    ensures OriginOk(StepListener(s, Inject).value)
  {
    var t, items := StepListener(s, Inject).value, At(s.queues, INGEST).items;
    if t.arrivals > s.arrivals {
      AcceptApart(items, s.th.workers, s.mem.heap, s.th.book, t.th.book, Item(0, Alert, s.conn.listener.p));
      MadeSame(s.mem.heap, s.th.workers, s.th.book, t.th.book);
    }
    hide ListedOnce, RawApart, AllMade, Usable, Live;
  }

  lemma TakeOrigin(s: State, a: Action)
    requires OriginOk(s) && a.Take? && StepWorker(s, a).Some?
    ensures OriginOk(StepWorker(s, a).value)
  {
    var items, t := At(s.queues, INGEST).items, StepWorker(s, a).value;
    if items != [] { TakeApart(items, s.th.workers, s.th.book, a.w); }
    else { MoveWorker(items, s.th.workers, s.mem.heap, s.th.book, a.w, t.th.workers[a.w]); }
    assert AllMade(s.mem.heap, t.th.workers, s.th.book);
    hide ListedOnce, RawApart, AllMade, Usable;
  }

  lemma StampOrigin(s: State, a: Action)
    requires OriginOk(s) && TypesOk(s) && a.Stamp? && StepWorker(s, a).Some?
    ensures OriginOk(StepWorker(s, a).value)
  {
    var t, items, b, h := StepWorker(s, a).value, At(s.queues, INGEST).items, s.th.book, s.mem.heap;
    var me, pc := s.th.workers[a.w], t.th.workers[a.w];
    assert WorkerFits(me, h) && !me.it.kind.Unknown?;
    var n, p := SeqNumber(s.issued), me.it.payload;
    StampApart(items, s.th.workers, h, b, a.w, pc, n, a.ts);
    StampMade(h, s.th.workers, b, p, n, a.ts);
    StampGives(h, b, p, n, a.ts);
    MoveWorker(items, s.th.workers, h, t.th.book, a.w, pc);
    hide ListedOnce, RawApart, AllMade, At, HasOrigin, SeqNumber;
  }

  lemma CloneOrigin(s: State, a: Action)
    requires OriginOk(s) && a.Clone? && StepWorker(s, a).Some?
    ensures OriginOk(StepWorker(s, a).value)
  {
    var t, items, me := StepWorker(s, a).value, At(s.queues, INGEST).items, s.th.workers[a.w];
    if a.memory {
      AllocMade(s.mem.heap, s.th.workers, s.th.book, a.p, me.msg);
      MadeStill(me.msg, s.mem.heap, s.th.book, a.p, me.msg);
    }
    MoveWorker(items, s.th.workers, t.mem.heap, s.th.book, a.w, t.th.workers[a.w]);
    hide ListedOnce, RawApart, AllMade, At, HasOrigin;
  }

  lemma OtherOrigin(s: State, a: Action)
    requires OriginOk(s) && LifeOk(s) && OfWorker(a) && StepWorker(s, a).Some?
    requires a.LockRegistry? || a.Deliver? || a.UnlockRegistry? || a.Release?
    ensures OriginOk(StepWorker(s, a).value)
  {
    var t, items := StepWorker(s, a).value, At(s.queues, INGEST).items;
    MoveWorker(items, s.th.workers, s.mem.heap, s.th.book, a.w, t.th.workers[a.w]);
    if a.Deliver? { NotIngest(s, a); }
    hide ListedOnce, RawApart, AllMade, HasOrigin, LifeOk, Live;
  }

  lemma NotIngest(s: State, a: Action)
    requires LifeOk(s) && a.Deliver? && StepWorker(s, a).Some?
    ensures Subs(s.env, s.th.workers[a.w].topic)[s.th.workers[a.w].i] != INGEST
  {
    hide Live;
    var me := s.th.workers[a.w];
    assert Subs(s.env, me.topic)[me.i] in Subs(s.env, me.topic);
  }

  /** Steps that leave raw items, books and payloads alone, or empty the ingest queue. */
  ghost predicate Untouched(s: State, t: State) {
    && t.mem.heap == s.mem.heap && t.th.workers == s.th.workers && t.th.producer == s.th.producer
    && t.th.book.(polls := s.th.book.polls) == s.th.book
    && (At(t.queues, INGEST).items == At(s.queues, INGEST).items || At(t.queues, INGEST).items == [])
    && (t.conn.listener == s.conn.listener || !t.conn.listener.LHold?)
  }

  lemma UntouchedOrigin(s: State, t: State)
    requires OriginOk(s) && Untouched(s, t)
    ensures OriginOk(t)
  {
    MadeSame(s.mem.heap, s.th.workers, s.th.book, t.th.book);
    hide AllMade;
  }

  lemma ConsumerIngest(s: State)
    requires StepConsumer(s).Some?
    ensures At(StepConsumer(s).value.queues, INGEST) == At(s.queues, INGEST)
  {
    hide Usable, Readable, Free;
  }

  lemma ConsumerUntouched(s: State)
    requires StepConsumer(s).Some?
    ensures Untouched(s, StepConsumer(s).value)
  {
    ConsumerIngest(s);
    hide Usable, Readable, Pop, At;
  }

  lemma CreateUntouched(s: State, q: Qid, ok: bool)
    requires MainOk(s.env, s.conn, s.th) && StepCreate(s, q, ok).Some?
    ensures Untouched(s, StepCreate(s, q, ok).value)
  {
  }

  lemma ServeUntouched(s: State, ok: bool)
    requires ConnectionOk(s.env, s.conn)
    ensures StepServe(s).Some? ==> Untouched(s, StepServe(s).value)
    ensures StepServeA(s).Some? ==> Untouched(s, StepServeA(s).value)
    ensures StepSend(s, ok).Some? ==> Untouched(s, StepSend(s, ok).value)
  {
    hide Usable, Readable;
  }

  lemma DropUntouched(s: State)
    requires ConnectionOk(s.env, s.conn) && (s.conn.stage.DropT? || s.conn.stage.DropA?) && StepDrop(s).Some?
    ensures Untouched(s, StepDrop(s).value)
  {
    hide Usable;
  }

  lemma QuietUntouched(s: State, ok: bool)
    requires StepTransport(s, ok).Some? && ConnectionOk(s.env, s.conn)
    requires !Serving(s.conn.stage) && !s.conn.stage.DropT? && !s.conn.stage.DropA?
    ensures Untouched(s, StepTransport(s, ok).value)
  {
    hide StepTransport, ConnectionOk;
    QuietTransport(s, ok);
  }

  lemma TransportUntouched(s: State, ok: bool)
    requires ConnectionOk(s.env, s.conn) && StepTransport(s, ok).Some?
    ensures Untouched(s, StepTransport(s, ok).value)
  {
    if !Serving(s.conn.stage) && !s.conn.stage.DropT? && !s.conn.stage.DropA? {
      hide StepTransport, ConnectionOk, Untouched;
      QuietUntouched(s, ok);
    } else {
      hide StepServe, StepServeA, StepSend, StepDrop, ConnectionOk, Untouched;
      ServeUntouched(s, ok);
      if s.conn.stage.DropT? || s.conn.stage.DropA? { DropUntouched(s); }
    }
  }

  lemma SocketUntouched(s: State, a: Action)
    requires StepSocket(s, a).Some?
    ensures Untouched(s, StepSocket(s, a).value)
  {
    hide Readable, At;
  }

  lemma MainUntouched(s: State)
    requires SUBSCRIBE_A < s.env.main && StepMain(s).Some? && s.env.main != START_PRODUCER
    ensures Untouched(s, StepMain(s).value)
  {
    hide Usable, Left;
  }

  lemma MainStartsOrigin(s: State)
    requires OriginOk(s) && StepMain(s).Some? && s.env.main <= START_PRODUCER
    ensures OriginOk(StepMain(s).value)
  {
    hide Joined, CanJoin, ListedOnce, RawApart, AllMade, At;
  }

  lemma StepOrigin(s: State, a: Action)
    requires OriginOk(s) && LifeOk(s) && TypesOk(s) && Step(s, a).Some?
    ensures OriginOk(Step(s, a).value)
  {
    PartsOf(s);
    hide OriginOk, LifeOk, MainOk, ConnectionOk, TypesOk, Untouched;
    hide StepProducer, StepWorker, StepConsumer, StepCreate, StepTransport, StepSocket, StepListener, StepMain;
    if OfProducer(a) { ProducerOrigin(s, a); }
    else if OfWorker(a) {
      if a.Take? { TakeOrigin(s, a); }
      else if a.Stamp? { StampOrigin(s, a); }
      else if a.Clone? { CloneOrigin(s, a); }
      else { OtherOrigin(s, a); }
    }
    else if OfListener(a) { ListenerOrigin(s, a); }
    else if a.MainStep? && s.env.main <= START_PRODUCER { MainStartsOrigin(s); }
    else {
      if a.ConsumerStep? { ConsumerUntouched(s); }
      else if a.Create? { CreateUntouched(s, a.q, a.ok); }
      else if a.TransportStep? { TransportUntouched(s, a.ok); }
      else if OfSocket(a) { SocketUntouched(s, a); }
      else { MainUntouched(s); }
      UntouchedOrigin(s, Step(s, a).value);
    }
  }

  lemma {:induction false} RunOrigin(s: State, run: seq<Action>)
    requires OriginOk(s) && Inv(s) && Exec(s, run).Some?
    ensures OriginOk(Exec(s, run).value)
    decreases |run|
  {
    hide OriginOk, Step, LifeOk, OwnOk, TypesOk, SeqOk, StampedOk;
    if run != [] {
      StepInv(s, run[0]);
      StepOrigin(s, run[0]);
      RunOrigin(Step(s, run[0]).value, run[1..]);
    }
  }

  lemma InitOrigin(s: State)
    requires Init(s)
    ensures OriginOk(s)
  {
  }

  // ---------------------------------------------------------------- what follows

  /** In every reachable state each message in a queue registered under a topic is an accepted raw
      item with its own number: nothing is invented and no field is changed on the way. */
  lemma MessagesHaveOrigins(s0: State, run: seq<Action>, q: Qid, it: Item)
    requires Init(s0) && Exec(s0, run).Some?
    requires var s := Exec(s0, run).value;
             q in s.queues && it in s.queues[q].items && (q in s.env.subsT || q in s.env.subsA)
    ensures var s := Exec(s0, run).value; var b := s.th.book;
            && it.payload in s.mem.heap
            && exists k: nat :: MadeFrom(s.mem.heap[it.payload], k, s.mem.heap, b) && b.origins[k] in b.accepted
  {
    hide Step, Init, OwnOk, TypesOk, SeqOk, StampedOk, LifeOk, RawApart, HandsNew;
    InitInv(s0);
    RunInv(s0, run);
    InitOrigin(s0);
    RunOrigin(s0, run);
    RoutingIsTyped(s0, run, q, it);
    var s := Exec(s0, run).value;
    assert HasOrigin(s.mem.heap[it.payload], s.mem.heap, s.th.book);
    var k: nat :| MadeFrom(s.mem.heap[it.payload], k, s.mem.heap, s.th.book);
  }

  /** Different numbers belong to different accepted items; and, as long as at most 2^32 have been
      handed out, equal numbers to equal ones. */
  lemma NumbersNameItems(s0: State, run: seq<Action>, j: nat, k: nat)
    requires Init(s0) && Exec(s0, run).Some? && j < k < Exec(s0, run).value.issued
    ensures var s := Exec(s0, run).value; var b := s.th.book;
            && |b.origins| == |b.stamped| == s.issued
            && b.origins[j] != b.origins[k] && b.origins[j] in b.accepted && b.origins[k] in b.accepted
            && Registry.NoDuplicates(b.accepted)
            && (s.issued <= UINT32 ==> b.stamped[j] != b.stamped[k])
  {
    hide Step, Init, OwnOk, TypesOk, SeqOk, LifeOk, RawApart, HandsNew, AllMade;
    InitInv(s0);
    RunInv(s0, run);
    InitOrigin(s0);
    RunOrigin(s0, run);
    StampedDistinctIff(Exec(s0, run).value);
  }
}
