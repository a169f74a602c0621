/** Sequence numbers: distinct for every processed item, and at most once in the history of any
    subscriber queue, for as long as the 32-bit counter has not wrapped. */
module Sequence {
  import opened System
  import opened Messages
  import opened Lifetimes
  import opened Ownership
  import opened Routing
  import Registry

  /** Which issue a number came from. */
  function TicketOf(x: nat): nat { (x + UINT32 - 1) % UINT32 }

  lemma TicketInverse(n: nat)
    requires n < UINT32
    ensures TicketOf(SeqNumber(n)) == n && SeqNumber(n) < UINT32
  {
  }

  /** The exact extent of uniqueness: the first n numbers are distinct if and only if the
      counter has not been used more than 2^32 times. */
  lemma DistinctIff(n: nat)
    ensures (forall i, j | 0 <= i < j < n :: SeqNumber(i) != SeqNumber(j)) <==> n <= UINT32
  {
    if n <= UINT32 {
      forall i, j | 0 <= i < j < n ensures SeqNumber(i) != SeqNumber(j) {
        TicketInverse(i);
        TicketInverse(j);
      }
    } else {
      assert SeqNumber(0) == SeqNumber(UINT32);
    }
  }

  predicate HasMsg(pc: Worker) { pc.WMsg? || pc.WFan? || pc.WCopy? }

  type Seen = map<Qid, seq<nat>>

  ghost function Histories(qs: Queues): Seen { map q | q in qs :: qs[q].seen }

  ghost function SubsOf(subsT: seq<Qid>, subsA: seq<Qid>, t: Topic): seq<Qid> {
    if t.Telemetries? then subsT else subsA
  }

  /** The number `pc` carries has not reached the queues it has yet to visit. */
  ghost predicate Unsent(pc: Worker, seen: Seen, subsT: seq<Qid>, subsA: seq<Qid>) {
    if pc.WMsg? then forall q | q in seen :: SeqOf(pc.msg) !in seen[q]
    else if Publishing(pc) then
      var l := SubsOf(subsT, subsA, pc.topic);
      forall j | pc.i <= j < |l| && l[j] in seen :: SeqOf(pc.msg) !in seen[l[j]]
    else true
  }

  ghost predicate Numbered(issued: nat, ws: map<Wid, Worker>, seen: Seen) {
    && (forall w | w in ws && HasMsg(ws[w]) :: TicketOf(SeqOf(ws[w].msg)) < issued)
    && (forall v, w | v in ws && w in ws && v != w && HasMsg(ws[v]) && HasMsg(ws[w]) ::
          SeqOf(ws[v].msg) != SeqOf(ws[w].msg))
    && (forall q | q in seen :: Registry.NoDuplicates(seen[q]))
    && (forall q, x | q in seen && x in seen[q] :: TicketOf(x) < issued)
  }

  ghost predicate AllUnsent(ws: map<Wid, Worker>, seen: Seen, subsT: seq<Qid>, subsA: seq<Qid>) {
    forall w | w in ws :: Unsent(ws[w], seen, subsT, subsA)
  }

  ghost predicate SeqOk(s: State) {
    s.issued <= UINT32 ==>
      && Numbered(s.issued, s.th.workers, Histories(s.queues))
      && AllUnsent(s.th.workers, Histories(s.queues), s.env.subsT, s.env.subsA)
  }

  // ---------------------------------------------------------------- steps that issue nothing

  lemma HistoriesKept(qs: Queues, q: Qid, it: Item)
    requires q in qs
    ensures Histories(Push(qs, q, it)) == Histories(qs)
    ensures Histories(Shut(qs, q)) == Histories(qs) && Histories(Emptied(qs, q)) == Histories(qs)
    ensures At(qs, q).items != [] ==> Histories(Pop(qs, q)) == Histories(qs)
  {
  }

  /** A step that moves no message, stores no number and leaves the lists alone. */
  ghost predicate Silent(s: State, t: State) {
    && t.issued == s.issued && t.th.book.stamped == s.th.book.stamped
    && t.th.workers == s.th.workers && Histories(t.queues) == Histories(s.queues)
    && (s.env.lock.None? || (t.env.subsT == s.env.subsT && t.env.subsA == s.env.subsA))
  }

  lemma SilentSeq(s: State, t: State)
    requires SeqOk(s) && LockOk(s.env, s.th) && Silent(s, t)
    ensures SeqOk(t)
  {
    if s.issued <= UINT32 && s.env.lock.None? {
      forall w | w in t.th.workers ensures Unsent(t.th.workers[w], Histories(t.queues), t.env.subsT, t.env.subsA) {
        assert !Publishing(t.th.workers[w]);
        assert Unsent(s.th.workers[w], Histories(s.queues), s.env.subsT, s.env.subsA);
      }
    }
  }

  lemma ProducerSilent(s: State, a: Action)
    requires Stocked(s) && StepProducer(s, a).Some?
    ensures Silent(s, StepProducer(s, a).value)
  {
    hide Histories, Push, Usable, Live;
    var p := if s.th.producer.PTelemetry? || s.th.producer.PAlert? then s.th.producer.p else 0;
    HistoriesKept(s.queues, INGEST, Item(s.th.ticks, Telemetry, p));
    HistoriesKept(s.queues, INGEST, Item(s.th.ticks, Alert, p));
  }

  lemma ConsumerSilent(s: State)
    requires Stocked(s) && StepConsumer(s).Some?
    ensures Silent(s, StepConsumer(s).value)
  {
    hide Histories, Pop, Usable, Readable;
    HistoriesKept(s.queues, CONSUMER_TELEMETRY, Item(0, Alert, 0));
    HistoriesKept(s.queues, CONSUMER_ALERTS, Item(0, Alert, 0));
  }

  lemma ListenerSilent(s: State, a: Action)
    requires Stocked(s) && StepListener(s, a).Some?
    ensures Silent(s, StepListener(s, a).value)
  {
    hide Histories, Push, Usable, Live;
    if a.Inject? { HistoriesKept(s.queues, INGEST, Item(0, Alert, s.conn.listener.p)); }
  }

  lemma ServeSilent(s: State)
    requires HasQueues(s)
    ensures StepServe(s).Some? ==> Silent(s, StepServe(s).value)
    ensures StepServeA(s).Some? ==> Silent(s, StepServeA(s).value)
  {
    hide Histories, Pop, Usable;
    if s.conn.tq.Some? { HistoriesKept(s.queues, s.conn.tq.value, Item(0, Alert, 0)); }
    if s.conn.aq.Some? { HistoriesKept(s.queues, s.conn.aq.value, Item(0, Alert, 0)); }
  }

  lemma DropSilent(s: State)
    requires HasQueues(s) && (s.conn.stage.DropT? || s.conn.stage.DropA?) && StepDrop(s).Some?
    ensures Silent(s, StepDrop(s).value)
  {
    hide Histories, Emptied, Usable, Pids;
    if s.conn.tq.Some? { HistoriesKept(s.queues, s.conn.tq.value, Item(0, Alert, 0)); }
    if s.conn.aq.Some? { HistoriesKept(s.queues, s.conn.aq.value, Item(0, Alert, 0)); }
  }

  /** The connection edits the subscriber lists only while nobody is publishing. */
  lemma ListsNeedLock(s: State)
    ensures StepSubT(s).Some? ==> Silent(s, StepSubT(s).value)
    ensures StepSubA(s).Some? ==> Silent(s, StepSubA(s).value)
    ensures StepUnsubT(s).Some? ==> Silent(s, StepUnsubT(s).value)
    ensures StepUnsubA(s).Some? ==> Silent(s, StepUnsubA(s).value)
  {
    hide Histories, Joined, Left;
  }

  lemma SocketSilent(s: State, a: Action)
    requires StepSocket(s, a).Some?
    ensures Silent(s, StepSocket(s, a).value)
  {
    hide Histories, Readable, Free;
  }

  lemma TransportSilent(s: State, ok: bool)
    requires HasQueues(s) && StepTransport(s, ok).Some?
    ensures Silent(s, StepTransport(s, ok).value)
  {
    hide Histories, Readable, StepServe, StepServeA, StepDrop, StepSubT, StepSubA, StepUnsubT, StepUnsubA;
    match s.conn.stage
    case Serve => ServeSilent(s);
    case ServeA => ServeSilent(s);
    case DropT => DropSilent(s);
    case DropA => DropSilent(s);
    case SubT => ListsNeedLock(s);
    case SubA => ListsNeedLock(s);
    case UnsubT => ListsNeedLock(s);
    case UnsubA => ListsNeedLock(s);
    case _ =>
  }

  lemma MainListsSilent(s: State)
    ensures StepMainSubscribe(s).Some? ==> Silent(s, StepMainSubscribe(s).value)
    ensures StepMainUnsub(s).Some? ==> Silent(s, StepMainUnsub(s).value)
    ensures StepMainJoin(s).Some? ==> Silent(s, StepMainJoin(s).value)
  {
    hide Histories, Joined, Left;
  }

  lemma MainQueuesSilent(s: State)
    requires Stocked(s)
    ensures Silent(s, StepMainShut(s)) && Silent(s, StepMainDestroy(s))
  {
    hide Histories, Shut, Emptied, Usable, Abandon;
    HistoriesKept(s.queues, MainQueue(s.env.main), Item(0, Alert, 0));
  }

  lemma MainSilent(s: State)
    requires Stocked(s) && StepMain(s).Some?
    ensures Silent(s, StepMain(s).value)
  {
    hide Histories, StepMainSubscribe, StepMainUnsub, StepMainJoin, StepMainShut, StepMainDestroy;
    MainListsSilent(s);
    MainQueuesSilent(s);
  }

  lemma CreateSeq(s: State, q: Qid, ok: bool)
    requires SeqOk(s) && Stocked(s) && LifeOk(s) && StepCreate(s, q, ok).Some?
    ensures SeqOk(StepCreate(s, q, ok).value)
  {
    CreateShape(s, q, ok);
    hide StepCreate, Stocked, MainOk, ConnectionOk, RegistryOk, LockOk;
    assert Histories(s.queues[q := FRESH]) == Histories(s.queues)[q := []];
  }

  lemma CreateShape(s: State, q: Qid, ok: bool)
    requires Stocked(s) && StepCreate(s, q, ok).Some?
    ensures var t := StepCreate(s, q, ok).value;
            && q !in s.queues && (t.queues == s.queues || t.queues == s.queues[q := FRESH])
            && t.issued == s.issued && t.th == s.th
            && t.env.subsT == s.env.subsT && t.env.subsA == s.env.subsA
  {
  }

  // ---------------------------------------------------------------- worker steps

  /** A worker moves on with the message it already had, or with none. */
  lemma MoveSeq(s: State, t: State, w: Wid, pc: Worker)
    requires SeqOk(s) && w in s.th.workers
    requires t.th.workers == s.th.workers[w := pc] && t.issued == s.issued && Histories(t.queues) == Histories(s.queues)
    requires t.env.subsT == s.env.subsT && t.env.subsA == s.env.subsA
    requires HasMsg(pc) ==> HasMsg(s.th.workers[w]) && pc.msg == s.th.workers[w].msg
    requires s.issued <= UINT32 ==> Unsent(pc, Histories(s.queues), s.env.subsT, s.env.subsA)
    ensures SeqOk(t)
  {
    hide Unsent, Histories;
  }

  /** Going forward in the list leaves fewer queues to visit. */
  lemma UnsentLater(me: Worker, pc: Worker, seen: Seen, subsT: seq<Qid>, subsA: seq<Qid>)
    requires Unsent(me, seen, subsT, subsA) && HasMsg(me) && HasMsg(pc) && pc.msg == me.msg && pc.topic == me.topic
    requires me.WMsg? || (Publishing(me) && Publishing(pc) && me.i <= pc.i)
    requires !pc.WMsg?
    ensures Unsent(pc, seen, subsT, subsA)
  {
  }

  lemma PlainMove(s: State, a: Action)
    requires SeqOk(s) && Stocked(s) && OfWorker(a) && StepWorker(s, a).Some?
    requires a.Take? || a.LockRegistry? || a.Clone? || a.UnlockRegistry? || a.Release?
    ensures SeqOk(StepWorker(s, a).value)
  {
    hide SeqOk, Histories, Unsent, Pop, Usable, Readable, Live;
    var t, me := StepWorker(s, a).value, s.th.workers[a.w];
    if a.Take? { HistoriesKept(s.queues, INGEST, Item(0, Alert, 0)); }
    var pc := t.th.workers[a.w];
    if s.issued <= UINT32 {
      MineUnsent(s, a.w);
      if HasMsg(pc) {
        UnsentLater(me, pc, Histories(s.queues), s.env.subsT, s.env.subsA);
      } else {
        NothingUnsent(pc, Histories(s.queues), s.env.subsT, s.env.subsA);
      }
    }
    MoveSeq(s, t, a.w, pc);
  }

  lemma MineUnsent(s: State, w: Wid)
    requires SeqOk(s) && s.issued <= UINT32 && w in s.th.workers
    ensures Unsent(s.th.workers[w], Histories(s.queues), s.env.subsT, s.env.subsA)
  {
  }

  lemma NothingUnsent(pc: Worker, seen: Seen, subsT: seq<Qid>, subsA: seq<Qid>)
    requires !HasMsg(pc)
    ensures Unsent(pc, seen, subsT, subsA)
  {
  }

  /** A new number differs from every number in flight or delivered. */
  lemma StampSeq(s: State, a: Action)
    requires SeqOk(s) && TypesOk(s) && a.Stamp? && StepWorker(s, a).Some?
    ensures SeqOk(StepWorker(s, a).value)
  {
    hide QueuesFit, HandsFit, Readable, Histories;
    var t, me := StepWorker(s, a).value, s.th.workers[a.w];
    assert WorkerFits(me, s.mem.heap);
    if !me.it.kind.Unknown? && t.issued <= UINT32 {
      var x := SeqOf(t.th.workers[a.w].msg);
      TicketInverse(s.issued);
      assert x == SeqNumber(s.issued);
      assert TicketOf(x) == s.issued;
    }
  }

  /** The history after a delivery. */
  lemma ReceiveHistories(qs: Queues, q: Qid, it: Item)
    requires q in qs
    ensures Histories(Receive(qs, q, it)) == Histories(qs)[q := Histories(qs)[q] + [it.id]]
  {
  }

  lemma DeliverNumbered(issued: nat, ws: map<Wid, Worker>, seen: Seen, w: Wid, pc: Worker, q: Qid)
    requires Numbered(issued, ws, seen) && w in ws && HasMsg(ws[w]) && HasMsg(pc) && pc.msg == ws[w].msg
    requires q in seen && SeqOf(pc.msg) !in seen[q]
    ensures Numbered(issued, ws[w := pc], seen[q := seen[q] + [SeqOf(pc.msg)]])
  {
  }

  lemma DeliverUnsent(s: State, w: Wid, pc: Worker, q: Qid)
    requires LockOk(s.env, s.th) && RegistryOk(s.env, s.conn)
    requires Numbered(s.issued, s.th.workers, Histories(s.queues))
    requires AllUnsent(s.th.workers, Histories(s.queues), s.env.subsT, s.env.subsA)
    requires w in s.th.workers && s.th.workers[w].WCopy? && q in Histories(s.queues)
    requires var me := s.th.workers[w];
             && pc == WFan(me.it, me.msg, me.topic, me.i + 1)
             && me.i < |Subs(s.env, me.topic)| && q == Subs(s.env, me.topic)[me.i]
    ensures var seen := Histories(s.queues);
            AllUnsent(s.th.workers[w := pc], seen[q := seen[q] + [SeqOf(pc.msg)]], s.env.subsT, s.env.subsA)
  {
    hide Histories;
    var seen, me := Histories(s.queues), s.th.workers[w];
    var seen' := seen[q := seen[q] + [SeqOf(pc.msg)]];
    assert Unsent(me, seen, s.env.subsT, s.env.subsA);
    var ws' := s.th.workers[w := pc];
    forall v | v in ws' ensures Unsent(ws'[v], seen', s.env.subsT, s.env.subsA) {
      if v != w {
        assert !Publishing(s.th.workers[v]);
        assert Unsent(s.th.workers[v], seen, s.env.subsT, s.env.subsA);
      }
    }
  }

  /** The subscriber's queue is full: the copy is dropped. */
  lemma DroppedSeq(s: State, a: Action)
    requires SeqOk(s) && Stocked(s) && a.Deliver? && StepWorker(s, a).Some? && s.issued <= UINT32
    requires var me := s.th.workers[a.w]; At(s.queues, Subs(s.env, me.topic)[me.i]).Full()
    ensures SeqOk(StepWorker(s, a).value)
  {
    hide Numbered, AllUnsent, Unsent, Usable, Live, Free, Histories;
    var t, me := StepWorker(s, a).value, s.th.workers[a.w];
    var pc := WFan(me.it, me.msg, me.topic, me.i + 1);
    MineUnsent(s, a.w);
    UnsentLater(me, pc, Histories(s.queues), s.env.subsT, s.env.subsA);
    MoveSeq(s, t, a.w, pc);
  }

  lemma ReceivedSeq(s: State, a: Action)
    requires SeqOk(s) && Stocked(s) && LifeOk(s) && a.Deliver? && StepWorker(s, a).Some? && s.issued <= UINT32
    requires var me := s.th.workers[a.w]; !At(s.queues, Subs(s.env, me.topic)[me.i]).Full()
    ensures SeqOk(StepWorker(s, a).value)
  {
    DeliverTarget(s, a);
    hide Numbered, AllUnsent, Unsent, Usable, Live, LifeOk, Histories;
    var me := s.th.workers[a.w];
    var q, pc := Subs(s.env, me.topic)[me.i], WFan(me.it, me.msg, me.topic, me.i + 1);
    MineUnsent(s, a.w);
    ReceiveHistories(s.queues, q, Item(SeqOf(me.msg), KindOf(me.topic), me.copy));
    NotYetThere(s, a.w);
    DeliverNumbered(s.issued, s.th.workers, Histories(s.queues), a.w, pc, q);
    DeliverUnsent(s, a.w, pc, q);
  }

  lemma DeliverIssues(s: State, a: Action)
    requires a.Deliver? && StepWorker(s, a).Some?
    ensures StepWorker(s, a).value.issued == s.issued
    ensures a.w in s.th.workers && var me := s.th.workers[a.w]; me.WCopy? && me.i < |Subs(s.env, me.topic)|
  {
    hide Usable, Live, Free, Receive;
  }

  lemma DeliverSeq(s: State, a: Action)
    requires SeqOk(s) && Stocked(s) && LifeOk(s) && a.Deliver? && StepWorker(s, a).Some?
    ensures SeqOk(StepWorker(s, a).value)
  {
    DeliverIssues(s, a);
    hide StepWorker, Stocked, LifeOk, Numbered, AllUnsent, Histories;
    var me := s.th.workers[a.w];
    if s.issued <= UINT32 {
      if At(s.queues, Subs(s.env, me.topic)[me.i]).Full() { DroppedSeq(s, a); } else { ReceivedSeq(s, a); }
    }
  }

  lemma NotYetThere(s: State, w: Wid)
    requires SeqOk(s) && s.issued <= UINT32 && w in s.th.workers && s.th.workers[w].WCopy?
    requires var me := s.th.workers[w]; me.i < |Subs(s.env, me.topic)| && Subs(s.env, me.topic)[me.i] in s.queues
    ensures var me := s.th.workers[w]; SeqOf(me.msg) !in Histories(s.queues)[Subs(s.env, me.topic)[me.i]]
  {
    MineUnsent(s, w);
    var l, i := SubsOf(s.env.subsT, s.env.subsA, s.th.workers[w].topic), s.th.workers[w].i;
    assert l[i] in Histories(s.queues);
  }

  lemma StepSeq(s: State, a: Action)
    requires SeqOk(s) && Stocked(s) && LifeOk(s) && TypesOk(s) && Step(s, a).Some?
    ensures SeqOk(Step(s, a).value)
  {
    hide SeqOk, TypesOk, Silent;
    hide StepProducer, StepWorker, StepConsumer, StepCreate, StepTransport, StepSocket, StepListener, StepMain;
    var t := Step(s, a).value;
    if OfWorker(a) {
      if a.Stamp? { StampSeq(s, a); } else if a.Deliver? { DeliverSeq(s, a); } else { PlainMove(s, a); }
    } else if a.Create? { CreateSeq(s, a.q, a.ok); }
    else {
      if OfProducer(a) { ProducerSilent(s, a); }
      else if a.ConsumerStep? { ConsumerSilent(s); }
      else if a.TransportStep? { TransportSilent(s, a.ok); }
      else if OfSocket(a) { SocketSilent(s, a); }
      else if OfListener(a) { ListenerSilent(s, a); }
      else { MainSilent(s); }
      SilentSeq(s, t);
    }
  }

  lemma InitSeq(s: State)
    requires Init(s)
    ensures SeqOk(s)
  {
  }

  // ---------------------------------------------------------------- every number handed out

  /** The record of numbers handed out is the first `issued` of them, in order. */
  ghost predicate StampedOk(s: State) {
    |s.th.book.stamped| == s.issued
    && forall i | 0 <= i < |s.th.book.stamped| :: s.th.book.stamped[i] == SeqNumber(i)
  }

  lemma WorkerStamped(s: State, a: Action)
    requires StampedOk(s) && OfWorker(a) && StepWorker(s, a).Some?
    ensures StampedOk(StepWorker(s, a).value)
  {
    hide SeqNumber, Pop, Receive, Usable, Live, Readable, Free, Alloc, Enrich;
  }

  lemma StepStamped(s: State, a: Action)
    requires StampedOk(s) && Stocked(s) && LifeOk(s) && Step(s, a).Some?
    ensures StampedOk(Step(s, a).value)
  {
    hide StepProducer, StepWorker, StepConsumer, StepTransport, StepSocket, StepListener, StepMain, LifeOk, SeqNumber;
    if OfProducer(a) { ProducerSilent(s, a); }
    else if OfWorker(a) { WorkerStamped(s, a); }
    else if a.ConsumerStep? { ConsumerSilent(s); }
    else if a.Create? { }
    else if a.TransportStep? { QueuesOf(s); TransportSilent(s, a.ok); }
    else if OfSocket(a) { SocketSilent(s, a); }
    else if OfListener(a) { ListenerSilent(s, a); }
    else { MainSilent(s); }
  }

  lemma QueuesOf(s: State)
    requires Stocked(s) && LifeOk(s)
    ensures HasQueues(s)
  {
  }

  /** So the numbers recorded are distinct exactly while there are at most 2^32 of them. */
  lemma StampedDistinctIff(s: State)
    requires StampedOk(s)
    ensures Registry.NoDuplicates(s.th.book.stamped) <==> s.issued <= UINT32
  {
    hide SeqNumber;
    DistinctIff(s.issued);
    var ns := s.th.book.stamped;
    if Registry.NoDuplicates(ns) {
      forall i, j | 0 <= i < j < s.issued ensures SeqNumber(i) != SeqNumber(j) {
        assert ns[i] != ns[j];
      }
    }
  }
}
