/** What a publish does for each subscriber over a whole run: while the publishing worker walks the
    list other threads go on, but every subscriber it passes gets the message unless its queue was
    full or there was no memory for a copy. */
module Publishing {
  import opened Basics
  import opened Messages
  import opened System
  import opened Lifetimes
  import opened Ownership
  import opened Routing
  import opened Sequence
  import opened SystemTheorems
  import opened Completion

  /** One delivery: a queue with room gets the copy at its end, a full one keeps its items and the copy
      is freed; no other queue changes. */
  lemma DeliverGives(s: State, a: Action)
    requires a.Deliver? && StepWorker(s, a).Some?
    ensures a.w in s.th.workers && s.th.workers[a.w].WCopy?
    ensures var me := s.th.workers[a.w]; me.i < |Subs(s.env, me.topic)|
    ensures var me, t := s.th.workers[a.w], StepWorker(s, a).value; var q := Subs(s.env, me.topic)[me.i];
            && (forall r | r != q :: At(t.queues, r) == At(s.queues, r))
            && if |At(s.queues, q).items| < At(s.queues, q).capacity
               then At(t.queues, q).items == At(s.queues, q).items + [Item(SeqOf(me.msg), KindOf(me.topic), me.copy)]
                    && t.mem == s.mem
               else At(t.queues, q) == At(s.queues, q) && t.mem.freed == s.mem.freed + multiset{me.copy}
  {
    hide Usable, Live;
  }

  /** Worker `w` is done with subscriber `j`: it delivered a copy of `msg`, which a queue with room
      has at its end, or it found no memory for one. */
  ghost predicate Settles(u: State, a: Action, v: State, w: Wid, j: nat, msg: Body, topic: Topic) {
    && w in u.th.workers && j < |Subs(u.env, topic)|
    && var me, q := u.th.workers[w], Subs(u.env, topic)[j];
       || (&& a == Deliver(w) && me.WCopy? && me.msg == msg && me.topic == topic && me.i == j
           && me.copy in u.mem.heap && u.mem.heap[me.copy] == msg
           && (|At(u.queues, q).items| < At(u.queues, q).capacity ==>
                 At(v.queues, q).items == At(u.queues, q).items + [Item(SeqOf(msg), KindOf(topic), me.copy)]))
       || (a.Clone? && a.w == w && !a.memory && me.WFan? && me.msg == msg && me.topic == topic && me.i == j)
  }

  ghost predicate Walking(s: State, w: Wid, msg: Body, topic: Topic) {
    w in s.th.workers && Publishing(s.th.workers[w]) && s.th.workers[w].msg == msg && s.th.workers[w].topic == topic
  }

  /** The worker's own steps within a publish. */
  lemma OwnStep(s: State, a: Action, w: Wid, msg: Body, topic: Topic)
    requires Sane(s) && Walking(s, w, msg, topic) && OfWorker(a) && a.w == w && StepWorker(s, a).Some?
    requires Walking(StepWorker(s, a).value, w, msg, topic)
    ensures var t := StepWorker(s, a).value;
            || t.th.workers[w].i == s.th.workers[w].i
            || (t.th.workers[w].i == s.th.workers[w].i + 1 && Settles(s, a, t, w, s.th.workers[w].i, msg, topic))
  {
    if a.Deliver? {
      CopyHolds(s, w);
      DeliverGives(s, a);
    }
    hide Sane, Usable, Live, Readable, Free, Enrich, Pop, Receive, SeqNumber, At, SeqOf;
  }

  lemma CopyHolds(s: State, w: Wid)
    requires Sane(s) && w in s.th.workers && s.th.workers[w].WCopy?
    ensures var me := s.th.workers[w]; me.copy in s.mem.heap && s.mem.heap[me.copy] == me.msg
  {
    hide LifeOk, OwnOk, SeqOk, StampedOk, Ready, QueuesFit;
    assert WorkerFits(s.th.workers[w], s.mem.heap);
  }

  /** While a worker publishes, it holds the lock, and nobody edits the lists. */
  lemma ListsHold(s: State, a: Action, w: Wid)
    requires Sane(s) && w in s.th.workers && Publishing(s.th.workers[w]) && Step(s, a).Some?
    ensures SameLists(s, Step(s, a).value)
    ensures !(OfWorker(a) && a.w == w) ==>
              w in Step(s, a).value.th.workers && Step(s, a).value.th.workers[w] == s.th.workers[w]
  {
    SaneLife(s);
    assert s.env.lock == Some(w);
    assert Stocked(s) by { hide LifeOk, TypesOk, SeqOk, StampedOk, Ready; StockedOf(s); }
    QueuesOf(s);
    hide Sane, LifeOk, Stocked, HasQueues, Histories;
    hide StepProducer, StepWorker, StepConsumer, StepTransport, StepSocket, StepListener, StepMain;
    if OfProducer(a) { ProducerSilent(s, a); }
    else if OfWorker(a) { WorkerLists(s, a); WorkerOnly(s, a); }
    else if a.ConsumerStep? { ConsumerSilent(s); }
    else if a.Create? { }
    else if a.TransportStep? { TransportSilent(s, a.ok); }
    else if OfSocket(a) { SocketSilent(s, a); }
    else if OfListener(a) { ListenerSilent(s, a); }
    else { MainSilent(s); }
  }

  lemma {:induction false} PrefixRuns(s: State, run: seq<Action>, k: nat)
    requires Exec(s, run).Some? && k < |run|
    ensures Exec(s, run[..k]).Some? && Exec(s, run[..k + 1]) == Step(Exec(s, run[..k]).value, run[k])
    ensures Exec(s, run[..k + 1]).Some?
    decreases k
  {
    hide Step;
    if k == 0 {
      assert run[..0] == [] && run[..1] == [run[0]] && [run[0]][1..] == [];
    } else {
      PrefixRuns(Step(s, run[0]).value, run[1..], k - 1);
      assert run[..k][1..] == run[1..][..k - 1] && run[..k + 1][1..] == run[1..][..k];
    }
  }

  /** The worker is in the same publish throughout. */
  ghost predicate OnePublish(s: State, run: seq<Action>, w: Wid, msg: Body, topic: Topic) {
    && Exec(s, run).Some? && Walking(Exec(s, run).value, w, msg, topic)
    && forall k | 0 <= k < |run| :: Exec(s, run[..k]).Some? && Walking(Exec(s, run[..k]).value, w, msg, topic)
  }

  ghost predicate SettledIn(s: State, run: seq<Action>, w: Wid, j: nat, msg: Body, topic: Topic) {
    exists k | 0 <= k < |run| ::
      && Exec(s, run[..k]).Some? && Exec(s, run[..k + 1]).Some?
      && Settles(Exec(s, run[..k]).value, run[k], Exec(s, run[..k + 1]).value, w, j, msg, topic)
  }

  lemma SettledLonger(s: State, run: seq<Action>, a: Action, w: Wid, j: nat, msg: Body, topic: Topic)
    requires SettledIn(s, run, w, j, msg, topic)
    ensures SettledIn(s, run + [a], w, j, msg, topic)
  {
    hide Settles, Step;
    var k :| 0 <= k < |run| && Exec(s, run[..k]).Some? && Exec(s, run[..k + 1]).Some?
             && Settles(Exec(s, run[..k]).value, run[k], Exec(s, run[..k + 1]).value, w, j, msg, topic);
    var more := run + [a];
    assert more[..k] == run[..k] && more[..k + 1] == run[..k + 1] && more[k] == run[k];
  }

  /** Over any run within one publish, whatever other threads do meanwhile: the list stays as it was,
      and each subscriber the worker has passed was settled at some step. */
  lemma {:induction false} PassedAreSettled(s: State, run: seq<Action>, w: Wid, msg: Body, topic: Topic)
    requires Sane(s) && Walking(s, w, msg, topic) && s.th.workers[w].i == 0 && OnePublish(s, run, w, msg, topic)
    ensures var t := Exec(s, run).value;
            && Sane(t) && SameLists(s, t)
            && w in t.th.workers && Publishing(t.th.workers[w])
            && forall j: nat | j < t.th.workers[w].i :: SettledIn(s, run, w, j, msg, topic)
    decreases |run|
  {
    hide Sane, Step, Settles;
    if run != [] {
      var n := |run| - 1;
      var before, a := run[..n], run[n];
      PrefixRuns(s, run, n);
      assert run == before + [a] && run[..n + 1] == run;
      assert forall k | 0 <= k < n :: before[..k] == run[..k];
      PassedAreSettled(s, before, w, msg, topic);
      var u, t := Exec(s, before).value, Exec(s, run).value;
      assert Step(u, a) == Some(t) && Walking(u, w, msg, topic) && Walking(t, w, msg, topic);
      StepSane(u, a);
      ListsHold(u, a, w);
      LastStep(u, a, w, msg, topic);
      forall j: nat | j < t.th.workers[w].i ensures SettledIn(s, run, w, j, msg, topic) {
        if j < u.th.workers[w].i {
          SettledLonger(s, before, a, w, j, msg, topic);
        } else {
          assert run[..n] == before && run[n] == a && run[..n + 1] == run;
        }
      }
    }
  }

  lemma LastStep(u: State, a: Action, w: Wid, msg: Body, topic: Topic)
    requires Sane(u) && Walking(u, w, msg, topic) && Step(u, a).Some? && Walking(Step(u, a).value, w, msg, topic)
    ensures var t := Step(u, a).value;
            || t.th.workers[w].i == u.th.workers[w].i
            || (t.th.workers[w].i == u.th.workers[w].i + 1 && Settles(u, a, t, w, u.th.workers[w].i, msg, topic))
  {
    ListsHold(u, a, w);
    hide Sane, StepProducer, StepWorker, StepConsumer, StepTransport, StepSocket, StepListener, StepMain, Settles;
    if OfWorker(a) && a.w == w { OwnStep(u, a, w, msg, topic); }
  }

  /** So when a worker leaves a publish, every subscriber on the list got its own copy of the message
      at the end of its queue, unless that queue was full or memory was missing. */
  lemma PublishServesAll(s0: State, before: seq<Action>, run: seq<Action>, w: Wid, msg: Body, topic: Topic, j: nat)
    requires Init(s0) && Exec(s0, before).Some?
    requires var s := Exec(s0, before).value;
             Walking(s, w, msg, topic) && s.th.workers[w].i == 0 && OnePublish(s, run, w, msg, topic)
    requires var t := Exec(Exec(s0, before).value, run).value;
             Step(t, UnlockRegistry(w)).Some? && j < |Subs(t.env, topic)|
    ensures SettledIn(Exec(s0, before).value, run, w, j, msg, topic)
    ensures SameLists(Exec(s0, before).value, Exec(Exec(s0, before).value, run).value)
  {
    hide Init, Sane, SettledIn, SameLists;
    InitSane(s0);
    RunSane(s0, before);
    var s := Exec(s0, before).value;
    PassedAreSettled(s, run, w, msg, topic);
  }
}
