/** What the monitor guarantees over whole runs: any number of threads, any schedule, any
    choice of woken threads, any spurious wakeups. */
module QueueTheorems {
  import opened Basics
  import opened RingBuffer
  import opened Monitor

  lemma InitInv<T>(s: State<T>)
    requires Init(s)
    ensures Inv(s)
  {
    assert s.ring.Contents() == [];
  }

  /** Every reachable state satisfies the monitor invariant. */
  lemma ReachableInv<T>(s0: State<T>, run: seq<Action<T>>)
    requires Init(s0) && Legal(s0, run)
    ensures Inv(Exec(s0, run))
  {
    InitInv(s0);
    RunKeepsInv(s0, run);
  }

  // ---------------------------------------------------------------- wakeups

  /** Threads taken off a condition variable that have not got the mutex back yet. */
  function Resuming<T(==)>(pcs: map<Tid, Pc<T>>, cv: Cond): set<Tid> {
    set t | t in pcs && pcs[t].Woken? && Wants(pcs[t], cv)
  }

  /** No lost wakeup: whenever the mutex is free and somebody sleeps on `cv`, every item
      (every free slot) is matched by a thread already on its way to use it. */
  lemma NoLostWakeup<T>(s0: State<T>, run: seq<Action<T>>, cv: Cond)
    requires Init(s0) && Legal(s0, run)
    ensures var s := Exec(s0, run);
            s.mutex.None? && WaitSet(s.pcs, cv) != {} ==> Available(s, cv) <= |Resuming(s.pcs, cv)|
  {
    ReachableInv(s0, run);
    var s := Exec(s0, run);
    if s.mutex.None? {
      forall t | t in s.pcs ensures !InSection(s.pcs[t]) {}
      assert Resuming(s.pcs, cv) == Hungry(s.pcs, cv);
    }
  }

  /** No thread inside the queue can take a step of its own. */
  ghost predicate Stuck<T(!new)>(s: State<T>) {
    forall a: Action<T> | Enabled(s, a) :: a.Call? || a.Spurious?
  }

  lemma StuckMeansAsleep<T(!new)>(s: State<T>, t: Tid)
    requires Inv(s) && Stuck(s) && t in s.pcs
    ensures s.mutex.None? && s.pcs[t].Parked?
  {
    var u := if s.mutex.Some? then s.mutex.value else t;
    assert PointOk(s, s.pcs[u]);
    assert !Enabled(s, Action<T>.Acquire(u));
    assert !Enabled(s, Action<T>.Test(u));
    assert !Enabled(s, Action<T>.Touch(u));
    assert !Enabled(s, Action<T>.Release(u));
    if s.pcs[u].Notify? {
      assert Enabled(s, Action<T>.Wake(u, WaitSet(s.pcs, s.pcs[u].cv)));
    }
  }

  /** The queue never deadlocks: if nothing inside it can move, every thread in it is asleep
      and they all wait for the same thing, which really is missing. */
  lemma OnlyStarvationBlocks<T(!new)>(s0: State<T>, run: seq<Action<T>>)
    requires Init(s0) && Legal(s0, run) && Stuck(Exec(s0, run))
    ensures var s := Exec(s0, run);
            && (forall t | t in s.pcs :: s.pcs[t].Parked?)
            && (s.pcs != map[] ==> !s.shut)
            && ((forall t | t in s.pcs :: s.pcs[t].op.Dequeue?) || (forall t | t in s.pcs :: s.pcs[t].op.Enqueue?))
            && (forall t | t in s.pcs :: if s.pcs[t].op.Dequeue? then s.ring.size == 0 else s.ring.Full())
  {
    ReachableInv(s0, run);
    var s := Exec(s0, run);
    forall t | t in s.pcs
      ensures s.pcs[t].Parked? && !s.shut
      ensures s.pcs[t].op.Dequeue? || s.pcs[t].op.Enqueue?
      ensures if s.pcs[t].op.Dequeue? then s.ring.size == 0 else s.ring.Full()
    {
      forall u | u in s.pcs ensures s.pcs[u].Parked? { StuckMeansAsleep(s, u); }
      StuckMeansAsleep(s, t);
      assert PointOk(s, s.pcs[t]);
      var cv := if s.pcs[t].op.Dequeue? then NotEmpty else NotFull;
      assert t in WaitSet(s.pcs, cv) && Covered(s, cv);
      assert Hungry(s.pcs, cv) == {};
    }
  }

  /** If an item is there while a dequeuer sleeps, some woken dequeuer can, with three
      steps of its own, take the oldest item. */
  lemma WokenDequeuerTakes<T>(s0: State<T>, run: seq<Action<T>>)
    requires Init(s0) && Legal(s0, run)
    ensures var s := Exec(s0, run);
            s.mutex.None? && WaitSet(s.pcs, NotEmpty) != {} && s.ring.size > 0 ==>
              exists t :: t in Resuming(s.pcs, NotEmpty) && Legal(s, [Acquire(t), Test(t), Touch(t)])
                && t in Exec(s, [Acquire(t), Test(t), Touch(t)]).pcs
                && Exec(s, [Acquire(t), Test(t), Touch(t)]).pcs[t]
                     == Notify(Dequeue, Got(s.ring.Contents()[0]), NotFull, false)
  {
    ReachableInv(s0, run);
    var s := Exec(s0, run);
    if s.mutex.None? && WaitSet(s.pcs, NotEmpty) != {} && s.ring.size > 0 {
      NoLostWakeup(s0, run, NotEmpty);
      assert Resuming(s.pcs, NotEmpty) != {};
      var t :| t in Resuming(s.pcs, NotEmpty);
      PopRemoves(s.ring);
      var s1 := Next(s, Acquire(t));
      var s2 := Next(s1, Test(t));
      var s3 := Next(s2, Touch(t));
      var r := [Action<T>.Acquire(t), Test(t), Touch(t)];
      assert r[1..] == [Test(t), Touch(t)] && r[1..][1..] == [Touch(t)] && r[1..][1..][1..] == [];
      assert Legal(s2, r[1..][1..]) && Exec(s2, r[1..][1..]) == s3;
      assert Legal(s1, r[1..]) && Exec(s1, r[1..]) == s3;
      assert Legal(s, r) && Exec(s, r) == s3;
    }
  }

  /** What three steps of a woken enqueuer do when a slot is free. */
  lemma EnqueuerSteps<T>(s: State<T>, t: Tid)
    requires s.ring.Valid() && s.mutex.None? && !s.ring.Full()
    requires t in s.pcs && s.pcs[t].Woken? && s.pcs[t].op.Enqueue?
    ensures Legal(s, [Acquire(t), Test(t), Touch(t)])
    ensures var s3 := Exec(s, [Acquire(t), Test(t), Touch(t)]);
            && t in s3.pcs && s3.pcs[t] == Notify(s.pcs[t].op, Accepted, NotEmpty, false)
            && s3.ring.Contents() == s.ring.Contents() + [s.pcs[t].op.item]
  {
    PutAppends(s.ring, s.pcs[t].op.item);
    hide Ring.Contents, Ring.Put;
    var s1 := Next(s, Acquire(t));
    var s2 := Next(s1, Test(t));
    var s3 := Next(s2, Touch(t));
    var r := [Action<T>.Acquire(t), Test(t), Touch(t)];
    assert r[1..] == [Test(t), Touch(t)] && r[1..][1..] == [Touch(t)] && r[1..][1..][1..] == [];
    assert Legal(s2, r[1..][1..]) && Exec(s2, r[1..][1..]) == s3;
    assert Legal(s1, r[1..]) && Exec(s1, r[1..]) == s3;
    assert Legal(s, r) && Exec(s, r) == s3;
  }

  /** Dually, if a slot is free while an enqueuer sleeps, some woken enqueuer can, with three
      steps of its own, store its item behind the others. */
  lemma WokenEnqueuerPuts<T>(s0: State<T>, run: seq<Action<T>>)
    requires Init(s0) && Legal(s0, run)
    ensures var s := Exec(s0, run);
            s.mutex.None? && WaitSet(s.pcs, NotFull) != {} && !s.ring.Full() ==>
              exists t :: t in Resuming(s.pcs, NotFull) && s.pcs[t].op.Enqueue?
                && Legal(s, [Acquire(t), Test(t), Touch(t)])
                && var s3 := Exec(s, [Acquire(t), Test(t), Touch(t)]);
                   && t in s3.pcs && s3.pcs[t] == Notify(s.pcs[t].op, Accepted, NotEmpty, false)
                   && s3.ring.Contents() == s.ring.Contents() + [s.pcs[t].op.item]
  {
    var s := Exec(s0, run);
    if s.mutex.None? && WaitSet(s.pcs, NotFull) != {} && !s.ring.Full() {
      NoLostWakeup(s0, run, NotFull);
      assert s.ring.Valid() by { ReachableInv(s0, run); }
      hide Ring.Contents, WaitSet;
      assert Resuming(s.pcs, NotFull) != {};
      var t :| t in Resuming(s.pcs, NotFull);
      hide Legal, Exec;
      EnqueuerSteps(s, t);
    }
  }

  // ---------------------------------------------------------------- order

  /** First in, first out over the whole run: the items whose enqueue returned true are the
      items handed back (or cleared), in the same order, followed by what the ring holds. */
  lemma WholeRunFifo<T>(s0: State<T>, run: seq<Action<T>>)
    requires Init(s0) && Legal(s0, run)
    ensures var s := Exec(s0, run);
            && s.ring.Valid()
            && (s.mutex.None? ==> s.ins == s.outs + s.ring.Contents())
  {
    ReachableInv(s0, run);
    var s := Exec(s0, run);
    if s.mutex.None? {
      assert s.ins + [] == s.ins && s.outs + [] == s.outs;
    }
  }

  // ---------------------------------------------------------------- shutdown

  /** Once shutdown has returned nobody is asleep. */
  lemma ShutdownWakesAll<T>(s0: State<T>, run: seq<Action<T>>)
    requires Init(s0) && Legal(s0, run)
    ensures var s := Exec(s0, run);
            s.shut && s.mutex.None? ==> WaitSet(s.pcs, NotEmpty) == {} && WaitSet(s.pcs, NotFull) == {}
  {
    ReachableInv(s0, run);
  }

  ghost predicate Awake<T>(s: State<T>) {
    s.shut && WaitSet(s.pcs, NotEmpty) == {} && WaitSet(s.pcs, NotFull) == {}
  }

  /** ... and nobody ever sleeps on that queue again. */
  lemma {:induction false} NobodySleepsAgain<T>(s: State<T>, run: seq<Action<T>>)
    requires s.ring.Indexed() && Legal(s, run) && Awake(s)
    ensures Awake(Exec(s, run))
    decreases |run|
  {
    if run != [] {
      var s1 := Next(s, run[0]);
      forall cv: Cond ensures WaitSet(s1.pcs, cv) == {} {
        forall t | t in s1.pcs ensures !Sleeps(s1.pcs[t], cv) {
          assert t in s.pcs ==> t !in WaitSet(s.pcs, NotEmpty) && t !in WaitSet(s.pcs, NotFull);
          assert t in s.pcs ==> !Sleeps(s.pcs[t], NotEmpty) && !Sleeps(s.pcs[t], NotFull);
        }
      }
      NobodySleepsAgain(s1, run[1..]);
    }
  }

  /** A call reports failure only for its documented reason. */
  lemma RefusalReasons<T>(s0: State<T>, run: seq<Action<T>>, t: Tid)
    requires Init(s0) && Legal(s0, run)
    requires t in Exec(s0, run).pcs && Exec(s0, run).pcs[t].Leaving? && Exec(s0, run).pcs[t].res.Refused?
    ensures var s := Exec(s0, run);
            match s.pcs[t].op
            case Enqueue(_) => s.ring.Full() && s.shut
            case TryEnqueue(_) => s.ring.Full()
            case Dequeue => s.ring.size == 0 && s.shut
            case TryDequeue => s.ring.size == 0
            case _ => false
  {
    ReachableInv(s0, run);
    assert PointOk(Exec(s0, run), Exec(s0, run).pcs[t]);
  }

  /** How many times the run puts (takes) an item, and whether it clears. */
  function PutsIn<T(==)>(s: State<T>, run: seq<Action<T>>): nat
    requires s.ring.Indexed() && Legal(s, run)
    decreases |run|
  {
    if run == [] then 0
    else One(run[0].Touch? && Puts(s.pcs[run[0].t].op)) + PutsIn(Next(s, run[0]), run[1..])
  }

  function TakesIn<T(==)>(s: State<T>, run: seq<Action<T>>): nat
    requires s.ring.Indexed() && Legal(s, run)
    decreases |run|
  {
    if run == [] then 0
    else One(run[0].Touch? && Takes(s.pcs[run[0].t].op)) + TakesIn(Next(s, run[0]), run[1..])
  }

  predicate ClearFree<T(==)>(s: State<T>, run: seq<Action<T>>)
    requires s.ring.Indexed() && Legal(s, run)
    decreases |run|
  {
    run == [] || (!(run[0].Touch? && s.pcs[run[0].t].op.Clear?) && ClearFree(Next(s, run[0]), run[1..]))
  }

  /** The stored count balances over any run without a clear. */
  lemma {:induction false} SizeBalance<T>(s: State<T>, run: seq<Action<T>>)
    requires Inv(s) && Legal(s, run) && ClearFree(s, run)
    ensures Exec(s, run).ring.size == s.ring.size + PutsIn(s, run) - TakesIn(s, run)
    decreases |run|
  {
    if run != [] {
      StepKeepsInv(s, run[0]);
      SizeBalance(Next(s, run[0]), run[1..]);
    }
  }

  lemma StepTakesFront<T>(s: State<T>, a: Action<T>)
    requires Inv(s) && Enabled(s, a) && !(a.Touch? && (Puts(s.pcs[a.t].op) || s.pcs[a.t].op.Clear?))
    ensures Next(s, a).ring.Contents()
              == if a.Touch? && Takes(s.pcs[a.t].op) then s.ring.Contents()[1..] else s.ring.Contents()
  {
    if a.Touch? && Takes(s.pcs[a.t].op) { PopRemoves(s.ring); }
  }

  /** Drain order: without further puts, what is left is the stored sequence minus its
      `TakesIn` oldest items, so each was handed out once, in order. */
  lemma {:induction false} DrainsInOrder<T>(s: State<T>, run: seq<Action<T>>)
    requires Inv(s) && Legal(s, run) && ClearFree(s, run) && PutsIn(s, run) == 0
    ensures TakesIn(s, run) <= s.ring.size
    ensures Exec(s, run).ring.Contents() == s.ring.Contents()[TakesIn(s, run)..]
    decreases |run|
  {
    if run != [] {
      var s1 := Next(s, run[0]);
      StepKeepsInv(s, run[0]);
      StepTakesFront(s, run[0]);
      DrainsInOrder(s1, run[1..]);
    }
  }

  /** Some blocking dequeue in the run comes back empty-handed. */
  predicate SomeoneRefused<T(==)>(s: State<T>, run: seq<Action<T>>)
    requires s.ring.Indexed() && Legal(s, run)
    decreases |run|
  {
    run != [] && (
      (run[0].Test? && Next(s, run[0]).pcs[run[0].t] == Leaving(Dequeue, Refused))
      || SomeoneRefused(Next(s, run[0]), run[1..]))
  }

  lemma {:induction false} RefusedMeansEmpty<T>(s: State<T>, run: seq<Action<T>>)
    requires Inv(s) && Legal(s, run) && ClearFree(s, run) && PutsIn(s, run) == 0 && SomeoneRefused(s, run)
    ensures Exec(s, run).ring.size == 0
    decreases |run|
  {
    StepKeepsInv(s, run[0]);
    var s1 := Next(s, run[0]);
    if SomeoneRefused(s1, run[1..]) {
      RefusedMeansEmpty(s1, run[1..]);
    } else {
      assert PointOk(s1, s1.pcs[run[0].t]);
      SizeBalance(s1, run[1..]);
    }
  }

  /** Shutdown drain: if nothing is put after `s` and a blocking dequeue has returned false
      by the end, every item accepted in the whole history has been handed out, in order, and
      the dequeues that did so after `s` are exactly as many as were stored at `s`. */
  lemma ShutdownDrains<T>(s0: State<T>, run0: seq<Action<T>>, run: seq<Action<T>>)
    requires Init(s0) && Legal(s0, run0) && Legal(Exec(s0, run0), run)
    requires var s := Exec(s0, run0); ClearFree(s, run) && PutsIn(s, run) == 0 && SomeoneRefused(s, run)
    requires Exec(Exec(s0, run0), run).mutex.None?
    ensures var s := Exec(s0, run0); var e := Exec(s, run);
            e.outs == e.ins && TakesIn(s, run) == s.ring.size
  {
    ReachableInv(s0, run0);
    var s := Exec(s0, run0);
    RunKeepsInv(s, run);
    RefusedMeansEmpty(s, run);
    SizeBalance(s, run);
    var e := Exec(s, run);
    assert e.ins + [] == e.ins && e.outs + [] + e.ring.Contents() == e.outs;
  }

  /** Thread `t` dequeues in a loop, as a worker does: its only calls are blocking dequeues, and
      it makes none after one has returned false. */
  predicate WorkerLoop<T(==)>(s: State<T>, run: seq<Action<T>>, t: Tid)
    requires s.ring.Indexed() && Legal(s, run)
    decreases |run|
  {
    run == [] || (
      && (run[0].Call? && run[0].t == t ==> run[0].op.Dequeue?)
      && (run[0] == Release(t) && s.pcs[t].res.Refused? ==>
            forall i | 0 < i < |run| :: !(run[i].Call? && run[i].t == t))
      && WorkerLoop(Next(s, run[0]), run[1..], t))
  }

  /** How many calls of `t` return during the run. */
  function Returns<T(==)>(s: State<T>, run: seq<Action<T>>, t: Tid): nat
    requires s.ring.Indexed() && Legal(s, run)
    decreases |run|
  {
    if run == [] then 0 else One(run[0] == Release(t)) + Returns(Next(s, run[0]), run[1..], t)
  }

  /** A thread that is outside and makes no call returns from none. */
  lemma {:induction false} NoCallNoReturn<T>(s: State<T>, run: seq<Action<T>>, t: Tid)
    requires s.ring.Indexed() && Legal(s, run) && t !in s.pcs
    requires forall i | 0 <= i < |run| :: !(run[i].Call? && run[i].t == t)
    ensures Returns(s, run, t) == 0
    decreases |run|
  {
    if run != [] {
      assert t !in Next(s, run[0]).pcs;
      NoCallNoReturn(Next(s, run[0]), run[1..], t);
    }
  }

  /** `t` already holds an item that its current dequeue will return. */
  predicate Holding<T(==)>(s: State<T>, t: Tid) {
    t in s.pcs && (s.pcs[t].Notify? || s.pcs[t].Leaving?) && !s.pcs[t].res.Refused?
  }

  lemma WorkerStep<T>(s: State<T>, a: Action<T>, t: Tid)
    requires Inv(s) && Enabled(s, a) && !(a.Touch? && (Puts(s.pcs[a.t].op) || s.pcs[a.t].op.Clear?))
    requires t in s.pcs ==> s.pcs[t].op.Dequeue?
    requires a.Call? && a.t == t ==> a.op.Dequeue?
    ensures var s1 := Next(s, a);
            && (t in s1.pcs ==> s1.pcs[t].op.Dequeue?)
            && (a != Release(t) ==> s1.ring.size + One(Holding(s1, t)) <= s.ring.size + One(Holding(s, t)))
            && (a == Release(t) ==> t !in s1.pcs && s1.ring.size == s.ring.size)
  {
  }

  /** After shutdown's last put, a worker's loop makes at most one dequeue more than there are
      items left (plus the one already in its hands). */
  lemma {:induction false} WorkerStops<T>(s: State<T>, run: seq<Action<T>>, t: Tid)
    requires Inv(s) && Legal(s, run) && ClearFree(s, run) && PutsIn(s, run) == 0 && WorkerLoop(s, run, t)
    requires t in s.pcs ==> s.pcs[t].op.Dequeue?
    ensures Returns(s, run, t) <= s.ring.size + 1 + One(Holding(s, t))
    decreases |run|
  {
    if run != [] {
      var s1 := Next(s, run[0]);
      StepKeepsInv(s, run[0]);
      WorkerStep(s, run[0], t);
      if run[0] == Release(t) && s.pcs[t].res.Refused? {
        NoCallNoReturn(s1, run[1..], t);
      } else {
        WorkerStops(s1, run[1..], t);
      }
    }
  }

  /** Exactly what is left at the end: from a refused dequeue on, the queue ends empty if and only
      if every later put is matched by a later take; if nobody takes any more, if and only if
      nothing is put. */
  lemma LeftBehindIff<T>(s: State<T>, t: Tid, run: seq<Action<T>>)
    requires Inv(s) && t in s.pcs && s.pcs[t] == Leaving(Dequeue, Refused)
    requires Legal(s, run) && ClearFree(s, run)
    ensures Exec(s, run).ring.size == 0 <==> PutsIn(s, run) == TakesIn(s, run)
  {
    assert PointOk(s, s.pcs[t]);
    SizeBalance(s, run);
  }

  /** Appending one step to a run. */
  lemma {:induction false} Extend<T>(s: State<T>, run: seq<Action<T>>, a: Action<T>)
    requires s.ring.Indexed() && Legal(s, run) && Enabled(Exec(s, run), a)
    ensures Legal(s, run + [a]) && Exec(s, run + [a]) == Next(Exec(s, run), a)
    ensures SomeoneRefused(s, run + [a]) == (SomeoneRefused(s, run)
              || (a.Test? && Next(Exec(s, run), a).pcs[a.t] == Leaving(Dequeue, Refused)))
    decreases |run|
  {
    if run == [] {
      assert (run + [a])[1..] == [];
    } else {
      Extend(Next(s, run[0]), run[1..], a);
      assert (run + [a])[1..] == run[1..] + [a];
    }
  }

  function Idle(items: seq<int>, tail: nat, size: nat, shut: bool, ins: seq<int>): State<int> {
    State(map[], None, Ring(items, 0, tail, size), shut, ins, [])
  }

  lemma ShutdownSegment(s: State<int>) returns (run: seq<Action<int>>)
    requires s == Idle([0], 0, 0, false, [])
    ensures Legal(s, run) && Exec(s, run) == Idle([0], 0, 0, true, [])
  {
    run := [];
    Extend(s, run, Call(0, Shutdown)); run := run + [Call(0, Shutdown)];
    Extend(s, run, Acquire(0)); run := run + [Acquire(0)];
    Extend(s, run, Test(0)); run := run + [Test(0)];
    Extend(s, run, Touch(0)); run := run + [Touch(0)];
    assert WaitSet(Exec(s, run).pcs, NotEmpty) == {};
    Extend(s, run, Wake(0, {})); run := run + [Wake(0, {})];
    assert WaitSet(Exec(s, run).pcs, NotFull) == {};
    Extend(s, run, Wake(0, {})); run := run + [Wake(0, {})];
    Extend(s, run, Release(0)); run := run + [Release(0)];
  }

  lemma RefusedSegment(s: State<int>, before: seq<Action<int>>) returns (run: seq<Action<int>>)
    requires s.ring.Indexed() && Legal(s, before) && Exec(s, before) == Idle([0], 0, 0, true, [])
    ensures Legal(s, run) && Exec(s, run) == Idle([0], 0, 0, true, []) && SomeoneRefused(s, run)
  {
    run := before;
    Extend(s, run, Call(1, Dequeue)); run := run + [Call(1, Dequeue)];
    Extend(s, run, Acquire(1)); run := run + [Acquire(1)];
    Extend(s, run, Test(1)); run := run + [Test(1)];
    Extend(s, run, Release(1)); run := run + [Release(1)];
  }

  lemma PutSegment(s: State<int>, before: seq<Action<int>>) returns (run: seq<Action<int>>)
    requires s.ring.Indexed() && Legal(s, before) && Exec(s, before) == Idle([0], 0, 0, true, [])
    requires SomeoneRefused(s, before)
    ensures Legal(s, run) && Exec(s, run) == Idle([7], 0, 1, true, [7]) && SomeoneRefused(s, run)
  {
    run := before;
    Extend(s, run, Call(2, Enqueue(7))); run := run + [Call(2, Enqueue(7))];
    Extend(s, run, Acquire(2)); run := run + [Acquire(2)];
    Extend(s, run, Test(2)); run := run + [Test(2)];
    Extend(s, run, Touch(2)); run := run + [Touch(2)];
    assert WaitSet(Exec(s, run).pcs, NotEmpty) == {};
    Extend(s, run, Wake(2, {})); run := run + [Wake(2, {})];
    Extend(s, run, Release(2)); run := run + [Release(2)];
  }

  /** An item can be left behind: after shutdown, and after the only dequeuer has been told to
      stop, an enqueue that finds room is still accepted. */
  lemma LateEnqueueIsStranded() returns (s0: State<int>, run: seq<Action<int>>)
    ensures Init(s0) && Legal(s0, run) && SomeoneRefused(s0, run)
    ensures var s := Exec(s0, run); s.shut && s.pcs == map[] && s.ins == [7] && s.outs == [] && s.ring.size == 1
  {
    s0 := Idle([0], 0, 0, false, []);
    run := ShutdownSegment(s0);
    run := RefusedSegment(s0, run);
    run := PutSegment(s0, run);
  }
}
