/** One message queue as a monitor: any number of threads, one mutex, two condition
    variables, one shutdown flag. Every step is one line group of c/src/msg_queue.c, so a
    thread can be overtaken between any two of them; only the mutex protects the ring. */
module Monitor {
  import opened Basics
  import opened RingBuffer

  type Tid = nat

  datatype Op<T> = Enqueue(item: T) | TryEnqueue(item: T) | Dequeue | TryDequeue | Clear | Shutdown

  datatype Cond = NotEmpty | NotFull

  datatype Result<T> = Pending | Refused | Accepted | Got(value: T) | Dropped(values: seq<T>) | Done

  /** Where a thread is inside one call. A thread absent from the map is outside the queue. */
  datatype Pc<T> =
    | Entering(op: Op<T>)                                    // at pthread_mutex_lock
    | Guard(op: Op<T>)                                       // holds the mutex, about to test
    | Parked(op: Op<T>)                                      // inside pthread_cond_wait
    | Woken(op: Op<T>)                                       // left the wait set, wants the mutex back
    | Act(op: Op<T>)                                         // test passed, about to touch the state
    | Notify(op: Op<T>, res: Result<T>, cv: Cond, all: bool) // about to signal or broadcast
    | Leaving(op: Op<T>, res: Result<T>)                     // about to unlock and return

  /** `ins` lists the items whose enqueue has returned true and `outs` the items handed
      back by a dequeue or discarded by a clear that has returned, in order of return. */
  datatype State<T> = State(
    pcs: map<Tid, Pc<T>>, mutex: Option<Tid>, ring: Ring<T>, shut: bool, ins: seq<T>, outs: seq<T>)

  datatype Action<T> =
    | Call(t: Tid, op: Op<T>)
    | Acquire(t: Tid)
    | Test(t: Tid)
    | Touch(t: Tid)
    | Wake(t: Tid, woken: set<Tid>)
    | Release(t: Tid)
    | Spurious(t: Tid)

  // ---------------------------------------------------------------- transitions

  predicate Puts<T>(op: Op<T>) { op.Enqueue? || op.TryEnqueue? }
  predicate Takes<T>(op: Op<T>) { op.Dequeue? || op.TryDequeue? }
  predicate InSection<T>(pc: Pc<T>) { pc.Guard? || pc.Act? || pc.Notify? || pc.Leaving? }

  /** Dequeuers wait for not_empty, enqueuers for not_full. */
  predicate Sleeps<T>(pc: Pc<T>, cv: Cond) { pc.Parked? && pc.op.Dequeue? == cv.NotEmpty? }

  /** The threads blocked on a condition variable. */
  function WaitSet<T(==)>(pcs: map<Tid, Pc<T>>, cv: Cond): set<Tid> {
    set t | t in pcs && Sleeps(pcs[t], cv)
  }

  predicate Enabled<T(==)>(s: State<T>, a: Action<T>) {
    match a
    case Call(t, op) => t !in s.pcs
    case Acquire(t) => t in s.pcs && (s.pcs[t].Entering? || s.pcs[t].Woken?) && s.mutex.None?
    case Test(t) => t in s.pcs && s.pcs[t].Guard?
    case Touch(t) => t in s.pcs && s.pcs[t].Act? && (Takes(s.pcs[t].op) ==> s.ring.size > 0)
    case Wake(t, woken) =>
      && t in s.pcs && s.pcs[t].Notify?
      && var waiting := WaitSet(s.pcs, s.pcs[t].cv);
      && woken <= waiting
      && (waiting != {} ==> woken != {})
      && (s.pcs[t].all ==> woken == waiting)
    case Release(t) => t in s.pcs && s.pcs[t].Leaving?
    case Spurious(t) => t in s.pcs && s.pcs[t].Parked?
  }

  /** The while/if tests of the six operations. */
  function AfterTest<T>(s: State<T>, op: Op<T>): Pc<T> {
    match op
    case Enqueue(_) =>
      if s.ring.Full() && !s.shut then Parked(op)
      else if s.shut && s.ring.Full() then Leaving(op, Refused) else Act(op)
    case TryEnqueue(_) => if s.ring.Full() then Leaving(op, Refused) else Act(op)
    case Dequeue =>
      if s.ring.size == 0 && !s.shut then Parked(op)
      else if s.ring.size == 0 then Leaving(op, Refused) else Act(op)
    case TryDequeue => if s.ring.size == 0 then Leaving(op, Refused) else Act(op)
    case Clear => Act(op)
    case Shutdown => Act(op)
  }

  /** The state change of each operation, up to its signal. */
  function AfterTouch<T>(s: State<T>, t: Tid, op: Op<T>): State<T>
    requires s.ring.Indexed() && (Takes(op) ==> s.ring.size > 0)
  {
    if Puts(op) then
      s.(ring := s.ring.Put(op.item), pcs := s.pcs[t := Notify(op, Accepted, NotEmpty, false)])
    else if Takes(op) then
      s.(ring := s.ring.Pop(), pcs := s.pcs[t := Notify(op, Got(s.ring.Front()), NotFull, false)])
    else if op.Clear? then
      s.(ring := s.ring.Reset(), pcs := s.pcs[t := Notify(op, Dropped(s.ring.Contents()), NotFull, true)])
    else
      s.(shut := true, pcs := s.pcs[t := Notify(op, Done, NotEmpty, true)])
  }

  function AfterWake<T>(s: State<T>, t: Tid, woken: set<Tid>): map<Tid, Pc<T>>
    requires t in s.pcs && s.pcs[t].Notify?
  {
    var me := s.pcs[t];
    var next := if me.op.Shutdown? && me.cv.NotEmpty? then Notify(me.op, me.res, NotFull, true)
                else Leaving(me.op, me.res);
    map u | u in s.pcs ::
      if u == t then next else if u in woken then Woken(s.pcs[u].op) else s.pcs[u]
  }

  function Inputs<T>(pc: Pc<T>): seq<T> {
    if (pc.Notify? || pc.Leaving?) && pc.res.Accepted? && Puts(pc.op) then [pc.op.item] else []
  }

  function Outputs<T>(pc: Pc<T>): seq<T> {
    if !(pc.Notify? || pc.Leaving?) then []
    else if pc.res.Got? then [pc.res.value] else if pc.res.Dropped? then pc.res.values else []
  }

  function Next<T>(s: State<T>, a: Action<T>): (s': State<T>)
    requires s.ring.Indexed() && Enabled(s, a)
    ensures s'.ring.Indexed() && s'.ring.Capacity() == s.ring.Capacity()
  {
    match a
    case Call(t, op) => s.(pcs := s.pcs[t := Entering(op)])
    case Acquire(t) => s.(pcs := s.pcs[t := Guard(s.pcs[t].op)], mutex := Some(t))
    case Test(t) =>
      var pc := AfterTest(s, s.pcs[t].op);
      s.(pcs := s.pcs[t := pc], mutex := if pc.Parked? then None else s.mutex)
    case Touch(t) => AfterTouch(s, t, s.pcs[t].op)
    case Wake(t, woken) => s.(pcs := AfterWake(s, t, woken))
    case Release(t) =>
      s.(pcs := s.pcs - {t}, mutex := None,
         ins := s.ins + Inputs(s.pcs[t]), outs := s.outs + Outputs(s.pcs[t]))
    case Spurious(t) => s.(pcs := s.pcs[t := Woken(s.pcs[t].op)])
  }

  /** A freshly created queue: no thread inside it, nothing stored. */
  predicate Init<T(==)>(s: State<T>) {
    s.pcs == map[] && s.mutex == None && s.ring.Valid() && s.ring.size == 0 && !s.shut
    && s.ins == [] && s.outs == []
  }

  /** `run` is a legal schedule from `s`. */
  predicate Legal<T(==)>(s: State<T>, run: seq<Action<T>>)
    requires s.ring.Indexed()
    decreases |run|
  {
    run == [] || (Enabled(s, run[0]) && Legal(Next(s, run[0]), run[1..]))
  }

  function Exec<T(==)>(s: State<T>, run: seq<Action<T>>): (s': State<T>)
    requires s.ring.Indexed() && Legal(s, run)
    ensures s'.ring.Indexed()
    decreases |run|
  {
    if run == [] then s else Exec(Next(s, run[0]), run[1..])
  }

  // ---------------------------------------------------------------- invariant

  predicate Wants<T>(pc: Pc<T>, cv: Cond) {
    (pc.Woken? || pc.Guard? || pc.Act?) && (if cv.NotEmpty? then pc.op.Dequeue? else pc.op.Enqueue?)
  }

  /** Threads that, once scheduled, will use what `cv` announces if it is still there. */
  function Hungry<T(==)>(pcs: map<Tid, Pc<T>>, cv: Cond): set<Tid> {
    set t | t in pcs && Wants(pcs[t], cv)
  }

  /** Items to take, or slots to fill. */
  function Available<T>(s: State<T>, cv: Cond): int {
    if cv.NotEmpty? then s.ring.size else s.ring.Capacity() - s.ring.size
  }

  /** Some thread in the section is about to signal (or broadcast) `cv`. */
  predicate Announcing<T(==)>(s: State<T>, cv: Cond, all: bool) {
    s.mutex.Some? && s.mutex.value in s.pcs && var pc := s.pcs[s.mutex.value];
    pc.Notify? && pc.cv == cv && pc.all == all
  }

  /** Exactly the mutex owner is in the critical section. */
  ghost predicate Exclusive<T>(s: State<T>) {
    && (s.mutex.Some? ==> s.mutex.value in s.pcs)
    && forall t | t in s.pcs :: InSection(s.pcs[t]) <==> s.mutex == Some(t)
  }

  /** If someone sleeps on `cv`, everything available is spoken for by awake threads. */
  ghost predicate Covered<T>(s: State<T>, cv: Cond) {
    WaitSet(s.pcs, cv) != {} ==>
      Announcing(s, cv, true) ||
      Available(s, cv) <= |Hungry(s.pcs, cv)| + (if Announcing(s, cv, false) then 1 else 0)
  }

  /** After shutdown nobody sleeps, except while its broadcasts are still on their way. */
  ghost predicate Evacuated<T>(s: State<T>) {
    s.shut ==>
      && (WaitSet(s.pcs, NotEmpty) != {} ==> Announcing(s, NotEmpty, true))
      && (WaitSet(s.pcs, NotFull) != {} ==> Announcing(s, NotEmpty, true) || Announcing(s, NotFull, true))
  }

  /** What each program point knows. */
  ghost predicate PointOk<T>(s: State<T>, pc: Pc<T>) {
    match pc
    case Entering(_) => true
    case Guard(_) => true
    case Parked(op) => op.Enqueue? || op.Dequeue?
    case Woken(op) => op.Enqueue? || op.Dequeue?
    case Act(op) => (Puts(op) ==> !s.ring.Full()) && (Takes(op) ==> s.ring.size > 0)
    case Notify(op, res, cv, all) =>
      && ResultFits(s, op, res)
      && cv == (if Puts(op) then NotEmpty else if op.Shutdown? then cv else NotFull)
      && all == (op.Clear? || op.Shutdown?)
      && !res.Refused?
    case Leaving(op, res) => ResultFits(s, op, res)
  }

  ghost predicate ResultFits<T>(s: State<T>, op: Op<T>, res: Result<T>) {
    match op
    case Enqueue(_) => res.Accepted? || (res.Refused? && s.ring.Full() && s.shut)
    case TryEnqueue(_) => res.Accepted? || (res.Refused? && s.ring.Full())
    case Dequeue => res.Got? || (res.Refused? && s.ring.size == 0 && s.shut)
    case TryDequeue => res.Got? || (res.Refused? && s.ring.size == 0)
    case Clear => res.Dropped?
    case Shutdown => res.Done? && s.shut
  }

  ghost predicate PointsOk<T>(s: State<T>) {
    forall t | t in s.pcs :: PointOk(s, s.pcs[t])
  }

  function Current<T(==)>(s: State<T>): Option<Pc<T>> {
    if s.mutex.Some? && s.mutex.value in s.pcs then Some(s.pcs[s.mutex.value]) else None
  }

  /** Accepted items = items out + items in the ring, counting the call in progress. */
  ghost predicate Fifo<T>(s: State<T>)
    requires s.ring.Indexed()
  {
    var c := Current(s);
    s.ins + (if c.Some? then Inputs(c.value) else [])
      == s.outs + (if c.Some? then Outputs(c.value) else []) + s.ring.Contents()
  }

  ghost predicate Inv<T>(s: State<T>) {
    && s.ring.Valid()
    && Exclusive(s)
    && PointsOk(s)
    && Covered(s, NotEmpty) && Covered(s, NotFull)
    && Evacuated(s)
    && Fifo(s)
  }

  // ---------------------------------------------------------------- preservation

  lemma StepExclusive<T>(s: State<T>, a: Action<T>)
    requires Inv(s) && Enabled(s, a)
    ensures Next(s, a).ring.Valid() && Exclusive(Next(s, a))
  {
    if a.Touch? {
      var op := s.pcs[a.t].op;
      assert PointOk(s, s.pcs[a.t]);
      if Puts(op) { PutAppends(s.ring, op.item); }
      if Takes(op) { PopRemoves(s.ring); }
    }
  }

  lemma StepPoints<T>(s: State<T>, a: Action<T>)
    requires Inv(s) && Enabled(s, a)
    ensures PointsOk(Next(s, a))
  {
    var s' := Next(s, a);
    forall u | u in s'.pcs ensures PointOk(s', s'.pcs[u]) {
      if u in s.pcs { assert PointOk(s, s.pcs[u]); }
    }
  }

  /** Nothing is on its way in or out while a thread is about to touch the state. */
  lemma BeforeTouch<T>(s: State<T>, t: Tid)
    requires Inv(s) && Enabled(s, Touch(t))
    ensures s.mutex == Some(t) && PointOk(s, s.pcs[t]) && s.ins == s.outs + s.ring.Contents()
  {
    assert PointOk(s, s.pcs[t]) && s.mutex == Some(t);
    assert Current(s) == Some(s.pcs[t]);
    assert s.ins + [] == s.ins && s.outs + [] == s.outs;
  }

  lemma PutFifo<T>(s: State<T>, t: Tid)
    requires Inv(s) && Enabled(s, Touch(t)) && Puts(s.pcs[t].op)
    ensures Fifo(AfterTouch(s, t, s.pcs[t].op))
  {
    BeforeTouch(s, t);
    hide Inv;
    var s' := AfterTouch(s, t, s.pcs[t].op);
    PutAppends(s.ring, s.pcs[t].op.item);
    assert Current(s') == Some(s'.pcs[t]);
    assert s.outs + [] == s.outs;
    assert s.ins + [s.pcs[t].op.item] == s.outs + (s.ring.Contents() + [s.pcs[t].op.item]);
  }

  lemma TakeFifo<T>(s: State<T>, t: Tid)
    requires Inv(s) && Enabled(s, Touch(t)) && Takes(s.pcs[t].op)
    ensures Fifo(AfterTouch(s, t, s.pcs[t].op))
  {
    BeforeTouch(s, t);
    hide Inv;
    var s' := AfterTouch(s, t, s.pcs[t].op);
    PopRemoves(s.ring);
    assert Current(s') == Some(s'.pcs[t]);
    assert s.ins + [] == s.ins;
  }

  lemma TouchFifo<T>(s: State<T>, t: Tid)
    requires Inv(s) && Enabled(s, Touch(t))
    ensures Fifo(Next(s, Touch(t)))
  {
    if Puts(s.pcs[t].op) {
      PutFifo(s, t);
    } else if Takes(s.pcs[t].op) {
      TakeFifo(s, t);
    } else {
      BeforeTouch(s, t);
      hide Inv;
      var s' := Next(s, Touch(t));
      assert Current(s') == Some(s'.pcs[t]);
      assert s.ins + [] == s.ins && s.outs + [] == s.outs;
    }
  }

  lemma StepFifo<T>(s: State<T>, a: Action<T>)
    requires Inv(s) && Enabled(s, a)
    ensures Fifo(Next(s, a))
  {
    var s' := Next(s, a);
    if a.Touch? {
      TouchFifo(s, a.t);
    } else if a.Release? {
      assert Current(s) == Some(s.pcs[a.t]) && Current(s') == None;
    } else if a.Wake? || a.Test? {
      assert Current(s) == Some(s.pcs[a.t]);
    } else if s.mutex.Some? {
      assert s.mutex.value in s.pcs && InSection(s.pcs[s.mutex.value]);
      assert Current(s') == Current(s);
    }
  }

  lemma StepEvacuated<T>(s: State<T>, a: Action<T>)
    requires Inv(s) && Enabled(s, a)
    ensures Evacuated(Next(s, a))
  {
    var s' := Next(s, a);
    if a.t in s.pcs { assert PointOk(s, s.pcs[a.t]); }
    forall cv: Cond ensures WaitSet(s'.pcs, cv) <= WaitSet(s.pcs, cv) + (if a.Test? && !s.shut then {a.t} else {}) {
    }
  }

  lemma SwapOne(a: set<Tid>, b: set<Tid>, t: Tid)
    requires forall u | u != t :: u in a <==> u in b
    ensures |b| == |a| - One(t in a) + One(t in b)
  {
    assert a - {t} == b - {t};
    assert t in a ==> a == (a - {t}) + {t};
    assert t in b ==> b == (b - {t}) + {t};
    assert t !in a ==> a == a - {t};
    assert t !in b ==> b == b - {t};
  }

  lemma MoveSleepers<T>(pcs: map<Tid, Pc<T>>, t: Tid, pc: Pc<T>, cv: Cond)
    requires t in pcs
    ensures WaitSet(pcs[t := pc], cv) == WaitSet(pcs, cv) - {t} + if Sleeps(pc, cv) then {t} else {}
  {
    hide Sleeps;
    var a, b := WaitSet(pcs, cv), WaitSet(pcs[t := pc], cv);
    forall u | u != t ensures u in a <==> u in b {}
    assert t in b <==> Sleeps(pc, cv);
  }

  /** How moving one thread changes who sleeps and who is hungry. */
  lemma Move<T>(pcs: map<Tid, Pc<T>>, t: Tid, pc: Pc<T>, cv: Cond)
    requires t in pcs
    ensures WaitSet(pcs[t := pc], cv) == WaitSet(pcs, cv) - {t} + if Sleeps(pc, cv) then {t} else {}
    ensures |Hungry(pcs[t := pc], cv)| == |Hungry(pcs, cv)| - One(Wants(pcs[t], cv)) + One(Wants(pc, cv))
  {
    hide Sleeps, Wants, WaitSet;
    MoveSleepers(pcs, t, pc, cv);
    var a, b := Hungry(pcs, cv), Hungry(pcs[t := pc], cv);
    forall u | u != t ensures u in a <==> u in b {}
    SwapOne(a, b, t);
  }

  /** The part of the invariant that coverage of one condition variable depends on. */
  ghost predicate Scene<T>(s: State<T>, cv: Cond) {
    s.ring.Valid() && Exclusive(s) && PointsOk(s) && Covered(s, cv)
  }

  lemma TestCovered<T>(s: State<T>, t: Tid, cv: Cond)
    requires Scene(s, cv) && Enabled(s, Test(t))
    ensures Covered(Next(s, Test(t)), cv)
  {
    Move(s.pcs, t, AfterTest(s, s.pcs[t].op), cv);
  }

  lemma TouchCovered<T>(s: State<T>, t: Tid, cv: Cond)
    requires Scene(s, cv) && Enabled(s, Touch(t))
    ensures Covered(Next(s, Touch(t)), cv)
  {
    assert PointOk(s, s.pcs[t]) && s.mutex == Some(t);
    Move(s.pcs, t, Next(s, Touch(t)).pcs[t], cv);
  }

  /** What a signal does to each thread. */
  lemma WakeOne<T>(s: State<T>, t: Tid, woken: set<Tid>, cv: Cond, u: Tid)
    requires PointsOk(s) && Enabled(s, Wake(t, woken)) && u in s.pcs
    ensures var pc' := AfterWake(s, t, woken)[u];
            && Sleeps(pc', cv) == (Sleeps(s.pcs[u], cv) && u !in woken)
            && Wants(pc', cv) == (Wants(s.pcs[u], cv) || (u in woken && s.pcs[t].cv == cv))
            && (u in woken ==> !Wants(s.pcs[u], cv))
  {
    assert PointOk(s, s.pcs[u]);
  }

  lemma WakeSets<T>(s: State<T>, t: Tid, woken: set<Tid>, cv: Cond)
    requires PointsOk(s) && Enabled(s, Wake(t, woken))
    ensures WaitSet(AfterWake(s, t, woken), cv) == WaitSet(s.pcs, cv) - woken
    ensures |Hungry(AfterWake(s, t, woken), cv)| == |Hungry(s.pcs, cv)| + if s.pcs[t].cv == cv then |woken| else 0
  {
    hide Sleeps, Wants, PointOk;
    var h, h' := Hungry(s.pcs, cv), Hungry(AfterWake(s, t, woken), cv);
    forall u | u in s.pcs
      ensures u in WaitSet(AfterWake(s, t, woken), cv) <==> u in WaitSet(s.pcs, cv) - woken
      ensures u in h' <==> u in h || (u in woken && s.pcs[t].cv == cv)
      ensures u in woken ==> u !in h
    {
      WakeOne(s, t, woken, cv, u);
    }
    if s.pcs[t].cv == cv {
      assert h' == h + woken && h !! woken;
    } else {
      assert h' == h;
    }
  }

  lemma WakeCovered<T>(s: State<T>, t: Tid, woken: set<Tid>, cv: Cond)
    requires Scene(s, cv) && Enabled(s, Wake(t, woken))
    ensures Covered(Next(s, Wake(t, woken)), cv)
  {
    assert PointOk(s, s.pcs[t]) && s.mutex == Some(t);
    WakeSets(s, t, woken, cv);
    assert woken != {} ==> |woken| >= 1;
  }

  /** Taking the mutex and waking up neither change the ring nor put anyone to sleep. */
  lemma ResumeCovered<T>(s: State<T>, a: Action<T>, cv: Cond)
    requires Scene(s, cv) && Enabled(s, a) && (a.Acquire? || a.Spurious?)
    ensures Covered(Next(s, a), cv)
  {
    Move(s.pcs, a.t, Next(s, a).pcs[a.t], cv);
    assert s.mutex.Some? ==> InSection(s.pcs[s.mutex.value]);
  }

  lemma EnterLeaveCovered<T>(s: State<T>, a: Action<T>, cv: Cond)
    requires Scene(s, cv) && Enabled(s, a) && (a.Call? || a.Release?)
    ensures Covered(Next(s, a), cv)
  {
    var s' := Next(s, a);
    assert WaitSet(s'.pcs, cv) == WaitSet(s.pcs, cv);
    assert Hungry(s'.pcs, cv) == Hungry(s.pcs, cv);
  }

  lemma StepCovered<T>(s: State<T>, a: Action<T>, cv: Cond)
    requires Inv(s) && Enabled(s, a)
    ensures Covered(Next(s, a), cv)
  {
    match a
    case Test(t) => TestCovered(s, t, cv);
    case Touch(t) => TouchCovered(s, t, cv);
    case Wake(t, woken) => WakeCovered(s, t, woken, cv);
    case Acquire(_) => ResumeCovered(s, a, cv);
    case Spurious(_) => ResumeCovered(s, a, cv);
    case _ => EnterLeaveCovered(s, a, cv);
  }

  lemma StepKeepsInv<T>(s: State<T>, a: Action<T>)
    requires Inv(s) && Enabled(s, a)
    ensures Inv(Next(s, a))
  {
    StepExclusive(s, a);
    StepPoints(s, a);
    StepCovered(s, a, NotEmpty);
    StepCovered(s, a, NotFull);
    StepEvacuated(s, a);
    StepFifo(s, a);
  }

  lemma {:induction false} RunKeepsInv<T>(s: State<T>, run: seq<Action<T>>)
    requires Inv(s) && Legal(s, run)
    ensures Inv(Exec(s, run))
    decreases |run|
  {
    if run != [] {
      StepKeepsInv(s, run[0]);
      RunKeepsInv(Next(s, run[0]), run[1..]);
    }
  }
}
