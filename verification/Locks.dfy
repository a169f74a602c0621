/** Every mutex of the program and every place a thread can be while it wants or holds one:
    the queue operations, publish (registry, then one queue at a time), subscribe and
    unsubscribe, next_sequence, the interval control and the logger. Any number of threads, any
    sequence of operations. */
module Locks {
  import opened Basics

  type Tid = nat

  datatype Lock = RegistryLock | QueueLock(q: nat) | SequenceLock | ControlLock | LogLock

  datatype Pc =
    | WantPlain(l: Lock)                    // lock of subscribe/unsubscribe, sequence, control or log
    | HoldPlain(l: Lock)
    | WantQueue(q: nat)                     // at pthread_mutex_lock of a queue operation
    | HoldQueue(q: nat)
    | Parked(q: nat)                        // in pthread_cond_wait: the mutex is released
    | Woken(q: nat)                         // wants the mutex back before returning from the wait
    | WantPublish                           // publish, before the registry lock
    | Publishing(todo: seq<nat>)            // holds the registry, queues still to visit
    | WantDeliver(q: nat, todo: seq<nat>)   // holds the registry, wants a subscriber's mutex
    | Delivering(q: nat, todo: seq<nat>)    // holds both

  /** A thread absent from `pcs` is outside every critical section. */
  datatype State = State(pcs: map<Tid, Pc>, owner: map<Lock, Tid>)

  function Held(pc: Pc): set<Lock> {
    match pc
    case HoldPlain(l) => {l}
    case HoldQueue(q) => {QueueLock(q)}
    case Publishing(_) => {RegistryLock}
    case WantDeliver(_, _) => {RegistryLock}
    case Delivering(q, _) => {RegistryLock, QueueLock(q)}
    case _ => {}
  }

  function Wanted(pc: Pc): Option<Lock> {
    match pc
    case WantPlain(l) => Some(l)
    case WantQueue(q) => Some(QueueLock(q))
    case Woken(q) => Some(QueueLock(q))
    case WantPublish => Some(RegistryLock)
    case WantDeliver(q, _) => Some(QueueLock(q))
    case _ => None
  }

  datatype Action =
    | Begin(t: Tid, pc: Pc)               // call an operation
    | Obtain(t: Tid, todo: seq<nat>)      // the wanted mutex is free: take it
    | Wait(t: Tid)                        // pthread_cond_wait releases the queue mutex
    | Wake(t: Tid)                        // signal, broadcast or spurious
    | Advance(t: Tid)                     // unlock, or turn to the next subscriber

  predicate Entry(pc: Pc) { (pc.WantPlain? && !pc.l.QueueLock?) || pc.WantQueue? || pc.WantPublish? }

  predicate Enabled(s: State, a: Action) {
    if a.Begin? then a.t !in s.pcs && Entry(a.pc)
    else a.t in s.pcs && (match a
      case Obtain(t, _) => Wanted(s.pcs[t]).Some? && Wanted(s.pcs[t]).value !in s.owner
      case Wait(t) => s.pcs[t].HoldQueue?
      case Wake(t) => s.pcs[t].Parked?
      case Advance(t) => s.pcs[t].HoldPlain? || s.pcs[t].HoldQueue? || s.pcs[t].Publishing? || s.pcs[t].Delivering?
      case _ => false)
  }

  function Obtained(pc: Pc, todo: seq<nat>): Pc
    requires Wanted(pc).Some?
  {
    match pc
    case WantPlain(l) => HoldPlain(l)
    case WantQueue(q) => HoldQueue(q)
    case Woken(q) => HoldQueue(q)
    case WantPublish => Publishing(todo)
    case WantDeliver(q, rest) => Delivering(q, rest)
  }

  function Next(s: State, a: Action): State
    requires Enabled(s, a)
  {
    match a
    case Begin(t, pc) => s.(pcs := s.pcs[t := pc])
    case Obtain(t, todo) =>
      State(s.pcs[t := Obtained(s.pcs[t], todo)], s.owner[Wanted(s.pcs[t]).value := t])
    case Wait(t) => State(s.pcs[t := Parked(s.pcs[t].q)], s.owner - {QueueLock(s.pcs[t].q)})
    case Wake(t) => s.(pcs := s.pcs[t := Woken(s.pcs[t].q)])
    case Advance(t) =>
      (match s.pcs[t]
       case HoldPlain(l) => State(s.pcs - {t}, s.owner - {l})
       case HoldQueue(q) => State(s.pcs - {t}, s.owner - {QueueLock(q)})
       case Publishing(todo) =>
         if todo == [] then State(s.pcs - {t}, s.owner - {RegistryLock})
         else s.(pcs := s.pcs[t := WantDeliver(todo[0], todo[1..])])
       case Delivering(q, todo) => State(s.pcs[t := Publishing(todo)], s.owner - {QueueLock(q)})
       case _ => s)
  }

  predicate Init(s: State) { s.pcs == map[] && s.owner == map[] }

  predicate Legal(s: State, run: seq<Action>)
    decreases |run|
  {
    run == [] || (Enabled(s, run[0]) && Legal(Next(s, run[0]), run[1..]))
  }

  function Exec(s: State, run: seq<Action>): State
    requires Legal(s, run)
    decreases |run|
  {
    if run == [] then s else Exec(Next(s, run[0]), run[1..])
  }

  // ---------------------------------------------------------------- invariant

  /** The owner map and the program points agree. */
  ghost predicate Inv(s: State) {
    && (forall l | l in s.owner :: s.owner[l] in s.pcs && l in Held(s.pcs[s.owner[l]]))
    && (forall t, l | t in s.pcs && l in Held(s.pcs[t]) :: l in s.owner && s.owner[l] == t)
    && (forall t | t in s.pcs && (s.pcs[t].WantPlain? || s.pcs[t].HoldPlain?) :: !s.pcs[t].l.QueueLock?)
  }

  lemma StepOwner(s: State, a: Action, l: Lock)
    requires Inv(s) && Enabled(s, a) && l in Next(s, a).owner
    ensures var s' := Next(s, a); s'.owner[l] in s'.pcs && l in Held(s'.pcs[s'.owner[l]])
  {
    if l in s.owner { assert l in Held(s.pcs[s.owner[l]]); }
  }

  lemma StepHeld(s: State, a: Action, t: Tid, l: Lock)
    requires Inv(s) && Enabled(s, a) && t in Next(s, a).pcs && l in Held(Next(s, a).pcs[t])
    ensures l in Next(s, a).owner && Next(s, a).owner[l] == t
  {
    if t in s.pcs && l in Held(s.pcs[t]) { assert s.owner[l] == t; }
  }

  lemma StepInv(s: State, a: Action)
    requires Inv(s) && Enabled(s, a)
    ensures Inv(Next(s, a))
  {
    var s' := Next(s, a);
    forall l | l in s'.owner ensures s'.owner[l] in s'.pcs && l in Held(s'.pcs[s'.owner[l]]) { StepOwner(s, a, l); }
    forall t, l | t in s'.pcs && l in Held(s'.pcs[t])
      ensures l in s'.owner && s'.owner[l] == t
    {
      StepHeld(s, a, t, l);
    }
    forall t | t in s'.pcs && (s'.pcs[t].WantPlain? || s'.pcs[t].HoldPlain?) ensures !s'.pcs[t].l.QueueLock? {
      if t in s.pcs { assert s.pcs[t].WantPlain? || s.pcs[t].HoldPlain? ==> !s.pcs[t].l.QueueLock?; }
    }
    hide Held;
  }

  lemma {:induction false} RunInv(s: State, run: seq<Action>)
    requires Inv(s) && Legal(s, run)
    ensures Inv(Exec(s, run))
    decreases |run|
  {
    if run != [] {
      StepInv(s, run[0]);
      RunInv(Next(s, run[0]), run[1..]);
    }
  }

  // ---------------------------------------------------------------- lock order

  /** Registry before queue; the others are only ever taken alone. */
  function Rank(l: Lock): nat { if l.RegistryLock? then 0 else 1 }

  /** A thread only ever wants a lock of higher rank than all it holds, and a thread asleep on a
      condition variable holds nothing. */
  lemma OrderedAcquisition(pc: Pc)
    ensures Wanted(pc).Some? ==> forall h | h in Held(pc) :: Rank(h) < Rank(Wanted(pc).value)
    ensures pc.Parked? ==> Held(pc) == {}
  {
  }

  /** `t` is stuck at a mutex that `u` owns. */
  predicate BlockedOn(s: State, t: Tid, u: Tid) {
    t in s.pcs && Wanted(s.pcs[t]).Some? && Wanted(s.pcs[t]).value in s.owner && s.owner[Wanted(s.pcs[t]).value] == u
  }

  /** Each thread of the chain is stuck at a mutex owned by the next one. */
  ghost predicate Chain(s: State, c: seq<Tid>) {
    |c| >= 2 && forall i | 0 <= i < |c| - 1 :: BlockedOn(s, c[i], c[i + 1])
  }

  function Level(s: State, t: Tid): int {
    if t in s.pcs && Wanted(s.pcs[t]).Some? then Rank(Wanted(s.pcs[t]).value) else -1
  }

  /** The owner of what `t` wants holds that lock, so it can only be stuck at a higher one. */
  lemma NextWantsMore(s: State, t: Tid, u: Tid, v: Tid)
    requires Inv(s) && BlockedOn(s, t, u) && BlockedOn(s, u, v)
    ensures Level(s, u) > Level(s, t)
  {
    assert Wanted(s.pcs[t]).value in Held(s.pcs[u]);
    OrderedAcquisition(s.pcs[u]);
  }

  lemma {:induction false} ChainClimbs(s: State, c: seq<Tid>, i: nat)
    requires Inv(s) && Chain(s, c) && i <= |c| - 2
    ensures Level(s, c[i]) >= Level(s, c[0]) + i
  {
    hide Inv, BlockedOn, Level;
    if i > 0 {
      ChainClimbs(s, c, i - 1);
      assert BlockedOn(s, c[i - 1], c[i]) && BlockedOn(s, c[i], c[i + 1]);
      NextWantsMore(s, c[i - 1], c[i], c[i + 1]);
    }
  }

  /** No deadlock: no reachable state has threads waiting for each other's mutexes in a circle. */
  lemma NoLockCycle(s0: State, run: seq<Action>, c: seq<Tid>)
    requires Init(s0) && Legal(s0, run) && Chain(Exec(s0, run), c)
    ensures c[0] != c[|c| - 1]
  {
    hide Inv, BlockedOn, Level;
    RunInv(s0, run) by { assert Inv(s0) by { InitInv(s0); } }
    var s, n := Exec(s0, run), |c|;
    if c[0] == c[n - 1] {
      assert BlockedOn(s, c[n - 2], c[n - 1]) && BlockedOn(s, c[0], c[1]);
      ChainClimbs(s, c, n - 2);
      NextWantsMore(s, c[n - 2], c[0], c[1]);
    }
  }

  lemma InitInv(s: State)
    requires Init(s)
    ensures Inv(s)
  {
  }

  /** Whoever is blocked, somebody holding a lock can run: the owner of the mutex, or the owner
      of the queue mutex that owner is waiting for. */
  lemma SomeHolderCanRun(s0: State, run: seq<Action>, t: Tid, u: Tid)
    requires Init(s0) && Legal(s0, run) && BlockedOn(Exec(s0, run), t, u)
    ensures var s := Exec(s0, run);
            exists v | v in s.pcs :: Held(s.pcs[v]) != {} && (v == u || BlockedOn(s, u, v))
                                     && (Enabled(s, Advance(v)) || Enabled(s, Obtain(v, [])))
  {
    RunInv(s0, run);
    var s := Exec(s0, run);
    assert Wanted(s.pcs[t]).value in Held(s.pcs[u]);
    if s.pcs[u].WantDeliver? {
      var l := Wanted(s.pcs[u]).value;
      if l in s.owner {
        var v := s.owner[l];
        assert l in Held(s.pcs[v]);
        assert Enabled(s, Advance(v)) && BlockedOn(s, u, v);
      } else {
        assert Enabled(s, Obtain(u, []));
      }
    } else {
      assert Enabled(s, Advance(u));
    }
  }
}
