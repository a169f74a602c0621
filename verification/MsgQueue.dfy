/** msg_queue_t as an object updated in place. A caller runs with the mutex held; what other
    threads do while pthread_cond_wait has released it is an explicit script of turns. */
module MsgQueues {
  import opened Basics
  import opened RingBuffer

  const DEFAULT_CAPACITY := 1024

  /** What one queue looks like from outside. */
  datatype View<T> = View(contents: seq<T>, capacity: nat, shut: bool) {
    predicate Full() { |contents| >= capacity }
  }

  /** One critical section of some other thread. */
  datatype Change<T> = TheyPut(item: T) | TheyTake | TheyClear | TheyShutDown

  function Changed<T>(v: View<T>, c: Change<T>): View<T> {
    match c
    case TheyPut(x) => if v.Full() then v else v.(contents := v.contents + [x])
    case TheyTake => if v.contents == [] then v else v.(contents := v.contents[1..])
    case TheyClear => v.(contents := [])
    case TheyShutDown => v.(shut := true)
  }

  /** Everything that happens during one wait. */
  function AfterTurn<T>(v: View<T>, turn: seq<Change<T>>): (r: View<T>)
    decreases |turn|
  {
    if turn == [] then v else Changed(AfterTurn(v, turn[..|turn| - 1]), turn[|turn| - 1])
  }

  function AfterTurns<T>(v: View<T>, turns: seq<seq<Change<T>>>): (r: View<T>)
    decreases |turns|
  {
    if turns == [] then v else AfterTurn(AfterTurns(v, turns[..|turns| - 1]), turns[|turns| - 1])
  }

  /** `Blocked`: the script ran out while the call was still waiting. */
  datatype Outcome = Accepted | Refused | Blocked

  class MsgQueue<T(0)> {
    const items: array<T>
    var head: nat
    var tail: nat
    var size: nat
    var shuttingDown: bool
    ghost var contents: seq<T>  // the stored items, oldest first

    ghost function Buffer(): Ring<T>
      reads this, items
    {
      Ring(items[..], head, tail, size)
    }

    ghost predicate Valid()
      reads this, items
    {
      Buffer().Valid() && contents == Buffer().Contents()
    }

    ghost function Seen(): View<T>
      reads this
    {
      View(contents, items.Length, shuttingDown)
    }

    /** msg_queue_create: capacity 0 means the default. */
    constructor (capacity: nat)
      ensures Valid() && fresh(items)
      ensures Seen() == View([], if capacity == 0 then 1024 else capacity, false)
    {
      items := new T[if capacity == 0 then DEFAULT_CAPACITY else capacity];
      head, tail, size := 0, 0, 0;
      shuttingDown := false;
      contents := [];
    }

    /** Write at tail and advance it: the common tail of both enqueues. */
    method Append(item: T)
      requires Valid() && size < items.Length
      modifies this, items
      ensures Valid() && Seen() == old(Seen()).(contents := old(contents) + [item])
    {
      PutAppends(Buffer(), item);
      items[tail] := item;
      tail := (tail + 1) % items.Length;
      size := size + 1;
      contents := contents + [item];
      assert Buffer() == old(Buffer()).Put(item);
    }

    method TryEnqueue(item: T) returns (ok: bool)
      requires Valid()
      modifies this, items
      ensures Valid()
      ensures ok == !old(Seen()).Full()
      ensures Seen() == if ok then old(Seen()).(contents := old(contents) + [item]) else old(Seen())
    {
      if size >= items.Length {
        return false;
      }
      Append(item);
      return true;
    }

    method TryDequeue() returns (item: Option<T>)
      requires Valid()
      modifies this, items
      ensures Valid()
      ensures item.None? <==> old(contents) == []
      ensures item.None? ==> Seen() == old(Seen())
      ensures item.Some? ==> old(contents) == [item.value] + contents && Seen() == old(Seen()).(contents := contents)
    {
      if size == 0 {
        return None;
      }
      PopRemoves(Buffer());
      item := Some(items[head]);
      head := (head + 1) % items.Length;
      size := size - 1;
      contents := contents[1..];
      assert Buffer() == old(Buffer()).Pop();
    }

    method Size() returns (n: nat)
      requires Valid()
      ensures n == |contents|
    {
      n := size;
    }

    method Clear()
      requires Valid()
      modifies this, items
      ensures Valid() && Seen() == old(Seen()).(contents := [])
    {
      head, tail, size := 0, 0, 0;
      contents := [];
      assert Buffer() == old(Buffer()).Reset();
    }

    /** One-way, and leaves the stored items alone. */
    method Shutdown()
      requires Valid()
      modifies this, items
      ensures Valid() && Seen() == old(Seen()).(shut := true)
    {
      shuttingDown := true;
      assert Buffer() == old(Buffer());
    }

    /** Other threads' critical sections while this thread is parked. */
    method LetOthersRun(turn: seq<Change<T>>)
      requires Valid()
      modifies this, items
      ensures Valid() && Seen() == AfterTurn(old(Seen()), turn)
    {
      var i := 0;
      while i < |turn|
        invariant 0 <= i <= |turn|
        invariant Valid() && Seen() == AfterTurn(old(Seen()), turn[..i])
      {
        match turn[i] {
          case TheyPut(x) => var _ := TryEnqueue(x);
          case TheyTake => var _ := TryDequeue();
          case TheyClear => Clear();
          case TheyShutDown => Shutdown();
        }
        assert turn[..i + 1][..i] == turn[..i];
        i := i + 1;
      }
      assert turn[..i] == turn;
    }

    /** Blocking enqueue. It waits exactly as long as the queue is full and not shut down; then
        it appends if there is room (shut down or not) and gives up only if there is none. */
    method Enqueue(item: T, turns: seq<seq<Change<T>>>) returns (r: Outcome, waits: nat)
      requires Valid()
      modifies this, items
      ensures Valid() && waits <= |turns|
      ensures forall k | 0 <= k < waits :: var v := AfterTurns(old(Seen()), turns[..k]); v.Full() && !v.shut
      ensures var v := AfterTurns(old(Seen()), turns[..waits]);
              match r
              case Accepted => !v.Full() && Seen() == v.(contents := v.contents + [item])
              case Refused => v.Full() && v.shut && Seen() == v
              case Blocked => v.Full() && !v.shut && Seen() == v && waits == |turns|
    {
      waits := 0;
      while size >= items.Length && !shuttingDown
        invariant Valid() && waits <= |turns|
        invariant Seen() == AfterTurns(old(Seen()), turns[..waits])
        invariant forall k | 0 <= k < waits :: var v := AfterTurns(old(Seen()), turns[..k]); v.Full() && !v.shut
        decreases |turns| - waits
      {
        if waits == |turns| {
          return Blocked, waits;
        }
        LetOthersRun(turns[waits]);
        assert turns[..waits + 1][..waits] == turns[..waits];
        waits := waits + 1;
      }
      if shuttingDown && size >= items.Length {
        return Refused, waits;
      }
      Append(item);
      return Accepted, waits;
    }

    /** Blocking dequeue. It waits exactly as long as the queue is empty and not shut down;
        a shut-down queue keeps handing out what it holds. */
    method Dequeue(turns: seq<seq<Change<T>>>) returns (r: Outcome, item: Option<T>, waits: nat)
      requires Valid()
      modifies this, items
      ensures Valid() && waits <= |turns|
      ensures forall k | 0 <= k < waits :: var v := AfterTurns(old(Seen()), turns[..k]); v.contents == [] && !v.shut
      ensures var v := AfterTurns(old(Seen()), turns[..waits]);
              match r
              case Accepted => item.Some? && v.contents == [item.value] + contents && Seen() == v.(contents := contents)
              case Refused => item.None? && v.contents == [] && v.shut && Seen() == v
              case Blocked => item.None? && v.contents == [] && !v.shut && Seen() == v && waits == |turns|
    {
      waits := 0;
      item := None;
      while size == 0 && !shuttingDown
        invariant Valid() && waits <= |turns|
        invariant Seen() == AfterTurns(old(Seen()), turns[..waits])
        invariant forall k | 0 <= k < waits :: var v := AfterTurns(old(Seen()), turns[..k]); v.contents == [] && !v.shut
        decreases |turns| - waits
      {
        if waits == |turns| {
          return Blocked, None, waits;
        }
        LetOthersRun(turns[waits]);
        assert turns[..waits + 1][..waits] == turns[..waits];
        waits := waits + 1;
      }
      if size == 0 {
        return Refused, None, waits;
      }
      item := TryDequeue();
      return Accepted, item, waits;
    }
  }
}
