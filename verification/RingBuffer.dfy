/** The ring buffer behind every message queue (queue_buffer_t in c/src/msg_queue.c):
    a fixed array with head, tail and size, and the FIFO sequence it stands for. */
module RingBuffer {
  /** `|items|` is the capacity; only the `size` slots from `head` on (wrapping) are live. */
  datatype Ring<T> = Ring(items: seq<T>, head: nat, tail: nat, size: nat) {
    function Capacity(): nat { |items| }

    /** What the index arithmetic alone guarantees. */
    predicate Indexed() { head < |items| && tail < |items| }

    /** The full invariant: `head == tail` is disambiguated by `size`. */
    predicate Valid() {
      Indexed() && size <= |items| && tail == (head + size) % |items|
    }

    predicate Full() { size >= |items| }

    /** The live slots, oldest first. */
    function Contents(): (s: seq<T>)
      requires Indexed()
    {
      seq(size, i requires 0 <= i => items[(head + i) % |items|])
    }

    /** Write at tail, advance tail, bump size. */
    function Put(x: T): (r: Ring<T>)
      requires Indexed()
      ensures r.Indexed() && r.Capacity() == Capacity()
    {
      Ring(items[tail := x], head, (tail + 1) % |items|, size + 1)
    }

    /** Read at head. */
    function Front(): T
      requires Indexed()
    {
      items[head]
    }

    /** Advance head, drop size. */
    function Pop(): (r: Ring<T>)
      requires Indexed() && size > 0
      ensures r.Indexed() && r.Capacity() == Capacity()
    {
      Ring(items, (head + 1) % |items|, tail, size - 1)
    }

    function Reset(): (r: Ring<T>)
      requires Indexed()
      ensures r.Valid() && r.Contents() == [] && r.Capacity() == Capacity()
    {
      Ring(items, 0, 0, 0)
    }
  }

  lemma WrapOnce(x: nat, n: nat)
    requires 0 < n && x < 2 * n
    ensures x % n == if x < n then x else x - n
  {
  }

  /** Two live offsets never share a slot. */
  lemma SlotsDiffer(head: nat, i: nat, j: nat, n: nat)
    requires head < n && i < j < n
    ensures (head + i) % n != (head + j) % n
  {
    WrapOnce(head + i, n);
    WrapOnce(head + j, n);
  }

  /** The slot at tail lies outside the live region, so writing there appends. */
  lemma PutAppends<T>(r: Ring<T>, x: T)
    requires r.Valid() && !r.Full()
    ensures r.Put(x).Valid()
    ensures r.Put(x).Contents() == r.Contents() + [x]
  {
    var n := r.Capacity();
    WrapOnce(r.head + r.size, n);
    WrapOnce(r.tail + 1, n);
    WrapOnce(r.head + r.size + 1, n);
    forall i | 0 <= i < r.size ensures r.Put(x).Contents()[i] == r.Contents()[i] {
      SlotsDiffer(r.head, i, r.size, n);
    }
  }

  /** Advancing head removes exactly the oldest item. */
  lemma PopRemoves<T>(r: Ring<T>)
    requires r.Valid() && r.size > 0
    ensures r.Pop().Valid()
    ensures r.Contents() == [r.Front()] + r.Pop().Contents()
  {
    var n := r.Capacity();
    WrapOnce(r.head, n);
    WrapOnce(r.head + 1, n);
    WrapOnce(r.head + r.size, n);
    WrapOnce(r.Pop().head + r.size - 1, n);
    forall i | 0 <= i < r.size - 1 ensures r.Pop().Contents()[i] == r.Contents()[i + 1] {
      WrapOnce(r.head + i + 1, n);
      WrapOnce(r.Pop().head + i, n);
    }
    assert r.Contents()[0] == r.Front();
  }
}
