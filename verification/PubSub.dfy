/** pubsub_context as an object over fixed arrays, its methods proved against the registry
    functions, and the fan-out loop over real queue objects. */
module PubSub {
  import opened Basics
  import opened MsgQueues
  import opened Registry
  import opened Messages

  /** A malloc'ed payload: filled once, before it is handed on, and never written again. */
  class Payload {
    const bytes: seq<bv8>

    constructor (bytes: seq<bv8>)
      ensures this.bytes == bytes
    {
      this.bytes := bytes;
    }
  }

  /** malloc and free: which payloads are allocated. */
  class Heap {
    var live: set<Payload>

    constructor ()
      ensures live == {}
    {
      live := {};
    }

    method Malloc(bytes: seq<bv8>) returns (p: Payload)
      modifies this
      ensures fresh(p) && p.bytes == bytes && live == old(live) + {p}
    {
      p := new Payload(bytes);
      live := live + {p};
    }

    method Free(p: Payload)
      requires p in live
      modifies this
      ensures live == old(live) - {p}
    {
      live := live - {p};
    }
  }

  /** msg_item_t: the payload is a heap buffer that the item owns. */
  datatype Item = Item(id: nat, kind: MsgType, payload: Payload?, length: nat)

  type Queue = MsgQueue<Item>
  type MaybeQueue = MsgQueue?<Item>

  /** publish duplicates the payload only under this test. */
  predicate NeedsClone(item: Item) { item.payload != null && item.length > 0 }

  /** `c` is what a subscriber receives: the same header and an equal buffer of its own. */
  ghost predicate DeepCopy(item: Item, c: Item) {
    && c.id == item.id && c.kind == item.kind && c.length == item.length
    && if NeedsClone(item)
       then c.payload != null && c.payload != item.payload && item.length <= |item.payload.bytes|
            && c.payload.bytes == item.payload.bytes[..item.length]
       else c.payload == item.payload
  }

  /** Distinct objects with distinct buffers. */
  ghost predicate Apart(qs: seq<Queue>) {
    forall j, k | 0 <= j < k < |qs| :: qs[j] != qs[k] && qs[j].items != qs[k].items
  }

  ghost predicate Separate(qs: seq<Queue>)
    reads qs, set q | q in qs :: q.items
  {
    Apart(qs) && forall j | 0 <= j < |qs| :: qs[j].Valid()
  }

  lemma OthersApart(qs: seq<Queue>, i: nat)
    requires Apart(qs) && i < |qs|
    ensures forall j | 0 <= j < |qs| && j != i :: qs[j] != qs[i] && qs[j].items != qs[i].items
  {
  }

  /** The subscribers of the first entry called `topic`. */
  ghost function Subscribers(es: seq<Entry<Queue>>, topic: string): seq<Queue> {
    var i := Find(es, topic); if i < |es| then es[i].subs else []
  }

  /** What publishing does to one subscriber's queue: served if and only if it had room (and
      malloc had memory for a copy); then exactly that copy was appended, otherwise nothing
      changed. */
  ghost predicate Given(before: View<Item>, after: View<Item>, item: Item, hasMemory: bool, c: Option<Item>) {
    && (c.Some? <==> !before.Full() && (NeedsClone(item) ==> hasMemory))
    && (c.Some? ==> DeepCopy(item, c.value))
    && after == if c.Some? then before.(contents := before.contents + [c.value]) else before
  }

  /** The buffer publish allocated for a subscriber that was served. */
  ghost function Owned(item: Item, c: Option<Item>): set<Payload> {
    if NeedsClone(item) && c.Some? && c.value.payload != null then {c.value.payload} else {}
  }

  /** malloc + memcpy of the payload, when there is one. */
  method Duplicate(heap: Heap, item: Item, hasMemory: bool) returns (c: Option<Item>)
    requires item.payload != null ==> item.length <= |item.payload.bytes|
    modifies heap
    ensures c.Some? <==> (NeedsClone(item) ==> hasMemory)
    ensures c.Some? ==> DeepCopy(item, c.value)
    ensures heap.live == old(heap.live) + Owned(item, c) && fresh(Owned(item, c)) && Owned(item, c) !! old(heap.live)
  {
    if !(item.payload != null && item.length > 0) {
      return Some(item);
    }
    if !hasMemory {
      return None;
    }
    var copy := heap.Malloc(item.payload.bytes[..item.length]);
    return Some(item.(payload := copy));
  }

  /** One turn of the fan-out loop: clone, try to enqueue, free the clone if the queue is full.
      What stays allocated is exactly the buffer handed to the subscriber. */
  method Offer(heap: Heap, q: Queue, item: Item, memory: set<Queue>) returns (c: Option<Item>)
    requires q.Valid() && (item.payload != null ==> item.length <= |item.payload.bytes|)
    modifies heap, q, q.items
    ensures q.Valid() && Given(old(q.Seen()), q.Seen(), item, q in memory, c)
    ensures heap.live == old(heap.live) + Owned(item, c) && fresh(Owned(item, c)) && Owned(item, c) !! old(heap.live)
  {
    c := Duplicate(heap, item, q in memory);
    if c.Some? {
      var ok := q.TryEnqueue(c.value);
      if !ok {
        if c.value.payload != item.payload {
          heap.Free(c.value.payload);
        }
        c := None;
      }
    }
  }

  class Context {
    const names: array<string>
    const counts: array<nat>
    const subscribers: array2<MaybeQueue>
    var topicCount: nat
    ghost var entries: seq<Entry<Queue>>  // the registry these arrays hold

    /** Row `i` of the arrays is the entry `e`. */
    ghost predicate Holds(i: nat, e: Entry<Queue>)
      requires names.Length == counts.Length == subscribers.Length0 == MAX_TOPICS
      requires subscribers.Length1 == MAX_SUBSCRIBERS && i < MAX_TOPICS
      reads names, counts, subscribers
    {
      && names[i] == e.name
      && counts[i] == |e.subs| <= MAX_SUBSCRIBERS
      && forall j | 0 <= j < |e.subs| :: subscribers[i, j] == e.subs[j]
    }

    ghost predicate Valid()
      reads this, names, counts, subscribers
    {
      && names.Length == counts.Length == subscribers.Length0 == MAX_TOPICS
      && subscribers.Length1 == MAX_SUBSCRIBERS
      && topicCount == |entries|
      && Sound(entries)
      && forall i | 0 <= i < |entries| :: Holds(i, entries[i])
    }

    /** pubsub_create */
    constructor ()
      ensures Valid() && entries == []
      ensures fresh(names) && fresh(counts) && fresh(subscribers)
    {
      names := new string[MAX_TOPICS](_ => "");
      counts := new nat[MAX_TOPICS](_ => 0);
      subscribers := new MaybeQueue[MAX_TOPICS, MAX_SUBSCRIBERS]((_, _) => null);
      topicCount := 0;
      entries := [];
    }

    method FindTopic(topic: string) returns (i: nat)
      requires Valid()
      ensures i == Find(entries, topic)
    {
      i := 0;
      while i < topicCount
        invariant 0 <= i <= topicCount
        invariant forall j | 0 <= j < i :: entries[j].name != topic
      {
        assert Holds(i, entries[i]);
        if names[i] == topic {
          FindIs(entries, topic, i);
          return;
        }
        i := i + 1;
      }
      FindIs(entries, topic, i);
    }

    /** Returns the entry's index, or the (full) count if no slot was left. */
    method FindOrCreateTopic(topic: string) returns (i: nat)
      requires Valid()
      modifies this, names, counts
      ensures Valid() && i == Find(old(entries), topic) && topicCount <= MAX_TOPICS
      ensures entries == Created(old(entries), topic)
    {
      i := FindTopic(topic);
      if i < topicCount || topicCount >= MAX_TOPICS {
        return;
      }
      names[i] := if |topic| < TOPIC_NAME_MAX then topic else topic[..TOPIC_NAME_MAX - 1];
      counts[i] := 0;
      topicCount := topicCount + 1;
      entries := entries + [Entry(Truncate(topic), [])];
      forall k | 0 <= k < |entries| ensures Holds(k, entries[k]) {
        assert k < i ==> old(Holds(k, entries[k]));
      }
    }

    /** First position of `queue` in row `i`, or the count. */
    method FindSubscriber(i: nat, queue: Queue) returns (k: nat)
      requires Valid() && i < topicCount
      ensures k <= |entries[i].subs|
      ensures k == |entries[i].subs| <==> queue !in entries[i].subs
      ensures queue in entries[i].subs ==> k == IndexOf(entries[i].subs, queue)
    {
      assert Holds(i, entries[i]);
      k := 0;
      while k < counts[i]
        invariant 0 <= k <= counts[i] && queue !in entries[i].subs[..k]
      {
        if subscribers[i, k] == queue {
          return;
        }
        k := k + 1;
      }
    }

    /** pubsub_subscribe: 0 on success, -1 otherwise, exactly as on the list of entries. */
    method Subscribe(topic: Option<string>, queue: MaybeQueue) returns (rc: int)
      requires Valid()
      modifies this, names, counts, subscribers
      ensures Valid()
      ensures if topic.None? || queue == null then rc == -1 && entries == old(entries)
              else (rc, entries) == Subscribed(old(entries), topic.value, queue)
    {
      if topic.None? || queue == null || |topic.value| >= TOPIC_NAME_MAX {
        return -1;
      }
      SubscribeSound<Queue>(entries, topic.value, queue);
      var i := FindOrCreateTopic(topic.value);
      if i >= topicCount {
        return -1;
      }
      assert Holds(i, entries[i]);
      var k := FindSubscriber(i, queue);
      if k < counts[i] {
        return 0;
      }
      if counts[i] >= MAX_SUBSCRIBERS {
        return -1;
      }
      label L:
      subscribers[i, counts[i]] := queue;
      counts[i] := counts[i] + 1;
      entries := entries[i := Entry(entries[i].name, entries[i].subs + [queue])];
      forall k | 0 <= k < |entries| ensures Holds(k, entries[k]) {
        assert old@L(Holds(k, entries[k]));
      }
      return 0;
    }

    /** pubsub_unsubscribe: swaps the last subscriber into the hole. */
    method Unsubscribe(topic: Option<string>, queue: MaybeQueue) returns (rc: int)
      requires Valid()
      modifies this, counts, subscribers
      ensures Valid()
      ensures if topic.None? || queue == null then rc == -1 && entries == old(entries)
              else (rc, entries) == Unsubscribed(old(entries), topic.value, queue)
    {
      if topic.None? || queue == null {
        return -1;
      }
      hide Sound, NoDuplicates;
      UnsubscribeSound<Queue>(entries, topic.value, queue);
      var i := FindTopic(topic.value);
      if i >= topicCount {
        return -1;
      }
      assert Holds(i, entries[i]);
      var k := FindSubscriber(i, queue);
      if k >= counts[i] {
        return -1;
      }
      subscribers[i, k] := subscribers[i, counts[i] - 1];
      counts[i] := counts[i] - 1;
      entries := entries[i := Entry(entries[i].name, SwapRemove(entries[i].subs, k))];
      forall n | 0 <= n < |entries| ensures Holds(n, entries[n]) {
        assert old(Holds(n, entries[n]));
      }
      return 0;
    }

    /** pubsub_publish. `memory` is the set of subscribers for which malloc would succeed, and
        `copies[j]` what subscriber `j` was given. Every subscriber that has room (and memory)
        gets one private equal copy at its end; every other queue, subscribed or not, keeps its
        state; the result counts the former; and what publish leaves allocated is exactly their
        copies. */
    method Publish(heap: Heap, topic: Option<string>, item: Option<Item>, memory: set<Queue>)
      returns (delivered: int, ghost copies: seq<Option<Item>>)
      requires Valid()
      requires item.Some? && item.value.payload != null ==> item.value.length <= |item.value.payload.bytes|
      requires topic.Some? ==> Separate(Subscribers(entries, topic.value))
      modifies this, names, counts, heap
      modifies if topic.Some? then Subscribers(entries, topic.value) else []
      modifies if topic.Some? then set q | q in Subscribers(entries, topic.value) :: q.items else {}
      ensures Valid()
      ensures topic.None? || item.None? ==> delivered == -1 && entries == old(entries) && heap.live == old(heap.live)
      ensures topic.Some? && item.Some? ==>
        var subs := old(Subscribers(entries, topic.value));
        && entries == Created(old(entries), topic.value) && Separate(subs)
        && |copies| == |subs| && delivered == |old(Reachable(subs, item.value, memory))|
        && (forall j | 0 <= j < |subs| ::
              Given(old(subs[j].Seen()), subs[j].Seen(), item.value, subs[j] in memory, copies[j]))
        && Ledger(old(heap.live), heap.live, item.value, copies) && fresh(heap.live - old(heap.live))
    {
      hide MsgQueue.Valid, Sound, Ledger, Given;
      copies := [];
      if topic.None? || item.None? {
        return -1, copies;
      }
      ghost var subs := Subscribers(entries, topic.value);
      var e := FindOrCreateTopic(topic.value);
      if e >= topicCount {
        LedgerStart(heap.live, item.value);
        return 0, copies;
      }
      assert entries[e].subs == subs && Holds(e, entries[e]);
      delivered, copies := FanOut(heap, subscribers, e, counts[e], subs, item.value, memory);
    }

    /** A publish among queues that are all usable leaves them so. */
    method PublishAmong(heap: Heap, topic: string, item: Item, memory: set<Queue>, ghost all: set<Queue>)
      requires Valid() && Known(entries, all) && Usable(all)
      requires item.payload != null ==> item.length <= |item.payload.bytes|
      modifies this, names, counts, heap, all, set q | q in all :: q.items
      ensures Valid() && Usable(all) && entries == Created(old(entries), topic)
    {
      SubscribersSeparate(entries, topic, all);
      hide Valid, MsgQueue.Valid, Created, Subscribers, Given, Ledger, Known, Apart;
      ghost var subs := Subscribers(entries, topic);
      var delivered, copies := Publish(heap, Some(topic), Some(item), memory);
      forall q | q in all ensures q.Valid() {
        if q in subs {
          var j :| 0 <= j < |subs| && subs[j] == q;
        }
      }
    }

    /** One request, whichever it is; for a publish `item` is what is published. */
    method Handle(heap: Heap, r: Request<Queue>, item: Item, memory: set<Queue>, ghost all: set<Queue>)
      returns (rc: int)
      requires Valid() && Known(entries, all) && AsksFor(r, all)
      requires Usable(all) && (item.payload != null ==> item.length <= |item.payload.bytes|)
      modifies this, names, counts, subscribers, heap, all, set q | q in all :: q.items
      ensures Valid() && Known(entries, all) && Usable(all)
      ensures (rc, entries) == Serve(old(entries), r)
    {
      ServedKnown(entries, r, all);
      hide Valid, MsgQueue.Valid, Subscribed, Unsubscribed, Created, Known, AsksFor, Usable;
      match r {
        case Subscribe(t, q) => rc := Subscribe(Some(t), q);
        case Unsubscribe(t, q) => rc := Unsubscribe(Some(t), q);
        case Publish(t) =>
          PublishAmong(heap, t, item, memory, all);
          rc := 0;
      }
    }

    /** Any sequence of requests on the arrays gives the return codes and the final subscriptions of
        the same sequence on a plain map from topics to sets of queues. */
    method HandleAll(heap: Heap, rs: seq<Request<Queue>>, item: Item, memory: set<Queue>, ghost all: set<Queue>)
      returns (codes: seq<int>)
      requires Valid() && Proper(entries) && Known(entries, all) && Usable(all)
      requires forall i | 0 <= i < |rs| :: ShortTopic(rs[i]) && AsksFor(rs[i], all)
      requires item.payload != null ==> item.length <= |item.payload.bytes|
      modifies this, names, counts, subscribers, heap, all, set q | q in all :: q.items
      ensures Valid() && Proper(entries)
      ensures (codes, Abs(entries)) == ServeAllMap(old(Abs(entries)), rs)
    {
      hide Valid, MsgQueue.Valid, Usable, Known, AsksFor, Serve, ServeMap, Abs, Proper, ServeAllMap, ShortTopic;
      codes := [];
      ghost var start := Abs(entries);
      assert rs[0..] == rs;
      NothingDone(start, rs);
      for i := 0 to |rs|
        invariant Valid() && Proper(entries) && Known(entries, all) && Usable(all)
        invariant ServeAllMap(start, rs) == DoneBefore(codes, ServeAllMap(Abs(entries), rs[i..]))
      {
        RequestRefines(entries, rs[i]);
        OneDone(codes, Abs(entries), rs[i..]);
        var rc := Handle(heap, rs[i], item, memory, all);
        codes := codes + [rc];
        assert rs[i..][1..] == rs[i + 1..] && rs[i..][0] == rs[i];
      }
      assert rs[|rs|..] == [];
      AllDone(codes, Abs(entries));
    }
  }

  // ---------------------------------------------------------------- the queues requests are about

  ghost predicate Known(es: seq<Entry<Queue>>, all: set<Queue>) {
    forall i, q | 0 <= i < |es| && q in es[i].subs :: q in all
  }

  ghost predicate AsksFor(r: Request<Queue>, all: set<Queue>) { !r.Publish? ==> r.q in all }

  /** Valid queues that share no buffer. */
  ghost predicate Usable(all: set<Queue>)
    reads all, set q | q in all :: q.items
  {
    (forall q | q in all :: q.Valid()) && forall p, q | p in all && q in all && p != q :: p.items != q.items
  }

  lemma ServedKnown(es: seq<Entry<Queue>>, r: Request<Queue>, all: set<Queue>)
    requires Known(es, all) && AsksFor(r, all) && Sound(es)
    ensures Known(Serve(es, r).1, all)
  {
    match r
    case Subscribe(t, q) =>
    case Unsubscribe(t, q) =>
      var i := Find(es, t);
      if i < |es| && q in es[i].subs { SwapRemoveExact(es[i].subs, IndexOf(es[i].subs, q)); }
    case Publish(t) =>
  }

  lemma SubscribersSeparate(es: seq<Entry<Queue>>, t: string, all: set<Queue>)
    requires Known(es, all) && Sound(es) && Usable(all)
    ensures Separate(Subscribers(es, t)) && forall q | q in Subscribers(es, t) :: q in all
  {
    hide MsgQueue.Valid;
  }

  function DoneBefore<Q>(codes: seq<int>, rest: (seq<int>, Topics<Q>)): (seq<int>, Topics<Q>) {
    (codes + rest.0, rest.1)
  }

  lemma NothingDone<Q>(m: Topics<Q>, rs: seq<Request<Q>>)
    ensures ServeAllMap(m, rs) == DoneBefore([], ServeAllMap(m, rs))
  {
    assert [] + ServeAllMap(m, rs).0 == ServeAllMap(m, rs).0;
  }

  lemma OneDone<Q>(codes: seq<int>, m: Topics<Q>, rs: seq<Request<Q>>)
    requires rs != []
    ensures var (rc, m1) := ServeMap(m, rs[0]);
            DoneBefore(codes, ServeAllMap(m, rs)) == DoneBefore(codes + [rc], ServeAllMap(m1, rs[1..]))
  {
    hide ServeMap;
    var (rc, m1) := ServeMap(m, rs[0]);
    var rest := ServeAllMap(m1, rs[1..]).0;
    assert codes + ([rc] + rest) == codes + [rc] + rest;
  }

  lemma AllDone<Q>(codes: seq<int>, m: Topics<Q>)
    ensures DoneBefore(codes, ServeAllMap(m, [])) == (codes, m)
  {
    assert codes + [] == codes;
  }

  ghost function CountSome<T>(s: seq<Option<T>>): nat {
    if s == [] then 0 else CountSome(s[..|s| - 1]) + if s[|s| - 1].Some? then 1 else 0
  }

  /** Everybody served was handed a buffer, no two of them the same. */
  ghost predicate Private(item: Item, copies: seq<Option<Item>>) {
    NeedsClone(item) ==>
      && (forall i | 0 <= i < |copies| && copies[i].Some? :: copies[i].value.payload != null)
      && forall i, j | 0 <= i < j < |copies| && copies[i].Some? && copies[j].Some? ::
           copies[i].value.payload != copies[j].value.payload
  }

  ghost function AllOwned(item: Item, copies: seq<Option<Item>>): set<Payload> {
    if copies == [] then {} else AllOwned(item, copies[..|copies| - 1]) + Owned(item, copies[|copies| - 1])
  }

  lemma {:induction false} OwnedIsIn(item: Item, copies: seq<Option<Item>>, i: nat)
    requires i < |copies|
    ensures Owned(item, copies[i]) <= AllOwned(item, copies)
    decreases |copies|
  {
    hide Owned;
    if i < |copies| - 1 { OwnedIsIn(item, copies[..|copies| - 1], i); }
  }

  lemma GivenCopy(before: View<Item>, after: View<Item>, item: Item, hasMemory: bool, c: Option<Item>)
    requires Given(before, after, item, hasMemory, c)
    ensures c.Some? <==> !before.Full() && (NeedsClone(item) ==> hasMemory)
    ensures NeedsClone(item) && c.Some? ==> c.value.payload != null
  {
  }

  /** What the fan-out leaves allocated beyond `before`: one buffer of its own for everybody served. */
  ghost predicate Ledger(before: set<Payload>, live: set<Payload>, item: Item, copies: seq<Option<Item>>) {
    Private(item, copies) && live == before + AllOwned(item, copies)
  }

  lemma LedgerStart(live: set<Payload>, item: Item)
    ensures Ledger(live, live, item, [])
  {
  }

  /** A clone that was not allocated before is nobody else's. */
  lemma LedgerStep(before: set<Payload>, live: set<Payload>, item: Item, copies: seq<Option<Item>>, c: Option<Item>)
    requires Ledger(before, live, item, copies) && Owned(item, c) !! live
    requires NeedsClone(item) && c.Some? ==> c.value.payload != null
    ensures Ledger(before, live + Owned(item, c), item, copies + [c])
  {
    assert (copies + [c])[..|copies|] == copies;
    forall i | 0 <= i < |copies| ensures Owned(item, copies[i]) <= AllOwned(item, copies) {
      OwnedIsIn(item, copies, i);
    }
    if NeedsClone(item) {
      forall i | 0 <= i < |copies| && copies[i].Some? && c.Some?
        ensures copies[i].value.payload != c.value.payload
      {
        assert copies[i].value.payload in Owned(item, copies[i]);
      }
    }
  }

  /** The queues publish can serve: a matter of each queue alone, whatever the order of the list. */
  ghost function Reachable(subs: seq<Queue>, item: Item, memory: set<Queue>): set<Queue>
    reads subs
  {
    set q | q in subs && !q.Seen().Full() && (NeedsClone(item) ==> q in memory)
  }

  lemma {:induction false} CountIsSize<T>(copies: seq<Option<T>>, subs: seq<Queue>, served: set<Queue>)
    requires |copies| == |subs| && (forall j, k | 0 <= j < k < |subs| :: subs[j] != subs[k])
    requires served <= (set q | q in subs) && forall j | 0 <= j < |subs| :: copies[j].Some? <==> subs[j] in served
    ensures CountSome(copies) == |served|
    decreases |copies|
  {
    if copies != [] {
      var n := |copies| - 1;
      forall q | q in served - {subs[n]} ensures q in subs[..n] {
        var j :| 0 <= j < |subs| && subs[j] == q;
        assert subs[..n][j] == q;
      }
      CountIsSize(copies[..n], subs[..n], served - {subs[n]});
    }
  }

  /** The fan-out loop over row `e` of the subscriber table. */
  method FanOutLoop(
      heap: Heap, table: array2<MaybeQueue>, e: nat, n: nat, ghost subs: seq<Queue>, item: Item, memory: set<Queue>)
    returns (delivered: int, ghost copies: seq<Option<Item>>)
    requires e < table.Length0 && n == |subs| <= table.Length1
    requires forall j | 0 <= j < n :: table[e, j] == subs[j]
    requires Separate(subs)
    requires item.payload != null ==> item.length <= |item.payload.bytes|
    modifies heap, subs, set q | q in subs :: q.items
    ensures Separate(subs) && |copies| == |subs| && delivered == CountSome(copies)
    ensures forall j | 0 <= j < |subs| ::
              Given(old(subs[j].Seen()), subs[j].Seen(), item, subs[j] in memory, copies[j])
    ensures Ledger(old(heap.live), heap.live, item, copies) && fresh(heap.live - old(heap.live))
  {
    hide MsgQueue.Valid, Ledger, Given, Apart, Owned, NeedsClone;
    copies := [];
    LedgerStart(heap.live, item);
    delivered := 0;
    var i := 0;
    while i < n
      invariant 0 <= i == |copies| <= n
      invariant Separate(subs) && delivered == CountSome(copies)
      invariant forall j | i <= j < n :: unchanged(subs[j])
      invariant forall j | 0 <= j < i ::
                  Given(old(subs[j].Seen()), subs[j].Seen(), item, subs[j] in memory, copies[j])
      invariant Ledger(old(heap.live), heap.live, item, copies) && fresh(heap.live - old(heap.live))
    {
      var q: Queue := table[e, i];
      assert q == subs[i];
      OthersApart(subs, i);
      ghost var live := heap.live;
      var c := Offer(heap, q, item, memory);
      if c.Some? {
        delivered := delivered + 1;
      }
      GivenCopy(old(q.Seen()), q.Seen(), item, q in memory, c);
      LedgerStep(old(heap.live), live, item, copies, c);
      copies := copies + [c];
      i := i + 1;
    }
  }

  /** The same, with the count in terms of what the queues looked like before. */
  method FanOut(
      heap: Heap, table: array2<MaybeQueue>, e: nat, n: nat, ghost subs: seq<Queue>, item: Item, memory: set<Queue>)
    returns (delivered: int, ghost copies: seq<Option<Item>>)
    requires e < table.Length0 && n == |subs| <= table.Length1
    requires forall j | 0 <= j < n :: table[e, j] == subs[j]
    requires Separate(subs)
    requires item.payload != null ==> item.length <= |item.payload.bytes|
    modifies heap, subs, set q | q in subs :: q.items
    ensures Separate(subs) && |copies| == |subs| && delivered == |old(Reachable(subs, item, memory))|
    ensures forall j | 0 <= j < |subs| ::
              Given(old(subs[j].Seen()), subs[j].Seen(), item, subs[j] in memory, copies[j])
    ensures Ledger(old(heap.live), heap.live, item, copies) && fresh(heap.live - old(heap.live))
  {
    hide MsgQueue.Valid, Ledger, Given;
    delivered, copies := FanOutLoop(heap, table, e, n, subs, item, memory);
    ghost var served := old(Reachable(subs, item, memory));
    forall j | 0 <= j < |subs| ensures copies[j].Some? <==> subs[j] in served {
      GivenCopy(old(subs[j].Seen()), subs[j].Seen(), item, subs[j] in memory, copies[j]);
    }
    CountIsSize(copies, subs, served);
  }
}
