/** The topic registry as a value: an ordered list of entries searched first-match, and the
    plain map from topic to subscriber set that it stands for (c/src/pubsub.c). */
module Registry {
  const MAX_TOPICS := 8
  const MAX_SUBSCRIBERS := 16
  const TOPIC_NAME_MAX := 32

  datatype Entry<Q> = Entry(name: string, subs: seq<Q>)

  /** strncpy into a 32-byte name. */
  function Truncate(topic: string): string {
    if |topic| < TOPIC_NAME_MAX then topic else topic[..TOPIC_NAME_MAX - 1]
  }

  /** find_topic: index of the first entry called `topic`, or the count. */
  function Find<Q>(es: seq<Entry<Q>>, topic: string): (i: nat)
    ensures i <= |es|
    ensures i < |es| ==> es[i].name == topic
    ensures forall j | 0 <= j < i :: es[j].name != topic
  {
    if es == [] || es[0].name == topic then 0 else 1 + Find(es[1..], topic)
  }

  lemma FindIs<Q>(es: seq<Entry<Q>>, topic: string, i: nat)
    requires i <= |es| && (i < |es| ==> es[i].name == topic)
    requires forall j | 0 <= j < i :: es[j].name != topic
    ensures Find(es, topic) == i
  {
  }

  /** find_or_create_topic, leaving a full registry alone. */
  function Created<Q>(es: seq<Entry<Q>>, topic: string): seq<Entry<Q>> {
    if Find(es, topic) < |es| || |es| >= MAX_TOPICS then es else es + [Entry(Truncate(topic), [])]
  }

  function Subscribed<Q(==)>(es: seq<Entry<Q>>, topic: string, q: Q): (int, seq<Entry<Q>>) {
    var cs, i := Created(es, topic), Find(es, topic);
    if |topic| >= TOPIC_NAME_MAX || i >= |cs| then (-1, es)
    else if q in cs[i].subs then (0, cs)
    else if |cs[i].subs| >= MAX_SUBSCRIBERS then (-1, cs)
    else (0, cs[i := Entry(cs[i].name, cs[i].subs + [q])])
  }

  /** Remove by moving the last subscriber into the hole. */
  function SwapRemove<Q>(s: seq<Q>, k: nat): seq<Q>
    requires k < |s|
  {
    s[k := s[|s| - 1]][..|s| - 1]
  }

  function IndexOf<Q(==)>(s: seq<Q>, q: Q): (k: nat)
    requires q in s
    ensures k < |s| && s[k] == q && q !in s[..k]
  {
    if s[0] == q then 0 else 1 + IndexOf(s[1..], q)
  }

  function Unsubscribed<Q(==)>(es: seq<Entry<Q>>, topic: string, q: Q): (int, seq<Entry<Q>>) {
    var i := Find(es, topic);
    if i >= |es| || q !in es[i].subs then (-1, es)
    else (0, es[i := Entry(es[i].name, SwapRemove(es[i].subs, IndexOf(es[i].subs, q)))])
  }

  // ---------------------------------------------------------------- invariants

  predicate NoDuplicates<Q(==)>(s: seq<Q>) {
    forall i, j | 0 <= i < j < |s| :: s[i] != s[j]
  }

  /** Holds of every registry, whatever topics are used. */
  predicate Sound<Q(==)>(es: seq<Entry<Q>>) {
    && |es| <= MAX_TOPICS
    && forall i | 0 <= i < |es| ::
         |es[i].name| < TOPIC_NAME_MAX && |es[i].subs| <= MAX_SUBSCRIBERS && NoDuplicates(es[i].subs)
  }

  predicate DistinctNames<Q>(es: seq<Entry<Q>>) {
    forall i, j | 0 <= i < j < |es| :: es[i].name != es[j].name
  }

  /** Swap-removal takes out exactly one element and keeps the list duplicate-free. */
  lemma SwapRemoveExact<Q>(s: seq<Q>, k: nat)
    requires k < |s| && NoDuplicates(s)
    ensures NoDuplicates(SwapRemove(s, k))
    ensures forall q :: q in SwapRemove(s, k) <==> q in s && q != s[k]
  {
    var r := SwapRemove(s, k);
    forall q | q in s && q != s[k] ensures q in r {
      var i :| 0 <= i < |s| && s[i] == q;
      assert if i == |s| - 1 then r[k] == q else r[i] == q;
    }
    forall i | 0 <= i < |r| ensures r[i] in s && r[i] != s[k] {
      assert r[i] == if i == k then s[|s| - 1] else s[i];
    }
  }

  lemma SubscribeSound<Q>(es: seq<Entry<Q>>, topic: string, q: Q)
    requires Sound(es)
    ensures Sound(Subscribed(es, topic, q).1) && Sound(Created(es, topic))
    ensures DistinctNames(es) ==> DistinctNames(Subscribed(es, topic, q).1)
  {
  }

  lemma UnsubscribeSound<Q>(es: seq<Entry<Q>>, topic: string, q: Q)
    requires Sound(es)
    ensures Sound(Unsubscribed(es, topic, q).1)
    ensures DistinctNames(es) ==> DistinctNames(Unsubscribed(es, topic, q).1)
  {
    var i := Find(es, topic);
    if i < |es| && q in es[i].subs {
      SwapRemoveExact(es[i].subs, IndexOf(es[i].subs, q));
    }
  }

  /** Publishing checks no length, so a long topic enters truncated. Names stay distinct
      exactly when that truncation does not collide with a name already there. */
  lemma PublishKeepsNamesIff<Q>(es: seq<Entry<Q>>, topic: string)
    requires Sound(es) && DistinctNames(es)
    ensures DistinctNames(Created(es, topic)) <==>
              !(|topic| >= TOPIC_NAME_MAX && |es| < MAX_TOPICS && Find(es, topic[..TOPIC_NAME_MAX - 1]) < |es|)
  {
    var cs := Created(es, topic);
    if |cs| > |es| {
      var k := Find(es, Truncate(topic));
      if k < |es| {
        assert cs[k].name == cs[|es|].name;
      }
    }
  }

  /** Two publishes to the same 32-character topic leave two entries with one name. */
  lemma LongTopicDuplicates()
    ensures exists topic :: |topic| == 32 && !DistinctNames(Created(Created<int>([], topic), topic))
  {
    var topic := seq(32, i => 'x');
    var one := Created<int>([], topic);
    assert one == [Entry(topic[..31], [])];
    var two := Created(one, topic);
    assert two == one + [Entry(topic[..31], [])];
    assert two[0].name == two[1].name;
  }

  // ---------------------------------------------------------------- refinement to a map

  type Topics<Q> = map<string, set<Q>>

  function Members<Q(==)>(s: seq<Q>): set<Q> { set q | q in s }

  function Abs<Q(==)>(es: seq<Entry<Q>>): Topics<Q> {
    map n | n in (set i | 0 <= i < |es| :: es[i].name) :: Members(es[Find(es, n)].subs)
  }

  datatype Request<Q> = Subscribe(topic: string, q: Q) | Unsubscribe(topic: string, q: Q) | Publish(topic: string)

  /** What each request does to the list of entries ... */
  function Serve<Q(==)>(es: seq<Entry<Q>>, r: Request<Q>): (int, seq<Entry<Q>>) {
    match r
    case Subscribe(t, q) => Subscribed(es, t, q)
    case Unsubscribe(t, q) => Unsubscribed(es, t, q)
    case Publish(t) => (0, Created(es, t))
  }

  /** ... and what it does to the map: the specification a caller has in mind. */
  function ServeMap<Q(==)>(m: Topics<Q>, r: Request<Q>): (int, Topics<Q>) {
    match r
    case Subscribe(t, q) =>
      var had := if t in m then m[t] else {};
      if |t| >= TOPIC_NAME_MAX || (t !in m && |m| >= MAX_TOPICS) || (q !in had && |had| >= MAX_SUBSCRIBERS)
      then (-1, m) else (0, m[t := had + {q}])
    case Unsubscribe(t, q) =>
      if t in m && q in m[t] then (0, m[t := m[t] - {q}]) else (-1, m)
    case Publish(t) =>
      if t in m || |m| >= MAX_TOPICS then (0, m) else (0, m[t := {}])
  }

  predicate Listens<Q(==)>(m: Topics<Q>, t: string, q: Q) { t in m && q in m[t] }

  /** Subscribing succeeds exactly when the name has fewer than 32 characters and the queue is there
      already or there is room for it: fewer than 16 subscribers on a known topic, fewer than 8
      topics for a new one. Then this queue listens to this topic, and nobody else's part changes. */
  lemma SubscribeMeans<Q>(m: Topics<Q>, t: string, q: Q)
    ensures var (code, r) := ServeMap(m, Subscribe(t, q));
            && (code == 0 || (code == -1 && r == m))
            && (code == 0 <==> |t| < 32 && (Listens(m, t, q) || if t in m then |m[t]| < 16 else |m| < 8))
            && (code == 0 ==> Listens(r, t, q) && r.Keys == m.Keys + {t})
            && (forall n, p | n != t || p != q :: Listens(r, n, p) <==> Listens(m, n, p))
  {
  }

  /** Unsubscribing succeeds exactly for a queue that listens; then it alone no longer does. */
  lemma UnsubscribeMeans<Q>(m: Topics<Q>, t: string, q: Q)
    ensures var (code, r) := ServeMap(m, Unsubscribe(t, q));
            && (code == 0 || (code == -1 && r == m))
            && (code == 0 <==> Listens(m, t, q))
            && !Listens(r, t, q) && r.Keys == m.Keys
            && (forall n, p | n != t || p != q :: Listens(r, n, p) <==> Listens(m, n, p))
  {
  }

  /** Publishing makes the topic known while there are fewer than 8, and changes no subscription. */
  lemma PublishMeans<Q>(m: Topics<Q>, t: string)
    ensures var (code, r) := ServeMap(m, Publish(t));
            && code == 0 && r.Keys == (if |m| < 8 then m.Keys + {t} else m.Keys)
            && (forall n, p :: Listens(r, n, p) <==> Listens(m, n, p))
  {
  }

  lemma {:induction false} MembersSize<Q>(s: seq<Q>)
    requires NoDuplicates(s)
    ensures |Members(s)| == |s|
    decreases |s|
  {
    if s != [] {
      var r := s[..|s| - 1];
      MembersSize(r);
      assert Members(s) == Members(r) + {s[|s| - 1]};
    }
  }

  /** Distinct names make the map as large as the list. */
  lemma {:induction false} AbsSize<Q>(es: seq<Entry<Q>>)
    requires DistinctNames(es)
    ensures |Abs(es)| == |es|
  {
    var names := seq(|es|, i requires 0 <= i < |es| => es[i].name);
    MembersSize(names);
    assert Members(names) == Abs(es).Keys by {
      forall n ensures n in Members(names) <==> n in Abs(es).Keys {
        if n in Abs(es) { var i :| 0 <= i < |es| && es[i].name == n; assert names[i] == n; }
        if n in names { var i :| 0 <= i < |names| && names[i] == n; assert es[i].name == n; }
      }
    }
  }

  lemma AbsAt<Q>(es: seq<Entry<Q>>, n: string)
    ensures n in Abs(es) <==> Find(es, n) < |es|
    ensures n in Abs(es) ==> Abs(es)[n] == Members(es[Find(es, n)].subs)
  {
    if Find(es, n) < |es| {
      assert es[Find(es, n)].name == n;
    }
  }

  lemma FindAppend<Q>(es: seq<Entry<Q>>, e: Entry<Q>, n: string)
    ensures Find(es + [e], n) == if Find(es, n) < |es| then Find(es, n) else if e.name == n then |es| else |es| + 1
  {
    var i := Find(es, n);
    FindIs(es + [e], n, if i < |es| then i else if e.name == n then |es| else |es| + 1);
  }

  lemma FindUpdate<Q>(es: seq<Entry<Q>>, i: nat, e: Entry<Q>, n: string)
    requires i < |es| && e.name == es[i].name
    ensures Find(es[i := e], n) == Find(es, n)
  {
    FindIs(es[i := e], n, Find(es, n));
  }

  /** Replacing one entry's list changes that topic and nothing else. */
  lemma AbsUpdate<Q>(es: seq<Entry<Q>>, t: string, subs: seq<Q>)
    requires Find(es, t) < |es|
    ensures Abs(es[Find(es, t) := Entry(t, subs)]) == Abs(es)[t := Members(subs)]
  {
    var i := Find(es, t);
    var es' := es[i := Entry(t, subs)];
    forall n: string
      ensures n in Abs(es') <==> n in Abs(es)[t := Members(subs)]
      ensures n in Abs(es') ==> Abs(es')[n] == Abs(es)[t := Members(subs)][n]
    {
      FindUpdate(es, i, Entry(t, subs), n);
      AbsAt(es, n);
      AbsAt(es', n);
    }
  }

  lemma AbsAppend<Q>(es: seq<Entry<Q>>, t: string)
    requires Find(es, t) == |es|
    ensures Abs(es + [Entry(t, [])]) == Abs(es)[t := {}]
  {
    var es' := es + [Entry(t, [])];
    forall n: string
      ensures n in Abs(es') <==> n in Abs(es)[t := {}]
      ensures n in Abs(es') ==> Abs(es')[n] == Abs(es)[t := {}][n]
    {
      FindAppend(es, Entry(t, []), n);
      AbsAt(es, n);
      AbsAt(es', n);
    }
  }

  predicate Proper<Q(==)>(es: seq<Entry<Q>>) { Sound(es) && DistinctNames(es) }

  lemma CreatedProper<Q>(es: seq<Entry<Q>>, t: string)
    requires Proper(es) && |t| < TOPIC_NAME_MAX
    ensures Proper(Created(es, t))
  {
    PublishKeepsNamesIff(es, t);
  }

  lemma CreatedRefines<Q>(es: seq<Entry<Q>>, t: string)
    requires DistinctNames(es) && |t| < TOPIC_NAME_MAX
    ensures Abs(Created(es, t)) == ServeMap(Abs(es), Publish(t)).1
  {
    AbsSize(es);
    AbsAt(es, t);
    if Find(es, t) == |es| { AbsAppend(es, t); }
  }

  /** The part of subscribe after the topic has been found or created. */
  lemma JoinRefines<Q>(cs: seq<Entry<Q>>, t: string, q: Q)
    requires Find(cs, t) < |cs| && NoDuplicates(cs[Find(cs, t)].subs)
    ensures var i, had := Find(cs, t), Members(cs[Find(cs, t)].subs);
            && t in Abs(cs) && Abs(cs)[t] == had && |had| == |cs[i].subs|
            && (q in cs[i].subs <==> q in had)
            && (q in had ==> Abs(cs) == Abs(cs)[t := had + {q}])
            && Abs(cs[i := Entry(t, cs[i].subs + [q])]) == Abs(cs)[t := had + {q}]
  {
    var i := Find(cs, t);
    AbsAt(cs, t);
    MembersSize(cs[i].subs);
    AbsUpdate(cs, t, cs[i].subs + [q]);
    assert Members(cs[i].subs + [q]) == Members(cs[i].subs) + {q};
    assert q in cs[i].subs ==> Members(cs[i].subs) + {q} == Members(cs[i].subs);
  }

  lemma SubscribedKnown<Q>(es: seq<Entry<Q>>, t: string, q: Q)
    requires |t| < TOPIC_NAME_MAX && Find(es, t) < |es|
    ensures var i := Find(es, t);
            Subscribed(es, t, q) == if q in es[i].subs then (0, es)
                                    else if |es[i].subs| >= MAX_SUBSCRIBERS then (-1, es)
                                    else (0, es[i := Entry(t, es[i].subs + [q])])
  {
  }

  /** Subscribing to a new topic is creating it, then subscribing: on the entries ... */
  lemma SubscribedNew<Q>(es: seq<Entry<Q>>, t: string, q: Q)
    requires |t| < TOPIC_NAME_MAX && Find(es, t) == |es| < MAX_TOPICS
    ensures Subscribed(es, t, q) == Subscribed(es + [Entry(t, [])], t, q)
  {
    FindAppend(es, Entry(t, []), t);
  }

  /** ... and on the map. */
  lemma ServeMapNew<Q>(m: Topics<Q>, t: string, q: Q)
    requires |t| < TOPIC_NAME_MAX && t !in m && |m| < MAX_TOPICS
    ensures ServeMap(m, Subscribe(t, q)) == ServeMap(m[t := {}], Subscribe(t, q))
  {
    assert m[t := {}][t := {} + {q}] == m[t := {} + {q}];
  }

  /** What subscribe means on a map where the topic has the set `had`. */
  lemma ServeMapJoins<Q>(m: Topics<Q>, t: string, q: Q, had: set<Q>)
    requires |t| < TOPIC_NAME_MAX && (t in m ==> m[t] == had) && (t !in m ==> |m| < MAX_TOPICS && had == {})
    ensures ServeMap(m, Subscribe(t, q))
              == if q in had || |had| < MAX_SUBSCRIBERS then (0, m[t := had + {q}]) else (-1, m)
  {
  }

  lemma SubscribeRefinesKnown<Q>(es: seq<Entry<Q>>, t: string, q: Q)
    requires |t| < TOPIC_NAME_MAX && Find(es, t) < |es| && NoDuplicates(es[Find(es, t)].subs)
    ensures Subscribed(es, t, q).0 == ServeMap(Abs(es), Subscribe(t, q)).0
    ensures Abs(Subscribed(es, t, q).1) == ServeMap(Abs(es), Subscribe(t, q)).1
  {
    hide Abs;
    JoinRefines(es, t, q);
    SubscribedKnown(es, t, q);
    ServeMapJoins(Abs(es), t, q, Members(es[Find(es, t)].subs));
  }

  lemma SubscribeRefinesNew<Q>(es: seq<Entry<Q>>, t: string, q: Q)
    requires |t| < TOPIC_NAME_MAX && Find(es, t) == |es| < MAX_TOPICS && |Abs(es)| == |es|
    ensures Subscribed(es, t, q).0 == ServeMap(Abs(es), Subscribe(t, q)).0
    ensures Abs(Subscribed(es, t, q).1) == ServeMap(Abs(es), Subscribe(t, q)).1
  {
    hide Abs;
    AbsAt(es, t);
    AbsAppend(es, t);
    FindAppend(es, Entry(t, []), t);
    SubscribedNew(es, t, q);
    ServeMapNew(Abs(es), t, q);
    SubscribeRefinesKnown(es + [Entry(t, [])], t, q);
  }

  lemma SubscribeRefused<Q>(es: seq<Entry<Q>>, t: string, q: Q)
    requires Proper(es) && (|t| >= TOPIC_NAME_MAX || (Find(es, t) == |es| && |es| >= MAX_TOPICS))
    ensures Subscribed(es, t, q).0 == ServeMap(Abs(es), Subscribe(t, q)).0
    ensures Abs(Subscribed(es, t, q).1) == ServeMap(Abs(es), Subscribe(t, q)).1
  {
    AbsSize(es);
    AbsAt(es, t);
    hide Abs;
  }

  lemma SubscribeRefines<Q>(es: seq<Entry<Q>>, t: string, q: Q)
    requires Proper(es)
    ensures Subscribed(es, t, q).0 == ServeMap(Abs(es), Subscribe(t, q)).0
    ensures Abs(Subscribed(es, t, q).1) == ServeMap(Abs(es), Subscribe(t, q)).1
  {
    hide Abs, Subscribed, ServeMap;
    AbsSize(es);
    if |t| >= TOPIC_NAME_MAX || (Find(es, t) == |es| && |es| >= MAX_TOPICS) {
      SubscribeRefused(es, t, q);
    } else if Find(es, t) < |es| {
      SubscribeRefinesKnown(es, t, q);
    } else {
      SubscribeRefinesNew(es, t, q);
    }
  }

  lemma UnsubscribeRefines<Q>(es: seq<Entry<Q>>, t: string, q: Q)
    requires Proper(es)
    ensures Unsubscribed(es, t, q).0 == ServeMap(Abs(es), Unsubscribe(t, q)).0
    ensures Abs(Unsubscribed(es, t, q).1) == ServeMap(Abs(es), Unsubscribe(t, q)).1
  {
    AbsAt(es, t);
    var i := Find(es, t);
    if i < |es| && q in es[i].subs {
      var k := IndexOf(es[i].subs, q);
      SwapRemoveExact(es[i].subs, k);
      AbsUpdate(es, t, SwapRemove(es[i].subs, k));
      assert Members(SwapRemove(es[i].subs, k)) == Members(es[i].subs) - {q};
    }
  }

  predicate ShortTopic<Q(==)>(r: Request<Q>) { r.Publish? ==> |r.topic| < TOPIC_NAME_MAX }

  lemma RequestRefines<Q>(es: seq<Entry<Q>>, r: Request<Q>)
    requires Proper(es) && ShortTopic(r)
    ensures Proper(Serve(es, r).1)
    ensures Serve(es, r).0 == ServeMap(Abs(es), r).0
    ensures Abs(Serve(es, r).1) == ServeMap(Abs(es), r).1
  {
    match r
    case Subscribe(t, q) => SubscribeSound(es, t, q); SubscribeRefines(es, t, q);
    case Unsubscribe(t, q) => UnsubscribeSound(es, t, q); UnsubscribeRefines(es, t, q);
    case Publish(t) => CreatedProper(es, t); CreatedRefines(es, t);
  }

  function ServeAll<Q(==)>(es: seq<Entry<Q>>, rs: seq<Request<Q>>): (seq<int>, seq<Entry<Q>>)
    decreases |rs|
  {
    if rs == [] then ([], es)
    else var (rc, es1) := Serve(es, rs[0]); var (rcs, es2) := ServeAll(es1, rs[1..]); ([rc] + rcs, es2)
  }

  function ServeAllMap<Q(==)>(m: Topics<Q>, rs: seq<Request<Q>>): (seq<int>, Topics<Q>)
    decreases |rs|
  {
    if rs == [] then ([], m)
    else var (rc, m1) := ServeMap(m, rs[0]); var (rcs, m2) := ServeAllMap(m1, rs[1..]); ([rc] + rcs, m2)
  }

  /** Any sequence of requests on the entries gives the return codes and the final
      subscriptions of the same sequence on the plain map. */
  lemma {:induction false} RegistryRefinesMap<Q>(es: seq<Entry<Q>>, rs: seq<Request<Q>>)
    requires Proper(es) && forall i | 0 <= i < |rs| :: ShortTopic(rs[i])
    ensures Proper(ServeAll(es, rs).1)
    ensures ServeAll(es, rs).0 == ServeAllMap(Abs(es), rs).0
    ensures Abs(ServeAll(es, rs).1) == ServeAllMap(Abs(es), rs).1
    decreases |rs|
  {
    if rs != [] {
      RequestRefines(es, rs[0]);
      RegistryRefinesMap(Serve(es, rs[0]).1, rs[1..]);
    }
  }
}
