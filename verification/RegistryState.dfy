/** The registry as it is updated in place: six maps and four counters. */
module RegistryState {
  import opened Basics
  import opened RegistryModel
  import opened RegistryLemmas
  import opened RegistryRemoval
  import opened RegistryCleanup
  import opened RegistryRuns

  // ---- removing one endpoint ----

  ghost predicate Belongs(r: Reg, e: nat, node: nat, t: nat) {
    || (e in r.pubs && r.pubs[e].node == node && r.pubs[e].topic == t)
    || (e in r.subs && r.subs[e].node == node && r.subs[e].topic == t)
  }

  lemma BelongsFacts(r: Reg, e: nat, node: nat, t: nat)
    requires RegInv(r) && Belongs(r, e, node, t)
    ensures node in r.nodes && t in r.topics && r.topics[t].name in r.topicNames
    ensures forall n :: n in r.nodes && n != node ==> PrunedNode(r.nodes[n], {e}) == r.nodes[n]
    ensures forall u :: u in r.topics && u != t ==> PrunedTopic(r.topics[u], {e}) == r.topics[u]
  {
    if e in r.pubs { assert PubOk(r.nodes, r.topics, e, r.pubs[e]); }
    if e in r.subs { assert SubOk(r.nodes, r.topics, e, r.subs[e]); }
    forall n | n in r.nodes && n != node ensures PrunedNode(r.nodes[n], {e}) == r.nodes[n] {
      assert NodePubsOk(r.pubs, n, r.nodes[n]) && NodeSubsOk(r.subs, n, r.nodes[n]);
      assert r.nodes[n].pubs - {e} == r.nodes[n].pubs && r.nodes[n].subs - {e} == r.nodes[n].subs;
    }
    forall u | u in r.topics && u != t ensures PrunedTopic(r.topics[u], {e}) == r.topics[u] {
      assert TopicPubOk(r.pubs, u, r.topics[u]) && TopicSubsOk(r.subs, u, r.topics[u]);
      assert r.topics[u].subs - {e} == r.topics[u].subs;
    }
  }

  /** What is left of the topics: `t` without `e`, resized, or gone; the others as they were. */
  ghost predicate Left(r: Reg, e: nat, t: nat, topics: map<nat, Topic>, names: map<string, nat>)
    requires t in r.topics
  {
    var p := PrunedTopic(r.topics[t], {e});
    if Vacant(p) then topics == r.topics - {t} && names == r.topicNames - {r.topics[t].name}
    else
      && names == r.topicNames
      && t in topics && topics == r.topics[t := topics[t]] && topics[t] == p.(maxSize := topics[t].maxSize)
      && Least(SizesOf(p, r.pubs - {e}, r.subs - {e}), topics[t].maxSize)
  }

  lemma PrunedMaps(r: Reg, e: nat)
    ensures Pruned(r, {e}).pubs == r.pubs - {e} && Pruned(r, {e}).subs == r.subs - {e}
  {
  }

  lemma PrunedTopicsAre(r: Reg, e: nat, node: nat, t: nat, topics: map<nat, Topic>, names: map<string, nat>)
    requires RegInv(r) && Belongs(r, e, node, t) && t in r.topics && Left(r, e, t, topics, names)
    ensures Pruned(r, {e}).topics == topics
  {
    var q := Pruned(r, {e});
    BelongsFacts(r, e, node, t);
    PrunedMaps(r, e);
    var p := PrunedTopic(r.topics[t], {e});
    if !Vacant(p) { LeastIsMinimum(SizesOf(p, q.pubs, q.subs), topics[t].maxSize); }
    forall u | u in r.topics && u != t ensures u in q.topics && q.topics[u] == r.topics[u] {
      OtherTopicSame(r, e, u);
    }
    SameMap(q.topics, topics);
  }

  lemma OtherTopicSame(r: Reg, e: nat, u: nat)
    requires RegInv(r) && u in r.topics && PrunedTopic(r.topics[u], {e}) == r.topics[u]
    ensures u in Pruned(r, {e}).topics && Pruned(r, {e}).topics[u] == r.topics[u]
  {
    var topic := r.topics[u];
    assert TopicOk(topic, r.pubs, r.subs) && TopicPubOk(r.pubs, u, topic) && TopicSubsOk(r.subs, u, topic);
    PrunedMaps(r, e);
    assert e !in topic.subs by { assert topic.subs - {e} == topic.subs; }
    assert SizesOf(topic, r.pubs - {e}, r.subs - {e}) == SizesOf(topic, r.pubs, r.subs);
    LeastIsMinimum(SizesOf(topic, r.pubs, r.subs), topic.maxSize);
  }

  /** The records that unadvertise and unsubscribe touch, put together, are Pruned. */
  lemma PrunedOne(r: Reg, e: nat, node: nat, t: nat, topics: map<nat, Topic>, names: map<string, nat>)
    requires RegInv(r) && Belongs(r, e, node, t) && node in r.nodes && t in r.topics && Left(r, e, t, topics, names)
    ensures r.(pubs := r.pubs - {e}, subs := r.subs - {e}, topics := topics, topicNames := names,
               nodes := r.nodes[node := PrunedNode(r.nodes[node], {e})]) == Pruned(r, {e})
  {
    var q := Pruned(r, {e});
    BelongsFacts(r, e, node, t);
    PrunedMaps(r, e);
    PrunedTopicsAre(r, e, node, t, topics, names);
    SameMap(r.nodes[node := PrunedNode(r.nodes[node], {e})], q.nodes);
    PrunedKeeps(r, {e});
    NamesLeft(r, t, topics, names);
    SameNames(topics, names, q.topicNames);
  }

  lemma NamesLeft(r: Reg, t: nat, topics: map<nat, Topic>, names: map<string, nat>)
    requires TopicNamesOk(r.topics, r.topicNames) && t in r.topics
    requires (topics == r.topics - {t} && names == r.topicNames - {r.topics[t].name})
             || (t in topics && topics == r.topics[t := topics[t]] && topics[t].name == r.topics[t].name
                && names == r.topicNames)
    ensures TopicNamesOk(topics, names)
  {
  }

  class Registry {
    const timing: Timing
    var nodes: map<nat, Node>
    var names: map<string, nat>
    var topics: map<nat, Topic>
    var topicNames: map<string, nat>
    var pubs: map<nat, Pub>
    var subs: map<nat, Sub>
    var nextNode: nat
    var nextSession: nat
    var nextTopic: nat
    var nextEndpoint: nat

    function State(): Reg
      reads this
    {
      Reg(nodes, names, topics, topicNames, pubs, subs, nextNode, nextSession, nextTopic, nextEndpoint)
    }

    constructor (timing: Timing)
      requires ValidTiming(timing)
      ensures State() == EMPTY && RegInv(State()) && this.timing == timing
    {
      this.timing := timing;
      nodes, names, topics, topicNames, pubs, subs := map[], map[], map[], map[], map[], map[];
      nextNode, nextSession, nextTopic, nextEndpoint := 1, 1, 1, 1;
    }

    // ---- nodes ----

    method RegisterNode(connection: nat, name: string, now: int) returns (e: ErrorCode, id: nat, session: nat)
      requires RegInv(State())
      modifies this
      ensures RegInv(State()) && (State(), e) == Register(old(State()), connection, name, now)
      ensures e == Ok ==> id in nodes && nodes[id].session == session && id !in old(nodes)
    {
      RegisterKeeps(State(), connection, name, now);
      id, session := 0, 0;
      if name == "" { return InvalidArgument, 0, 0; }
      if name in names { return DuplicateNode, 0, 0; }
      id, session := nextNode, nextSession;
      nextNode, nextSession := nextNode + 1, nextSession + 1;
      nodes := nodes[id := Node(session, name, connection, 0, Alive, now, {}, {})];
      names := names[name := id];
      e := Ok;
    }

    method AttachHeartbeat(connection: nat, node: nat, session: nat) returns (e: ErrorCode)
      requires RegInv(State())
      modifies this
      ensures RegInv(State()) && (State(), e) == Attach(old(State()), connection, node, session)
    {
      AttachKeeps(State(), connection, node, session);
      if node !in nodes || nodes[node].session != session || connection == 0 { return NotRegistered; }
      if nodes[node].heartbeat != 0 && nodes[node].heartbeat != connection { return NotRegistered; }
      nodes := nodes[node := nodes[node].(heartbeat := connection)];
      e := Ok;
    }

    method ReceiveHeartbeat(connection: nat, node: nat, session: nat, now: int) returns (e: ErrorCode)
      requires RegInv(State())
      modifies this
      ensures RegInv(State()) && (State(), e) == Heartbeat(old(State()), connection, node, session, now)
    {
      HeartbeatKeeps(State(), connection, node, session, now);
      if node !in nodes || nodes[node].session != session { return NotRegistered; }
      if connection != nodes[node].control && connection != nodes[node].heartbeat { return NotRegistered; }
      nodes := nodes[node := nodes[node].(lastSeen := now, liveness := Alive)];
      e := Ok;
    }

    // ---- endpoints ----

    method FindOrCreateTopic(s: TopicSpec) returns (t: nat)
      requires RegInv(State()) && Agreement(State(), s) == Ok
      modifies this`topics, this`topicNames, this`nextTopic
      ensures State() == WithTopic(old(State()), s) && t == TopicFor(old(State()), s) && t in topics
    {
      if s.name in topicNames { return topicNames[s.name]; }
      t := nextTopic;
      nextTopic := nextTopic + 1;
      topics := topics[t := Topic(s.name, s.typeName, s.typeHash, s.transport, s.maxSize, None, {}, NO_POOL)];
      topicNames := topicNames[s.name := t];
    }

    method AdvertiseTopic(connection: nat, node: nat, s: TopicSpec, pool: PoolInfo) returns (e: ErrorCode, id: nat)
      requires RegInv(State())
      modifies this
      ensures RegInv(State()) && (State(), e) == Advertise(old(State()), connection, node, s, pool)
      ensures e == Ok ==> id == old(nextEndpoint)
    {
      ghost var before := State();
      id := 0;
      e := AdvertiseError(State(), connection, node, s, pool);
      if e == Ok { id := AddPublisher(node, s, pool); }
      AdvertiseKeeps(before, connection, node, s, pool);
    }

    method AddPublisher(node: nat, s: TopicSpec, pool: PoolInfo) returns (id: nat)
      requires RegInv(State()) && Agreement(State(), s) == Ok && node in nodes
      modifies this
      ensures TopicFor(old(State()), s) in WithTopic(old(State()), s).topics
      ensures State() == AddPub(WithTopic(old(State()), s), node, TopicFor(old(State()), s), s, pool)
              && id == old(nextEndpoint)
    {
      var t := FindOrCreateTopic(s);
      id := nextEndpoint;
      nextEndpoint := nextEndpoint + 1;
      pubs := pubs[id := Pub(node, t, s.maxSize, Wanted(s), pool)];
      topics := topics[t := topics[t].(publisher := Some(id), pool := pool,
                                       maxSize := Min(topics[t].maxSize, s.maxSize))];
      nodes := nodes[node := nodes[node].(pubs := nodes[node].pubs + {id})];
    }

    method SubscribeTopic(connection: nat, node: nat, s: TopicSpec, path: string, queue: QueueInfo)
      returns (e: ErrorCode, id: nat)
      requires RegInv(State())
      modifies this
      ensures RegInv(State()) && (State(), e) == Subscribe(old(State()), connection, node, s, path, queue)
      ensures e == Ok ==> id == old(nextEndpoint)
    {
      SubscribeKeeps(State(), connection, node, s, path, queue);
      id := 0;
      e := SubscribeError(State(), connection, node, s, path, queue);
      if e == Ok { id := AddSubscriber(node, s, path, queue); }
    }

    method AddSubscriber(node: nat, s: TopicSpec, path: string, queue: QueueInfo) returns (id: nat)
      requires RegInv(State()) && Agreement(State(), s) == Ok && node in nodes
      modifies this
      ensures TopicFor(old(State()), s) in WithTopic(old(State()), s).topics
      ensures State() == AddSub(WithTopic(old(State()), s), node, TopicFor(old(State()), s), s, path, queue)
              && id == old(nextEndpoint)
    {
      var t := FindOrCreateTopic(s);
      id := nextEndpoint;
      nextEndpoint := nextEndpoint + 1;
      subs := subs[id := Sub(node, t, path, s.maxSize, Wanted(s), queue)];
      topics := topics[t := topics[t].(subs := topics[t].subs + {id}, maxSize := Min(topics[t].maxSize, s.maxSize))];
      nodes := nodes[node := nodes[node].(subs := nodes[node].subs + {id})];
    }

    /** recomputeTopicMaxMessageSize: the limit of a topic that has endpoints. */
    method SmallestLimit(t: Topic) returns (r: Option<nat>)
      requires t.publisher.Some? ==> t.publisher.value in pubs && pubs[t.publisher.value].maxSize < U32_LIMIT
      requires forall e :: e in t.subs ==> e in subs && e < nextEndpoint && subs[e].maxSize < U32_LIMIT
      ensures r.None? <==> Vacant(t)
      ensures r.Some? ==> Least(SizesOf(t, pubs, subs), r.value)
    {
      var smallest: nat, found := U64_LIMIT - 1, false;
      if t.publisher.Some? {
        smallest, found := Min(smallest, pubs[t.publisher.value].maxSize), true;
      }
      var ss := Ascending(t.subs, nextEndpoint);
      AscendingFacts(t.subs, nextEndpoint);
      var k := 0;
      ghost var sizes: set<nat> := if t.publisher.Some? then {pubs[t.publisher.value].maxSize} else {};
      while k < |ss|
        invariant 0 <= k <= |ss| && found == (t.publisher.Some? || k > 0)
        invariant sizes <= SizesOf(t, pubs, subs)
        invariant t.publisher.Some? ==> pubs[t.publisher.value].maxSize in sizes
        invariant forall j :: 0 <= j < k ==> subs[ss[j]].maxSize in sizes
        invariant if found then Least(sizes, smallest) else smallest == U64_LIMIT - 1 && sizes == {}
      {
        assert ss[k] in ss;
        sizes := sizes + {subs[ss[k]].maxSize};
        smallest, found := Min(smallest, subs[ss[k]].maxSize), true;
        k := k + 1;
      }
      forall e | e in t.subs ensures subs[e].maxSize in sizes {
        assert e in ss;
      }
      assert sizes == SizesOf(t, pubs, subs);
      assert forall e :: e in t.subs ==> e in ss;
      if !found { return None; }
      r := Some(smallest);
    }

    /** The shared tail of unadvertise and unsubscribe: recompute the limit, drop an empty topic. */
    method SettleTopic(t: nat)
      requires t in topics && CanSettle(State(), topics[t])
      modifies this`topics, this`topicNames
      ensures Settled(old(State()), t, State())
    {
      var limit := SmallestLimit(topics[t]);
      if limit.Some? {
        topics := topics[t := topics[t].(maxSize := limit.value)];
      } else {
        topicNames := topicNames - {topics[t].name};
        topics := topics - {t};
      }
    }

    method UnadvertiseTopic(connection: nat, node: nat, e: nat) returns (r: ErrorCode)
      requires RegInv(State())
      modifies this
      ensures RegInv(State()) && (State(), r) == Unadvertise(old(State()), connection, node, e)
    {
      UnadvertiseKeeps(State(), connection, node, e);
      if node !in nodes || nodes[node].control != connection || e !in pubs || pubs[e].node != node {
        return EndpointNotFound;
      }
      TakeOutPublisher(e);
      r := Ok;
    }

    method TakeOutPublisher(e: nat)
      requires RegInv(State()) && e in pubs
      modifies this`nodes, this`pubs, this`topics, this`topicNames
      ensures State() == Pruned(old(State()), {e})
    {
      var node, t := pubs[e].node, pubs[e].topic;
      RemovePubSettles(State(), e);
      nodes := nodes[node := nodes[node].(pubs := nodes[node].pubs - {e})];
      pubs := pubs - {e};
      topics := topics[t := topics[t].(publisher := None, pool := NO_POOL)];
      assert State() == RemovedPub(old(State()), e);
      SettleTopic(t);
      RemovePubIsPruned(old(State()), e, State());
    }

    method UnsubscribeTopic(connection: nat, node: nat, e: nat) returns (r: ErrorCode)
      requires RegInv(State())
      modifies this
      ensures RegInv(State()) && (State(), r) == Unsubscribe(old(State()), connection, node, e)
    {
      UnsubscribeKeeps(State(), connection, node, e);
      if node !in nodes || nodes[node].control != connection || e !in subs || subs[e].node != node {
        return EndpointNotFound;
      }
      TakeOutSubscriber(e);
      r := Ok;
    }

    method TakeOutSubscriber(e: nat)
      requires RegInv(State()) && e in subs
      modifies this`nodes, this`subs, this`topics, this`topicNames
      ensures State() == Pruned(old(State()), {e})
    {
      var node, t := subs[e].node, subs[e].topic;
      RemoveSubSettles(State(), e);
      nodes := nodes[node := nodes[node].(subs := nodes[node].subs - {e})];
      subs := subs - {e};
      topics := topics[t := topics[t].(subs := topics[t].subs - {e})];
      assert State() == RemovedSub(old(State()), e);
      SettleTopic(t);
      RemoveSubIsPruned(old(State()), e, State());
    }

    // ---- whole nodes ----

    /** unregisterNode: gives up the node's endpoints one by one, then the node. */
    method UnregisterNode(connection: nat, node: nat) returns (r: ErrorCode)
      requires RegInv(State())
      modifies this
      ensures RegInv(State()) && (State(), r) == Unregister(old(State()), connection, node)
    {
      UnregisterKeeps(State(), connection, node);
      if node !in nodes || nodes[node].control != connection { return NotRegistered; }
      ghost var before := State();
      var ps, ss := nodes[node].pubs, nodes[node].subs;
      PrunedNone(before);
      DropPublishers(connection, node, ps, before);
      DropSubscribers(connection, node, ss, before);
      EraseNode(node, before);
      r := Ok;
    }

    method EraseNode(node: nat, ghost before: Reg)
      requires node in before.nodes && State() == Pruned(before, before.nodes[node].pubs + before.nodes[node].subs)
      modifies this`nodes, this`names
      ensures State() == Without(before, node)
    {
      names := names - {nodes[node].name};
      nodes := nodes - {node};
    }

    /** The state is what was there before without the endpoints in `gone`. */
    ghost predicate PrunedTo(before: Reg, gone: set<nat>)
      reads this
    {
      RegInv(before) && RegInv(State()) && State() == Pruned(before, gone)
    }

    method DropPublisher(connection: nat, node: nat, e: nat, ghost before: Reg, ghost gone: set<nat>)
      requires PrunedTo(before, gone) && Owns(before, connection, node) && e in before.nodes[node].pubs && e !in gone
      modifies this
      ensures PrunedTo(before, gone + {e})
    {
      PubStays(before, connection, node, gone, e);
      var r := UnadvertiseTopic(connection, node, e);
      PrunedTwice(before, gone, {e});
    }

    method DropSubscriber(connection: nat, node: nat, e: nat, ghost before: Reg, ghost gone: set<nat>)
      requires PrunedTo(before, gone) && Owns(before, connection, node) && e in before.nodes[node].subs && e !in gone
      modifies this
      ensures PrunedTo(before, gone + {e})
    {
      SubStays(before, connection, node, gone, e);
      var r := UnsubscribeTopic(connection, node, e);
      PrunedTwice(before, gone, {e});
    }

    method DropPublishers(connection: nat, node: nat, ps: set<nat>, ghost before: Reg)
      requires PrunedTo(before, {}) && Owns(before, connection, node) && ps == before.nodes[node].pubs
      modifies this
      ensures PrunedTo(before, ps)
    {
      var es := Ascending(ps, nextEndpoint);
      EndpointsBelow(before, node);
      DropPublisherList(connection, node, es, before);
    }

    method DropPublisherList(connection: nat, node: nat, es: seq<nat>, ghost before: Reg)
      requires PrunedTo(before, {})
      requires NoDup(es) && Owns(before, connection, node) && Elements(es) == before.nodes[node].pubs
      modifies this
      ensures PrunedTo(before, Elements(es))
    {
      assert Elements(es[..0]) == {};
      var k := 0;
      while k < |es|
        invariant 0 <= k <= |es| && PrunedTo(before, Elements(es[..k]))
      {
        DropPublisherAt(connection, node, es, k, before);
        k := k + 1;
      }
      assert es[..k] == es;
    }

    method DropPublisherAt(connection: nat, node: nat, es: seq<nat>, k: nat, ghost before: Reg)
      requires k < |es| && NoDup(es) && Owns(before, connection, node) && Elements(es) == before.nodes[node].pubs
      requires PrunedTo(before, Elements(es[..k]))
      modifies this
      ensures PrunedTo(before, Elements(es[..k + 1]))
    {
      ElementsNext(es, k);
      DropPublisher(connection, node, es[k], before, Elements(es[..k]));
    }

    method DropSubscribers(connection: nat, node: nat, ss: set<nat>, ghost before: Reg)
      requires Owns(before, connection, node) && ss == before.nodes[node].subs
      requires PrunedTo(before, before.nodes[node].pubs)
      modifies this
      ensures PrunedTo(before, before.nodes[node].pubs + ss)
    {
      ghost var ps := before.nodes[node].pubs;
      var es := Ascending(ss, nextEndpoint);
      EndpointsBelow(before, node);
      DropSubscriberList(connection, node, es, before, ps);
    }

    method DropSubscriberList(connection: nat, node: nat, es: seq<nat>, ghost before: Reg, ghost ps: set<nat>)
      requires PrunedTo(before, ps) && NoDup(es) && Owns(before, connection, node)
      requires Elements(es) == before.nodes[node].subs && ps !! Elements(es)
      modifies this
      ensures PrunedTo(before, ps + Elements(es))
    {
      assert ps + Elements(es[..0]) == ps;
      var k := 0;
      while k < |es|
        invariant 0 <= k <= |es| && PrunedTo(before, ps + Elements(es[..k]))
      {
        DropSubscriberAt(connection, node, es, k, before, ps);
        k := k + 1;
      }
      assert es[..k] == es;
    }

    method DropSubscriberAt(connection: nat, node: nat, es: seq<nat>, k: nat, ghost before: Reg, ghost ps: set<nat>)
      requires k < |es| && NoDup(es) && Owns(before, connection, node)
      requires Elements(es) == before.nodes[node].subs && ps !! Elements(es)
      requires PrunedTo(before, ps + Elements(es[..k]))
      modifies this
      ensures PrunedTo(before, ps + Elements(es[..k + 1]))
    {
      ElementsNext(es, k);
      assert ps + Elements(es[..k]) + {es[k]} == ps + Elements(es[..k + 1]);
      DropSubscriber(connection, node, es[k], before, ps + Elements(es[..k]));
    }

    // ---- dead nodes ----

    /** What a dead publisher leaves behind and whom its death concerns. */
    method PlanPublishers(es: seq<nat>) returns (pools: seq<PoolInfo>, events: seq<PeerEvent>)
      ensures pools == Pools(State(), es) && events == PubEvents(State(), es)
    {
      pools, events := [], [];
      var k := 0;
      while k < |es|
        invariant 0 <= k <= |es| && pools == Pools(State(), es[..k]) && events == PubEvents(State(), es[..k])
      {
        assert es[..k + 1][..k] == es[..k];
        if es[k] in pubs {
          if pubs[es[k]].pool.name != "" { pools := pools + [pubs[es[k]].pool]; }
          var more := PlanAudience(es[k]);
          events := events + more;
        }
        k := k + 1;
      }
      assert es[..k] == es;
    }

    method PlanAudience(e: nat) returns (events: seq<PeerEvent>)
      requires e in pubs
      ensures events == EventsOfPub(State(), e, Audience(State(), e))
    {
      events := [];
      var ss := Audience(State(), e);
      var k := 0;
      while k < |ss|
        invariant 0 <= k <= |ss| && events == EventsOfPub(State(), e, ss[..k])
      {
        assert ss[..k + 1][..k] == ss[..k];
        if ss[k] in subs {
          events := events + [PublisherDead(subs[ss[k]].node, ss[k], e, pubs[e].topic, pubs[e].pool.poolId)];
        }
        k := k + 1;
      }
      assert ss[..k] == ss;
    }

    method PlanSubscribers(ss: seq<nat>) returns (queues: seq<QueueInfo>, paths: seq<string>, events: seq<PeerEvent>)
      ensures queues == Queues(State(), ss) && paths == Paths(State(), ss) && events == SubEvents(State(), ss)
    {
      queues, paths, events := [], [], [];
      var k := 0;
      while k < |ss|
        invariant 0 <= k <= |ss|
        invariant queues == Queues(State(), ss[..k]) && paths == Paths(State(), ss[..k])
                  && events == SubEvents(State(), ss[..k])
      {
        assert ss[..k + 1][..k] == ss[..k];
        if ss[k] in subs {
          var s := subs[ss[k]];
          if s.queue.name != "" { queues := queues + [s.queue]; }
          paths := paths + [s.path];
          if s.topic in topics && topics[s.topic].publisher.Some? && topics[s.topic].publisher.value in pubs {
            var e := topics[s.topic].publisher.value;
            events := events + [SubscriberDead(pubs[e].node, e, ss[k], s.topic, s.queue.queueId)];
          }
        }
        k := k + 1;
      }
      assert ss[..k] == ss;
    }

    /** cleanupDeadNode: the plan as the node stood, and the registry without it. */
    method CleanupDeadNode(node: nat) returns (plan: Option<Plan>)
      requires RegInv(State())
      modifies this
      ensures RegInv(State()) && State() == Without(old(State()), node)
      ensures plan == if node in old(nodes) then Some(PlanOf(old(State()), node)) else None
    {
      if node !in nodes { return None; }
      var n := nodes[node];
      var pools, pubEvents := PlanPublishers(Ascending(n.pubs, nextEndpoint));
      var queues, paths, subEvents := PlanSubscribers(Ascending(n.subs, nextEndpoint));
      plan := Some(Plan(node, n.session, n.control, n.heartbeat, pools, queues, paths, pubEvents + subEvents));
      var _ := UnregisterNode(n.control, node);
    }

    /** Cleans up the given nodes in order. */
    method CleanupAll(ids: seq<nat>) returns (plans: seq<Plan>)
      requires RegInv(State()) && NoDup(ids) && forall k :: 0 <= k < |ids| ==> ids[k] in nodes
      modifies this
      ensures RegInv(State()) && State() == WithoutAll(old(State()), ids)
      ensures PlansOf(old(State()), ids, plans)
    {
      plans := [];
      var k := 0;
      ghost var before := State();
      while k < |ids|
        invariant 0 <= k <= |ids| && RegInv(State()) && State() == WithoutAll(before, ids[..k])
        invariant PlansOf(before, ids[..k], plans)
      {
        StillThere(before, ids, k);
        var plan := CleanupDeadNode(ids[k]);
        PlansNext(before, ids, k, plans, plan.value);
        plans := plans + [plan.value];
        k := k + 1;
      }
      assert ids[..k] == ids;
    }

    /** evaluateLiveness: suspects are marked, the overdue are cleaned up. */
    method EvaluateLiveness(now: int) returns (suspected: seq<nat>, plans: seq<Plan>)
      requires RegInv(State())
      modifies this
      ensures RegInv(State()) && State() == Evaluate(old(State()), now, timing)
      ensures PlansOf(MarkAll(old(State()), now, timing), Ascending(Expired(old(State()), now, timing), old(nextNode)),
                      plans)
      ensures suspected == Ascending(Suspects(old(State()), now, timing), old(nextNode))
    {
      ghost var before := State();
      EvaluateKeeps(before, now, timing);
      NodesAlike(before, MarkAll(before, now, timing).nodes);
      var dead: seq<nat>;
      suspected, dead := MarkSuspects(now, before);
      AscendingFacts(Expired(before, now, timing), before.nextNode);
      assert forall k :: 0 <= k < |dead| ==> dead[k] in dead;
      plans := CleanupAll(dead);
    }

    method MarkOne(n: nat, now: int) returns (suspect: bool, dead: bool)
      requires n in nodes
      modifies this`nodes
      ensures nodes == old(nodes)[n := Marked(old(nodes)[n], now, timing)]
      ensures suspect <==> NewlySuspect(old(nodes)[n], now, timing)
      ensures dead <==> now - old(nodes)[n].lastSeen >= timing.dead
    {
      var elapsed := now - nodes[n].lastSeen;
      suspect := false;
      if elapsed >= timing.suspect && nodes[n].liveness == Alive {
        nodes := nodes[n := nodes[n].(liveness := Suspected)];
        suspect := elapsed < timing.dead;
      }
      dead := elapsed >= timing.dead;
    }

    method MarkSuspects(now: int, ghost before: Reg) returns (suspected: seq<nat>, dead: seq<nat>)
      requires RegInv(before) && before == State()
      modifies this`nodes
      ensures State() == MarkAll(before, now, timing)
      ensures dead == Ascending(Expired(before, now, timing), before.nextNode)
      ensures suspected == Ascending(Suspects(before, now, timing), before.nextNode)
    {
      suspected, dead := [], [];
      ghost var newly := Suspects(before, now, timing);
      ghost var overdue := Expired(before, now, timing);
      SameMap(nodes, PartlyMarked(before.nodes, 0, now, timing));
      var n := 0;
      while n < nextNode
        invariant 0 <= n <= nextNode
        invariant nodes == PartlyMarked(before.nodes, n, now, timing)
        invariant dead == Ascending(overdue, n) && suspected == Ascending(newly, n)
      {
        PartlyNext(before.nodes, n, now, timing);
        if n in nodes {
          var suspect, expired := MarkOne(n, now);
          assert (suspect <==> n in newly) && (expired <==> n in overdue);
          if suspect { suspected := suspected + [n]; }
          if expired { dead := dead + [n]; }
        }
        n := n + 1;
      }
      SameMap(nodes, MarkAll(before, now, timing).nodes);
    }

    /** disconnectConnection: every node the connection owns dies with it. */
    method DisconnectConnection(connection: nat) returns (plans: seq<Plan>)
      requires RegInv(State())
      modifies this
      ensures RegInv(State()) && State() == Disconnect(old(State()), connection)
      ensures PlansOf(old(State()), Ascending(OwnedBy(old(State()), connection), old(nextNode)), plans)
    {
      DisconnectKeeps(State(), connection);
      var owned := set n | n in nodes && nodes[n].control == connection;
      var ids := Ascending(owned, nextNode);
      AscendingFacts(owned, nextNode);
      assert forall k :: 0 <= k < |ids| ==> ids[k] in ids;
      plans := CleanupAll(ids);
      if plans == [] { DetachHeartbeat(connection); }
    }

    /** disconnect, for a connection that controls no node: every node that beat through it is left without one. */
    method DetachHeartbeat(connection: nat)
      modifies this`nodes
      ensures State() == Detached(old(State()), connection)
      ensures connection != 0 ==> forall n :: n in nodes ==> nodes[n].heartbeat != connection
    {
      var left := nodes.Keys;
      ghost var before := nodes;
      while left != {}
        invariant nodes.Keys == before.Keys && left <= nodes.Keys
        invariant forall n :: n in nodes ==>
                    nodes[n] == if n !in left && before[n].heartbeat == connection
                                then before[n].(heartbeat := 0) else before[n]
      {
        var n :| n in left;
        if nodes[n].heartbeat == connection { nodes := nodes[n := nodes[n].(heartbeat := 0)]; }
        left := left - {n};
      }
      assert nodes == Detached(old(State()), connection).nodes;
    }

    // ---- discovery ----

    /** resolve: the subscribers of a publisher's topic, in order, or why there are none. */
    method Resolve(connection: nat, node: nat, e: nat)
      returns (error: ErrorCode, found: seq<(nat, string, nat, QueueInfo)>)
      requires RegInv(State())
      ensures error == ResolveError(State(), connection, node, e)
      ensures error == Ok ==>
                && |found| == |Audience(State(), e)| > 0
                && forall k :: 0 <= k < |found| ==>
                     var s := Audience(State(), e)[k];
                     && s in subs && subs[s].topic == pubs[e].topic
                     && found[k] == (s, subs[s].path, subs[s].maxSize, subs[s].queue)
      ensures error == Ok ==> forall s :: s in subs && subs[s].topic == pubs[e].topic ==> s in Audience(State(), e)
    {
      found := [];
      if node !in nodes || nodes[node].control != connection || e !in pubs || pubs[e].node != node {
        return EndpointNotFound, [];
      }
      ResolveFacts(State(), e);
      if topics[pubs[e].topic].subs == {} { return TopicNotFound, []; }
      var ss := Audience(State(), e);
      var k := 0;
      while k < |ss|
        invariant 0 <= k <= |ss| == |Audience(State(), e)| && |found| == k
        invariant forall j :: 0 <= j < k ==>
                    found[j] == (ss[j], subs[ss[j]].path, subs[ss[j]].maxSize, subs[ss[j]].queue)
      {
        assert ss[k] in ss;
        found := found + [(ss[k], subs[ss[k]].path, subs[ss[k]].maxSize, subs[ss[k]].queue)];
        k := k + 1;
      }
      error := Ok;
      forall j | 0 <= j < |ss| ensures ss[j] in subs && subs[ss[j]].topic == pubs[e].topic { assert ss[j] in ss; }
    }
  }

  /** Reported as suspected by this evaluation: silent long enough now, not marked before, not overdue. */
  predicate NewlySuspect(n: Node, now: int, t: Timing) {
    n.liveness == Alive && t.suspect <= now - n.lastSeen < t.dead
  }

  function Suspects(r: Reg, now: int, t: Timing): set<nat> {
    set n | n in r.nodes && NewlySuspect(r.nodes[n], now, t)
  }

  ghost function PartlyMarked(nodes: map<nat, Node>, n: nat, now: int, t: Timing): map<nat, Node> {
    map m | m in nodes :: if m < n then Marked(nodes[m], now, t) else nodes[m]
  }

  lemma PartlyNext(nodes: map<nat, Node>, n: nat, now: int, t: Timing)
    ensures n !in nodes ==> PartlyMarked(nodes, n + 1, now, t) == PartlyMarked(nodes, n, now, t)
    ensures n in nodes ==>
              && PartlyMarked(nodes, n, now, t)[n] == nodes[n]
              && PartlyMarked(nodes, n + 1, now, t) == PartlyMarked(nodes, n, now, t)[n := Marked(nodes[n], now, t)]
  {
  }

  /** What resolve answers: a request for a topic without subscribers cannot be answered yet. */
  function ResolveError(r: Reg, connection: nat, node: nat, e: nat): ErrorCode {
    if !Owns(r, connection, node) || e !in r.pubs || r.pubs[e].node != node then EndpointNotFound
    else if r.pubs[e].topic !in r.topics || r.topics[r.pubs[e].topic].subs == {} then TopicNotFound
    else Ok
  }

  lemma ResolveFacts(r: Reg, e: nat)
    requires RegInv(r) && e in r.pubs
    ensures r.pubs[e].topic in r.topics
    ensures forall s :: s in Audience(r, e) <==> s in r.subs && r.subs[s].topic == r.pubs[e].topic
    ensures r.topics[r.pubs[e].topic].subs != {} <==> Audience(r, e) != []
  {
    assert PubOk(r.nodes, r.topics, e, r.pubs[e]);
    forall s: nat ensures s in Audience(r, e) <==> s in r.subs && r.subs[s].topic == r.pubs[e].topic {
      AudienceExact(r, e, s);
    }
    var t := r.topics[r.pubs[e].topic];
    assert TopicSubsOk(r.subs, r.pubs[e].topic, t);
    AscendingFacts(t.subs, r.nextEndpoint);
    if t.subs != {} {
      var s :| s in t.subs;
      assert s in Audience(r, e);
    }
    if Audience(r, e) != [] { assert Audience(r, e)[0] in t.subs; }
  }

  /** Each plan describes its node as it stood when its turn came. */
  ghost predicate PlansOf(r: Reg, ids: seq<nat>, plans: seq<Plan>) {
    |plans| == |ids|
    && forall k :: 0 <= k < |ids| ==>
         ids[k] in WithoutAll(r, ids[..k]).nodes && plans[k] == PlanOf(WithoutAll(r, ids[..k]), ids[k])
  }

  lemma FrontPlans(r: Reg, ids: seq<nat>, plans: seq<Plan>, k: nat)
    requires PlansOf(r, ids, plans) && k <= |ids|
    ensures PlansOf(r, ids[..k], plans[..k])
  {
    var a, b := ids[..k], plans[..k];
    forall i | 0 <= i < k
      ensures a[i] in WithoutAll(r, a[..i]).nodes && b[i] == PlanOf(WithoutAll(r, a[..i]), a[i])
    {
      assert a[..i] == ids[..i] && a[i] == ids[i] && b[i] == plans[i];
    }
  }

  lemma StillThere(r: Reg, ids: seq<nat>, k: nat)
    requires k < |ids| && NoDup(ids) && ids[k] in r.nodes
    ensures ids[k] in WithoutAll(r, ids[..k]).nodes
    ensures WithoutAll(r, ids[..k + 1]) == Without(WithoutAll(r, ids[..k]), ids[k])
  {
    WithoutAllNodes(r, ids[..k]);
    assert ids[..k + 1][..k] == ids[..k] && ids[k] !in ids[..k];
  }

  lemma PlansNext(r: Reg, ids: seq<nat>, k: nat, plans: seq<Plan>, plan: Plan)
    requires k < |ids| && PlansOf(r, ids[..k], plans)
    requires ids[k] in WithoutAll(r, ids[..k]).nodes && plan == PlanOf(WithoutAll(r, ids[..k]), ids[k])
    ensures PlansOf(r, ids[..k + 1], plans + [plan])
  {
    var now := ids[..k + 1];
    forall j | 0 <= j <= k
      ensures now[j] in WithoutAll(r, now[..j]).nodes && (plans + [plan])[j] == PlanOf(WithoutAll(r, now[..j]), now[j])
    {
      assert now[..j] == ids[..j];
      if j < k { assert ids[..k][..j] == ids[..j] && ids[..k][j] == now[j]; }
    }
  }

  /** The endpoints of a node, in order and once each. */
  lemma EndpointsBelow(r: Reg, node: nat)
    requires RegInv(r) && node in r.nodes
    ensures Elements(Ascending(r.nodes[node].pubs, r.nextEndpoint)) == r.nodes[node].pubs
    ensures Elements(Ascending(r.nodes[node].subs, r.nextEndpoint)) == r.nodes[node].subs
    ensures NoDup(Ascending(r.nodes[node].pubs, r.nextEndpoint)) && NoDup(Ascending(r.nodes[node].subs, r.nextEndpoint))
    ensures r.nodes[node].pubs !! r.nodes[node].subs
  {
    assert NodePubsOk(r.pubs, node, r.nodes[node]) && NodeSubsOk(r.subs, node, r.nodes[node]);
    AscendingFacts(r.nodes[node].pubs, r.nextEndpoint);
    AscendingFacts(r.nodes[node].subs, r.nextEndpoint);
  }

  /** An endpoint not pruned is still there and still its node's. */
  lemma SubStays(r: Reg, connection: nat, node: nat, gone: set<nat>, e: nat)
    requires RegInv(r) && Owns(r, connection, node) && e in r.nodes[node].subs
    ensures Owns(Pruned(r, gone), connection, node) && e !in r.nodes[node].pubs
    ensures e !in gone ==> e in Pruned(r, gone).subs && Pruned(r, gone).subs[e].node == node
  {
    assert NodePubsOk(r.pubs, node, r.nodes[node]) && NodeSubsOk(r.subs, node, r.nodes[node]);
  }

  lemma PubStays(r: Reg, connection: nat, node: nat, gone: set<nat>, e: nat)
    requires RegInv(r) && Owns(r, connection, node) && e in r.nodes[node].pubs
    ensures Owns(Pruned(r, gone), connection, node)
    ensures e !in gone ==> e in Pruned(r, gone).pubs && Pruned(r, gone).pubs[e].node == node
  {
    assert NodePubsOk(r.pubs, node, r.nodes[node]);
  }

  // ---- the records of one endpoint ----

  ghost predicate CanSettle(r: Reg, t: Topic) {
    && (t.publisher.Some? ==> t.publisher.value in r.pubs && r.pubs[t.publisher.value].maxSize < U32_LIMIT)
    && (forall e :: e in t.subs ==> e in r.subs && e < r.nextEndpoint && r.subs[e].maxSize < U32_LIMIT)
  }

  /** A topic has its limit recomputed, or disappears when it is empty. */
  ghost predicate Settled(r: Reg, t: nat, q: Reg)
    requires t in r.topics
  {
    var topic := r.topics[t];
    && q == r.(topics := q.topics, topicNames := q.topicNames)
    && if Vacant(topic) then q.topics == r.topics - {t} && q.topicNames == r.topicNames - {topic.name}
       else
         && q.topicNames == r.topicNames && t in q.topics && q.topics == r.topics[t := q.topics[t]]
         && q.topics[t] == topic.(maxSize := q.topics[t].maxSize)
         && Least(SizesOf(topic, r.pubs, r.subs), q.topics[t].maxSize)
  }

  ghost predicate HasPub(r: Reg, e: nat) {
    e in r.pubs && r.pubs[e].node in r.nodes && r.pubs[e].topic in r.topics
  }

  ghost predicate HasSub(r: Reg, e: nat) {
    e in r.subs && r.subs[e].node in r.nodes && r.subs[e].topic in r.topics
  }

  /** The publisher's three records taken out, before its topic is settled. */
  ghost function RemovedPub(r: Reg, e: nat): Reg
    requires HasPub(r, e)
  {
    var node, t := r.pubs[e].node, r.pubs[e].topic;
    r.(pubs := r.pubs - {e}, nodes := r.nodes[node := r.nodes[node].(pubs := r.nodes[node].pubs - {e})],
       topics := r.topics[t := r.topics[t].(publisher := None, pool := NO_POOL)])
  }

  ghost function RemovedSub(r: Reg, e: nat): Reg
    requires HasSub(r, e)
  {
    var node, t := r.subs[e].node, r.subs[e].topic;
    r.(subs := r.subs - {e}, nodes := r.nodes[node := r.nodes[node].(subs := r.nodes[node].subs - {e})],
       topics := r.topics[t := r.topics[t].(subs := r.topics[t].subs - {e})])
  }

  lemma RemovePubSettles(r: Reg, e: nat)
    requires RegInv(r) && e in r.pubs
    ensures HasPub(r, e)
    ensures var q := RemovedPub(r, e); CanSettle(q, q.topics[r.pubs[e].topic])
  {
    assert PubOk(r.nodes, r.topics, e, r.pubs[e]);
    EndpointFacts(r, e, r.pubs[e].node, r.pubs[e].topic);
  }

  lemma RemoveSubSettles(r: Reg, e: nat)
    requires RegInv(r) && e in r.subs
    ensures HasSub(r, e)
    ensures var q := RemovedSub(r, e); CanSettle(q, q.topics[r.subs[e].topic])
  {
    assert SubOk(r.nodes, r.topics, e, r.subs[e]);
    EndpointFacts(r, e, r.subs[e].node, r.subs[e].topic);
  }

  lemma RemovePubIsPruned(r: Reg, e: nat, q: Reg)
    requires RegInv(r) && HasPub(r, e) && Settled(RemovedPub(r, e), r.pubs[e].topic, q)
    ensures q == Pruned(r, {e})
  {
    var node, t := r.pubs[e].node, r.pubs[e].topic;
    EndpointFacts(r, e, node, t);
    assert r.subs - {e} == r.subs;
    if Vacant(RemovedPub(r, e).topics[t]) { assert q.topics == r.topics - {t}; }
    assert Left(r, e, t, q.topics, q.topicNames);
    PrunedOne(r, e, node, t, q.topics, q.topicNames);
  }

  lemma RemoveSubIsPruned(r: Reg, e: nat, q: Reg)
    requires RegInv(r) && HasSub(r, e) && Settled(RemovedSub(r, e), r.subs[e].topic, q)
    ensures q == Pruned(r, {e})
  {
    var node, t := r.subs[e].node, r.subs[e].topic;
    EndpointFacts(r, e, node, t);
    assert r.pubs - {e} == r.pubs;
    if Vacant(RemovedSub(r, e).topics[t]) { assert q.topics == r.topics - {t}; }
    assert Left(r, e, t, q.topics, q.topicNames);
    PrunedOne(r, e, node, t, q.topics, q.topicNames);
  }

  /** How an endpoint sits in its node and topic. */
  lemma EndpointFacts(r: Reg, e: nat, node: nat, t: nat)
    requires RegInv(r) && Belongs(r, e, node, t) && node in r.nodes && t in r.topics
    ensures e in r.pubs ==>
              e !in r.subs && r.topics[t].publisher == Some(e) && e !in r.topics[t].subs && e !in r.nodes[node].subs
    ensures e in r.subs ==> e !in r.pubs && r.topics[t].publisher != Some(e) && e !in r.nodes[node].pubs
    ensures r.topics[t].publisher.Some? ==>
              r.topics[t].publisher.value in r.pubs && r.pubs[r.topics[t].publisher.value].maxSize < U32_LIMIT
    ensures forall s :: s in r.topics[t].subs ==> s in r.subs && s < r.nextEndpoint && r.subs[s].maxSize < U32_LIMIT
    ensures e in r.pubs ==> PrunedTopic(r.topics[t], {e}) == r.topics[t].(publisher := None, pool := NO_POOL)
    ensures e in r.subs ==> PrunedTopic(r.topics[t], {e}) == r.topics[t].(subs := r.topics[t].subs - {e})
    ensures e in r.pubs ==> PrunedNode(r.nodes[node], {e}) == r.nodes[node].(pubs := r.nodes[node].pubs - {e})
    ensures e in r.subs ==> PrunedNode(r.nodes[node], {e}) == r.nodes[node].(subs := r.nodes[node].subs - {e})
  {
    assert TopicPubOk(r.pubs, t, r.topics[t]) && TopicSubsOk(r.subs, t, r.topics[t]);
    assert NodePubsOk(r.pubs, node, r.nodes[node]) && NodeSubsOk(r.subs, node, r.nodes[node]);
    if e in r.pubs {
      assert PubOk(r.nodes, r.topics, e, r.pubs[e]);
      assert r.topics[t].subs - {e} == r.topics[t].subs && r.nodes[node].subs - {e} == r.nodes[node].subs;
    }
    if e in r.subs {
      assert SubOk(r.nodes, r.topics, e, r.subs[e]);
      assert r.nodes[node].pubs - {e} == r.nodes[node].pubs;
    }
  }
}
