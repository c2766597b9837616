/** What an endpoint was created with is what the registry says of it for as long as it exists. */
module EndpointRecords {
  import opened Basics
  import opened RegistryModel
  import opened RegistryLemmas
  import opened RegistryRemoval
  import opened RegistryCleanup
  import opened RegistryRuns

  /** Of the endpoints and topics that `r` knew, `q` has some, unchanged; what else it has is new. */
  ghost predicate Later(r: Reg, q: Reg) {
    && r.nextEndpoint <= q.nextEndpoint && r.nextTopic <= q.nextTopic
    && (forall e :: e in q.pubs && e < r.nextEndpoint ==> e in r.pubs && q.pubs[e] == r.pubs[e])
    && (forall e :: e in q.subs && e < r.nextEndpoint ==> e in r.subs && q.subs[e] == r.subs[e])
    && (forall u :: u in q.topics && u < r.nextTopic ==> u in r.topics && q.topics[u].name == r.topics[u].name)
  }

  lemma LaterTwice(r: Reg, p: Reg, q: Reg)
    requires Later(r, p) && Later(p, q)
    ensures Later(r, q)
  {
  }

  lemma PrunedLater(r: Reg, gone: set<nat>)
    ensures Later(r, Pruned(r, gone))
  {
    var q := Pruned(r, gone);
    forall u | u in q.topics ensures q.topics[u].name == r.topics[u].name {
      ResizedKeeps(PrunedTopic(r.topics[u], gone), q.pubs, q.subs);
    }
  }

  lemma WithoutLater(r: Reg, node: nat)
    ensures Later(r, Without(r, node))
  {
    if node in r.nodes { PrunedLater(r, r.nodes[node].pubs + r.nodes[node].subs); }
  }

  lemma {:induction false} WithoutAllLater(r: Reg, ids: seq<nat>)
    ensures Later(r, WithoutAll(r, ids))
  {
    if ids != [] {
      var k := |ids| - 1;
      WithoutAllLater(r, ids[..k]);
      WithoutLater(WithoutAll(r, ids[..k]), ids[k]);
      LaterTwice(r, WithoutAll(r, ids[..k]), WithoutAll(r, ids));
    }
  }

  lemma AdvertiseLater(r: Reg, connection: nat, node: nat, s: TopicSpec, pool: PoolInfo)
    requires TopicNamesOk(r.topics, r.topicNames)
    ensures Later(r, Advertise(r, connection, node, s, pool).0)
  {
  }

  lemma SubscribeLater(r: Reg, connection: nat, node: nat, s: TopicSpec, path: string, queue: QueueInfo)
    requires TopicNamesOk(r.topics, r.topicNames)
    ensures Later(r, Subscribe(r, connection, node, s, path, queue).0)
  {
  }

  lemma ManyLater(r: Reg, op: RegOp, now: int, t: Timing)
    requires RegInv(r) && (op.DoEvaluate? || op.DoDisconnect?)
    ensures Later(r, Apply(r, op, now, t))
  {
    if op.DoEvaluate? {
      WithoutAllLater(MarkAll(r, now, t), Ascending(Expired(r, now, t), r.nextNode));
    } else {
      WithoutAllLater(r, Ascending(OwnedBy(r, op.connection), r.nextNode));
    }
  }

  lemma OneLater(r: Reg, connection: nat, node: nat, e: nat)
    ensures Later(r, Unadvertise(r, connection, node, e).0)
    ensures Later(r, Unsubscribe(r, connection, node, e).0)
    ensures Later(r, Unregister(r, connection, node).0)
  {
    PrunedLater(r, {e});
    WithoutLater(r, node);
  }

  lemma NodeLater(r: Reg, op: RegOp, now: int, t: Timing)
    requires RegInv(r) && (op.DoRegister? || op.DoAttach? || op.DoHeartbeat? || op.DoDetach?)
    ensures Later(r, Apply(r, op, now, t))
  {
  }

  lemma ApplyLater(r: Reg, op: RegOp, now: int, t: Timing)
    requires RegInv(r)
    ensures Later(r, Apply(r, op, now, t))
  {
    match op
    case DoAdvertise(c, n, spec, pool) => AdvertiseLater(r, c, n, spec, pool);
    case DoSubscribe(c, n, spec, path, queue) => SubscribeLater(r, c, n, spec, path, queue);
    case DoUnadvertise(c, n, e) => OneLater(r, c, n, e);
    case DoUnsubscribe(c, n, e) => OneLater(r, c, n, e);
    case DoUnregister(c, n) => OneLater(r, c, n, 0);
    case DoEvaluate => ManyLater(r, op, now, t);
    case DoDisconnect(c) => ManyLater(r, op, now, t);
    case DoRegister(c, name) => NodeLater(r, op, now, t);
    case DoAttach(c, n, s) => NodeLater(r, op, now, t);
    case DoHeartbeat(c, n, s) => NodeLater(r, op, now, t);
    case DoDetach(c) => NodeLater(r, op, now, t);
  }

  lemma {:induction false} RunLater(r: Reg, ops: seq<Timed>, t: Timing)
    requires RegInv(r)
    ensures Later(r, RunOps(r, ops, t))
    decreases |ops|
  {
    if ops != [] {
      var p := Apply(r, ops[0].op, ops[0].now, t);
      ApplyKeeps(r, ops[0].op, ops[0].now, t);
      ApplyLater(r, ops[0].op, ops[0].now, t);
      RunLater(p, ops[1..], t);
      LaterTwice(r, p, RunOps(p, ops[1..], t));
    }
  }

  /** Both endpoints are on the topic of this name. */
  lemma SameTopic(q: Reg, a: nat, b: nat, name: string)
    requires RegInv(q) && a in q.topics && b in q.topics && q.topics[a].name == name == q.topics[b].name
    ensures a == b
  {
  }

  lemma NewSubscriber(r: Reg, c: nat, n: nat, s: TopicSpec, path: string, queue: QueueInfo)
    requires RegInv(r) && Subscribe(r, c, n, s, path, queue).1 == Ok
    ensures var q, e := Subscribe(r, c, n, s, path, queue).0, r.nextEndpoint;
            && e in q.subs && e < q.nextEndpoint && q.subs[e].node == n && q.subs[e].path == path
            && q.subs[e].maxSize == s.maxSize && q.subs[e].queue == queue
            && q.subs[e].topic in q.topics && q.topics[q.subs[e].topic].name == s.name && q.subs[e].topic < q.nextTopic
  {
  }

  lemma NewPublisher(r: Reg, c: nat, n: nat, s: TopicSpec, pool: PoolInfo)
    requires RegInv(r) && Advertise(r, c, n, s, pool).1 == Ok
    ensures var q, e := Advertise(r, c, n, s, pool).0, r.nextEndpoint;
            && e in q.pubs && e < q.nextEndpoint && q.pubs[e].node == n && q.pubs[e].pool == pool
            && q.pubs[e].maxSize == s.maxSize
            && q.pubs[e].topic in q.topics && q.topics[q.pubs[e].topic].name == s.name && q.pubs[e].topic < q.nextTopic
  {
  }

  /**
  A subscriber that was accepted, and is still there after any further run, is listed to the publisher of the
  topic it named, with the path, limit and queue it gave.
  */
  lemma SubscribedIsListed(r: Reg, c: nat, n: nat, s: TopicSpec, path: string, queue: QueueInfo, ops: seq<Timed>,
                           t: Timing, p: nat)
    requires RegInv(r) && Subscribe(r, c, n, s, path, queue).1 == Ok
    ensures RegInv(Subscribe(r, c, n, s, path, queue).0)
    ensures var q, e := RunOps(Subscribe(r, c, n, s, path, queue).0, ops, t), r.nextEndpoint;
            e in q.subs ==>
              && q.subs[e].path == path && q.subs[e].maxSize == s.maxSize && q.subs[e].queue == queue
              && q.subs[e].node == n
              && (p in q.pubs && q.pubs[p].topic in q.topics && q.topics[q.pubs[p].topic].name == s.name ==>
                    e in Audience(q, p))
  {
    var r1, e := Subscribe(r, c, n, s, path, queue).0, r.nextEndpoint;
    SubscribeKeeps(r, c, n, s, path, queue);
    NewSubscriber(r, c, n, s, path, queue);
    RunLater(r1, ops, t);
    ListedAfter(r1, RunOps(r1, ops, t), e, p, s.name);
  }

  lemma ListedAfter(r: Reg, q: Reg, e: nat, p: nat, name: string)
    requires RegInv(q) && Later(r, q) && e in r.subs && e < r.nextEndpoint
    requires r.subs[e].topic in r.topics && r.subs[e].topic < r.nextTopic && r.topics[r.subs[e].topic].name == name
    ensures e in q.subs ==> q.subs[e] == r.subs[e]
    ensures e in q.subs && p in q.pubs && q.pubs[p].topic in q.topics && q.topics[q.pubs[p].topic].name == name ==>
              e in Audience(q, p)
  {
    if e in q.subs && p in q.pubs && q.pubs[p].topic in q.topics && q.topics[q.pubs[p].topic].name == name {
      assert SubOk(q.nodes, q.topics, e, q.subs[e]);
      SameTopic(q, q.pubs[p].topic, q.subs[e].topic, name);
      AudienceExact(q, p, e);
    }
  }

  /** A publisher that was accepted, and is still there, is its topic's publisher, with the pool it gave. */
  lemma AdvertisedIsKnown(r: Reg, c: nat, n: nat, s: TopicSpec, pool: PoolInfo, ops: seq<Timed>, t: Timing)
    requires RegInv(r) && Advertise(r, c, n, s, pool).1 == Ok
    ensures RegInv(Advertise(r, c, n, s, pool).0)
    ensures var q, e := RunOps(Advertise(r, c, n, s, pool).0, ops, t), r.nextEndpoint;
            e in q.pubs ==>
              && q.pubs[e].node == n && q.pubs[e].pool == pool && q.pubs[e].maxSize == s.maxSize
              && s.name in q.topicNames && q.topicNames[s.name] in q.topics
              && q.topics[q.topicNames[s.name]].publisher == Some(e) && q.topics[q.topicNames[s.name]].pool == pool
  {
    var r1, e := Advertise(r, c, n, s, pool).0, r.nextEndpoint;
    AdvertiseKeeps(r, c, n, s, pool);
    NewPublisher(r, c, n, s, pool);
    RunLater(r1, ops, t);
    KnownAfter(r1, RunOps(r1, ops, t), e, s.name);
  }

  lemma KnownAfter(r: Reg, q: Reg, e: nat, name: string)
    requires RegInv(q) && Later(r, q) && e in r.pubs && e < r.nextEndpoint
    requires r.pubs[e].topic in r.topics && r.pubs[e].topic < r.nextTopic && r.topics[r.pubs[e].topic].name == name
    ensures e in q.pubs ==>
              && q.pubs[e] == r.pubs[e] && name in q.topicNames && q.topicNames[name] in q.topics
              && q.topics[q.topicNames[name]].publisher == Some(e)
              && q.topics[q.topicNames[name]].pool == q.pubs[e].pool
  {
    if e in q.pubs {
      assert PubOk(q.nodes, q.topics, e, q.pubs[e]);
      assert q.topics[q.pubs[e].topic].name == name;
    }
  }
}
