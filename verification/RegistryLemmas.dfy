/** Every registry operation keeps referential integrity. */
module RegistryLemmas {
  import opened Basics
  import opened RegistryModel

  // ---- changing one node ----

  lemma NodeNames(nodes: map<nat, Node>, names: map<string, nat>, node: nat, n: Node)
    requires NamesOk(nodes, names) && node in nodes && n.name == nodes[node].name
    ensures NamesOk(nodes[node := n], names)
  {
  }

  lemma NodePubs(nodes: map<nat, Node>, topics: map<nat, Topic>, pubs: map<nat, Pub>, node: nat, n: Node)
    requires PubsOk(nodes, topics, pubs)
    requires if node in nodes then n.pubs == nodes[node].pubs else n.pubs == {}
    ensures PubsOk(nodes[node := n], topics, pubs)
  {
    var nodes' := nodes[node := n];
    forall e | e in pubs ensures PubOk(nodes', topics, e, pubs[e]) {
      assert PubOk(nodes, topics, e, pubs[e]);
    }
    forall m | m in nodes' ensures NodePubsOk(pubs, m, nodes'[m]) {
      assert m in nodes ==> NodePubsOk(pubs, m, nodes[m]);
    }
  }

  lemma NodeSubs(nodes: map<nat, Node>, topics: map<nat, Topic>, subs: map<nat, Sub>, node: nat, n: Node)
    requires SubsOk(nodes, topics, subs)
    requires if node in nodes then n.subs == nodes[node].subs else n.subs == {}
    ensures SubsOk(nodes[node := n], topics, subs)
  {
    var nodes' := nodes[node := n];
    forall e | e in subs ensures SubOk(nodes', topics, e, subs[e]) {
      assert SubOk(nodes, topics, e, subs[e]);
    }
    forall m | m in nodes' ensures NodeSubsOk(subs, m, nodes'[m]) {
      assert m in nodes ==> NodeSubsOk(subs, m, nodes[m]);
    }
  }

  /** Connections, liveness and time are not part of referential integrity. */
  lemma TouchKeeps(r: Reg, node: nat, n: Node)
    requires RegInv(r) && node in r.nodes
    requires var m := r.nodes[node]; n.name == m.name && n.session == m.session && n.pubs == m.pubs && n.subs == m.subs
    ensures RegInv(r.(nodes := r.nodes[node := n]))
  {
    NodeNames(r.nodes, r.names, node, n);
    NodePubs(r.nodes, r.topics, r.pubs, node, n);
    NodeSubs(r.nodes, r.topics, r.subs, node, n);
  }

  lemma AttachKeeps(r: Reg, connection: nat, node: nat, session: nat)
    requires RegInv(r)
    ensures RegInv(Attach(r, connection, node, session).0)
  {
    if node in r.nodes { TouchKeeps(r, node, r.nodes[node].(heartbeat := connection)); }
  }

  lemma HeartbeatKeeps(r: Reg, connection: nat, node: nat, session: nat, now: int)
    requires RegInv(r)
    ensures RegInv(Heartbeat(r, connection, node, session, now).0)
  {
    if node in r.nodes { TouchKeeps(r, node, r.nodes[node].(lastSeen := now, liveness := Alive)); }
  }

  lemma RegisterKeeps(r: Reg, connection: nat, name: string, now: int)
    requires RegInv(r)
    ensures RegInv(Register(r, connection, name, now).0)
  {
    if name != "" && name !in r.names {
      var n := Node(r.nextSession, name, connection, 0, Alive, now, {}, {});
      assert r.nextNode !in r.nodes;
      NodePubs(r.nodes, r.topics, r.pubs, r.nextNode, n);
      NodeSubs(r.nodes, r.topics, r.subs, r.nextNode, n);
      NewName(r.nodes, r.names, r.nextNode, n);
    }
  }

  lemma NewName(nodes: map<nat, Node>, names: map<string, nat>, node: nat, n: Node)
    requires NamesOk(nodes, names) && node !in nodes && n.name !in names
    ensures NamesOk(nodes[node := n], names[n.name := node])
  {
  }

  // ---- changing one topic ----

  lemma TopicName(topics: map<nat, Topic>, names: map<string, nat>, t: nat, topic: Topic)
    requires TopicNamesOk(topics, names) && t in topics && topic.name == topics[t].name
    ensures TopicNamesOk(topics[t := topic], names)
  {
  }

  lemma TopicPubs(nodes: map<nat, Node>, topics: map<nat, Topic>, pubs: map<nat, Pub>, t: nat, topic: Topic)
    requires PubsOk(nodes, topics, pubs)
    requires if t in topics then
               topic.publisher == topics[t].publisher && FormatOf(topic) == FormatOf(topics[t])
                 && topic.pool == topics[t].pool
             else topic.publisher == None && topic.pool == NO_POOL
    ensures PubsOk(nodes, topics[t := topic], pubs)
  {
    var topics' := topics[t := topic];
    forall e | e in pubs ensures PubOk(nodes, topics', e, pubs[e]) {
      assert PubOk(nodes, topics, e, pubs[e]);
    }
    forall u | u in topics' ensures TopicPubOk(pubs, u, topics'[u]) {
      assert u in topics ==> TopicPubOk(pubs, u, topics[u]);
    }
  }

  lemma TopicSubs(nodes: map<nat, Node>, topics: map<nat, Topic>, subs: map<nat, Sub>, t: nat, topic: Topic)
    requires SubsOk(nodes, topics, subs)
    requires if t in topics then topic.subs == topics[t].subs && FormatOf(topic) == FormatOf(topics[t])
             else topic.subs == {}
    ensures SubsOk(nodes, topics[t := topic], subs)
  {
    var topics' := topics[t := topic];
    forall e | e in subs ensures SubOk(nodes, topics', e, subs[e]) {
      assert SubOk(nodes, topics, e, subs[e]);
    }
    forall u | u in topics' ensures TopicSubsOk(subs, u, topics'[u]) {
      assert u in topics ==> TopicSubsOk(subs, u, topics[u]);
    }
  }

  // ---- a new endpoint ----

  /** The topic is as it should be, or has just been created and has no endpoint yet. */
  ghost predicate Settling(t: Topic, pubs: map<nat, Pub>, subs: map<nat, Sub>, size: nat) {
    TopicOk(t, pubs, subs) || (SizesOf(t, pubs, subs) == {} && t.maxSize == size)
  }

  /** The integrity that findOrCreateTopic leaves. */
  ghost predicate Nearly(r: Reg, t: nat, size: nat) {
    && NamesOk(r.nodes, r.names)
    && TopicNamesOk(r.topics, r.topicNames)
    && PubsOk(r.nodes, r.topics, r.pubs)
    && SubsOk(r.nodes, r.topics, r.subs)
    && IdsOk(r)
    && t in r.topics
    && (forall u {:trigger TopicOk(r.topics[u], r.pubs, r.subs)} ::
          u in r.topics && u != t ==> TopicOk(r.topics[u], r.pubs, r.subs))
    && Settling(r.topics[t], r.pubs, r.subs, size)
  }

  lemma WithTopicNearly(r: Reg, s: TopicSpec)
    requires RegInv(r) && Agreement(r, s) == Ok
    ensures Nearly(WithTopic(r, s), TopicFor(r, s), s.maxSize)
    ensures FormatOf(WithTopic(r, s).topics[TopicFor(r, s)]) == Wanted(s)
  {
    if s.name !in r.topicNames {
      var topic := Topic(s.name, s.typeName, s.typeHash, s.transport, s.maxSize, None, {}, NO_POOL);
      assert r.nextTopic !in r.topics;
      TopicPubs(r.nodes, r.topics, r.pubs, r.nextTopic, topic);
      TopicSubs(r.nodes, r.topics, r.subs, r.nextTopic, topic);
      NewTopicName(r.topics, r.topicNames, r.nextTopic, topic);
      assert SizesOf(topic, r.pubs, r.subs) == {};
    } else {
      assert TopicOk(r.topics[TopicFor(r, s)], r.pubs, r.subs);
    }
  }

  lemma NewTopicName(topics: map<nat, Topic>, names: map<string, nat>, t: nat, topic: Topic)
    requires TopicNamesOk(topics, names) && t !in topics && topic.name !in names
    ensures TopicNamesOk(topics[t := topic], names[topic.name := t])
  {
  }

  lemma LeastWith(sizes: set<nat>, m: nat, size: nat)
    requires Least(sizes, m) || (sizes == {} && m == size)
    ensures Least(sizes + {size}, Min(m, size))
  {
  }

  lemma NewPub(nodes: map<nat, Node>, topics: map<nat, Topic>, pubs: map<nat, Pub>, e: nat, p: Pub, n: Node,
               topic: Topic)
    requires PubsOk(nodes, topics, pubs) && p.node in nodes && p.topic in topics && e !in pubs
    requires topics[p.topic].publisher == None && topic.publisher == Some(e) && topic.pool == p.pool
    requires FormatOf(topic) == p.format && n.pubs == nodes[p.node].pubs + {e}
    ensures PubsOk(nodes[p.node := n], topics[p.topic := topic], pubs[e := p])
  {
    var nodes', topics', pubs' := nodes[p.node := n], topics[p.topic := topic], pubs[e := p];
    forall d | d in pubs' ensures PubOk(nodes', topics', d, pubs'[d]) {
      assert d != e ==> PubOk(nodes, topics, d, pubs[d]);
    }
    forall m | m in nodes' ensures NodePubsOk(pubs', m, nodes'[m]) {
      assert NodePubsOk(pubs, m, nodes[m]);
    }
    forall u | u in topics' ensures TopicPubOk(pubs', u, topics'[u]) {
      assert TopicPubOk(pubs, u, topics[u]);
    }
  }

  lemma NewSub(nodes: map<nat, Node>, topics: map<nat, Topic>, subs: map<nat, Sub>, e: nat, p: Sub, n: Node,
               topic: Topic)
    requires SubsOk(nodes, topics, subs) && p.node in nodes && p.topic in topics && e !in subs
    requires topic.subs == topics[p.topic].subs + {e} && FormatOf(topic) == p.format == FormatOf(topics[p.topic])
    requires n.subs == nodes[p.node].subs + {e}
    ensures SubsOk(nodes[p.node := n], topics[p.topic := topic], subs[e := p])
  {
    var nodes', topics', subs' := nodes[p.node := n], topics[p.topic := topic], subs[e := p];
    forall d | d in subs' ensures SubOk(nodes', topics', d, subs'[d]) {
      assert d != e ==> SubOk(nodes, topics, d, subs[d]);
    }
    forall m | m in nodes' ensures NodeSubsOk(subs', m, nodes'[m]) {
      assert NodeSubsOk(subs, m, nodes[m]);
    }
    forall u | u in topics' ensures TopicSubsOk(subs', u, topics'[u]) {
      assert TopicSubsOk(subs, u, topics[u]);
    }
  }

  lemma NewPubSizes(nodes: map<nat, Node>, topics: map<nat, Topic>, pubs: map<nat, Pub>, subs: map<nat, Sub>, t: nat,
                    e: nat, p: Pub, topic: Topic)
    requires PubsOk(nodes, topics, pubs) && e !in pubs
    requires t in topics && topics[t].publisher == None && topic.publisher == Some(e) && topic.subs == topics[t].subs
    requires topic.maxSize == Min(topics[t].maxSize, p.maxSize) && Settling(topics[t], pubs, subs, p.maxSize)
    requires forall u {:trigger TopicOk(topics[u], pubs, subs)} :: u in topics && u != t ==>
               TopicOk(topics[u], pubs, subs)
    ensures TopicsOk(topics[t := topic], pubs[e := p], subs)
  {
    assert SizesOf(topic, pubs[e := p], subs) == SizesOf(topics[t], pubs, subs) + {p.maxSize};
    LeastWith(SizesOf(topics[t], pubs, subs), topics[t].maxSize, p.maxSize);
    forall u | u in topics && u != t ensures TopicOk(topics[u], pubs[e := p], subs) {
      assert TopicPubOk(pubs, u, topics[u]) && TopicOk(topics[u], pubs, subs);
      assert SizesOf(topics[u], pubs[e := p], subs) == SizesOf(topics[u], pubs, subs);
    }
  }

  lemma NewSubSizes(nodes: map<nat, Node>, topics: map<nat, Topic>, pubs: map<nat, Pub>, subs: map<nat, Sub>, t: nat,
                    e: nat, p: Sub, topic: Topic)
    requires SubsOk(nodes, topics, subs) && e !in subs
    requires t in topics && topic.publisher == topics[t].publisher && topic.subs == topics[t].subs + {e}
    requires topic.maxSize == Min(topics[t].maxSize, p.maxSize) && Settling(topics[t], pubs, subs, p.maxSize)
    requires forall u {:trigger TopicOk(topics[u], pubs, subs)} :: u in topics && u != t ==>
               TopicOk(topics[u], pubs, subs)
    ensures TopicsOk(topics[t := topic], pubs, subs[e := p])
  {
    assert TopicSubsOk(subs, t, topics[t]);
    SizesWithSub(topics[t], pubs, subs, e, p, topic);
    LeastWith(SizesOf(topics[t], pubs, subs), topics[t].maxSize, p.maxSize);
    forall u | u in topics && u != t ensures TopicOk(topics[u], pubs, subs[e := p]) {
      assert TopicSubsOk(subs, u, topics[u]) && TopicOk(topics[u], pubs, subs);
      assert SizesOf(topics[u], pubs, subs[e := p]) == SizesOf(topics[u], pubs, subs);
    }
  }

  lemma SizesWithSub(t: Topic, pubs: map<nat, Pub>, subs: map<nat, Sub>, e: nat, p: Sub, topic: Topic)
    requires topic.publisher == t.publisher && topic.subs == t.subs + {e} && e !in t.subs
    ensures SizesOf(topic, pubs, subs[e := p]) == SizesOf(t, pubs, subs) + {p.maxSize}
  {
    var a := set d | d in topic.subs && d in subs[e := p] :: subs[e := p][d].maxSize;
    var b := set d | d in t.subs && d in subs :: subs[d].maxSize;
    assert a == b + {p.maxSize} by {
      assert e in topic.subs && e in subs[e := p];
      forall x | x in b ensures x in a {
        var d :| d in t.subs && d in subs && subs[d].maxSize == x;
        assert d in topic.subs && subs[e := p][d].maxSize == x;
      }
    }
  }

  lemma AddPubSubs(r: Reg, node: nat, t: nat, s: TopicSpec, pool: PoolInfo)
    requires SubsOk(r.nodes, r.topics, r.subs) && node in r.nodes && t in r.topics
    ensures var q := AddPub(r, node, t, s, pool); SubsOk(q.nodes, q.topics, q.subs)
  {
    var q := AddPub(r, node, t, s, pool);
    NodeSubs(r.nodes, r.topics, r.subs, node, q.nodes[node]);
    TopicSubs(q.nodes, r.topics, r.subs, t, q.topics[t]);
  }

  lemma AddPubPubs(r: Reg, node: nat, t: nat, s: TopicSpec, pool: PoolInfo)
    requires PubsOk(r.nodes, r.topics, r.pubs) && node in r.nodes && t in r.topics && r.nextEndpoint !in r.pubs
    requires r.topics[t].publisher == None && FormatOf(r.topics[t]) == Wanted(s)
    ensures var q := AddPub(r, node, t, s, pool); PubsOk(q.nodes, q.topics, q.pubs)
  {
    var q, e := AddPub(r, node, t, s, pool), r.nextEndpoint;
    NewPub(r.nodes, r.topics, r.pubs, e, q.pubs[e], q.nodes[node], q.topics[t]);
  }

  lemma AddPubTopics(r: Reg, node: nat, t: nat, s: TopicSpec, pool: PoolInfo)
    requires Nearly(r, t, s.maxSize) && node in r.nodes && r.topics[t].publisher == None
    ensures var q := AddPub(r, node, t, s, pool); TopicsOk(q.topics, q.pubs, q.subs)
  {
    var q, e := AddPub(r, node, t, s, pool), r.nextEndpoint;
    NewPubSizes(r.nodes, r.topics, r.pubs, r.subs, t, e, q.pubs[e], q.topics[t]);
  }

  lemma AddPubNames(r: Reg, node: nat, t: nat, s: TopicSpec, pool: PoolInfo)
    requires NamesOk(r.nodes, r.names) && TopicNamesOk(r.topics, r.topicNames) && node in r.nodes && t in r.topics
    ensures var q := AddPub(r, node, t, s, pool); NamesOk(q.nodes, q.names) && TopicNamesOk(q.topics, q.topicNames)
  {
    var q := AddPub(r, node, t, s, pool);
    NodeNames(r.nodes, r.names, node, q.nodes[node]);
    TopicName(r.topics, r.topicNames, t, q.topics[t]);
  }

  lemma AddPubIds(r: Reg, node: nat, t: nat, s: TopicSpec, pool: PoolInfo)
    requires IdsOk(r) && node in r.nodes && t in r.topics && s.maxSize < U32_LIMIT
    ensures IdsOk(AddPub(r, node, t, s, pool))
  {
  }

  lemma AddPubKeeps(r: Reg, node: nat, t: nat, s: TopicSpec, pool: PoolInfo)
    requires Nearly(r, t, s.maxSize) && node in r.nodes && r.topics[t].publisher == None
    requires FormatOf(r.topics[t]) == Wanted(s) && s.maxSize < U32_LIMIT
    ensures RegInv(AddPub(r, node, t, s, pool))
  {
    AddPubNames(r, node, t, s, pool);
    AddPubPubs(r, node, t, s, pool);
    AddPubSubs(r, node, t, s, pool);
    AddPubTopics(r, node, t, s, pool);
    AddPubIds(r, node, t, s, pool);
  }

  lemma AddSubPubs(r: Reg, node: nat, t: nat, s: TopicSpec, path: string, queue: QueueInfo)
    requires PubsOk(r.nodes, r.topics, r.pubs) && node in r.nodes && t in r.topics
    ensures var q := AddSub(r, node, t, s, path, queue); PubsOk(q.nodes, q.topics, q.pubs)
  {
    var q := AddSub(r, node, t, s, path, queue);
    NodePubs(r.nodes, r.topics, r.pubs, node, q.nodes[node]);
    TopicPubs(q.nodes, r.topics, r.pubs, t, q.topics[t]);
  }

  lemma AddSubSubs(r: Reg, node: nat, t: nat, s: TopicSpec, path: string, queue: QueueInfo)
    requires SubsOk(r.nodes, r.topics, r.subs) && node in r.nodes && t in r.topics && r.nextEndpoint !in r.subs
    requires FormatOf(r.topics[t]) == Wanted(s)
    ensures var q := AddSub(r, node, t, s, path, queue); SubsOk(q.nodes, q.topics, q.subs)
  {
    var q, e := AddSub(r, node, t, s, path, queue), r.nextEndpoint;
    NewSub(r.nodes, r.topics, r.subs, e, q.subs[e], q.nodes[node], q.topics[t]);
  }

  lemma AddSubTopics(r: Reg, node: nat, t: nat, s: TopicSpec, path: string, queue: QueueInfo)
    requires Nearly(r, t, s.maxSize) && node in r.nodes
    ensures var q := AddSub(r, node, t, s, path, queue); TopicsOk(q.topics, q.pubs, q.subs)
  {
    var q, e := AddSub(r, node, t, s, path, queue), r.nextEndpoint;
    NewSubSizes(r.nodes, r.topics, r.pubs, r.subs, t, e, q.subs[e], q.topics[t]);
  }

  lemma AddSubNames(r: Reg, node: nat, t: nat, s: TopicSpec, path: string, queue: QueueInfo)
    requires NamesOk(r.nodes, r.names) && TopicNamesOk(r.topics, r.topicNames) && node in r.nodes && t in r.topics
    ensures var q := AddSub(r, node, t, s, path, queue);
            NamesOk(q.nodes, q.names) && TopicNamesOk(q.topics, q.topicNames)
  {
    var q := AddSub(r, node, t, s, path, queue);
    NodeNames(r.nodes, r.names, node, q.nodes[node]);
    TopicName(r.topics, r.topicNames, t, q.topics[t]);
  }

  lemma AddSubIds(r: Reg, node: nat, t: nat, s: TopicSpec, path: string, queue: QueueInfo)
    requires IdsOk(r) && node in r.nodes && t in r.topics && s.maxSize < U32_LIMIT
    ensures IdsOk(AddSub(r, node, t, s, path, queue))
  {
  }

  lemma AddSubKeeps(r: Reg, node: nat, t: nat, s: TopicSpec, path: string, queue: QueueInfo)
    requires Nearly(r, t, s.maxSize) && node in r.nodes && FormatOf(r.topics[t]) == Wanted(s) && s.maxSize < U32_LIMIT
    ensures RegInv(AddSub(r, node, t, s, path, queue))
  {
    AddSubNames(r, node, t, s, path, queue);
    AddSubPubs(r, node, t, s, path, queue);
    AddSubSubs(r, node, t, s, path, queue);
    AddSubTopics(r, node, t, s, path, queue);
    AddSubIds(r, node, t, s, path, queue);
  }

  lemma AdvertiseKeeps(r: Reg, connection: nat, node: nat, s: TopicSpec, pool: PoolInfo)
    requires RegInv(r)
    ensures RegInv(Advertise(r, connection, node, s, pool).0)
  {
    if AdvertiseError(r, connection, node, s, pool) == Ok {
      WithTopicNearly(r, s);
      AddPubKeeps(WithTopic(r, s), node, TopicFor(r, s), s, pool);
    }
  }

  lemma SubscribeKeeps(r: Reg, connection: nat, node: nat, s: TopicSpec, path: string, queue: QueueInfo)
    requires RegInv(r)
    ensures RegInv(Subscribe(r, connection, node, s, path, queue).0)
  {
    if SubscribeError(r, connection, node, s, path, queue) == Ok {
      WithTopicNearly(r, s);
      AddSubKeeps(WithTopic(r, s), node, TopicFor(r, s), s, path, queue);
    }
  }
}
