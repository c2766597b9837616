/** Removing endpoints and nodes: what Pruned and Without mean and keep. */
module RegistryRemoval {
  import opened Basics
  import opened RegistryModel

  lemma ResizedKeeps(t: Topic, pubs: map<nat, Pub>, subs: map<nat, Sub>)
    ensures var u := Resized(t, pubs, subs);
            && u.(maxSize := t.maxSize) == t
            && SizesOf(u, pubs, subs) == SizesOf(t, pubs, subs)
            && (SizesOf(t, pubs, subs) != {} ==> TopicOk(u, pubs, subs))
  {
  }

  /** What is left of a topic that is not vacant still has endpoints to take a limit from. */
  lemma NotVacantHasSizes(r: Reg, gone: set<nat>, t: nat)
    requires PubsOk(r.nodes, r.topics, r.pubs) && SubsOk(r.nodes, r.topics, r.subs) && t in r.topics
    requires !Vacant(PrunedTopic(r.topics[t], gone))
    ensures SizesOf(PrunedTopic(r.topics[t], gone), Pruned(r, gone).pubs, Pruned(r, gone).subs) != {}
  {
    var p, q := PrunedTopic(r.topics[t], gone), Pruned(r, gone);
    assert TopicPubOk(r.pubs, t, r.topics[t]) && TopicSubsOk(r.subs, t, r.topics[t]);
    if p.publisher.Some? {
      assert q.pubs[p.publisher.value].maxSize in SizesOf(p, q.pubs, q.subs);
    } else {
      var e :| e in p.subs;
      assert q.subs[e].maxSize in SizesOf(p, q.pubs, q.subs);
    }
  }

  lemma PrunedPubs(r: Reg, gone: set<nat>)
    requires PubsOk(r.nodes, r.topics, r.pubs)
    ensures var q := Pruned(r, gone); PubsOk(q.nodes, q.topics, q.pubs)
  {
    var q := Pruned(r, gone);
    forall e | e in q.pubs ensures PubOk(q.nodes, q.topics, e, q.pubs[e]) {
      assert PubOk(r.nodes, r.topics, e, r.pubs[e]);
      var t := r.pubs[e].topic;
      ResizedKeeps(PrunedTopic(r.topics[t], gone), q.pubs, q.subs);
    }
    forall n | n in q.nodes ensures NodePubsOk(q.pubs, n, q.nodes[n]) {
      assert NodePubsOk(r.pubs, n, r.nodes[n]);
    }
    forall t | t in q.topics ensures TopicPubOk(q.pubs, t, q.topics[t]) {
      assert TopicPubOk(r.pubs, t, r.topics[t]);
      ResizedKeeps(PrunedTopic(r.topics[t], gone), q.pubs, q.subs);
    }
  }

  lemma PrunedSubs(r: Reg, gone: set<nat>)
    requires SubsOk(r.nodes, r.topics, r.subs)
    ensures var q := Pruned(r, gone); SubsOk(q.nodes, q.topics, q.subs)
  {
    var q := Pruned(r, gone);
    forall e | e in q.subs ensures SubOk(q.nodes, q.topics, e, q.subs[e]) {
      assert SubOk(r.nodes, r.topics, e, r.subs[e]);
      var t := r.subs[e].topic;
      assert e in PrunedTopic(r.topics[t], gone).subs;
      ResizedKeeps(PrunedTopic(r.topics[t], gone), q.pubs, q.subs);
    }
    forall n | n in q.nodes ensures NodeSubsOk(q.subs, n, q.nodes[n]) {
      assert NodeSubsOk(r.subs, n, r.nodes[n]);
    }
    forall t | t in q.topics ensures TopicSubsOk(q.subs, t, q.topics[t]) {
      assert TopicSubsOk(r.subs, t, r.topics[t]);
      ResizedKeeps(PrunedTopic(r.topics[t], gone), q.pubs, q.subs);
    }
  }

  lemma PrunedTopics(r: Reg, gone: set<nat>)
    requires PubsOk(r.nodes, r.topics, r.pubs) && SubsOk(r.nodes, r.topics, r.subs)
    ensures var q := Pruned(r, gone); TopicsOk(q.topics, q.pubs, q.subs)
  {
    var q := Pruned(r, gone);
    forall t | t in q.topics ensures TopicOk(q.topics[t], q.pubs, q.subs) {
      NotVacantHasSizes(r, gone, t);
      ResizedKeeps(PrunedTopic(r.topics[t], gone), q.pubs, q.subs);
    }
  }

  lemma PrunedNames(r: Reg, gone: set<nat>)
    requires NamesOk(r.nodes, r.names) && TopicNamesOk(r.topics, r.topicNames)
    ensures var q := Pruned(r, gone); NamesOk(q.nodes, q.names) && TopicNamesOk(q.topics, q.topicNames)
  {
    var q := Pruned(r, gone);
    forall t | t in q.topics ensures q.topics[t].name == r.topics[t].name {
      ResizedKeeps(PrunedTopic(r.topics[t], gone), q.pubs, q.subs);
    }
  }

  lemma PrunedKeeps(r: Reg, gone: set<nat>)
    requires RegInv(r)
    ensures RegInv(Pruned(r, gone))
  {
    PrunedNames(r, gone);
    PrunedPubs(r, gone);
    PrunedSubs(r, gone);
    PrunedTopics(r, gone);
  }

  // ---- removing in steps ----

  /** Pruning a topic in two steps, with a limit recomputed in between, or in one. */
  lemma PrunedTopicSteps(t: Topic, a: set<nat>, b: set<nat>, m: nat, pubs: map<nat, Pub>, subs: map<nat, Sub>)
    ensures var x, y := PrunedTopic(PrunedTopic(t, a).(maxSize := m), b), PrunedTopic(t, a + b);
            && (Vacant(x) <==> Vacant(y)) && x.(maxSize := t.maxSize) == y
            && (SizesOf(y, pubs, subs) != {} ==> Resized(x, pubs, subs) == Resized(y, pubs, subs))
    ensures Vacant(PrunedTopic(t, a)) ==> Vacant(PrunedTopic(t, a + b))
  {
    assert t.subs - a - b == t.subs - (a + b);
    var x, y := PrunedTopic(PrunedTopic(t, a).(maxSize := m), b), PrunedTopic(t, a + b);
    assert x.(maxSize := t.maxSize) == y;
    assert SizesOf(x, pubs, subs) == SizesOf(y, pubs, subs);
  }

  lemma TopicOfPruned(r: Reg, gone: set<nat>, t: nat)
    requires t in r.topics
    ensures var q, topic := Pruned(r, gone), PrunedTopic(r.topics[t], gone);
            && (t in q.topics <==> !Vacant(topic))
            && (t in q.topics ==> q.topics[t] == Resized(topic, q.pubs, q.subs))
  {
  }

  lemma PrunedTopicTwice(r: Reg, once: Reg, twice: Reg, both: Reg, a: set<nat>, b: set<nat>, t: nat)
    requires RegInv(r) && t in r.topics
    requires once == Pruned(r, a) && twice == Pruned(once, b) && both == Pruned(r, a + b)
    requires twice.pubs == both.pubs && twice.subs == both.subs
    ensures t in twice.topics <==> t in both.topics
    ensures t in twice.topics ==> twice.topics[t] == both.topics[t]
  {
    TopicOfPruned(r, a, t);
    TopicOfPruned(r, a + b, t);
    PrunedTopicSteps(r.topics[t], a, b, r.topics[t].maxSize, both.pubs, both.subs);
    if t in once.topics {
      TopicOfPruned(once, b, t);
      ResizedKeeps(PrunedTopic(r.topics[t], a), once.pubs, once.subs);
      PrunedTopicSteps(r.topics[t], a, b, once.topics[t].maxSize, both.pubs, both.subs);
      if t in both.topics {
        NotVacantHasSizes(r, a + b, t);
      }
    }
  }

  lemma SameEndpoints(r: Reg, a: set<nat>, b: set<nat>)
    ensures Pruned(Pruned(r, a), b).pubs == Pruned(r, a + b).pubs
    ensures Pruned(Pruned(r, a), b).subs == Pruned(r, a + b).subs
    ensures Pruned(Pruned(r, a), b).nodes == Pruned(r, a + b).nodes
  {
    var twice, both := Pruned(Pruned(r, a), b), Pruned(r, a + b);
    forall n | n in r.nodes ensures twice.nodes[n] == both.nodes[n] {
      assert r.nodes[n].pubs - a - b == r.nodes[n].pubs - (a + b);
      assert r.nodes[n].subs - a - b == r.nodes[n].subs - (a + b);
    }
  }

  lemma SameMap<K, V>(a: map<K, V>, b: map<K, V>)
    requires forall k :: k in a ==> k in b && a[k] == b[k]
    requires forall k :: k in b ==> k in a
    ensures a == b
  {
  }

  lemma SameTopics(r: Reg, a: set<nat>, b: set<nat>)
    requires RegInv(r)
    ensures Pruned(Pruned(r, a), b).topics == Pruned(r, a + b).topics
  {
    var once, both := Pruned(r, a), Pruned(r, a + b);
    var twice := Pruned(once, b);
    SameEndpoints(r, a, b);
    forall t | t in twice.topics ensures t in both.topics && twice.topics[t] == both.topics[t] {
      assert t in r.topics;
      PrunedTopicTwice(r, once, twice, both, a, b, t);
    }
    forall t | t in both.topics ensures t in twice.topics {
      assert t in r.topics;
      PrunedTopicTwice(r, once, twice, both, a, b, t);
    }
    SameMap(twice.topics, both.topics);
  }

  lemma SameTopicNames(r: Reg, a: set<nat>, b: set<nat>)
    requires RegInv(r)
    ensures Pruned(Pruned(r, a), b).topicNames == Pruned(r, a + b).topicNames
  {
    SameTopics(r, a, b);
    PrunedKeeps(r, a);
    PrunedKeeps(Pruned(r, a), b);
    PrunedKeeps(r, a + b);
    SameNames(Pruned(r, a + b).topics, Pruned(Pruned(r, a), b).topicNames, Pruned(r, a + b).topicNames);
  }

  /** Pruning one set of endpoints and then another is pruning both. */
  lemma PrunedTwice(r: Reg, a: set<nat>, b: set<nat>)
    requires RegInv(r)
    ensures Pruned(Pruned(r, a), b) == Pruned(r, a + b)
  {
    SameEndpoints(r, a, b);
    SameTopics(r, a, b);
    SameTopicNames(r, a, b);
  }

  /** Topics decide their names. */
  lemma SameNames(topics: map<nat, Topic>, a: map<string, nat>, b: map<string, nat>)
    requires TopicNamesOk(topics, a) && TopicNamesOk(topics, b)
    ensures a == b
  {
    forall s | s in a ensures s in b && b[s] == a[s] {
      assert topics[a[s]].name == s;
    }
    forall s | s in b ensures s in a {
      assert topics[b[s]].name == s;
    }
  }

  lemma PrunedNoTopic(r: Reg, t: nat)
    requires TopicsOk(r.topics, r.pubs, r.subs) && t in r.topics
    ensures var topic := PrunedTopic(r.topics[t], {});
            topic == r.topics[t] && !Vacant(topic) && Resized(topic, r.pubs, r.subs) == topic
  {
    var topic := r.topics[t];
    assert topic.subs - {} == topic.subs;
    assert PrunedTopic(topic, {}) == topic;
    assert TopicOk(topic, r.pubs, r.subs);
    LeastIsMinimum(SizesOf(topic, r.pubs, r.subs), topic.maxSize);
  }

  lemma PrunedNobody(r: Reg)
    ensures var q := Pruned(r, {}); q.pubs == r.pubs && q.subs == r.subs && q.nodes == r.nodes
  {
    var q := Pruned(r, {});
    forall n | n in r.nodes ensures q.nodes[n] == r.nodes[n] {
      assert r.nodes[n].pubs - {} == r.nodes[n].pubs && r.nodes[n].subs - {} == r.nodes[n].subs;
    }
  }

  lemma PrunedNone(r: Reg)
    requires RegInv(r)
    ensures Pruned(r, {}) == r
  {
    var q := Pruned(r, {});
    PrunedNobody(r);
    forall t | t in r.topics ensures t in q.topics && q.topics[t] == r.topics[t] {
      PrunedNoTopic(r, t);
      TopicOfPruned(r, {}, t);
    }
    assert q.topics == r.topics;
    PrunedKeeps(r, {});
    SameNames(r.topics, q.topicNames, r.topicNames);
  }

  // ---- removing a node ----

  /** A node none of whose endpoints are left is missed by no publisher. */
  lemma DroppedPubs(nodes: map<nat, Node>, rest: map<nat, Node>, topics: map<nat, Topic>, pubs: map<nat, Pub>)
    requires PubsOk(nodes, topics, pubs)
    requires forall n :: n in rest ==> n in nodes && rest[n] == nodes[n]
    requires forall n :: n in nodes && n !in rest ==> nodes[n].pubs == {}
    ensures PubsOk(rest, topics, pubs)
  {
    forall e | e in pubs ensures PubOk(rest, topics, e, pubs[e]) {
      assert PubOk(nodes, topics, e, pubs[e]);
    }
    forall n | n in rest ensures NodePubsOk(pubs, n, rest[n]) {
      assert NodePubsOk(pubs, n, nodes[n]);
    }
  }

  lemma DroppedSubs(nodes: map<nat, Node>, rest: map<nat, Node>, topics: map<nat, Topic>, subs: map<nat, Sub>)
    requires SubsOk(nodes, topics, subs)
    requires forall n :: n in rest ==> n in nodes && rest[n] == nodes[n]
    requires forall n :: n in nodes && n !in rest ==> nodes[n].subs == {}
    ensures SubsOk(rest, topics, subs)
  {
    forall e | e in subs ensures SubOk(rest, topics, e, subs[e]) {
      assert SubOk(nodes, topics, e, subs[e]);
    }
    forall n | n in rest ensures NodeSubsOk(subs, n, rest[n]) {
      assert NodeSubsOk(subs, n, nodes[n]);
    }
  }

  lemma WithoutKeeps(r: Reg, node: nat)
    requires RegInv(r)
    ensures RegInv(Without(r, node))
  {
    if node in r.nodes {
      var gone := r.nodes[node].pubs + r.nodes[node].subs;
      var p, q := Pruned(r, gone), Without(r, node);
      PrunedKeeps(r, gone);
      assert p.nodes[node].pubs == {} && p.nodes[node].subs == {};
      DroppedPubs(p.nodes, q.nodes, p.topics, p.pubs);
      DroppedSubs(p.nodes, q.nodes, p.topics, p.subs);
    }
  }

  lemma UnadvertiseKeeps(r: Reg, connection: nat, node: nat, e: nat)
    requires RegInv(r)
    ensures RegInv(Unadvertise(r, connection, node, e).0)
  {
    PrunedKeeps(r, {e});
  }

  lemma UnsubscribeKeeps(r: Reg, connection: nat, node: nat, e: nat)
    requires RegInv(r)
    ensures RegInv(Unsubscribe(r, connection, node, e).0)
  {
    PrunedKeeps(r, {e});
  }

  lemma UnregisterKeeps(r: Reg, connection: nat, node: nat)
    requires RegInv(r)
    ensures RegInv(Unregister(r, connection, node).0)
  {
    WithoutKeeps(r, node);
  }
}
