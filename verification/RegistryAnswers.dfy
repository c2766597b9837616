/**
What the registry answers, in terms of what is there: who owns the node, what was asked for, and the endpoints
that live on the topic of that name.
*/
module RegistryAnswers {
  import opened Basics
  import opened RegistryModel

  /** The endpoint lives on the topic of this name, and was created with this format. */
  ghost predicate LivesOn(r: Reg, e: nat, name: string, f: Format) {
    || (e in r.pubs && r.pubs[e].topic in r.topics && r.topics[r.pubs[e].topic].name == name && r.pubs[e].format == f)
    || (e in r.subs && r.subs[e].topic in r.topics && r.topics[r.subs[e].topic].name == name && r.subs[e].format == f)
  }

  /** Somebody on the topic has another type than the one asked for. */
  ghost predicate OtherType(r: Reg, s: TopicSpec) {
    exists e, f :: LivesOn(r, e, s.name, f) && (f.typeName != s.typeName || f.typeHash != s.typeHash)
  }

  ghost predicate OtherTransport(r: Reg, s: TopicSpec) {
    exists e, f :: LivesOn(r, e, s.name, f) && f.transport != s.transport
  }

  ghost predicate HasPublisher(r: Reg, name: string) {
    exists e :: e in r.pubs && r.pubs[e].topic in r.topics && r.topics[r.pubs[e].topic].name == name
  }

  /** A name of shared memory: a slash and at most 191 characters that are neither slash nor zero. */
  ghost predicate NamesSegment(name: string) {
    && 1 < |name| && |name| < 193 && name[0] == '/'
    && (forall k :: 1 <= k < |name| ==> name[k] != '/') && (forall k :: 1 <= k < |name| ==> name[k] != '\0')
  }

  /** Who lives on a topic agrees with it, and a topic has somebody living on it. */
  lemma TopicOf(r: Reg, s: TopicSpec)
    requires RegInv(r) && s.name in r.topicNames
    ensures r.topicNames[s.name] in r.topics
    ensures var t := r.topics[r.topicNames[s.name]];
            && (exists e, f :: LivesOn(r, e, s.name, f))
            && (forall e, f :: LivesOn(r, e, s.name, f) ==> f == FormatOf(t))
            && (t.publisher.Some? <==> HasPublisher(r, s.name))
  {
    var id := r.topicNames[s.name];
    var t := r.topics[id];
    forall e, f | LivesOn(r, e, s.name, f) ensures f == FormatOf(t) {
      if e in r.pubs { assert PubOk(r.nodes, r.topics, e, r.pubs[e]); }
      if e in r.subs { assert SubOk(r.nodes, r.topics, e, r.subs[e]); }
    }
    SomebodyThere(r, id);
    if HasPublisher(r, s.name) {
      var e :| e in r.pubs && r.pubs[e].topic in r.topics && r.topics[r.pubs[e].topic].name == s.name;
      assert PubOk(r.nodes, r.topics, e, r.pubs[e]);
    }
    assert TopicPubOk(r.pubs, id, t);
  }

  lemma SomebodyThere(r: Reg, id: nat)
    requires RegInv(r) && id in r.topics
    ensures exists e, f :: LivesOn(r, e, r.topics[id].name, f)
  {
    var t := r.topics[id];
    assert TopicOk(t, r.pubs, r.subs);
    assert TopicPubOk(r.pubs, id, t) && TopicSubsOk(r.subs, id, t);
    assert SizesOf(t, r.pubs, r.subs) != {};
    if t.publisher.Some? {
      var e := t.publisher.value;
      assert LivesOn(r, e, t.name, r.pubs[e].format);
    } else {
      var e :| e in t.subs;
      assert LivesOn(r, e, t.name, r.subs[e].format);
    }
  }

  lemma AgreementMeans(r: Reg, s: TopicSpec)
    requires RegInv(r)
    ensures s.name in r.topicNames ==> r.topicNames[s.name] in r.topics
    ensures Agreement(r, s) == if OtherType(r, s) then TypeMismatch
                               else if OtherTransport(r, s) then TransportMismatch else Ok
    ensures s.name in r.topicNames && r.topics[r.topicNames[s.name]].publisher.Some? <==> HasPublisher(r, s.name)
  {
    if s.name in r.topicNames { TopicOf(r, s); }
  }

  /** The answer to an advertisement. */
  lemma AdvertiseAnswers(r: Reg, c: nat, n: nat, s: TopicSpec, pool: PoolInfo)
    requires RegInv(r)
    ensures var answer := Advertise(r, c, n, s, pool).1;
            answer == if n !in r.nodes || r.nodes[n].control != c then NotRegistered
                      else if s.name == "" || s.typeName == "" || s.typeHash == "" || s.maxSize > 0xFFFF_FFFF
                              || !PoolFits(s.transport, pool) then InvalidArgument
                      else if OtherType(r, s) then TypeMismatch
                      else if OtherTransport(r, s) then TransportMismatch
                      else if HasPublisher(r, s.name) then DuplicatePublisher
                      else Ok
  {
    AgreementMeans(r, s);
  }

  ghost predicate PoolFits(transport: Transport, p: PoolInfo) {
    if transport == UnixSocket then p.name == "" && p.poolId == 0 && p.segmentSize == 0 && p.version == 0
    else NamesSegment(p.name) && p.poolId > 0 && p.segmentSize > 0 && p.version == 1
  }

  ghost predicate QueueFits(transport: Transport, q: QueueInfo) {
    if transport == UnixSocket then
      && q.name == "" && q.queueId == 0 && q.segmentSize == 0 && q.capacity == 0 && q.version == 0 && q.policy == 0
      && q.blockTimeout == 0
    else
      && NamesSegment(q.name) && q.queueId > 0 && q.segmentSize > 0 && 0 < q.capacity < 0x1_0001
      && q.version == 3 && q.policy in {1, 2, 3} && q.blockTimeout > 0
  }

  /** The answer to a subscription. */
  lemma SubscribeAnswers(r: Reg, c: nat, n: nat, s: TopicSpec, path: string, queue: QueueInfo)
    requires RegInv(r)
    ensures var answer := Subscribe(r, c, n, s, path, queue).1;
            answer == if n !in r.nodes || r.nodes[n].control != c then NotRegistered
                      else if s.name == "" || s.typeName == "" || s.typeHash == "" || s.maxSize > 0xFFFF_FFFF
                              || path == "" || !QueueFits(s.transport, queue) then InvalidArgument
                      else if OtherType(r, s) then TypeMismatch
                      else if OtherTransport(r, s) then TransportMismatch
                      else Ok
  {
    AgreementMeans(r, s);
  }

  /** The answers to what a node asks about its own endpoints. */
  lemma EndpointAnswers(r: Reg, c: nat, n: nat, e: nat)
    requires RegInv(r)
    ensures var owner := n in r.nodes && r.nodes[n].control == c;
            && Unregister(r, c, n).1 == (if owner then Ok else NotRegistered)
            && Unadvertise(r, c, n, e).1
               == (if owner && e in r.pubs && r.pubs[e].node == n then Ok else EndpointNotFound)
            && Unsubscribe(r, c, n, e).1
               == (if owner && e in r.subs && r.subs[e].node == n then Ok else EndpointNotFound)
            && (!owner ==> Unregister(r, c, n).0 == r)
  {
  }
}
