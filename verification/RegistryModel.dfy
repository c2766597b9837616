/**
The registry's six maps as one value, what every operation keeps true of them, and the operations
of registry/src/registry_state.cpp. The class in RegistryState.dfy performs them in place.
*/
module RegistryModel {
  import opened Basics

  datatype Transport = UnixSocket | SharedMemory

  datatype Liveness = Alive | Suspected

  datatype PoolInfo = PoolInfo(name: string, poolId: nat, segmentSize: nat, version: nat)

  datatype QueueInfo = QueueInfo(
    name: string, queueId: nat, segmentSize: nat, capacity: nat, version: nat, policy: nat, blockTimeout: nat)

  const NO_POOL: PoolInfo := PoolInfo("", 0, 0, 0)
  const NO_QUEUE: QueueInfo := QueueInfo("", 0, 0, 0, 0, 0, 0)

  datatype Node = Node(
    session: nat, name: string, control: nat, heartbeat: nat, liveness: Liveness, lastSeen: int,
    pubs: set<nat>, subs: set<nat>)

  datatype Topic = Topic(
    name: string, typeName: string, typeHash: string, transport: Transport, maxSize: nat,
    publisher: Option<nat>, subs: set<nat>, pool: PoolInfo)

  /** What all endpoints of a topic have to agree on. */
  datatype Format = Format(typeName: string, typeHash: string, transport: Transport)

  // `format` is what the endpoint was created with; the type part is kept here for the sake of the invariant.
  datatype Pub = Pub(node: nat, topic: nat, maxSize: nat, format: Format, pool: PoolInfo)

  datatype Sub = Sub(node: nat, topic: nat, path: string, maxSize: nat, format: Format, queue: QueueInfo)

  function FormatOf(t: Topic): Format {
    Format(t.typeName, t.typeHash, t.transport)
  }

  datatype Reg = Reg(
    nodes: map<nat, Node>, names: map<string, nat>, topics: map<nat, Topic>, topicNames: map<string, nat>,
    pubs: map<nat, Pub>, subs: map<nat, Sub>,
    nextNode: nat, nextSession: nat, nextTopic: nat, nextEndpoint: nat)

  const EMPTY: Reg := Reg(map[], map[], map[], map[], map[], map[], 1, 1, 1, 1)

  // ---- the smallest limit among a topic's endpoints ----

  function SizesOf(t: Topic, pubs: map<nat, Pub>, subs: map<nat, Sub>): set<nat> {
    (if t.publisher.Some? && t.publisher.value in pubs then {pubs[t.publisher.value].maxSize} else {})
    + set e | e in t.subs && e in subs :: subs[e].maxSize
  }

  ghost predicate Least(sizes: set<nat>, m: nat) {
    m in sizes && forall x :: x in sizes ==> m <= x
  }

  lemma {:induction false} HasLeast(sizes: set<nat>)
    requires sizes != {}
    ensures exists m :: Least(sizes, m)
    decreases |sizes|
  {
    var x :| x in sizes;
    if sizes == {x} {
      assert Least(sizes, x);
    } else {
      var rest := sizes - {x};
      assert sizes == rest + {x};
      HasLeast(rest);
      var m :| Least(rest, m);
      var least := if x < m then x else m;
      forall y | y in sizes ensures least <= y {
        if y != x { assert y in rest; }
      }
      assert Least(sizes, least);
    }
  }

  ghost function Minimum(sizes: set<nat>): (m: nat)
    requires sizes != {}
    ensures Least(sizes, m)
  {
    HasLeast(sizes);
    var m :| Least(sizes, m);
    m
  }

  lemma LeastIsMinimum(sizes: set<nat>, m: nat)
    requires Least(sizes, m)
    ensures sizes != {} && Minimum(sizes) == m
  {
  }

  // ---- referential integrity ----

  /** The name maps are inverse to the record maps. */
  ghost predicate NamesOk(nodes: map<nat, Node>, names: map<string, nat>) {
    && (forall n :: n in nodes ==> nodes[n].name in names && names[nodes[n].name] == n)
    && (forall s :: s in names ==> names[s] in nodes && nodes[names[s]].name == s)
  }

  ghost predicate TopicNamesOk(topics: map<nat, Topic>, names: map<string, nat>) {
    && (forall t :: t in topics ==> topics[t].name in names && names[topics[t].name] == t)
    && (forall s :: s in names ==> names[s] in topics && topics[names[s]].name == s)
  }

  /** A publisher agrees with the node that owns it and the topic it serves. */
  ghost predicate PubOk(nodes: map<nat, Node>, topics: map<nat, Topic>, e: nat, p: Pub) {
    && p.node in nodes && e in nodes[p.node].pubs
    && p.topic in topics && topics[p.topic].publisher == Some(e)
    && FormatOf(topics[p.topic]) == p.format && topics[p.topic].pool == p.pool
  }

  ghost predicate NodePubsOk(pubs: map<nat, Pub>, n: nat, node: Node) {
    forall e :: e in node.pubs ==> e in pubs && pubs[e].node == n
  }

  ghost predicate TopicPubOk(pubs: map<nat, Pub>, t: nat, topic: Topic) {
    match topic.publisher
    case None => topic.pool == NO_POOL
    case Some(e) => e in pubs && pubs[e].topic == t
  }

  ghost predicate PubsOk(nodes: map<nat, Node>, topics: map<nat, Topic>, pubs: map<nat, Pub>) {
    && (forall e {:trigger PubOk(nodes, topics, e, pubs[e])} :: e in pubs ==> PubOk(nodes, topics, e, pubs[e]))
    && (forall n {:trigger NodePubsOk(pubs, n, nodes[n])} :: n in nodes ==> NodePubsOk(pubs, n, nodes[n]))
    && (forall t {:trigger TopicPubOk(pubs, t, topics[t])} :: t in topics ==> TopicPubOk(pubs, t, topics[t]))
  }

  ghost predicate SubOk(nodes: map<nat, Node>, topics: map<nat, Topic>, e: nat, s: Sub) {
    && s.node in nodes && e in nodes[s.node].subs
    && s.topic in topics && e in topics[s.topic].subs && FormatOf(topics[s.topic]) == s.format
  }

  ghost predicate NodeSubsOk(subs: map<nat, Sub>, n: nat, node: Node) {
    forall e :: e in node.subs ==> e in subs && subs[e].node == n
  }

  ghost predicate TopicSubsOk(subs: map<nat, Sub>, t: nat, topic: Topic) {
    forall e :: e in topic.subs ==> e in subs && subs[e].topic == t
  }

  ghost predicate SubsOk(nodes: map<nat, Node>, topics: map<nat, Topic>, subs: map<nat, Sub>) {
    && (forall e {:trigger SubOk(nodes, topics, e, subs[e])} :: e in subs ==> SubOk(nodes, topics, e, subs[e]))
    && (forall n {:trigger NodeSubsOk(subs, n, nodes[n])} :: n in nodes ==> NodeSubsOk(subs, n, nodes[n]))
    && (forall t {:trigger TopicSubsOk(subs, t, topics[t])} :: t in topics ==> TopicSubsOk(subs, t, topics[t]))
  }

  /** No topic is empty, and its limit is the smallest among its endpoints. */
  ghost predicate TopicOk(t: Topic, pubs: map<nat, Pub>, subs: map<nat, Sub>) {
    Least(SizesOf(t, pubs, subs), t.maxSize)
  }

  ghost predicate TopicsOk(topics: map<nat, Topic>, pubs: map<nat, Pub>, subs: map<nat, Sub>) {
    forall t {:trigger TopicOk(topics[t], pubs, subs)} :: t in topics ==> TopicOk(topics[t], pubs, subs)
  }

  /** Ids lie below the counters, no endpoint is both publisher and subscriber, limits fit 32 bits. */
  ghost predicate IdsOk(r: Reg) {
    && (forall n :: n in r.nodes ==> n < r.nextNode && r.nodes[n].session < r.nextSession)
    && (forall t :: t in r.topics ==> t < r.nextTopic)
    && (forall e :: e in r.pubs ==> e < r.nextEndpoint && e !in r.subs && r.pubs[e].maxSize < U32_LIMIT)
    && (forall e :: e in r.subs ==> e < r.nextEndpoint && r.subs[e].maxSize < U32_LIMIT)
  }

  ghost predicate RegInv(r: Reg) {
    && NamesOk(r.nodes, r.names)
    && TopicNamesOk(r.topics, r.topicNames)
    && PubsOk(r.nodes, r.topics, r.pubs)
    && SubsOk(r.nodes, r.topics, r.subs)
    && TopicsOk(r.topics, r.pubs, r.subs)
    && IdsOk(r)
  }

  lemma EmptyHolds()
    ensures RegInv(EMPTY)
  {
  }

  // ---- nodes ----

  predicate Owns(r: Reg, connection: nat, node: nat) {
    node in r.nodes && r.nodes[node].control == connection
  }

  function Register(r: Reg, connection: nat, name: string, now: int): (Reg, ErrorCode) {
    if name == "" then (r, InvalidArgument)
    else if name in r.names then (r, DuplicateNode)
    else
      (r.(nodes := r.nodes[r.nextNode := Node(r.nextSession, name, connection, 0, Alive, now, {}, {})],
          names := r.names[name := r.nextNode],
          nextNode := r.nextNode + 1, nextSession := r.nextSession + 1), Ok)
  }

  function Attach(r: Reg, connection: nat, node: nat, session: nat): (Reg, ErrorCode) {
    if node !in r.nodes || r.nodes[node].session != session || connection == 0 then (r, NotRegistered)
    else if r.nodes[node].heartbeat != 0 && r.nodes[node].heartbeat != connection then (r, NotRegistered)
    else (r.(nodes := r.nodes[node := r.nodes[node].(heartbeat := connection)]), Ok)
  }

  function Heartbeat(r: Reg, connection: nat, node: nat, session: nat, now: int): (Reg, ErrorCode) {
    if node !in r.nodes || r.nodes[node].session != session then (r, NotRegistered)
    else if connection != r.nodes[node].control && connection != r.nodes[node].heartbeat then (r, NotRegistered)
    else (r.(nodes := r.nodes[node := r.nodes[node].(lastSeen := now, liveness := Alive)]), Ok)
  }

  // ---- endpoints ----

  predicate ValidShmName(name: string) {
    && 2 <= |name| <= 192 && name[0] == '/'
    && forall k :: 0 < k < |name| ==> name[k] != '/' && name[k] != '\0'
  }

  predicate ValidPool(transport: Transport, p: PoolInfo) {
    match transport
    case UnixSocket => p == NO_POOL
    case SharedMemory => ValidShmName(p.name) && p.poolId != 0 && p.segmentSize != 0 && p.version == 1
  }

  predicate ValidQueue(transport: Transport, q: QueueInfo) {
    match transport
    case UnixSocket => q == NO_QUEUE
    case SharedMemory =>
      && ValidShmName(q.name) && q.queueId != 0 && q.segmentSize != 0 && 0 < q.capacity <= 65536
      && q.version == 3 && 1 <= q.policy <= 3 && q.blockTimeout != 0
  }

  /** What a caller says about the topic of a new endpoint. */
  datatype TopicSpec = TopicSpec(name: string, typeName: string, typeHash: string, maxSize: nat, transport: Transport)

  function Wanted(s: TopicSpec): Format {
    Format(s.typeName, s.typeHash, s.transport)
  }

  predicate WellFormed(s: TopicSpec) {
    s.name != "" && s.typeName != "" && s.typeHash != "" && s.maxSize < U32_LIMIT
  }

  /** The topic id the endpoint would get. */
  function TopicFor(r: Reg, s: TopicSpec): nat {
    if s.name in r.topicNames then r.topicNames[s.name] else r.nextTopic
  }

  function Agreement(r: Reg, s: TopicSpec): ErrorCode
    requires s.name in r.topicNames ==> r.topicNames[s.name] in r.topics
  {
    if s.name !in r.topicNames then Ok
    else
      var t := r.topics[r.topicNames[s.name]];
      if t.typeName != s.typeName || t.typeHash != s.typeHash then TypeMismatch
      else if t.transport != s.transport then TransportMismatch
      else Ok
  }

  function AdvertiseError(r: Reg, connection: nat, node: nat, s: TopicSpec, pool: PoolInfo): ErrorCode
    requires s.name in r.topicNames ==> r.topicNames[s.name] in r.topics
  {
    if !Owns(r, connection, node) then NotRegistered
    else if !WellFormed(s) || !ValidPool(s.transport, pool) then InvalidArgument
    else if Agreement(r, s) != Ok then Agreement(r, s)
    else if s.name in r.topicNames && r.topics[r.topicNames[s.name]].publisher.Some? then DuplicatePublisher
    else Ok
  }

  function SubscribeError(r: Reg, connection: nat, node: nat, s: TopicSpec, path: string, queue: QueueInfo): ErrorCode
    requires s.name in r.topicNames ==> r.topicNames[s.name] in r.topics
  {
    if !Owns(r, connection, node) then NotRegistered
    else if !WellFormed(s) || path == "" || !ValidQueue(s.transport, queue) then InvalidArgument
    else Agreement(r, s)
  }

  /** findOrCreateTopic: the registry with the topic in it. */
  function WithTopic(r: Reg, s: TopicSpec): Reg {
    if s.name in r.topicNames then r
    else
      r.(topics := r.topics[r.nextTopic := Topic(s.name, s.typeName, s.typeHash, s.transport, s.maxSize, None, {},
                                                 NO_POOL)],
         topicNames := r.topicNames[s.name := r.nextTopic], nextTopic := r.nextTopic + 1)
  }

  function AddPub(r: Reg, node: nat, t: nat, s: TopicSpec, pool: PoolInfo): Reg
    requires node in r.nodes && t in r.topics
  {
    var e := r.nextEndpoint;
    r.(pubs := r.pubs[e := Pub(node, t, s.maxSize, Wanted(s), pool)],
       topics := r.topics[t := r.topics[t].(publisher := Some(e), pool := pool,
                                            maxSize := Min(r.topics[t].maxSize, s.maxSize))],
       nodes := r.nodes[node := r.nodes[node].(pubs := r.nodes[node].pubs + {e})],
       nextEndpoint := e + 1)
  }

  function AddSub(r: Reg, node: nat, t: nat, s: TopicSpec, path: string, queue: QueueInfo): Reg
    requires node in r.nodes && t in r.topics
  {
    var e := r.nextEndpoint;
    r.(subs := r.subs[e := Sub(node, t, path, s.maxSize, Wanted(s), queue)],
       topics := r.topics[t := r.topics[t].(subs := r.topics[t].subs + {e},
                                            maxSize := Min(r.topics[t].maxSize, s.maxSize))],
       nodes := r.nodes[node := r.nodes[node].(subs := r.nodes[node].subs + {e})],
       nextEndpoint := e + 1)
  }

  function Advertise(r: Reg, connection: nat, node: nat, s: TopicSpec, pool: PoolInfo): (Reg, ErrorCode)
    requires s.name in r.topicNames ==> r.topicNames[s.name] in r.topics
  {
    var error := AdvertiseError(r, connection, node, s, pool);
    if error != Ok then (r, error) else (AddPub(WithTopic(r, s), node, TopicFor(r, s), s, pool), Ok)
  }

  function Subscribe(r: Reg, connection: nat, node: nat, s: TopicSpec, path: string, queue: QueueInfo): (Reg, ErrorCode)
    requires s.name in r.topicNames ==> r.topicNames[s.name] in r.topics
  {
    var error := SubscribeError(r, connection, node, s, path, queue);
    if error != Ok then (r, error) else (AddSub(WithTopic(r, s), node, TopicFor(r, s), s, path, queue), Ok)
  }

  // ---- removal ----

  function PrunedTopic(t: Topic, gone: set<nat>): Topic {
    var dead := t.publisher.Some? && t.publisher.value in gone;
    t.(publisher := if dead then None else t.publisher, pool := if dead then NO_POOL else t.pool, subs := t.subs - gone)
  }

  function PrunedNode(n: Node, gone: set<nat>): Node {
    n.(pubs := n.pubs - gone, subs := n.subs - gone)
  }

  predicate Vacant(t: Topic) {
    t.publisher.None? && t.subs == {}
  }

  /**
  The registry without the endpoints in `gone`: topics left empty disappear with their names, the
  others lose the endpoints and have their limit recomputed, and everything else is as it was.
  */
  ghost function Pruned(r: Reg, gone: set<nat>): Reg {
    var pubs := map e | e in r.pubs && e !in gone :: r.pubs[e];
    var subs := map e | e in r.subs && e !in gone :: r.subs[e];
    r.(pubs := pubs, subs := subs,
       nodes := map n | n in r.nodes :: PrunedNode(r.nodes[n], gone),
       topics := map t | t in r.topics && !Vacant(PrunedTopic(r.topics[t], gone)) ::
                   Resized(PrunedTopic(r.topics[t], gone), pubs, subs),
       topicNames := map s | s in r.topicNames && r.topicNames[s] in r.topics
                               && !Vacant(PrunedTopic(r.topics[r.topicNames[s]], gone)) :: r.topicNames[s])
  }

  ghost function Resized(t: Topic, pubs: map<nat, Pub>, subs: map<nat, Sub>): Topic {
    if SizesOf(t, pubs, subs) == {} then t else t.(maxSize := Minimum(SizesOf(t, pubs, subs)))
  }

  ghost function Unadvertise(r: Reg, connection: nat, node: nat, e: nat): (Reg, ErrorCode) {
    if !Owns(r, connection, node) || e !in r.pubs || r.pubs[e].node != node then (r, EndpointNotFound)
    else (Pruned(r, {e}), Ok)
  }

  ghost function Unsubscribe(r: Reg, connection: nat, node: nat, e: nat): (Reg, ErrorCode) {
    if !Owns(r, connection, node) || e !in r.subs || r.subs[e].node != node then (r, EndpointNotFound)
    else (Pruned(r, {e}), Ok)
  }

  /** The registry without a node, its name and its endpoints. */
  ghost function Without(r: Reg, node: nat): Reg {
    if node !in r.nodes then r
    else
      var p := Pruned(r, r.nodes[node].pubs + r.nodes[node].subs);
      p.(nodes := p.nodes - {node}, names := p.names - {r.nodes[node].name})
  }

  ghost function Unregister(r: Reg, connection: nat, node: nat): (Reg, ErrorCode) {
    if !Owns(r, connection, node) then (r, NotRegistered) else (Without(r, node), Ok)
  }
}
