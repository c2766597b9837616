/** Leases, and what holds over every run of the registry. */
module RegistryRuns {
  import opened Basics
  import opened RegistryModel
  import opened RegistryLemmas
  import opened RegistryRemoval
  import opened RegistryCleanup

  datatype Timing = Timing(suspect: int, dead: int)

  ghost predicate ValidTiming(t: Timing) {
    0 < t.suspect < t.dead
  }

  // ---- operations on many nodes ----

  function Marked(n: Node, now: int, t: Timing): Node {
    if now - n.lastSeen >= t.suspect && n.liveness == Alive then n.(liveness := Suspected) else n
  }

  function MarkAll(r: Reg, now: int, t: Timing): Reg {
    r.(nodes := map n | n in r.nodes :: Marked(r.nodes[n], now, t))
  }

  function Expired(r: Reg, now: int, t: Timing): set<nat> {
    set n | n in r.nodes && now - r.nodes[n].lastSeen >= t.dead
  }

  /** The nodes removed one after the other. */
  ghost function WithoutAll(r: Reg, ids: seq<nat>): Reg {
    if ids == [] then r else Without(WithoutAll(r, ids[..|ids| - 1]), ids[|ids| - 1])
  }

  ghost function Evaluate(r: Reg, now: int, t: Timing): Reg {
    WithoutAll(MarkAll(r, now, t), Ascending(Expired(r, now, t), r.nextNode))
  }

  function OwnedBy(r: Reg, connection: nat): set<nat> {
    set n | n in r.nodes && r.nodes[n].control == connection
  }

  function Detached(r: Reg, connection: nat): Reg {
    r.(nodes := map n | n in r.nodes ::
         if r.nodes[n].heartbeat == connection then r.nodes[n].(heartbeat := 0) else r.nodes[n])
  }

  ghost function Disconnect(r: Reg, connection: nat): Reg {
    var ids := Ascending(OwnedBy(r, connection), r.nextNode);
    if ids == [] then Detached(r, connection) else WithoutAll(r, ids)
  }

  // ---- integrity ----

  lemma NodesAlike(r: Reg, nodes: map<nat, Node>)
    requires RegInv(r) && nodes.Keys == r.nodes.Keys
    requires forall n :: n in nodes ==>
               nodes[n].name == r.nodes[n].name && nodes[n].session == r.nodes[n].session
               && nodes[n].pubs == r.nodes[n].pubs && nodes[n].subs == r.nodes[n].subs
    ensures RegInv(r.(nodes := nodes))
  {
    assert forall n :: n in nodes <==> n in r.nodes;
    forall e | e in r.pubs ensures PubOk(nodes, r.topics, e, r.pubs[e]) {
      assert PubOk(r.nodes, r.topics, e, r.pubs[e]);
    }
    forall e | e in r.subs ensures SubOk(nodes, r.topics, e, r.subs[e]) {
      assert SubOk(r.nodes, r.topics, e, r.subs[e]);
    }
    forall n | n in nodes ensures NodePubsOk(r.pubs, n, nodes[n]) && NodeSubsOk(r.subs, n, nodes[n]) {
      assert NodePubsOk(r.pubs, n, r.nodes[n]) && NodeSubsOk(r.subs, n, r.nodes[n]);
    }
    assert NamesOk(nodes, r.names);
  }

  lemma {:induction false} WithoutAllKeeps(r: Reg, ids: seq<nat>)
    requires RegInv(r)
    ensures RegInv(WithoutAll(r, ids))
  {
    if ids != [] {
      WithoutAllKeeps(r, ids[..|ids| - 1]);
      WithoutKeeps(WithoutAll(r, ids[..|ids| - 1]), ids[|ids| - 1]);
    }
  }

  /** Exactly the named nodes go; of the others only the endpoint sets can shrink. */
  lemma {:induction false} WithoutAllNodes(r: Reg, ids: seq<nat>)
    ensures forall n :: n in WithoutAll(r, ids).nodes <==> n in r.nodes && n !in ids
    ensures forall n :: n in WithoutAll(r, ids).nodes ==>
              var a, b := WithoutAll(r, ids).nodes[n], r.nodes[n];
              && a.session == b.session && a.lastSeen == b.lastSeen && a.liveness == b.liveness
              && a.control == b.control && a.heartbeat == b.heartbeat && a.name == b.name
    ensures WithoutAll(r, ids).nextNode == r.nextNode && WithoutAll(r, ids).nextSession == r.nextSession
  {
    if ids != [] {
      var k := |ids| - 1;
      WithoutAllNodes(r, ids[..k]);
      assert forall n :: n in ids <==> n in ids[..k] || n == ids[k] by { assert ids == ids[..k] + [ids[k]]; }
    }
  }

  // ---- operations in time ----

  datatype RegOp =
    | DoRegister(connection: nat, name: string)
    | DoUnregister(connection: nat, node: nat)
    | DoAttach(connection: nat, node: nat, session: nat)
    | DoHeartbeat(connection: nat, node: nat, session: nat)
    | DoAdvertise(connection: nat, node: nat, spec: TopicSpec, pool: PoolInfo)
    | DoUnadvertise(connection: nat, node: nat, endpoint: nat)
    | DoSubscribe(connection: nat, node: nat, spec: TopicSpec, path: string, queue: QueueInfo)
    | DoUnsubscribe(connection: nat, node: nat, endpoint: nat)
    | DoEvaluate
    | DoDisconnect(connection: nat)
    | DoDetach(connection: nat)

  ghost function Apply(r: Reg, op: RegOp, now: int, t: Timing): Reg
    requires TopicNamesOk(r.topics, r.topicNames)
  {
    match op
    case DoRegister(c, name) => Register(r, c, name, now).0
    case DoUnregister(c, n) => Unregister(r, c, n).0
    case DoAttach(c, n, s) => Attach(r, c, n, s).0
    case DoHeartbeat(c, n, s) => Heartbeat(r, c, n, s, now).0
    case DoAdvertise(c, n, spec, pool) => Advertise(r, c, n, spec, pool).0
    case DoUnadvertise(c, n, e) => Unadvertise(r, c, n, e).0
    case DoSubscribe(c, n, spec, path, queue) => Subscribe(r, c, n, spec, path, queue).0
    case DoUnsubscribe(c, n, e) => Unsubscribe(r, c, n, e).0
    case DoEvaluate => Evaluate(r, now, t)
    case DoDisconnect(c) => Disconnect(r, c)
    case DoDetach(c) => Detached(r, c)
  }

  /** Every operation keeps the registry's maps consistent. */
  lemma ApplyKeeps(r: Reg, op: RegOp, now: int, t: Timing)
    requires RegInv(r)
    ensures RegInv(Apply(r, op, now, t))
  {
    match op
    case DoRegister(c, name) => RegisterKeeps(r, c, name, now);
    case DoUnregister(c, n) => UnregisterKeeps(r, c, n);
    case DoAttach(c, n, s) => AttachKeeps(r, c, n, s);
    case DoHeartbeat(c, n, s) => HeartbeatKeeps(r, c, n, s, now);
    case DoAdvertise(c, n, spec, pool) => AdvertiseKeeps(r, c, n, spec, pool);
    case DoUnadvertise(c, n, e) => UnadvertiseKeeps(r, c, n, e);
    case DoSubscribe(c, n, spec, path, queue) => SubscribeKeeps(r, c, n, spec, path, queue);
    case DoUnsubscribe(c, n, e) => UnsubscribeKeeps(r, c, n, e);
    case DoEvaluate => EvaluateKeeps(r, now, t);
    case DoDisconnect(c) => DisconnectKeeps(r, c);
    case DoDetach(c) => NodesAlike(r, Detached(r, c).nodes);
  }

  lemma EvaluateKeeps(r: Reg, now: int, t: Timing)
    requires RegInv(r)
    ensures RegInv(Evaluate(r, now, t))
  {
    NodesAlike(r, MarkAll(r, now, t).nodes);
    WithoutAllKeeps(MarkAll(r, now, t), Ascending(Expired(r, now, t), r.nextNode));
  }

  lemma DisconnectKeeps(r: Reg, c: nat)
    requires RegInv(r)
    ensures RegInv(Disconnect(r, c))
  {
    NodesAlike(r, Detached(r, c).nodes);
    WithoutAllKeeps(r, Ascending(OwnedBy(r, c), r.nextNode));
  }

  // ---- leases ----

  /** At time `clock`: nobody was heard from in the future, and only the silent are suspected. */
  ghost predicate Leased(r: Reg, clock: int, t: Timing) {
    forall n :: n in r.nodes ==>
                  && r.nodes[n].lastSeen <= clock
                  && (r.nodes[n].liveness == Suspected ==> clock - r.nodes[n].lastSeen >= t.suspect)
  }

  lemma EvaluatedNodes(r: Reg, now: int, t: Timing)
    requires RegInv(r)
    ensures var q := Evaluate(r, now, t);
            && (forall n :: n in r.nodes ==> (n in q.nodes <==> now - r.nodes[n].lastSeen < t.dead))
            && (forall n :: n in q.nodes ==> n in r.nodes
                                             && q.nodes[n].lastSeen == r.nodes[n].lastSeen
                                             && q.nodes[n].liveness == Marked(r.nodes[n], now, t).liveness)
  {
    WithoutAllNodes(MarkAll(r, now, t), Ascending(Expired(r, now, t), r.nextNode));
    AscendingFacts(Expired(r, now, t), r.nextNode);
  }

  /** After an evaluation nobody left is overdue, and exactly the silent ones are suspected. */
  lemma EvaluationExact(r: Reg, clock: int, now: int, t: Timing)
    requires RegInv(r) && ValidTiming(t) && Leased(r, clock, t) && clock <= now
    ensures forall n :: n in Evaluate(r, now, t).nodes ==>
              var node := Evaluate(r, now, t).nodes[n];
              && now - node.lastSeen < t.dead
              && (node.liveness == Suspected <==> now - node.lastSeen >= t.suspect)
    ensures forall n :: n in r.nodes ==>
              (n in Evaluate(r, now, t).nodes <==> now - r.nodes[n].lastSeen < t.dead)
    ensures Leased(Evaluate(r, now, t), now, t)
  {
    EvaluatedNodes(r, now, t);
  }

  lemma ApplyLeased(r: Reg, op: RegOp, clock: int, now: int, t: Timing)
    requires RegInv(r) && ValidTiming(t) && Leased(r, clock, t) && clock <= now
    ensures Leased(Apply(r, op, now, t), now, t)
  {
    if op.DoEvaluate? {
      EvaluationExact(r, clock, now, t);
    } else if op.DoRegister? || op.DoHeartbeat? {
      HeardLeased(r, op, clock, now, t);
    } else {
      OthersKeepTime(r, op, now, t);
    }
  }

  lemma HeardLeased(r: Reg, op: RegOp, clock: int, now: int, t: Timing)
    requires RegInv(r) && ValidTiming(t) && Leased(r, clock, t) && clock <= now && (op.DoRegister? || op.DoHeartbeat?)
    ensures Leased(Apply(r, op, now, t), now, t)
  {
  }

  /** The nodes that stay keep their times and suspicions. */
  ghost predicate SameTimes(r: Reg, q: Reg) {
    forall n :: n in q.nodes ==>
                  n in r.nodes && q.nodes[n].lastSeen == r.nodes[n].lastSeen
                    && q.nodes[n].liveness == r.nodes[n].liveness
  }

  lemma AdvertiseTimes(r: Reg, connection: nat, node: nat, spec: TopicSpec, pool: PoolInfo)
    requires TopicNamesOk(r.topics, r.topicNames)
    ensures SameTimes(r, Advertise(r, connection, node, spec, pool).0)
  {
  }

  lemma SubscribeTimes(r: Reg, connection: nat, node: nat, spec: TopicSpec, path: string, queue: QueueInfo)
    requires TopicNamesOk(r.topics, r.topicNames)
    ensures SameTimes(r, Subscribe(r, connection, node, spec, path, queue).0)
  {
  }

  lemma RemovalTimes(r: Reg, connection: nat, node: nat, e: nat)
    ensures SameTimes(r, Unadvertise(r, connection, node, e).0)
    ensures SameTimes(r, Unsubscribe(r, connection, node, e).0)
    ensures SameTimes(r, Unregister(r, connection, node).0)
  {
  }

  lemma ConnectionTimes(r: Reg, connection: nat, node: nat, session: nat)
    ensures SameTimes(r, Attach(r, connection, node, session).0)
    ensures SameTimes(r, Detached(r, connection))
    ensures SameTimes(r, Disconnect(r, connection))
  {
    WithoutAllNodes(r, Ascending(OwnedBy(r, connection), r.nextNode));
  }

  /** All other operations leave the times and suspicions of the nodes that stay as they are. */
  lemma OthersKeepTime(r: Reg, op: RegOp, now: int, t: Timing)
    requires TopicNamesOk(r.topics, r.topicNames)
    requires !op.DoRegister? && !op.DoHeartbeat? && !op.DoEvaluate?
    ensures SameTimes(r, Apply(r, op, now, t))
  {
    match op
    case DoAdvertise(c, n, spec, pool) => AdvertiseTimes(r, c, n, spec, pool);
    case DoSubscribe(c, n, spec, path, queue) => SubscribeTimes(r, c, n, spec, path, queue);
    case DoUnadvertise(c, n, e) => RemovalTimes(r, c, n, e);
    case DoUnsubscribe(c, n, e) => RemovalTimes(r, c, n, e);
    case DoUnregister(c, n) => RemovalTimes(r, c, n, 0);
    case DoAttach(c, n, s) => ConnectionTimes(r, c, n, s);
    case DoDisconnect(c) => ConnectionTimes(r, c, 0, 0);
    case DoDetach(c) => ConnectionTimes(r, c, 0, 0);
  }

  // ---- whole runs ----

  datatype Timed = Timed(now: int, op: RegOp)

  ghost function RunOps(r: Reg, ops: seq<Timed>, t: Timing): (q: Reg)
    requires RegInv(r)
    ensures RegInv(q)
    decreases |ops|
  {
    if ops == [] then r
    else
      ApplyKeeps(r, ops[0].op, ops[0].now, t);
      RunOps(Apply(r, ops[0].op, ops[0].now, t), ops[1..], t)
  }

  /** Time never runs backwards. */
  ghost predicate InOrder(clock: int, ops: seq<Timed>) {
    && (forall i :: 0 <= i < |ops| ==> clock <= ops[i].now)
    && (forall i, j :: 0 <= i < j < |ops| ==> ops[i].now <= ops[j].now)
  }

  lemma {:induction false} RunLeased(r: Reg, clock: int, ops: seq<Timed>, t: Timing)
    requires RegInv(r) && ValidTiming(t) && Leased(r, clock, t) && InOrder(clock, ops)
    ensures Leased(RunOps(r, ops, t), if ops == [] then clock else ops[|ops| - 1].now, t)
    decreases |ops|
  {
    if ops != [] {
      var q := Apply(r, ops[0].op, ops[0].now, t);
      ApplyKeeps(r, ops[0].op, ops[0].now, t);
      ApplyLeased(r, ops[0].op, clock, ops[0].now, t);
      assert InOrder(ops[0].now, ops[1..]);
      RunLeased(q, ops[0].now, ops[1..], t);
    }
  }

  // ---- identities are never reused ----

  /** The node id has been given out and its node is gone. */
  ghost predicate Spent(r: Reg, node: nat) {
    node < r.nextNode && node !in r.nodes
  }

  lemma ApplySpent(r: Reg, op: RegOp, now: int, t: Timing, node: nat)
    requires RegInv(r) && Spent(r, node)
    ensures Spent(Apply(r, op, now, t), node)
  {
    if op.DoEvaluate? {
      WithoutAllNodes(MarkAll(r, now, t), Ascending(Expired(r, now, t), r.nextNode));
    } else if op.DoDisconnect? {
      WithoutAllNodes(r, Ascending(OwnedBy(r, op.connection), r.nextNode));
    } else if op.DoAdvertise? || op.DoSubscribe? {
      EndpointSpent(r, op, now, t, node);
    }
  }

  lemma EndpointSpent(r: Reg, op: RegOp, now: int, t: Timing, node: nat)
    requires RegInv(r) && Spent(r, node) && (op.DoAdvertise? || op.DoSubscribe?)
    ensures Spent(Apply(r, op, now, t), node)
  {
  }

  lemma {:induction false} RunSpent(r: Reg, ops: seq<Timed>, t: Timing, node: nat)
    requires RegInv(r) && Spent(r, node)
    ensures Spent(RunOps(r, ops, t), node)
    decreases |ops|
  {
    if ops != [] {
      ApplyKeeps(r, ops[0].op, ops[0].now, t);
      ApplySpent(r, ops[0].op, ops[0].now, t, node);
      RunSpent(Apply(r, ops[0].op, ops[0].now, t), ops[1..], t, node);
    }
  }

  /** A removed node is never accepted again, under its session or any other. */
  lemma RemovedForGood(r: Reg, removed: nat, ops: seq<Timed>, t: Timing, connection: nat, session: nat, now: int)
    requires RegInv(r) && removed in r.nodes
    ensures RegInv(Without(r, removed))
    ensures var q := RunOps(Without(r, removed), ops, t);
            && Heartbeat(q, connection, removed, session, now) == (q, NotRegistered)
            && Attach(q, connection, removed, session) == (q, NotRegistered)
  {
    WithoutKeeps(r, removed);
    RunSpent(Without(r, removed), ops, t, removed);
  }
}
