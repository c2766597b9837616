/**
The life of a node told by the history of operations alone: when it registered, who speaks for it, when it
was last heard, and when it ended. The registry's records are exactly this, after every run.
*/
module Leases {
  import opened Basics
  import opened RegistryModel
  import opened RegistryCleanup
  import opened RegistryRuns

  /** `beat` is the connection attached for heartbeats (0 if none) and `heard` the time of the last sign of life. */
  datatype Life = Life(name: string, session: nat, control: nat, beat: nat, heard: int)

  /** How many registrations have succeeded. */
  ghost function Births(ops: seq<Timed>, t: Timing): nat
    decreases |ops|, 0
  {
    if ops == [] then 0
    else
      var k := |ops| - 1;
      Births(ops[..k], t) + if Succeeds(ops[..k], t, ops[k].op) then 1 else 0
  }

  /** A registration succeeds under a name that no living node has. */
  ghost predicate Succeeds(ops: seq<Timed>, t: Timing, op: RegOp)
    decreases |ops|, 1
  {
    && op.DoRegister? && op.name != ""
    && forall n :: LifeOf(ops, t, n).Some? ==> LifeOf(ops, t, n).value.name != op.name
  }

  /** A heartbeat counts if it names the node's session and comes on one of its two connections. */
  predicate Speaks(life: Option<Life>, connection: nat, session: nat) {
    life.Some? && life.value.session == session && connection in {life.value.control, life.value.beat}
  }

  ghost predicate SomebodyOn(ops: seq<Timed>, t: Timing, connection: nat)
    decreases |ops|, 1
  {
    exists n :: LifeOf(ops, t, n).Some? && LifeOf(ops, t, n).value.control == connection
  }

  /** Node `n` after these operations, if it lives. */
  ghost function LifeOf(ops: seq<Timed>, t: Timing, n: nat): Option<Life>
    decreases |ops|, 0
  {
    if ops == [] then None
    else
      var k := |ops| - 1;
      var before, op, now := ops[..k], ops[k].op, ops[k].now;
      var was := LifeOf(before, t, n);
      match op
      case DoRegister(c, name) =>
        if Succeeds(before, t, op) && n == Births(before, t) + 1 then Some(Life(name, n, c, 0, now)) else was
      case DoUnregister(c, node) => if node == n && was.Some? && was.value.control == c then None else was
      case DoAttach(c, node, session) =>
        if node == n && was.Some? && was.value.session == session && c != 0 && was.value.beat in {0, c}
        then Some(was.value.(beat := c)) else was
      case DoHeartbeat(c, node, session) =>
        if node == n && Speaks(was, c, session) then Some(was.value.(heard := now)) else was
      case DoEvaluate => if was.Some? && now - was.value.heard >= t.dead then None else was
      case DoDisconnect(c) =>
        if was.Some? && was.value.control == c then None
        else if SomebodyOn(before, t, c) then was
        else Unattached(was, c)
      case DoDetach(c) => Unattached(was, c)
      case _ => was
  }

  function Unattached(life: Option<Life>, connection: nat): Option<Life> {
    if life.Some? && life.value.beat == connection then Some(life.value.(beat := 0)) else life
  }

  // ---- the registry's records are these lives ----

  predicate SameLife(r: Reg, n: nat, life: Option<Life>) {
    && (n in r.nodes <==> life.Some?)
    && (n in r.nodes ==>
          var a, b := r.nodes[n], life.value;
          && a.name == b.name && a.session == b.session && a.control == b.control && a.heartbeat == b.beat
          && a.lastSeen == b.heard)
  }

  ghost predicate Agrees(r: Reg, ops: seq<Timed>, t: Timing) {
    && r.nextNode == r.nextSession == Births(ops, t) + 1
    && forall n {:trigger LifeOf(ops, t, n)} :: SameLife(r, n, LifeOf(ops, t, n))
  }

  /** The nodes of `q` are those of `r`, but for their endpoints and suspicions. */
  ghost predicate SameLives(r: Reg, q: Reg) {
    && q.nextNode == r.nextNode && q.nextSession == r.nextSession
    && (forall n :: n in q.nodes <==> n in r.nodes)
    && (forall n :: n in q.nodes ==> AlikeNodes(q.nodes[n], r.nodes[n]))
  }

  predicate AlikeNodes(a: Node, b: Node) {
    && a.name == b.name && a.session == b.session && a.control == b.control && a.heartbeat == b.heartbeat
    && a.lastSeen == b.lastSeen
  }

  lemma AdvertiseLives(r: Reg, connection: nat, node: nat, spec: TopicSpec, pool: PoolInfo)
    requires TopicNamesOk(r.topics, r.topicNames)
    ensures SameLives(r, Advertise(r, connection, node, spec, pool).0)
  {
  }

  lemma SubscribeLives(r: Reg, connection: nat, node: nat, spec: TopicSpec, path: string, queue: QueueInfo)
    requires TopicNamesOk(r.topics, r.topicNames)
    ensures SameLives(r, Subscribe(r, connection, node, spec, path, queue).0)
  {
  }

  lemma RemovalLives(r: Reg, connection: nat, node: nat, e: nat)
    ensures SameLives(r, Unadvertise(r, connection, node, e).0)
    ensures SameLives(r, Unsubscribe(r, connection, node, e).0)
  {
  }

  predicate EndpointOp(op: RegOp) {
    op.DoAdvertise? || op.DoUnadvertise? || op.DoSubscribe? || op.DoUnsubscribe?
  }

  lemma EndpointLives(r: Reg, op: RegOp, now: int, t: Timing)
    requires RegInv(r) && EndpointOp(op)
    ensures SameLives(r, Apply(r, op, now, t))
  {
    match op
    case DoAdvertise(c, n, spec, pool) => AdvertiseLives(r, c, n, spec, pool);
    case DoSubscribe(c, n, spec, path, queue) => SubscribeLives(r, c, n, spec, path, queue);
    case DoUnadvertise(c, n, e) => RemovalLives(r, c, n, e);
    case DoUnsubscribe(c, n, e) => RemovalLives(r, c, n, e);
  }

  lemma EndpointAgrees(r: Reg, ops: seq<Timed>, e: Timed, t: Timing)
    requires RegInv(r) && Agrees(r, ops, t) && EndpointOp(e.op)
    ensures Agrees(Apply(r, e.op, e.now, t), ops + [e], t)
  {
    var q, all := Apply(r, e.op, e.now, t), ops + [e];
    EndpointLives(r, e.op, e.now, t);
    assert all[..|ops|] == ops;
    forall n ensures SameLife(q, n, LifeOf(all, t, n)) {
      assert LifeOf(all, t, n) == LifeOf(ops, t, n);
      assert SameLife(r, n, LifeOf(ops, t, n));
    }
  }

  lemma NameTaken(r: Reg, ops: seq<Timed>, t: Timing, op: RegOp)
    requires RegInv(r) && Agrees(r, ops, t) && op.DoRegister?
    ensures Succeeds(ops, t, op) <==> op.name != "" && op.name !in r.names
  {
    if op.name in r.names {
      var n := r.names[op.name];
      assert SameLife(r, n, LifeOf(ops, t, n));
    } else {
      forall n | LifeOf(ops, t, n).Some? ensures LifeOf(ops, t, n).value.name != op.name {
        assert SameLife(r, n, LifeOf(ops, t, n));
      }
    }
  }

  lemma RegisterAgrees(r: Reg, ops: seq<Timed>, e: Timed, t: Timing)
    requires RegInv(r) && Agrees(r, ops, t) && e.op.DoRegister?
    ensures Agrees(Apply(r, e.op, e.now, t), ops + [e], t)
  {
    var q, all := Apply(r, e.op, e.now, t), ops + [e];
    NameTaken(r, ops, t, e.op);
    assert all[..|ops|] == ops;
    forall n ensures SameLife(q, n, LifeOf(all, t, n)) {
      assert SameLife(r, n, LifeOf(ops, t, n));
    }
  }

  lemma UnregisterAgrees(r: Reg, ops: seq<Timed>, e: Timed, t: Timing)
    requires RegInv(r) && Agrees(r, ops, t) && e.op.DoUnregister?
    ensures Agrees(Apply(r, e.op, e.now, t), ops + [e], t)
  {
    var q, all := Apply(r, e.op, e.now, t), ops + [e];
    assert all[..|ops|] == ops;
    forall n ensures SameLife(q, n, LifeOf(all, t, n)) {
      assert SameLife(r, n, LifeOf(ops, t, n));
    }
  }

  lemma AttachAgrees(r: Reg, ops: seq<Timed>, e: Timed, t: Timing)
    requires RegInv(r) && Agrees(r, ops, t) && e.op.DoAttach?
    ensures Agrees(Apply(r, e.op, e.now, t), ops + [e], t)
  {
    var q, all := Apply(r, e.op, e.now, t), ops + [e];
    assert all[..|ops|] == ops;
    forall n ensures SameLife(q, n, LifeOf(all, t, n)) {
      assert SameLife(r, n, LifeOf(ops, t, n));
    }
  }

  lemma HeartbeatAgrees(r: Reg, ops: seq<Timed>, e: Timed, t: Timing)
    requires RegInv(r) && Agrees(r, ops, t) && e.op.DoHeartbeat?
    ensures Agrees(Apply(r, e.op, e.now, t), ops + [e], t)
  {
    var q, all := Apply(r, e.op, e.now, t), ops + [e];
    assert all[..|ops|] == ops;
    forall n ensures SameLife(q, n, LifeOf(all, t, n)) {
      assert SameLife(r, n, LifeOf(ops, t, n));
    }
  }

  lemma DetachAgrees(r: Reg, ops: seq<Timed>, e: Timed, t: Timing)
    requires RegInv(r) && Agrees(r, ops, t) && e.op.DoDetach?
    ensures Agrees(Apply(r, e.op, e.now, t), ops + [e], t)
  {
    var q, all := Apply(r, e.op, e.now, t), ops + [e];
    assert all[..|ops|] == ops;
    forall n ensures SameLife(q, n, LifeOf(all, t, n)) {
      assert SameLife(r, n, LifeOf(ops, t, n));
    }
  }

  lemma EvaluateAgrees(r: Reg, ops: seq<Timed>, e: Timed, t: Timing)
    requires RegInv(r) && Agrees(r, ops, t) && e.op.DoEvaluate?
    ensures Agrees(Apply(r, e.op, e.now, t), ops + [e], t)
  {
    var q, all := Apply(r, e.op, e.now, t), ops + [e];
    var marked := MarkAll(r, e.now, t);
    WithoutAllNodes(marked, Ascending(Expired(r, e.now, t), r.nextNode));
    AscendingFacts(Expired(r, e.now, t), r.nextNode);
    assert all[..|ops|] == ops;
    forall n ensures SameLife(q, n, LifeOf(all, t, n)) {
      assert SameLife(r, n, LifeOf(ops, t, n));
    }
  }

  lemma Inhabited(r: Reg, ops: seq<Timed>, t: Timing, connection: nat)
    requires RegInv(r) && Agrees(r, ops, t)
    ensures SomebodyOn(ops, t, connection) <==> OwnedBy(r, connection) != {}
    ensures OwnedBy(r, connection) == {} <==> Ascending(OwnedBy(r, connection), r.nextNode) == []
  {
    AscendingFacts(OwnedBy(r, connection), r.nextNode);
    if n :| n in OwnedBy(r, connection) {
      assert SameLife(r, n, LifeOf(ops, t, n)) && n in Ascending(OwnedBy(r, connection), r.nextNode);
    }
    if n :| LifeOf(ops, t, n).Some? && LifeOf(ops, t, n).value.control == connection {
      assert SameLife(r, n, LifeOf(ops, t, n)) && n in OwnedBy(r, connection);
    }
    var ids := Ascending(OwnedBy(r, connection), r.nextNode);
    if ids != [] { assert ids[0] in ids; }
  }

  lemma DisconnectAgrees(r: Reg, ops: seq<Timed>, e: Timed, t: Timing)
    requires RegInv(r) && Agrees(r, ops, t) && e.op.DoDisconnect?
    ensures Agrees(Apply(r, e.op, e.now, t), ops + [e], t)
  {
    var q, all, c := Apply(r, e.op, e.now, t), ops + [e], e.op.connection;
    Inhabited(r, ops, t, c);
    WithoutAllNodes(r, Ascending(OwnedBy(r, c), r.nextNode));
    AscendingFacts(OwnedBy(r, c), r.nextNode);
    assert all[..|ops|] == ops;
    forall n ensures SameLife(q, n, LifeOf(all, t, n)) {
      assert SameLife(r, n, LifeOf(ops, t, n));
    }
  }

  lemma StepAgrees(r: Reg, ops: seq<Timed>, e: Timed, t: Timing)
    requires RegInv(r) && Agrees(r, ops, t)
    ensures Agrees(Apply(r, e.op, e.now, t), ops + [e], t)
  {
    match e.op
    case DoRegister(_, _) => RegisterAgrees(r, ops, e, t);
    case DoUnregister(_, _) => UnregisterAgrees(r, ops, e, t);
    case DoAttach(_, _, _) => AttachAgrees(r, ops, e, t);
    case DoHeartbeat(_, _, _) => HeartbeatAgrees(r, ops, e, t);
    case DoDetach(_) => DetachAgrees(r, ops, e, t);
    case DoEvaluate => EvaluateAgrees(r, ops, e, t);
    case DoDisconnect(_) => DisconnectAgrees(r, ops, e, t);
    case DoAdvertise(_, _, _, _) => EndpointAgrees(r, ops, e, t);
    case DoUnadvertise(_, _, _) => EndpointAgrees(r, ops, e, t);
    case DoSubscribe(_, _, _, _, _) => EndpointAgrees(r, ops, e, t);
    case DoUnsubscribe(_, _, _) => EndpointAgrees(r, ops, e, t);
  }

  lemma {:induction false} RunSnoc(r: Reg, ops: seq<Timed>, e: Timed, t: Timing)
    requires RegInv(r)
    ensures RunOps(r, ops + [e], t) == Apply(RunOps(r, ops, t), e.op, e.now, t)
    decreases |ops|
  {
    if ops == [] {
      ApplyKeeps(r, e.op, e.now, t);
      assert [e][1..] == [];
      assert ops + [e] == [e];
    } else {
      var q := Apply(r, ops[0].op, ops[0].now, t);
      ApplyKeeps(r, ops[0].op, ops[0].now, t);
      assert (ops + [e])[1..] == ops[1..] + [e];
      RunSnoc(q, ops[1..], e, t);
    }
  }

  /** After every run from the empty registry the nodes are exactly those whose history says they live. */
  lemma {:induction false} LivesExact(ops: seq<Timed>, t: Timing)
    ensures RegInv(EMPTY) && Agrees(RunOps(EMPTY, ops, t), ops, t)
    decreases |ops|
  {
    EmptyHolds();
    if ops == [] {
      assert forall n :: LifeOf(ops, t, n) == None;
    } else {
      var k := |ops| - 1;
      LivesExact(ops[..k], t);
      RunSnoc(EMPTY, ops[..k], ops[k], t);
      StepAgrees(RunOps(EMPTY, ops[..k], t), ops[..k], ops[k], t);
      assert ops == ops[..k] + [ops[k]];
    }
  }

  // ---- leases ----

  /** Operation `i` is a sign of life of node `n`: its registration, or a heartbeat that counts. */
  ghost predicate HeardAt(ops: seq<Timed>, t: Timing, n: nat, i: nat) {
    && i < |ops|
    && ((Succeeds(ops[..i], t, ops[i].op) && n == Births(ops[..i], t) + 1)
       || (ops[i].op.DoHeartbeat? && ops[i].op.node == n
          && Speaks(LifeOf(ops[..i], t, n), ops[i].op.connection, ops[i].op.session)))
  }

  /** And it is the last one. */
  ghost predicate LastHeardAt(ops: seq<Timed>, t: Timing, n: nat, i: nat) {
    HeardAt(ops, t, n, i) && forall j :: i < j < |ops| ==> !HeardAt(ops, t, n, j)
  }

  lemma HeardInFront(ops: seq<Timed>, k: nat, t: Timing, n: nat, i: nat)
    requires i < k <= |ops|
    ensures HeardAt(ops[..k], t, n, i) <==> HeardAt(ops, t, n, i)
  {
    assert ops[..k][..i] == ops[..i] && ops[..k][i] == ops[i];
  }

  /** What a node was last heard by is the last sign of life in the history. */
  lemma {:induction false} LastSign(ops: seq<Timed>, t: Timing, n: nat) returns (i: nat)
    requires LifeOf(ops, t, n).Some?
    ensures LastHeardAt(ops, t, n, i) && LifeOf(ops, t, n).value.heard == ops[i].now
    decreases |ops|
  {
    var k := |ops| - 1;
    if HeardAt(ops, t, n, k) {
      i := k;
    } else {
      i := LastSign(ops[..k], t, n);
      HeardInFront(ops, k, t, n, i);
      forall j | i < j < |ops| ensures !HeardAt(ops, t, n, j) {
        if j < k { HeardInFront(ops, k, t, n, j); }
      }
    }
  }

  /**
  Lease safety: in any run from the empty registry, an evaluation removes a node exactly if its last sign of
  life is at least the dead timeout ago, and suspects it exactly if it is at least the suspect timeout ago.
  */
  lemma LeaseSafety(clock: int, ops: seq<Timed>, now: int, t: Timing, n: nat, i: nat)
    requires ValidTiming(t) && InOrder(clock, ops) && (ops == [] || ops[|ops| - 1].now <= now) && clock <= now
    requires LifeOf(ops, t, n).Some? && LastHeardAt(ops, t, n, i)
    ensures RegInv(EMPTY) && n in RunOps(EMPTY, ops, t).nodes
    ensures var q := Evaluate(RunOps(EMPTY, ops, t), now, t);
            && (n in q.nodes <==> now - ops[i].now < t.dead)
            && (n in q.nodes ==> (q.nodes[n].liveness == Suspected <==> now - ops[i].now >= t.suspect))
  {
    LivesExact(ops, t);
    var r := RunOps(EMPTY, ops, t);
    assert SameLife(r, n, LifeOf(ops, t, n));
    var j := LastSign(ops, t, n);
    assert i == j;
    RunLeased(EMPTY, clock, ops, t);
    EvaluatedAt(r, if ops == [] then clock else ops[|ops| - 1].now, now, t, n);
  }

  lemma EvaluatedAt(r: Reg, clock: int, now: int, t: Timing, n: nat)
    requires RegInv(r) && ValidTiming(t) && Leased(r, clock, t) && clock <= now && n in r.nodes
    ensures var q, silence := Evaluate(r, now, t), now - r.nodes[n].lastSeen;
            && (n in q.nodes <==> silence < t.dead)
            && (n in q.nodes ==> (q.nodes[n].liveness == Suspected <==> silence >= t.suspect))
  {
    EvaluationExact(r, clock, now, t);
    EvaluatedNodes(r, now, t);
  }

  /** The node asks to go, or its connection ends. */
  predicate Quits(op: RegOp, n: nat, connection: nat) {
    op == DoUnregister(connection, n) || op == DoDisconnect(connection)
  }

  /** At every evaluation after its registration the node had been heard less than the dead timeout before. */
  ghost predicate BeatsOften(ops: seq<Timed>, t: Timing, n: nat, i: nat) {
    forall k :: i < k < |ops| && ops[k].op.DoEvaluate? ==> HeardShortlyBefore(ops, t, n, k)
  }

  ghost predicate HeardShortlyBefore(ops: seq<Timed>, t: Timing, n: nat, k: nat) {
    k < |ops| && exists j :: 0 <= j < k && HeardAt(ops, t, n, j) && ops[k].now - ops[j].now < t.dead
  }

  /** A node that does not quit and is heard often enough is never removed. */
  lemma KeptAlive(clock: int, ops: seq<Timed>, t: Timing, n: nat, i: nat)
    requires InOrder(clock, ops) && HeardAt(ops, t, n, i) && ops[i].op.DoRegister?
    requires forall k :: i < k < |ops| ==> !Quits(ops[k].op, n, ops[i].op.connection)
    requires BeatsOften(ops, t, n, i)
    ensures RegInv(EMPTY) && n in RunOps(EMPTY, ops, t).nodes
  {
    LivesExact(ops, t);
    StaysAlive(clock, ops, t, n, i, |ops|);
    assert ops[..|ops|] == ops;
    assert SameLife(RunOps(EMPTY, ops, t), n, LifeOf(ops, t, n));
  }

  lemma {:induction false} BirthsGrow(ops: seq<Timed>, t: Timing, a: nat, b: nat)
    requires a <= b <= |ops|
    ensures Births(ops[..a], t) <= Births(ops[..b], t)
    decreases b
  {
    if a < b {
      BirthsGrow(ops, t, a, b - 1);
      assert ops[..b][..b - 1] == ops[..b - 1];
    }
  }

  lemma {:induction false} StaysAlive(clock: int, ops: seq<Timed>, t: Timing, n: nat, i: nat, m: nat)
    requires InOrder(clock, ops) && HeardAt(ops, t, n, i) && ops[i].op.DoRegister? && i < m <= |ops|
    requires forall k :: i < k < |ops| ==> !Quits(ops[k].op, n, ops[i].op.connection)
    requires BeatsOften(ops, t, n, i)
    ensures LifeOf(ops[..m], t, n).Some? && LifeOf(ops[..m], t, n).value.control == ops[i].op.connection
    decreases m
  {
    var k := m - 1;
    assert ops[..m][..k] == ops[..k] && ops[..m][k] == ops[k];
    if k > i {
      StaysAlive(clock, ops, t, n, i, k);
      if ops[k].op.DoEvaluate? { HeardInTime(clock, ops, t, n, k); }
      BirthsGrow(ops, t, i + 1, k);
      assert ops[..i + 1][..i] == ops[..i] && ops[..i + 1][i] == ops[i];
    }
  }

  lemma HeardInTime(clock: int, ops: seq<Timed>, t: Timing, n: nat, k: nat)
    requires InOrder(clock, ops) && HeardShortlyBefore(ops, t, n, k) && LifeOf(ops[..k], t, n).Some?
    ensures ops[k].now - LifeOf(ops[..k], t, n).value.heard < t.dead
  {
    var j :| 0 <= j < k && HeardAt(ops, t, n, j) && ops[k].now - ops[j].now < t.dead;
    var l := LastSign(ops[..k], t, n);
    HeardInFront(ops, k, t, n, j);
    assert j <= l;
  }

  /** What a node is answered is decided by its life as well. */
  lemma AnswersFollow(ops: seq<Timed>, t: Timing, c: nat, n: nat, session: nat, name: string, now: int)
    ensures RegInv(EMPTY)
    ensures var r, life := RunOps(EMPTY, ops, t), LifeOf(ops, t, n);
            && Heartbeat(r, c, n, session, now).1 == (if Speaks(life, c, session) then Ok else NotRegistered)
            && Attach(r, c, n, session).1
               == (if life.Some? && life.value.session == session && c != 0 && life.value.beat in {0, c} then Ok
                   else NotRegistered)
            && Register(r, c, name, now).1
               == (if name == "" then InvalidArgument
                   else if Succeeds(ops, t, DoRegister(c, name)) then Ok else DuplicateNode)
  {
    LivesExact(ops, t);
    var r := RunOps(EMPTY, ops, t);
    assert SameLife(r, n, LifeOf(ops, t, n));
    NameTaken(r, ops, t, DoRegister(c, name));
  }
}
