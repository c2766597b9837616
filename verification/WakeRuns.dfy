/**
The runs that leave a subscriber waiting, and so the exact condition for a wake-up to be safe: a
connection at risk can be brought, by an ordinary publish and the subscriber's own loop, to a poll
with the published handle queued and no wake frame.
*/
module WakeRuns {
  import opened Basics
  import opened PoolModel
  import opened PoolLemmas
  import opened RingModel
  import opened Protocol
  import opened ProtocolInvariant
  import opened ProtocolTheorems
  import opened ProtocolRuns
  import opened HeldBack
  import opened ChunkReturns
  import opened WakeRisk
  import DS = DispatchSteps
  import LS = LoanSteps

  // ---- the subscriber's loop ----

  lemma UpdatedTwice(s: System, i: nat, c: Connection, d: Connection)
    requires i < |s.connections|
    ensures Update(Update(s, i, c), i, d) == Update(s, i, d)
  {
    assert s.connections[i := c][i := d] == s.connections[i := d];
  }

  /** With no wake frame to read, the loop comes round to its peek. */
  lemma {:induction false} ComesRound(s: System, i: nat) returns (t: System)
    requires Inv(s) && i < |s.connections|
    requires s.connections[i].wakes == 0 && s.connections[i].pc != Detached && s.connections[i].pc != Peeked
    ensures Goes(s, t) && Inv(t) && t == Update(s, i, s.connections[i].(pc := Looping))
    decreases Distance(s.connections[i].pc)
  {
    var c := s.connections[i];
    if c.pc == Looping {
      Stays(s);
      t := s;
    } else {
      var m := Nearer(s, i);
      t := ComesRound(m, i);
      UpdatedTwice(s, i, m.connections[i], t.connections[i]);
      Onward(s, m, t);
    }
  }

  function Closer(pc: SubscriberPc): SubscriberPc {
    if pc == Polling then Outside else if pc == Outside then DrainingWakes else Looping
  }

  lemma Nearer(s: System, i: nat) returns (t: System)
    requires Inv(s) && i < |s.connections| && s.connections[i].wakes == 0
    requires s.connections[i].pc in {Polling, Outside, DrainingWakes}
    ensures Goes(s, t) && Inv(t) && t == Update(s, i, s.connections[i].(pc := Closer(s.connections[i].pc)))
  {
    var pc := s.connections[i].pc;
    t := Take1(s, if pc == Polling then PollEnd(i) else if pc == Outside then Enter(i) else Drained(i));
  }

  /** How far the loop is from its peek. */
  function Distance(pc: SubscriberPc): nat {
    match pc
    case Polling => 3
    case Outside => 2
    case DrainingWakes => 1
    case _ => 0
  }

  lemma Dequeues(s: System, i: nat) returns (t: System)
    requires Inv(s) && i < |s.connections| && s.connections[i].pc == Peeked && |s.connections[i].ring.items| > 1
    ensures Goes(s, t) && Inv(t) && t.pc == s.pc && t.pool == s.pool && |t.connections| == |s.connections|
    ensures var c, d := s.connections[i], t.connections[i];
            && d.endpoint == c.endpoint && d.ring.items == c.ring.items[1..] && d.pc == Outside && d.wakes == c.wakes
            && d.wasEmpty == c.wasEmpty && d.installed == c.installed
            && d.ring.closed == c.ring.closed && d.ring.capacity == c.ring.capacity && d.ring.policy == c.ring.policy
  {
    t := Take1(s, Dequeue(i, false));
  }

  /** A ring that was never empty and holds a handle of this publisher ends up in front of a poll. */
  lemma {:induction false} WalksToPoll(s: System, i: nat) returns (t: System)
    requires Inv(s) && i < |s.connections| && !s.connections[i].wasEmpty
    requires s.connections[i].pc != Detached && s.connections[i].pc != Peeked
    requires OwnIn(s.connections[i].ring.items, s.pool.id)
    ensures Goes(s, t) && Stranded(t, s.connections[i].endpoint)
    decreases |s.connections[i].ring.items|
  {
    AtConnection(s, i);
    var c := s.connections[i];
    var s1 := ComesRound(s, i);
    var s2 := Then(s, s1, Peek(i));
    if CanTake(c) {
      var k :| 0 <= k < |c.ring.items| && c.ring.items[k].poolId == s.pool.id;
      assert k > 0 && c.ring.items[1..][k - 1] == c.ring.items[k];
      var s3 := Dequeues(s2, i);
      Onward(s, s2, s3);
      t := WalksToPoll(s3, i);
      Onward(s, s3, t);
    } else {
      t := s2;
      assert StrandedAt(t.connections[i], t.pool.id);
    }
  }

  /** From between peek and dequeue, the head goes first. */
  lemma PeekedToPoll(s: System, i: nat) returns (t: System)
    requires Inv(s) && i < |s.connections| && !s.connections[i].wasEmpty && s.connections[i].pc == Peeked
    requires s.connections[i].ring.items != [] && OwnIn(s.connections[i].ring.items[1..], s.pool.id)
    ensures Goes(s, t) && Stranded(t, s.connections[i].endpoint)
  {
    var s1 := Dequeues(s, i);
    t := WalksToPoll(s1, i);
    Onward(s, s1, t);
  }

  // ---- an ordinary publish ----

  /** The publisher fails to lock the ring it has reached, and moves on. */
  lemma Skips(s: System) returns (t: System)
    requires Inv(s) && s.pc.Dispatching? && s.pc.phase.Start? && s.pc.index < |s.connections|
    ensures Goes(s, t) && Inv(t) && t.pc == s.pc.(index := s.pc.index + 1)
    ensures t.connections == s.connections && t.pool.id == s.pool.id
  {
    t := Tries(s);
    if t.pc.phase.Referenced? {
      var m := t;
      t := GivesUp(m);
      Onward(s, m, t);
    }
  }

  lemma Tries(s: System) returns (t: System)
    requires Inv(s) && s.pc.Dispatching? && s.pc.phase.Start? && s.pc.index < |s.connections|
    ensures Goes(s, t) && Inv(t)
    ensures t.pc == s.pc.(index := s.pc.index + 1) || t.pc == s.pc.(phase := Referenced)
    ensures t.connections == s.connections && t.pool.id == s.pool.id
  {
    t := Take1(s, AddRef);
  }

  lemma GivesUp(s: System) returns (t: System)
    requires Inv(s) && s.pc.Dispatching? && s.pc.phase.Referenced? && s.pc.index < |s.connections|
    ensures Goes(s, t) && Inv(t) && t.pc == s.pc.(index := s.pc.index + 1, phase := Start)
    ensures t.connections == s.connections && t.pool.id == s.pool.id
  {
    AtConnection(s, s.pc.index);
    var m := Refuses(s);
    t := TakesBack(m);
    Onward(s, m, t);
  }

  lemma Refuses(s: System) returns (t: System)
    requires Inv(s) && s.pc.Dispatching? && s.pc.phase.Referenced? && s.pc.index < |s.connections|
    requires ValidRing(s.connections[s.pc.index].ring)
    ensures Goes(s, t) && Inv(t) && t.pc == s.pc.(phase := Refused)
    ensures t.connections == s.connections && t.pool.id == s.pool.id
  {
    t := Take1(s, TryEnqueue(LockFails));
  }

  lemma TakesBack(s: System) returns (t: System)
    requires Inv(s) && s.pc.Dispatching? && s.pc.phase.Refused? && s.pc.index < |s.connections|
    ensures Goes(s, t) && Inv(t) && t.pc == s.pc.(index := s.pc.index + 1, phase := Start)
    ensures t.connections == s.connections && t.pool.id == s.pool.id
  {
    t := Take1(s, Settle);
  }

  lemma {:induction false} SkipsTo(s: System, k: nat) returns (t: System)
    requires Inv(s) && s.pc.Dispatching? && s.pc.phase.Start? && s.pc.index <= k <= |s.connections|
    ensures Goes(s, t) && Inv(t) && t.pc == s.pc.(index := k)
    ensures t.connections == s.connections && t.pool.id == s.pool.id
    decreases k - s.pc.index
  {
    if s.pc.index == k {
      Stays(s);
      t := s;
    } else {
      var m := Skips(s);
      t := SkipsTo(m, k);
      Onward(s, m, t);
    }
  }

  lemma Publishes(s: System) returns (t: System)
    requires Inv(s) && s.pc.Idle? && CanAllocate(s.pool, 0)
    ensures Goes(s, t) && Inv(t) && t.pc.Dispatching? && t.pc == Dispatching(t.pc.handle, 0, Start, [])
    ensures t.connections == s.connections && t.pool.id == s.pool.id
  {
    AllocateOutcome(s.pool, 0);
    LS.CopyPublishes(s, [], 0);
    t := Take1(s, PublishCopy([], 0));
  }

  /** A handle that nobody owes yet gets its tentative reference. */
  lemma References(s: System) returns (t: System)
    requires Inv(s) && s.pc.Dispatching? && s.pc.phase.Start? && s.pc.index < |s.connections|
    requires forall j :: 0 <= j < |s.connections| ==> s.pc.handle !in s.connections[j].outstanding
    ensures Goes(s, t) && Inv(t) && t.pc == s.pc.(phase := Referenced)
    ensures t.connections == s.connections && t.pool.id == s.pool.id
  {
    var h, lists := s.pc.handle, Obligations(s.connections);
    var c := s.connections[s.pc.index];
    AtConnection(s, s.pc.index);
    OutstandingBound(s.pool, c.outstanding, h);
    HoldersNone(lists, h);
    assert HandleOf(s.pool, h.chunk) == h;
    DS.AddReferenceFacts(s.pool, h);
    t := Take1(s, AddRef);
  }

  /** The ring is open and takes a handle at once. */
  ghost predicate Ready(r: Ring) {
    !r.closed && (|r.items| < r.capacity || r.policy == DropOldest)
  }

  /** `r` has taken a handle of pool `id` at its end. */
  ghost predicate Took(r: Ring, q: Ring, id: nat) {
    && q.items != [] && q.items[|q.items| - 1].poolId == id
    && (|r.items| < r.capacity ==> |q.items| == |r.items| + 1)
  }

  /** The step by which connection `s.pc.index` takes the handle. */
  lemma TakesIt(s: System, t: System)
    requires s.pc.Dispatching? && s.pc.phase.Referenced? && s.pc.index < |s.connections|
    requires var c := s.connections[s.pc.index]; ValidRing(c.ring) && c.ring.items != [] && Ready(c.ring)
    requires s.pc.handle.poolId == s.pool.id && t == TryEnqueueStep(s, Acts(true))
    ensures t.pool == s.pool && |t.connections| == |s.connections|
    ensures t.pc.Dispatching? && t.pc.phase.Enqueued? && t.pc == s.pc.(phase := t.pc.phase)
    ensures var c, d := s.connections[s.pc.index], t.connections[s.pc.index];
            SameSide(c.(ring := d.ring), d) && Took(c.ring, d.ring, s.pool.id)
  {
  }

  lemma Enqueues(s: System) returns (t: System)
    requires Inv(s) && s.pc.Dispatching? && s.pc.phase.Referenced? && s.pc.index < |s.connections|
    requires var c := s.connections[s.pc.index]; c.ring.items != [] && Ready(c.ring)
    ensures Goes(s, t) && Inv(t) && t.pool.id == s.pool.id && |t.connections| == |s.connections|
    ensures t.pc.Dispatching? && t.pc.phase.Enqueued? && t.pc == s.pc.(phase := t.pc.phase)
    ensures var c, d := s.connections[s.pc.index], t.connections[s.pc.index];
            SameSide(c.(ring := d.ring), d) && Took(c.ring, d.ring, s.pool.id)
  {
    AtConnection(s, s.pc.index);
    t := Take1(s, TryEnqueue(Acts(true)));
    TakesIt(s, t);
  }

  lemma Finishes(s: System) returns (t: System)
    requires Inv(s) && s.pc.Dispatching? && s.pc.phase.Enqueued? && s.pc.index < |s.connections| && s.pc.broken == []
    ensures Goes(s, t) && Inv(t) && t.pc.Idle? && t.pool.id == s.pool.id && |t.connections| == |s.connections|
    ensures SameSide(s.connections[s.pc.index], t.connections[s.pc.index])
  {
    var s1 := Records(s);
    var s2 := SkipsTo(s1, |s1.connections|);
    Onward(s, s1, s2);
    t := DropsGuard(s2);
    Onward(s, s2, t);
  }

  lemma Records(s: System) returns (t: System)
    requires Inv(s) && s.pc.Dispatching? && s.pc.phase.Enqueued? && s.pc.index < |s.connections|
    ensures Goes(s, t) && Inv(t) && t.pc == s.pc.(index := s.pc.index + 1, phase := Start)
    ensures t.pool.id == s.pool.id && |t.connections| == |s.connections|
    ensures SameSide(s.connections[s.pc.index], t.connections[s.pc.index])
  {
    t := Take1(s, Settle);
  }

  lemma DropsGuard(s: System) returns (t: System)
    requires Inv(s) && s.pc.Dispatching? && s.pc.phase.Start? && s.pc.index == |s.connections| && s.pc.broken == []
    ensures Goes(s, t) && Inv(t) && t.pc.Idle? && t.pool.id == s.pool.id && t.connections == s.connections
  {
    var m := Take1(s, DropGuard);
    t := EndsRemoving(m);
    Onward(s, m, t);
  }

  /** One publish of an empty payload, accepted by connection `i`. */
  lemma Delivers(s: System, i: nat) returns (t: System)
    requires Inv(s) && s.pc.Idle? && CanAllocate(s.pool, 0) && i < |s.connections|
    requires s.connections[i].ring.items != [] && Ready(s.connections[i].ring)
    ensures Goes(s, t) && Inv(t) && t.pc.Idle? && t.pool.id == s.pool.id && |t.connections| == |s.connections|
    ensures var c, d := s.connections[i], t.connections[i];
            SameSide(c.(ring := d.ring), d) && Took(c.ring, d.ring, s.pool.id)
  {
    var s1 := Publishes(s);
    assert forall j :: 0 <= j < |s1.connections| ==> Obligations(s1.connections)[j] == s1.connections[j].outstanding;
    var s2 := SkipsTo(s1, i);
    Onward(s, s1, s2);
    var s3 := References(s2);
    Onward(s, s2, s3);
    var s4 := Enqueues(s3);
    Onward(s, s3, s4);
    t := Finishes(s4);
    Onward(s, s4, t);
  }

  lemma TookOwn(r: Ring, q: Ring, id: nat)
    requires Took(r, q, id)
    ensures OwnIn(q.items, id)
    ensures |q.items| > 1 ==> OwnIn(q.items[1..], id)
  {
    var n := |q.items| - 1;
    assert q.items[n].poolId == id;
    if n > 0 { assert q.items[1..][n - 1] == q.items[n]; }
  }

  // ---- every connection at risk ----

  /** The ring takes a handle while others are queued, and the subscriber is not about to take the head. */
  lemma ReadyStrands(s: System, i: nat) returns (t: System)
    requires Inv(s) && s.pc.Idle? && CanAllocate(s.pool, 0) && i < |s.connections|
    requires var c := s.connections[i];
             !c.wasEmpty && c.pc != Detached && c.pc != Peeked && Ready(c.ring)
    ensures Goes(s, t) && Stranded(t, s.connections[i].endpoint)
  {
    AtConnection(s, i);
    var s1 := Delivers(s, i);
    TookOwn(s.connections[i].ring, s1.connections[i].ring, s.pool.id);
    t := WalksToPoll(s1, i);
    Onward(s, s1, t);
  }

  lemma PeekedStrands(s: System, i: nat) returns (t: System)
    requires Inv(s) && s.pc.Idle? && CanAllocate(s.pool, 0) && i < |s.connections|
    requires var c := s.connections[i];
             !c.wasEmpty && c.pc == Peeked && !c.ring.closed && c.ring.capacity > 1
    ensures Goes(s, t) && Stranded(t, s.connections[i].endpoint)
  {
    AtConnection(s, i);
    var c := s.connections[i];
    if |c.ring.items| > 1 {
      var s1 := Dequeues(s, i);
      t := ReadyStrands(s1, i);
      Onward(s, s1, t);
    } else {
      var s1 := Delivers(s, i);
      TookOwn(c.ring, s1.connections[i].ring, s.pool.id);
      t := PeekedToPoll(s1, i);
      Onward(s, s1, t);
    }
  }

  /** The subscriber takes the head of a full ring. */
  lemma TakingStrands(s: System, i: nat) returns (t: System)
    requires Inv(s) && s.pc.Idle? && CanAllocate(s.pool, 0) && i < |s.connections|
    requires var c := s.connections[i];
             && !c.wasEmpty && c.pc != Detached && c.pc != Peeked && !c.ring.closed && c.ring.capacity > 1
             && CanTake(c)
    ensures Goes(s, t) && Stranded(t, s.connections[i].endpoint)
  {
    AtConnection(s, i);
    var s1 := ComesRound(s, i);
    var s2 := Then(s, s1, Peek(i));
    t := PeekedStrands(s2, i);
    Onward(s, s2, t);
  }

  /** Of two pools one that is not this one can be discarded, which leaves handles and makes room. */
  lemma OtherPool(items: seq<ChunkHandle>, id: nat) returns (dead: nat)
    requires Mixed(items) && !OwnIn(items, id)
    ensures dead != 0 && dead != id && KeepOthers(items, dead) != [] && |KeepOthers(items, dead)| < |items|
  {
    var k :| 0 <= k < |items| && items[k].poolId != items[0].poolId;
    var a, b := items[0], items[k];
    dead := if a.poolId != 0 then a.poolId else b.poolId;
    assert items[if a.poolId != 0 then 0 else k].poolId == dead;
    var other := if a.poolId != 0 then b else a;
    assert other in items && other in KeepOthers(items, dead);
    FewerKept(items, dead, if a.poolId != 0 then 0 else k);
  }

  lemma {:induction false} FewerKept(items: seq<ChunkHandle>, dead: nat, k: nat)
    requires k < |items| && items[k].poolId == dead
    ensures |KeepOthers(items, dead)| < |items|
  {
    var n := |items| - 1;
    if k < n { FewerKept(items[..n], dead, k); }
  }

  lemma MixedStrands(s: System, i: nat) returns (t: System)
    requires Inv(s) && s.pc.Idle? && CanAllocate(s.pool, 0) && i < |s.connections|
    requires var c := s.connections[i];
             && !c.wasEmpty && c.pc != Detached && c.pc != Peeked && !c.ring.closed
             && Mixed(c.ring.items) && !OwnIn(c.ring.items, s.pool.id)
    ensures Goes(s, t) && Stranded(t, s.connections[i].endpoint)
  {
    AtConnection(s, i);
    var dead := OtherPool(s.connections[i].ring.items, s.pool.id);
    var s1 := Take1(s, Reset(i, dead, false));
    t := ReadyStrands(s1, i);
    Onward(s, s1, t);
  }

  lemma RiskStrandsNow(s: System, i: nat) returns (t: System)
    requires Inv(s) && s.pc.Idle? && CanAllocate(s.pool, 0) && i < |s.connections|
    requires AtRisk(s.connections[i], s.pool.id)
    ensures Goes(s, t) && Stranded(t, s.connections[i].endpoint)
  {
    AtConnection(s, i);
    var c := s.connections[i];
    if c.pc == Peeked {
      if OwnIn(c.ring.items[1..], s.pool.id) { t := PeekedToPoll(s, i); } else { t := PeekedStrands(s, i); }
    } else if OwnIn(c.ring.items, s.pool.id) {
      t := WalksToPoll(s, i);
    } else if Ready(c.ring) {
      t := ReadyStrands(s, i);
    } else if CanTake(c) {
      t := TakingStrands(s, i);
    } else {
      t := MixedStrands(s, i);
    }
  }

  // ---- the exact condition ----

  /**
  The pool has a chunk for an empty message. A subscriber about to take the head of its ring will not leave a
  chunk that is queued there to be used again, so then it is to be another one.
  */
  ghost predicate Supplied(p: Pool, c: Connection, k: nat) {
    Smallest(p, k) && (c.pc == Peeked ==> Unqueued(p, c.ring.items, k))
  }

  /** The chunk may be on loan, or owed by anybody, and is had back first. */
  lemma RiskStrands(s: System, i: nat, k: nat) returns (t: System)
    requires Sound(s) && s.pc.Idle? && i < |s.connections|
    requires AtRisk(s.connections[i], s.pool.id) && Supplied(s.pool, s.connections[i], k)
    ensures Goes(s, t) && Stranded(t, s.connections[i].endpoint)
  {
    var c := s.connections[i];
    AtConnection(s, i);
    if c.pc != Peeked && OwnIn(c.ring.items, s.pool.id) {
      t := WalksToPoll(s, i);
    } else {
      var m := MakesRoom(s, i, k);
      SameRisk(c, m.connections[0], s.pool.id);
      t := RiskStrandsNow(m, 0);
      Onward(s, m, t);
    }
  }

  /**
  The subscriber of a connection can be left polling beside a queued handle if and only if the connection
  is at risk.
  */
  lemma WakeExact(s: System, i: nat)
    requires Reachable(s) && s.pc.Idle? && i < |s.connections|
    requires exists k :: Supplied(s.pool, s.connections[i], k)
    ensures (exists t :: Goes(s, t) && Stranded(t, s.connections[i].endpoint))
            <==> AtRisk(s.connections[i], s.pool.id)
  {
    ReachableInv(s);
    ReachableFine(s);
    var e := s.connections[i].endpoint;
    if AtRisk(s.connections[i], s.pool.id) {
      var k :| Supplied(s.pool, s.connections[i], k);
      var t := RiskStrands(s, i, k);
    } else {
      forall t | Goes(s, t) ensures !Stranded(t, e) {
        var steps :| Run(s, steps, t);
        NeverStranded(s, i, steps, t);
      }
    }
  }

  /** The rest of the list is passed over and the publisher is between calls again. */
  lemma {:induction false} EndsConnecting(s: System) returns (t: System)
    requires Inv(s) && s.pc.Connecting?
    ensures Goes(s, t) && Inv(t) && t.pc.Idle? && t.connections == s.connections && t.pool == s.pool
    decreases |s.pc.order|
  {
    var m := Take1(s, ConnectNext(None));
    if s.pc.order == [] {
      t := m;
    } else {
      t := EndsConnecting(m);
      Onward(s, m, t);
    }
  }

  /** The publisher connects to `peer`. */
  ghost predicate Connects(s: System, peer: Connection) {
    && Enabled(s, ConnectNext(Some(peer))) && s.pc.order != []
    && FindConnection(s.connections, s.pc.order[0]) == |s.connections| && s.pc.order[0] !in s.failed
  }

  lemma NewRisk(s: System, peer: Connection)
    requires Inv(s) && Connects(s, peer)
    ensures NoneOf(peer, s.pool.id)
    ensures AtRisk(peer, s.pool.id) <==> peer.ring.items != [] && Exposed(peer)
  {
    assert s.pc.order[0] !in Endpoints(s.connections);
    assert s.pc.order[0] !in s.seen;
  }

  lemma NewConnection(s: System, peer: Connection) returns (t: System)
    requires Inv(s) && Connects(s, peer)
    ensures t == Next(s, ConnectNext(Some(peer))) && Goes(s, t) && Inv(t)
    ensures t.pc.Connecting? && t.pool == s.pool && t.connections == s.connections + [peer]
  {
    t := Take1(s, ConnectNext(Some(peer)));
  }

  lemma NewStrands(s: System, s1: System, peer: Connection) returns (t: System)
    requires Inv(s) && AllFine(s) && Connects(s, peer) && s1 == Next(s, ConnectNext(Some(peer))) && Inv(s1)
    requires s1.pc.Connecting? && s1.pool == s.pool && s1.connections == s.connections + [peer]
    requires NoneOf(peer, s.pool.id) && AtRisk(peer, s.pool.id) && exists k :: Smallest(s.pool, k)
    ensures Goes(s1, t) && Stranded(t, peer.endpoint)
  {
    var k :| Smallest(s.pool, k);
    StepFine(s, ConnectNext(Some(peer)));
    var s2 := EndsConnecting(s1);
    GoesFine(s1, s2);
    assert s2.connections[|s.connections|] == peer;
    t := RiskStrands(s2, |s.connections|, k);
    Onward(s1, s2, t);
  }

  lemma GoesFine(s: System, t: System)
    requires Inv(s) && AllFine(s) && Goes(s, t)
    ensures AllFine(t)
  {
    var steps :| Run(s, steps, t);
    RunFine(s, steps, t);
  }

  /**
  What can be known when the publisher connects decides it: a subscriber can come to wait beside a
  queued handle if and only if its ring is not empty and a handle can get in beside what is there.
  */
  lemma WakeExactAtConnect(s: System, peer: Connection)
    requires Reachable(s) && Shaped(s.pool) && Connects(s, peer)
    requires exists k :: Smallest(s.pool, k)
    ensures (exists t :: Goes(Next(s, ConnectNext(Some(peer))), t) && Stranded(t, peer.endpoint))
            <==> peer.ring.items != [] && Exposed(peer)
  {
    ReachableInv(s);
    ReachableFine(s);
    NewRisk(s, peer);
    var s1 := NewConnection(s, peer);
    var i := |s.connections|;
    assert s1.connections[i] == peer;
    if AtRisk(peer, s.pool.id) {
      var t := NewStrands(s, s1, peer);
    } else {
      OnlyConnection(s1, i);
      forall t | Goes(s1, t) ensures !Stranded(t, peer.endpoint) {
        var steps :| Run(s1, steps, t);
        RunGuarded(s1, steps, t, peer.endpoint);
        GuardedNotStranded(t, peer.endpoint);
      }
    }
  }

  // ---- such sessions ----

  /** A new session over pool `p`, with one subscriber registered. */
  function NewSession(p: Pool, maxSize: nat): System {
    System(p, maxSize, [], Idle, 0, map[], {}, [], maxSize, {0}, 1, {})
  }

  ghost predicate Unused(p: Pool) {
    ValidPool(p) && forall i :: 0 <= i < |p.chunks| ==> p.chunks[i].state == Free
  }

  lemma Discovers(s0: System) returns (s: System)
    requires Inv(s0) && s0.pc.Idle? && s0.registered == {0} && s0.connections == []
    ensures Goes(s0, s) && Inv(s) && s.pc == Connecting([0]) && s.connections == []
    ensures s.pool == s0.pool && s.failed == s0.failed * {0} && s.seen == s0.seen
  {
    assert NoDup([0]) && forall e :: e in [0] <==> e in s0.registered;
    var s1 := Take1(s0, Discover([0]));
    s := EndsRemoving(s1);
    Onward(s0, s1, s);
  }

  /** The new session connects to its subscriber and is between calls. */
  lemma ConnectsTo(s0: System, peer: Connection) returns (s: System)
    requires Inv(s0) && s0.pc.Idle? && s0.registered == {0} && s0.connections == [] && s0.failed == {} && s0.seen == {}
    requires NewPeer(peer, 0) && NoneOf(peer, s0.pool.id)
    ensures Goes(s0, s) && Inv(s) && s.pc.Idle? && s.connections == [peer] && s.pool == s0.pool
  {
    var s1 := Discovers(s0);
    var s2 := NewConnection(s1, peer);
    Onward(s0, s1, s2);
    s := EndsConnecting(s2);
    Onward(s0, s2, s);
  }

  lemma ReachedFrom(s0: System, s: System)
    requires Init(s0) && Goes(s0, s)
    ensures Reachable(s) && s.pool.id == s0.pool.id
  {
    InitHolds(s0);
    GoesSamePool(s0, s);
    var steps :| Run(s0, steps, s);
  }

  /**
  Whatever the pool, a first publish to a subscriber whose ring is not empty and open to it leads to
  a reachable state in which that subscriber waits beside the handle without a wake.
  */
  lemma LostWakeReachable(p: Pool, maxSize: nat, peer: Connection) returns (s: System)
    requires Unused(p) && CanAllocate(p, 0)
    requires NewPeer(peer, 0) && NoneOf(peer, p.id) && peer.ring.items != [] && Exposed(peer)
    ensures Reachable(s) && Stranded(s, 0) && s.pool.id == p.id
  {
    var s0 := NewSession(p, maxSize);
    InitHolds(s0);
    var s1 := ConnectsTo(s0, peer);
    s := RiskStrandsNow(s1, 0);
    Onward(s0, s1, s);
    ReachedFrom(s0, s);
  }

  lemma {:induction false} RunSamePool(s: System, steps: seq<Step>, t: System)
    requires Inv(s) && Run(s, steps, t)
    ensures t.pool.id == s.pool.id
    decreases |steps|
  {
    if steps != [] {
      var m := PathHead(StepTo, s, steps, t);
      StepKeeps(s, steps[0]);
      StepSamePool(s, steps[0]);
      RunSamePool(m, steps[1..], t);
    }
  }

  lemma StepSamePool(s: System, step: Step)
    requires Inv(s) && Enabled(s, step)
    ensures Next(s, step).pool.id == s.pool.id
  {
    if !SubscriberStep(step) && !step.TryEnqueue? { PublisherDescends(s, step); }
  }

  lemma GoesSamePool(s: System, t: System)
    requires Inv(s) && Goes(s, t)
    ensures t.pool.id == s.pool.id
  {
    var steps :| Run(s, steps, t);
    RunSamePool(s, steps, t);
  }

  /** The smallest pool: one chunk of one byte. */
  lemma SmallPool() returns (p: Pool)
    ensures Unused(p) && CanAllocate(p, 0) && p.id == 1 && p.classes == [1] && |p.chunks| == 1
  {
    p := Pool(1, [256], [1], [Chunk(0, Free, 0, 1, 0, 0, 0, 0, [0])], [[0]], 0, 0);
    assert p.chunks[..0] == [];
    assert ChunkOk(p, 0);
    assert FreeListOk(p, 0);
  }

  /** A subscriber whose ring has a single slot, which holds a handle of an earlier publisher. */
  lemma StalePeer() returns (peer: Connection)
    ensures NewPeer(peer, 0) && NoneOf(peer, 1) && Exposed(peer)
    ensures |peer.ring.items| == peer.ring.capacity == 1 && peer.ring.policy == DropOldest
  {
    var ring := Ring([ChunkHandle(2, 0, 1, 256)], 1, DropOldest, false, 1, 0, 0, 0);
    peer := Connection(0, 1, [], ring, [], [], 0, None, Outside, [], false);
  }

  /** So it happens even where the new handle evicts the stale one and is alone in the ring. */
  lemma LostWakeInOneSlot() returns (s: System)
    ensures Reachable(s) && Stranded(s, 0)
  {
    var p := SmallPool();
    var peer := StalePeer();
    s := LostWakeReachable(p, 1, peer);
  }
}
