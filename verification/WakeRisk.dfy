/**
Which subscribers can be left waiting. A connection is at risk exactly when some handle of this
publisher can come to lie in its ring without the ring having been empty since the publisher
connected. A connection that is not at risk never becomes so, whatever anybody does.
*/
module WakeRisk {
  import opened Basics
  import opened PoolModel
  import opened RingModel
  import opened Protocol
  import opened ProtocolInvariant
  import opened ProtocolTheorems

  ghost predicate OwnIn(items: seq<ChunkHandle>, id: nat) {
    exists k :: 0 <= k < |items| && items[k].poolId == id
  }

  /** Handles of more than one pool are queued. */
  ghost predicate Mixed(items: seq<ChunkHandle>) {
    exists k :: 0 <= k < |items| && items[k].poolId != items[0].poolId
  }

  /** The subscriber sits in its poll with a handle of pool `id` queued and no wake frame to read. */
  ghost predicate StrandedAt(c: Connection, id: nat) {
    c.pc == Polling && c.wakes == 0 && OwnIn(c.ring.items, id)
  }

  ghost predicate Stranded(s: System, e: nat) {
    exists i :: 0 <= i < |s.connections| && s.connections[i].endpoint == e && StrandedAt(s.connections[i], s.pool.id)
  }

  /** A handle can be added to the ring, now or once the subscriber has made room, while others are queued. */
  ghost predicate Exposed(c: Connection) {
    && !c.ring.closed
    && if c.pc == Peeked then c.ring.capacity > 1
       else
         || |c.ring.items| < c.ring.capacity
         || c.ring.policy == DropOldest
         || (c.ring.capacity > 1 && (CanTake(c) || Mixed(c.ring.items)))
  }

  /** A subscriber between its peek and its dequeue is about to take the head, whatever that is by then. */
  ghost predicate AtRisk(c: Connection, id: nat) {
    && !c.wasEmpty && c.pc != Detached
    && (OwnIn(if c.pc == Peeked && c.ring.items != [] then c.ring.items[1..] else c.ring.items, id) || Exposed(c))
  }

  // ---- discarding a pool ----

  lemma {:induction false} KeptTail(items: seq<ChunkHandle>, id: nat, k: nat)
    requires 1 <= k < |KeepOthers(items, id)|
    ensures KeepOthers(items, id)[k] in items[1..]
  {
    var n := |items| - 1;
    var front := KeepOthers(items[..n], id);
    if k < |front| {
      KeptTail(items[..n], id, k);
      assert items[..n][1..] == items[1..][..n - 1];
    } else {
      assert items[1..][n - 1] == items[n];
    }
  }

  lemma {:induction false} KeptWhole(items: seq<ChunkHandle>, id: nat)
    requires id != 0 && forall k :: 0 <= k < |items| ==> items[k].poolId != id
    ensures KeepOthers(items, id) == items
  {
    if items != [] {
      KeptWhole(items[..|items| - 1], id);
      assert items == items[..|items| - 1] + [items[|items| - 1]];
    }
  }

  lemma KeptAllOrNone(items: seq<ChunkHandle>, id: nat)
    requires id != 0 && !Mixed(items)
    ensures KeepOthers(items, id) == items || KeepOthers(items, id) == []
  {
    if items != [] {
      assert forall k :: 0 <= k < |items| ==> items[k].poolId == items[0].poolId;
      if items[0].poolId != id {
        KeptWhole(items, id);
      } else {
        assert forall h :: h in KeepOthers(items, id) ==> h in items && h.poolId != id;
      }
    }
  }

  /** Discarding another pool brings no handle of this one, neither anywhere nor behind the head. */
  lemma KeptOwn(items: seq<ChunkHandle>, dead: nat, id: nat)
    ensures OwnIn(KeepOthers(items, dead), id) ==> OwnIn(items, id)
    ensures var kept := KeepOthers(items, dead);
            items != [] && kept != [] && OwnIn(kept[1..], id) ==> OwnIn(items[1..], id)
  {
    var kept := KeepOthers(items, dead);
    if OwnIn(kept, id) {
      var k :| 0 <= k < |kept| && kept[k].poolId == id;
      assert kept[k] in items;
      var j :| 0 <= j < |items| && items[j] == kept[k];
    }
    if items != [] && kept != [] && OwnIn(kept[1..], id) {
      var k :| 0 <= k < |kept[1..]| && kept[1..][k].poolId == id;
      KeptTail(items, dead, k + 1);
      var j :| 0 <= j < |items[1..]| && items[1..][j] == kept[k + 1];
    }
  }

  // ---- no step puts a connection at risk ----

  lemma ResetRisk(c: Connection, dead: nat, id: nat)
    requires ValidRing(c.ring) && !AtRisk(c, id) && dead != 0
    ensures !AtRisk(WithRing(c, DiscardPool(c.ring, dead)), id)
  {
    if !c.wasEmpty && c.pc != Detached && c.ring.items != [] {
      var kept := KeepOthers(c.ring.items, dead);
      KeptOwn(c.ring.items, dead, id);
      if kept != [] && !c.ring.closed && c.pc != Peeked {
        assert c.ring.capacity == 1 || !Mixed(c.ring.items);
        if c.ring.capacity == 1 {
          assert |c.ring.items| == 1 && |kept| == 1;
          assert !Mixed(c.ring.items);
        }
        KeptAllOrNone(c.ring.items, dead);
      }
    }
  }

  lemma DequeueRisk(p: Pool, c: Connection, foreignReads: bool)
    requires Shaped(p) && ValidRing(c.ring) && !AtRisk(c, p.id) && c.pc == Peeked
    requires !c.wasEmpty ==> c.ring.items != []
    ensures !AtRisk(DequeueStep(p, c, foreignReads), p.id)
  {
    if !c.wasEmpty {
      var rest := c.ring.items[1..];
      if rest != [] { assert c.ring.capacity > 1; }
    }
  }

  lemma SubscriberRisk(p: Pool, c: Connection, step: Step)
    requires Shaped(p) && SubscriberStep(step) && SubscriberEnabled(c, step)
    requires step.Reset? && !step.detach ==> step.deadPool != p.id
    requires ValidRing(c.ring) && SinceEmptyOk(p, c) && !AtRisk(c, p.id)
    ensures !AtRisk(SubscriberNext(p, c, step), p.id)
  {
    match step
    case Reset(_, dead, detach) => if !detach { ResetRisk(c, dead, p.id); }
    case Dequeue(_, foreignReads) => DequeueRisk(p, c, foreignReads);
    case _ =>
  }

  /** What the publisher does to a ring puts nothing of its own where it was not at risk of going. */
  lemma EnqueueRisk(c: Connection, h: ChunkHandle, notify: Notify, wakes: nat, id: nat)
    requires ValidRing(c.ring) && !Waits(c.ring) && !AtRisk(c, id)
    requires !c.wasEmpty ==> c.ring.items != []
    ensures !AtRisk(c.(ring := EnqueueNow(c.ring, h, notify).0, wakes := wakes), id)
  {
  }

  /** Everything the risk depends on is the same in both. */
  predicate SameSide(c: Connection, d: Connection) {
    && c.endpoint == d.endpoint && c.ring == d.ring && c.wakes == d.wakes && c.pc == d.pc
    && c.installed == d.installed && c.wasEmpty == d.wasEmpty
  }

  lemma SameRisk(c: Connection, d: Connection, id: nat)
    requires SameSide(c, d)
    ensures AtRisk(c, id) <==> AtRisk(d, id)
  {
  }

  /** Each connection is one of before, as far as the risk goes, or goes to an endpoint not seen before. */
  ghost predicate Descends(s: System, t: System) {
    && t.pool.id == s.pool.id && s.seen <= t.seen
    && forall j :: 0 <= j < |t.connections| ==>
         || t.connections[j].endpoint !in s.seen
         || exists i :: 0 <= i < |s.connections| && SameSide(s.connections[i], t.connections[j])
  }

  lemma SameConnections(s: System, t: System)
    requires t.pool.id == s.pool.id && s.seen <= t.seen && |t.connections| == |s.connections|
    requires forall j :: 0 <= j < |t.connections| ==> SameSide(s.connections[j], t.connections[j])
    ensures Descends(s, t)
  {
  }

  lemma RemoveDescends(s: System)
    requires Shaped(s.pool) && s.pc.Removing?
    ensures Descends(s, RemoveNextStep(s))
  {
    var t := RemoveNextStep(s);
    forall j | 0 <= j < |t.connections|
      ensures exists i :: 0 <= i < |s.connections| && SameSide(s.connections[i], t.connections[j])
    {
      if |t.connections| == |s.connections| {
        assert SameSide(s.connections[j], t.connections[j]);
      } else {
        var k := FindConnection(s.connections, s.pc.endpoints[0]);
        assert SameSide(s.connections[if j < k then j else j + 1], t.connections[j]);
      }
    }
  }

  lemma ConnectDescends(s: System, peer: Option<Connection>)
    requires Inv(s) && Enabled(s, ConnectNext(peer))
    ensures Descends(s, ConnectNextStep(s, peer))
  {
    var t := ConnectNextStep(s, peer);
    if |t.connections| > |s.connections| {
      var e := s.pc.order[0];
      assert FindConnection(s.connections, e) == |s.connections|;
      assert e !in Endpoints(s.connections);
      assert e !in s.seen;
    }
    forall j | 0 <= j < |t.connections|
      ensures t.connections[j].endpoint !in s.seen
              || exists i :: 0 <= i < |s.connections| && SameSide(s.connections[i], t.connections[j])
    {
      if j < |s.connections| { assert SameSide(s.connections[j], t.connections[j]); }
    }
  }

  lemma ReceiveDescends(s: System, i: nat)
    requires Shaped(s.pool) && i < |s.connections| && s.connections[i].releases != []
    ensures Descends(s, ReceiveReleaseStep(s, i))
  {
    SameConnections(s, ReceiveReleaseStep(s, i));
  }

  lemma SettleDescends(s: System)
    requires Shaped(s.pool) && Enabled(s, Settle)
    ensures Descends(s, SettleStep(s))
  {
    SameConnections(s, SettleStep(s));
  }

  predicate PublishStep(step: Step) {
    step.PublishCopy? || step.PublishLoan? || step.LoanChunk? || step.CancelLoan?
  }

  lemma PublishDescends(s: System, step: Step)
    requires Shaped(s.pool) && Enabled(s, step) && PublishStep(step)
    ensures Descends(s, Next(s, step))
  {
    if step.PublishCopy? {
      assert Next(s, step).connections == s.connections;
    } else if step.PublishLoan? {
      assert Next(s, step).connections == s.connections;
    }
    SameConnections(s, Next(s, step));
  }

  /** The other steps that leave the list of connections alone. */
  lemma IdleDescends(s: System, step: Step)
    requires Shaped(s.pool) && Enabled(s, step) && !SubscriberStep(step) && !ListStep(step) && !PublishStep(step)
    ensures Descends(s, Next(s, step))
  {
    assert Next(s, step).connections == s.connections;
    SameConnections(s, Next(s, step));
  }

  lemma PublisherDescends(s: System, step: Step)
    requires Inv(s) && Enabled(s, step) && !SubscriberStep(step) && !step.TryEnqueue?
    ensures Descends(s, Next(s, step))
  {
    if PublishStep(step) {
      PublishDescends(s, step);
    } else if !ListStep(step) {
      IdleDescends(s, step);
    } else {
      ListDescends(s, step);
    }
  }

  lemma ListDescends(s: System, step: Step)
    requires Inv(s) && Enabled(s, step) && ListStep(step) && !step.TryEnqueue?
    ensures Descends(s, Next(s, step))
  {
    match step
    case RemoveNext => RemoveDescends(s);
    case ConnectNext(peer) => ConnectDescends(s, peer);
    case ReceiveRelease(i) => ReceiveDescends(s, i);
    case Settle => SettleDescends(s);
  }

  /** Endpoint `e` has been connected, and no connection to it is at risk. */
  ghost predicate Guarded(s: System, e: nat) {
    && e in s.seen
    && forall i :: 0 <= i < |s.connections| && s.connections[i].endpoint == e ==> !AtRisk(s.connections[i], s.pool.id)
  }

  lemma DescendsGuarded(s: System, t: System, e: nat)
    requires Guarded(s, e) && Descends(s, t)
    ensures Guarded(t, e)
  {
    forall j | 0 <= j < |t.connections| && t.connections[j].endpoint == e
      ensures !AtRisk(t.connections[j], t.pool.id)
    {
      var i :| 0 <= i < |s.connections| && SameSide(s.connections[i], t.connections[j]);
      SameRisk(s.connections[i], t.connections[j], s.pool.id);
    }
  }

  /** Changing one connection in a way that does not put it at risk. */
  lemma UpdateGuarded(s: System, i: nat, c: Connection, e: nat)
    requires Guarded(s, e) && i < |s.connections| && c.endpoint == s.connections[i].endpoint
    requires !AtRisk(s.connections[i], s.pool.id) ==> !AtRisk(c, s.pool.id)
    ensures Guarded(Update(s, i, c), e)
  {
  }

  /** What the invariant says of the rings. */
  ghost predicate RingOk(p: Pool, c: Connection) {
    ValidRing(c.ring) && SinceEmptyOk(p, c)
  }

  lemma SubscriberGuarded(s: System, step: Step, e: nat)
    requires Shaped(s.pool) && Enabled(s, step) && SubscriberStep(step) && Guarded(s, e)
    requires RingOk(s.pool, s.connections[step.i])
    ensures Guarded(Next(s, step), e)
  {
    var c := s.connections[step.i];
    if !AtRisk(c, s.pool.id) { SubscriberRisk(s.pool, c, step); }
    UpdateGuarded(s, step.i, SubscriberNext(s.pool, c, step), e);
  }

  lemma EnqueueGuarded(s: System, attempt: Attempt, e: nat)
    requires Enabled(s, TryEnqueue(attempt)) && Guarded(s, e)
    requires RingOk(s.pool, s.connections[s.pc.index])
    ensures Guarded(TryEnqueueStep(s, attempt), e)
  {
    if attempt.Acts? {
      var c := s.connections[s.pc.index];
      var notify := if attempt.delivered then Sends else Fails;
      var (ring, x) := EnqueueNow(c.ring, s.pc.handle, notify);
      var wakes := c.wakes + if x.notified then 1 else 0;
      if !AtRisk(c, s.pool.id) { EnqueueRisk(c, s.pc.handle, notify, wakes, s.pool.id); }
      UpdateGuarded(s, s.pc.index, c.(ring := ring, wakes := wakes), e);
    }
  }

  lemma StepGuarded(s: System, step: Step, e: nat)
    requires Inv(s) && Enabled(s, step) && Guarded(s, e)
    ensures Guarded(Next(s, step), e)
  {
    if SubscriberStep(step) {
      AtConnection(s, step.i);
      SubscriberGuarded(s, step, e);
    } else if step.TryEnqueue? {
      AtConnection(s, s.pc.index);
      EnqueueGuarded(s, step.attempt, e);
    } else {
      PublisherDescends(s, step);
      DescendsGuarded(s, Next(s, step), e);
    }
  }

  lemma {:induction false} RunGuarded(s: System, steps: seq<Step>, t: System, e: nat)
    requires Inv(s) && Run(s, steps, t) && Guarded(s, e)
    ensures Inv(t) && Guarded(t, e)
    decreases |steps|
  {
    if steps != [] {
      var m := PathHead(StepTo, s, steps, t);
      StepKeeps(s, steps[0]);
      StepGuarded(s, steps[0], e);
      RunGuarded(m, steps[1..], t, e);
    }
  }

  lemma GuardedNotStranded(s: System, e: nat)
    requires Inv(s) && Guarded(s, e)
    ensures !Stranded(s, e)
  {
    forall i | 0 <= i < |s.connections| && s.connections[i].endpoint == e
      ensures !StrandedAt(s.connections[i], s.pool.id)
    {
      AtConnection(s, i);
    }
  }

  /** The connections to the endpoint of a connection are that connection. */
  lemma OnlyConnection(s: System, i: nat)
    requires Inv(s) && i < |s.connections| && !AtRisk(s.connections[i], s.pool.id)
    ensures Guarded(s, s.connections[i].endpoint)
  {
    var ids := Endpoints(s.connections);
    assert ids[i] in ids;
    forall j | 0 <= j < |s.connections| && s.connections[j].endpoint == s.connections[i].endpoint ensures j == i {
      assert ids[j] == ids[i];
    }
  }

  /** A subscriber whose connection is not at risk is never left waiting, in any run. */
  lemma NeverStranded(s: System, i: nat, steps: seq<Step>, t: System)
    requires Reachable(s) && i < |s.connections| && !AtRisk(s.connections[i], s.pool.id) && Run(s, steps, t)
    ensures !Stranded(t, s.connections[i].endpoint)
  {
    ReachableInv(s);
    OnlyConnection(s, i);
    RunGuarded(s, steps, t, s.connections[i].endpoint);
    GuardedNotStranded(t, s.connections[i].endpoint);
  }
}
