/**
What a subscriber owes the publisher it still has: while its ring has never been empty and it is attached,
every handle that is owed is in its ring, in its views or on its way back. So it can all be returned.
*/
module HeldBack {
  import opened Basics
  import opened PoolModel
  import opened RingModel
  import opened Protocol
  import opened ProtocolInvariant
  import opened ProtocolTheorems

  predicate Traced(c: Connection, h: ChunkHandle) {
    h in c.ring.items || h in c.releases || exists k :: 0 <= k < |c.views| && c.views[k].handle == h
  }

  predicate Attached(c: Connection) {
    !c.wasEmpty && c.pc != Detached
  }

  /** All that is owed can be found, but for one just evicted; so can the one just accepted. */
  ghost predicate Fine(c: Connection, evicted: Option<ChunkHandle>, accepted: Option<ChunkHandle>) {
    Attached(c) ==>
      && (forall h :: h in c.outstanding ==> Some(h) == evicted || Traced(c, h))
      && (accepted.Some? ==> Traced(c, accepted.value))
  }

  function EvictedAt(pc: PublisherPc, i: nat): Option<ChunkHandle> {
    if pc.Dispatching? && pc.index == i && pc.phase.Enqueued? then pc.phase.dropped else None
  }

  function AcceptedAt(pc: PublisherPc, i: nat): Option<ChunkHandle> {
    if pc.Dispatching? && pc.index == i && pc.phase.Enqueued? then Some(pc.handle) else None
  }

  ghost predicate AllFine(s: System) {
    forall i {:trigger s.connections[i]} :: 0 <= i < |s.connections| ==>
      Fine(s.connections[i], EvictedAt(s.pc, i), AcceptedAt(s.pc, i))
  }

  // ---- the subscriber ----

  lemma {:induction false} OthersKept(items: seq<ChunkHandle>, dead: nat, h: ChunkHandle)
    requires h in items && h.poolId != dead
    ensures dead != 0 ==> h in KeepOthers(items, dead)
  {
    var n := |items| - 1;
    LastApart(items);
    if h in items[..n] { OthersKept(items[..n], dead, h); }
  }

  lemma TracedDequeue(p: Pool, c: Connection, foreignReads: bool, h: ChunkHandle)
    requires Shaped(p) && Traced(c, h)
    ensures Traced(DequeueStep(p, c, foreignReads), h)
  {
    var d := DequeueStep(p, c, foreignReads);
    if c.ring.items != [] {
      if h in c.ring.items && h != c.ring.items[0] {
        assert h in c.ring.items[1..];
      } else if h in c.ring.items {
        if |d.views| > |c.views| { assert d.views[|c.views|].handle == h; }
      } else if h !in c.releases {
        var k :| 0 <= k < |c.views| && c.views[k].handle == h;
        assert d.views[k] == c.views[k];
      }
    }
  }

  lemma TracedRelease(c: Connection, k: nat, h: ChunkHandle)
    requires k < |c.views| && Traced(c, h)
    ensures Traced(c.(views := Drop(c.views, k), releases := c.releases + [c.views[k].handle]), h)
  {
    if h !in c.ring.items && h !in c.releases {
      var j :| 0 <= j < |c.views| && c.views[j].handle == h;
      if j != k { assert Drop(c.views, k)[if j < k then j else j - 1].handle == h; }
    }
  }

  /** Whatever the subscriber does, what could be found still can, as long as it is attached. */
  lemma TracedOn(p: Pool, c: Connection, step: Step, h: ChunkHandle)
    requires Shaped(p) && SubscriberStep(step) && SubscriberEnabled(c, step) && h.poolId == p.id
    requires step.Reset? && !step.detach ==> step.deadPool != p.id
    requires Attached(SubscriberNext(p, c, step))
    ensures Attached(c) && (Traced(c, h) ==> Traced(SubscriberNext(p, c, step), h))
  {
    if Traced(c, h) {
      if step.Dequeue? {
        TracedDequeue(p, c, step.foreignReads, h);
      } else if step.ReleaseView? {
        TracedRelease(c, step.k, h);
      } else if step.Reset? && h in c.ring.items {
        OthersKept(c.ring.items, step.deadPool, h);
      }
    }
  }

  ghost predicate OwnOnly(p: Pool, c: Connection) {
    forall h :: h in c.outstanding ==> h.poolId == p.id
  }

  lemma SubscriberFine(p: Pool, c: Connection, step: Step, evicted: Option<ChunkHandle>, accepted: Option<ChunkHandle>)
    requires Shaped(p) && SubscriberStep(step) && SubscriberEnabled(c, step)
    requires step.Reset? && !step.detach ==> step.deadPool != p.id
    requires Fine(c, evicted, accepted) && OwnOnly(p, c) && (accepted.Some? ==> accepted.value.poolId == p.id)
    ensures Fine(SubscriberNext(p, c, step), evicted, accepted)
  {
    var d := SubscriberNext(p, c, step);
    assert d.outstanding == c.outstanding;
    if Attached(d) {
      forall h | h in d.outstanding ensures Some(h) == evicted || Traced(d, h) { TracedOn(p, c, step, h); }
      if accepted.Some? { TracedOn(p, c, step, accepted.value); }
    }
  }

  // ---- the publisher ----

  lemma ReceiveFine(p: Pool, c: Connection)
    requires Shaped(p) && c.releases != [] && Fine(c, None, None) && NoDup(c.outstanding)
    ensures Fine(ReleaseOutstanding(p, c.(releases := c.releases[1..]), c.releases[0]).1, None, None)
  {
    var g, d := c.releases[0], ReleaseOutstanding(p, c.(releases := c.releases[1..]), c.releases[0]).1;
    var k := Find(c.outstanding, g);
    if k < |c.outstanding| { DropFacts(c.outstanding, k); }
    if Attached(d) {
      forall h | h in d.outstanding ensures Traced(d, h) {
        assert h != g && Traced(c, h);
        if h in c.releases { assert h in c.releases[1..]; }
      }
    }
  }

  lemma AcceptFine(c: Connection, h: ChunkHandle, notify: Notify, wakes: nat)
    requires ValidRing(c.ring) && !Waits(c.ring) && Fine(c, None, None)
    ensures var (ring, x) := EnqueueNow(c.ring, h, notify);
            var d := c.(ring := ring, wakes := wakes);
            if x.status == Accepted then Fine(d, x.dropped, Some(h)) else Fine(d, None, None)
  {
    var (ring, x) := EnqueueNow(c.ring, h, notify);
    var d := c.(ring := ring, wakes := wakes);
    if Attached(d) {
      if x.status == Accepted { assert ring.items[|ring.items| - 1] == h; }
      forall g | g in d.outstanding && x.dropped != Some(g) ensures Traced(d, g) {
        assert Traced(c, g);
        if g in c.ring.items { KeptInRing(c.ring, h, notify, g); }
      }
    }
  }

  lemma KeptInRing(r: Ring, h: ChunkHandle, notify: Notify, g: ChunkHandle)
    requires ValidRing(r) && !Waits(r) && g in r.items && EnqueueNow(r, h, notify).1.dropped != Some(g)
    ensures g in EnqueueNow(r, h, notify).0.items
  {
    if g != r.items[0] { assert g in r.items[1..]; }
  }

  lemma SettleFine(p: Pool, c: Connection, h: ChunkHandle, dropped: Option<ChunkHandle>)
    requires Shaped(p) && Fine(c, dropped, Some(h)) && NoDup(c.outstanding) && h !in c.outstanding
    ensures var added := c.(outstanding := c.outstanding + [h]);
            Fine(if dropped.Some? then ReleaseOutstanding(p, added, dropped.value).1 else added, None, None)
  {
    var added := c.(outstanding := c.outstanding + [h]);
    assert NoDup(added.outstanding);
    var d := if dropped.Some? then ReleaseOutstanding(p, added, dropped.value).1 else added;
    if dropped.Some? {
      var k := Find(added.outstanding, dropped.value);
      if k < |added.outstanding| { DropFacts(added.outstanding, k); }
    }
    if Attached(d) {
      forall g | g in d.outstanding ensures Traced(d, g) {
        assert Some(g) != dropped;
        if g != h { assert g in c.outstanding; }
      }
    }
  }

  // ---- every step ----

  /** What the invariant says of what is owed. */
  lemma OwedFacts(s: System, i: nat)
    requires Inv(s) && i < |s.connections|
    ensures Shaped(s.pool) && ValidRing(s.connections[i].ring)
    ensures NoDup(s.connections[i].outstanding) && OwnOnly(s.pool, s.connections[i])
  {
    AtConnection(s, i);
  }

  ghost predicate Accepting(pc: PublisherPc) {
    pc.Dispatching? && pc.phase.Enqueued?
  }

  lemma UpdateFine(s: System, i: nat, c: Connection, t: System)
    requires AllFine(s) && i < |s.connections| && t.connections == s.connections[i := c]
    requires Fine(c, EvictedAt(t.pc, i), AcceptedAt(t.pc, i))
    requires forall j :: 0 <= j < |s.connections| && j != i ==>
               EvictedAt(t.pc, j) == EvictedAt(s.pc, j) && AcceptedAt(t.pc, j) == AcceptedAt(s.pc, j)
    ensures AllFine(t)
  {
    forall j | 0 <= j < |t.connections| ensures Fine(t.connections[j], EvictedAt(t.pc, j), AcceptedAt(t.pc, j)) {
      if j != i { assert t.connections[j] == s.connections[j]; }
    }
  }

  lemma SameFine(s: System, t: System)
    requires AllFine(s) && t.connections == s.connections && !Accepting(s.pc) && !Accepting(t.pc)
    ensures AllFine(t)
  {
    forall j | 0 <= j < |t.connections| ensures Fine(t.connections[j], EvictedAt(t.pc, j), AcceptedAt(t.pc, j)) {
      assert t.connections[j] == s.connections[j];
    }
  }

  lemma SubscriberStepFine(s: System, step: Step)
    requires Inv(s) && AllFine(s) && Enabled(s, step) && SubscriberStep(step)
    ensures AllFine(Next(s, step))
  {
    var i, c := step.i, s.connections[step.i];
    OwedFacts(s, i);
    SubscriberFine(s.pool, c, step, EvictedAt(s.pc, i), AcceptedAt(s.pc, i));
    UpdateFine(s, i, SubscriberNext(s.pool, c, step), Next(s, step));
  }

  lemma ReceiveStepFine(s: System, i: nat)
    requires Inv(s) && AllFine(s) && Enabled(s, ReceiveRelease(i))
    ensures AllFine(ReceiveReleaseStep(s, i))
  {
    var c := s.connections[i];
    OwedFacts(s, i);
    assert Fine(c, None, None);
    ReceiveFine(s.pool, c);
    UpdateFine(s, i, ReleaseOutstanding(s.pool, c.(releases := c.releases[1..]), c.releases[0]).1,
               ReceiveReleaseStep(s, i));
  }

  lemma RemoveStepFine(s: System)
    requires Shaped(s.pool) && AllFine(s) && s.pc.Removing?
    ensures AllFine(RemoveNextStep(s))
  {
    var t := RemoveNextStep(s);
    forall j | 0 <= j < |t.connections| ensures Fine(t.connections[j], None, None) {
      if s.pc.endpoints == [] {
        assert t.connections[j] == s.connections[j];
      } else if |t.connections| == |s.connections| {
        assert Fine(s.connections[j], None, None);
      } else {
        var k := FindConnection(s.connections, s.pc.endpoints[0]);
        var i := if j < k then j else j + 1;
        assert t.connections[j] == s.connections[i];
      }
    }
  }

  lemma ConnectStepFine(s: System, peer: Option<Connection>)
    requires AllFine(s) && Enabled(s, ConnectNext(peer))
    ensures AllFine(ConnectNextStep(s, peer))
  {
    var t := ConnectNextStep(s, peer);
    forall j | 0 <= j < |t.connections| ensures Fine(t.connections[j], None, None) {
      if j < |s.connections| { assert t.connections[j] == s.connections[j]; }
    }
  }

  lemma EnqueueStepFine(s: System, attempt: Attempt)
    requires Inv(s) && AllFine(s) && Enabled(s, TryEnqueue(attempt))
    ensures AllFine(TryEnqueueStep(s, attempt))
  {
    var i, t := s.pc.index, TryEnqueueStep(s, attempt);
    if attempt.Acts? {
      var c, notify := s.connections[i], if attempt.delivered then Sends else Fails;
      assert Fine(c, None, None);
      AcceptFine(c, s.pc.handle, notify, t.connections[i].wakes);
      UpdateFine(s, i, t.connections[i], t);
    } else {
      SameFine(s, t);
    }
  }

  lemma SettleStepFine(s: System)
    requires Inv(s) && AllFine(s) && Enabled(s, Settle)
    ensures AllFine(SettleStep(s))
  {
    var i, t := s.pc.index, SettleStep(s);
    if s.pc.phase.Enqueued? {
      var c := s.connections[i];
      OwedFacts(s, i);
      assert Obligations(s.connections)[i] == c.outstanding;
      assert Fine(c, s.pc.phase.dropped, Some(s.pc.handle));
      SettleFine(s.pool, c, s.pc.handle, s.pc.phase.dropped);
      UpdateFine(s, i, t.connections[i], t);
    } else {
      SameFine(s, t);
    }
  }

  lemma ListStepFine(s: System, step: Step)
    requires Inv(s) && AllFine(s) && Enabled(s, step) && ListStep(step)
    ensures AllFine(Next(s, step))
  {
    match step
    case RemoveNext => RemoveStepFine(s);
    case ConnectNext(peer) => ConnectStepFine(s, peer);
    case ReceiveRelease(i) => ReceiveStepFine(s, i);
    case Settle => SettleStepFine(s);
    case TryEnqueue(attempt) => EnqueueStepFine(s, attempt);
  }

  /** Joining and leaving, and filling a loan, may come at any time and leave the publisher where it is. */
  predicate AnyTime(step: Step) {
    step.Join? || step.Leave? || step.FillLoan?
  }

  lemma AnyTimeFine(s: System, step: Step)
    requires Shaped(s.pool) && AllFine(s) && Enabled(s, step) && AnyTime(step)
    ensures AllFine(Next(s, step))
  {
    var t := Next(s, step);
    assert t.connections == s.connections && t.pc == s.pc;
  }

  lemma OtherStepFine(s: System, step: Step)
    requires Shaped(s.pool) && AllFine(s) && Enabled(s, step)
    requires !SubscriberStep(step) && !ListStep(step) && !AnyTime(step)
    ensures AllFine(Next(s, step))
  {
    var t := Next(s, step);
    assert t.connections == s.connections && !Accepting(s.pc) && !Accepting(t.pc);
    SameFine(s, t);
  }

  lemma StepFine(s: System, step: Step)
    requires Inv(s) && AllFine(s) && Enabled(s, step)
    ensures AllFine(Next(s, step))
  {
    if SubscriberStep(step) {
      SubscriberStepFine(s, step);
    } else if ListStep(step) {
      ListStepFine(s, step);
    } else if AnyTime(step) {
      AnyTimeFine(s, step);
    } else {
      OtherStepFine(s, step);
    }
  }

  lemma {:induction false} RunFine(s: System, steps: seq<Step>, t: System)
    requires Inv(s) && AllFine(s) && Run(s, steps, t)
    ensures AllFine(t)
    decreases |steps|
  {
    if steps != [] {
      var m := PathHead(StepTo, s, steps, t);
      StepKeeps(s, steps[0]);
      StepFine(s, steps[0]);
      RunFine(m, steps[1..], t);
    }
  }

  /** In every reachable state. */
  lemma ReachableFine(s: System)
    requires Reachable(s)
    ensures AllFine(s)
  {
    var s0, steps :| Init(s0) && Run(s0, steps, s);
    InitHolds(s0);
    RunFine(s0, steps, s);
  }
}
