/** The guarantees of the chunk protocol, over every run from a new session. */
module ProtocolTheorems {
  import opened Basics
  import opened PoolModel
  import opened RingModel
  import opened Protocol
  import opened ProtocolInvariant
  import SS = SubscriberSteps
  import PS = PublisherSteps
  import LS = LoanSteps
  import DS = DispatchSteps
  import TS = SettleSteps

  /** Every step of every participant keeps the invariant. */
  lemma StepKeeps(s: System, step: Step)
    requires Inv(s) && Enabled(s, step)
    ensures Inv(Next(s, step))
  {
    if SubscriberStep(step) {
      SS.SubscriberKeeps(s, step);
    } else if EndpointStep(step) {
      EndpointKeeps(s, step);
    } else if LendingStep(step) {
      LendingKeeps(s, step);
    } else {
      DispatchKeeps(s, step);
    }
  }

  predicate EndpointStep(step: Step) {
    step.Join? || step.Leave? || step.ReceiveRelease? || step.Remove? || step.Discover? || step.RemoveNext?
      || step.ConnectNext?
  }

  /** The publisher's steps that change the connections themselves. */
  predicate ListStep(step: Step) {
    step.RemoveNext? || step.ConnectNext? || step.ReceiveRelease? || step.Settle? || step.TryEnqueue?
  }

  predicate LendingStep(step: Step) {
    step.LoanChunk? || step.FillLoan? || step.CancelLoan? || step.PublishLoan? || step.PublishCopy?
  }

  lemma EndpointKeeps(s: System, step: Step)
    requires Inv(s) && Enabled(s, step) && EndpointStep(step)
    ensures Inv(Next(s, step))
  {
    match step
    case Join => PS.JoinKeeps(s);
    case Leave(e) => PS.LeaveKeeps(s, e);
    case ReceiveRelease(i) => PS.ReceiveReleaseKeeps(s, i);
    case Remove(e) => PS.RemoveKeeps(s, e);
    case Discover(found) => PS.DiscoverKeeps(s, found);
    case RemoveNext => PS.RemoveNextKeeps(s);
    case ConnectNext(peer) => PS.ConnectNextKeeps(s, peer);
  }

  lemma LendingKeeps(s: System, step: Step)
    requires Inv(s) && Enabled(s, step) && LendingStep(step)
    ensures Inv(Next(s, step))
  {
    match step
    case LoanChunk(size) => LS.LoanKeeps(s, size);
    case FillLoan(k, data) => LS.FillKeeps(s, k, data);
    case CancelLoan(k) => LS.CancelKeeps(s, k);
    case PublishLoan(k, timestamp) => LS.PublishLoanKeeps(s, k, timestamp);
    case PublishCopy(data, timestamp) => LS.PublishCopyKeeps(s, data, timestamp);
  }

  lemma DispatchKeeps(s: System, step: Step)
    requires Inv(s) && Enabled(s, step) && (step.AddRef? || step.TryEnqueue? || step.Settle? || step.DropGuard?)
    ensures Inv(Next(s, step))
  {
    if step.AddRef? || step.TryEnqueue? { OfferKeeps(s, step); } else { SettleOrDropKeeps(s, step); }
  }

  lemma OfferKeeps(s: System, step: Step)
    requires Inv(s) && Enabled(s, step) && (step.AddRef? || step.TryEnqueue?)
    ensures Inv(Next(s, step))
  {
    if step.AddRef? { DS.AddRefKeeps(s); } else { DS.TryEnqueueKeeps(s, step.attempt); }
  }

  lemma SettleOrDropKeeps(s: System, step: Step)
    requires Inv(s) && Enabled(s, step) && (step.Settle? || step.DropGuard?)
    ensures Inv(Next(s, step))
  {
    if step.Settle? { SettleKeeps(s); } else { TS.DropGuardKeeps(s); }
  }

  lemma SettleKeeps(s: System)
    requires Inv(s) && Enabled(s, Settle)
    ensures Inv(Next(s, Settle))
  {
    if s.pc.phase.Enqueued? { TS.SettleTakenKeeps(s); } else { TS.SettleRefusedKeeps(s); }
  }

  ghost predicate StepTo(s: System, step: Step, t: System) {
    Shaped(s.pool) && Enabled(s, step) && t == Next(s, step)
  }

  /** `steps` can be taken one after the other from `s`, ending in `t`. */
  ghost predicate Run(s: System, steps: seq<Step>, t: System) {
    Path(StepTo, s, steps, t)
  }

  lemma {:induction false} RunKeeps(s: System, steps: seq<Step>, t: System)
    requires Inv(s) && Run(s, steps, t)
    ensures Inv(t)
    decreases |steps|
  {
    if steps != [] {
      var m := PathHead(StepTo, s, steps, t);
      StepKeeps(s, steps[0]);
      RunKeeps(m, steps[1..], t);
    }
  }

  ghost predicate Reachable(s: System) {
    exists s0, steps :: Init(s0) && Run(s0, steps, s)
  }

  lemma ReachableInv(s: System)
    requires Reachable(s)
    ensures Inv(s)
  {
    var s0, steps :| Init(s0) && Run(s0, steps, s);
    InitHolds(s0);
    RunKeeps(s0, steps, s);
  }

  /** The publisher still answers for connection `i`. */
  ghost predicate Tracked(s: System, i: nat)
    requires i < |s.connections|
  {
    ContextOf(s.pc, s.sequence, i, s.connections[i].endpoint).tracked
  }

  // ---- references ----

  lemma {:induction false} HoldersIsCount(lists: seq<seq<ChunkHandle>>, h: ChunkHandle)
    ensures Holders(lists, h) == |set i | 0 <= i < |lists| && h in lists[i]|
  {
    if lists != [] {
      var n := |lists| - 1;
      HoldersIsCount(lists[..n], h);
      var all := set i | 0 <= i < |lists| && h in lists[i];
      var front := set i | 0 <= i < n && h in lists[..n][i];
      assert all == front + (if h in lists[n] then {n} else {});
    }
  }

  /**
  Reference conservation: a published chunk's count is the number of connections that owe its
  current handle, plus the publisher's own claims while it is dispatching that handle; and every
  handle owed names a published chunk of the current generation.
  */
  lemma ReferenceConservation(s: System)
    requires Reachable(s)
    ensures Shaped(s.pool)
    ensures forall i :: 0 <= i < |s.pool.chunks| && s.pool.chunks[i].state == Published ==>
              var h := HandleOf(s.pool, i);
              s.pool.chunks[i].refs
              == |set j | 0 <= j < |s.connections| && h in s.connections[j].outstanding|
                 + (if s.pc.Dispatching? && s.pc.handle == h then (if s.pc.phase.Start? then 1 else 2) else 0)
    ensures forall j, h :: 0 <= j < |s.connections| && h in s.connections[j].outstanding ==> Live(s.pool, h)
  {
    ReachableInv(s);
    AllOutstanding(s.pool, s.connections, s.pc, s.sequence, s.published);
    var lists := Obligations(s.connections);
    forall i | 0 <= i < |s.pool.chunks| && s.pool.chunks[i].state == Published
      ensures var h := HandleOf(s.pool, i);
              s.pool.chunks[i].refs
              == |set j | 0 <= j < |s.connections| && h in s.connections[j].outstanding| + Guards(GuardOf(s.pc), h)
    {
      var h := HandleOf(s.pool, i);
      HoldersIsCount(lists, h);
      assert (set j | 0 <= j < |lists| && h in lists[j])
          == (set j | 0 <= j < |s.connections| && h in s.connections[j].outstanding);
    }
  }

  /**
  No leak and no double ownership: between publisher calls a chunk is free and exactly once in the
  free list of its own class and in no other, or on loan to exactly one LoanedSample, or published
  and owed to some connection; and the allocation counters balance.
  */
  lemma NoLeak(s: System, i: nat)
    requires Reachable(s) && s.pc.Idle? && i < |s.pool.chunks|
    ensures Shaped(s.pool)
    ensures s.pool.chunks[i].state != Released
    ensures s.pool.chunks[i].state == Free ==>
              && NoDup(s.pool.free[s.pool.chunks[i].classIndex])
              && forall k :: 0 <= k < |s.pool.free| ==> (i in s.pool.free[k] <==> k == s.pool.chunks[i].classIndex)
    ensures s.pool.chunks[i].state != Free ==> forall k :: 0 <= k < |s.pool.free| ==> i !in s.pool.free[k]
    ensures s.pool.chunks[i].state == Loaned
            <==> exists k :: 0 <= k < |s.loans| && s.loans[k].handle == HandleOf(s.pool, i)
    ensures forall j, k :: 0 <= j < k < |s.loans| ==> s.loans[j].handle.chunk != s.loans[k].handle.chunk
    ensures s.pool.chunks[i].state == Published <==>
              exists j :: 0 <= j < |s.connections| && HandleOf(s.pool, i) in s.connections[j].outstanding
    ensures s.pool.allocations - s.pool.reclaims == Busy(s.pool.chunks)
  {
    ReachableInv(s);
    FreeListFacts(s.pool, i);
    LoanFacts(s.pool, s.loans, i);
    HolderFacts(s, i);
  }

  lemma FreeListFacts(p: Pool, i: nat)
    requires ValidPool(p) && i < |p.chunks|
    ensures forall k :: 0 <= k < |p.free| ==>
              (i in p.free[k] <==> p.chunks[i].state == Free && k == p.chunks[i].classIndex)
    ensures forall k :: 0 <= k < |p.free| ==> NoDup(p.free[k])
  {
    assert ChunkOk(p, i);
    forall k | 0 <= k < |p.free|
      ensures NoDup(p.free[k])
      ensures i in p.free[k] <==> p.chunks[i].state == Free && k == p.chunks[i].classIndex
    {
      assert FreeListOk(p, k);
    }
  }

  lemma LoanFacts(p: Pool, loans: seq<Loan>, i: nat)
    requires Shaped(p) && LoansOk(p, loans) && i < |p.chunks|
    ensures p.chunks[i].state == Loaned <==> exists k :: 0 <= k < |loans| && loans[k].handle == HandleOf(p, i)
  {
    if p.chunks[i].state == Loaned {
      var k :| 0 <= k < |loans| && loans[k].handle.chunk == i;
      assert loans[k].handle == HandleOf(p, i);
    }
  }

  lemma HolderFacts(s: System, i: nat)
    requires Inv(s) && s.pc.Idle? && i < |s.pool.chunks|
    ensures s.pool.chunks[i].state != Released
    ensures s.pool.chunks[i].state == Published <==>
              exists j :: 0 <= j < |s.connections| && HandleOf(s.pool, i) in s.connections[j].outstanding
  {
    var h := HandleOf(s.pool, i);
    AllOutstanding(s.pool, s.connections, s.pc, s.sequence, s.published);
    assert ChunkOk(s.pool, i);
    if s.pool.chunks[i].state == Published {
      var j := HoldersWitness(Obligations(s.connections), h);
      assert h in s.connections[j].outstanding;
    }
  }

  /**
  The bound on a connection's outstanding list is never met when a handle is dispatched to it, and
  taking the extra reference fails only at 2^32 - 1 references, so never with fewer connections.
  */
  lemma DispatchNeverBlocked(s: System)
    requires Reachable(s) && s.pc.Dispatching? && s.pc.phase.Start? && s.pc.index < |s.connections|
    ensures NoDup(s.connections[s.pc.index].outstanding)
    ensures |s.connections[s.pc.index].outstanding| < |s.pool.chunks|
    ensures Shaped(s.pool) && Live(s.pool, s.pc.handle)
    ensures AddReference(s.pool, s.pc.handle).1 == Ok <==> s.pool.chunks[s.pc.handle.chunk].refs < U32_LIMIT - 1
    ensures |s.connections| < U32_LIMIT - 1 ==> AddReference(s.pool, s.pc.handle).1 == Ok
  {
    ReachableInv(s);
    var k := s.pc.index;
    var c := s.connections[k];
    AtConnection(s, k);
    assert Obligations(s.connections)[k] == c.outstanding;
    OutstandingBound(s.pool, c.outstanding, s.pc.handle);
    DS.AddReferenceFacts(s.pool, s.pc.handle);
    assert HandleOf(s.pool, s.pc.handle.chunk) == s.pc.handle;
    BoundedHolders(Obligations(s.connections), s.pc.handle, k);
  }

  lemma OutstandingBound(p: Pool, l: seq<ChunkHandle>, h: ChunkHandle)
    requires Shaped(p) && NoDup(l) && (forall g :: g in l ==> Live(p, g)) && Live(p, h) && h !in l
    ensures |l| < |p.chunks|
  {
    var chunks := seq(|l| + 1, k requires 0 <= k <= |l| => if k < |l| then l[k].chunk else h.chunk);
    forall i, j | 0 <= i < j < |chunks| ensures chunks[i] != chunks[j] {
      var a, b := l[i], if j < |l| then l[j] else h;
      assert a in l && (b in l || b == h);
      assert a == HandleOf(p, a.chunk) && b == HandleOf(p, b.chunk);
    }
    forall x | x in chunks ensures x < |p.chunks| {
      var k :| 0 <= k < |chunks| && chunks[k] == x;
      assert k < |l| ==> l[k] in l;
    }
    PigeonHole(chunks, |p.chunks|);
  }

  lemma {:induction false} BoundedHolders(lists: seq<seq<ChunkHandle>>, h: ChunkHandle, k: nat)
    requires k < |lists| && forall j :: k <= j < |lists| ==> h !in lists[j]
    ensures Holders(lists, h) <= k
  {
    var n := |lists| - 1;
    if k < n { BoundedHolders(lists[..n], h, k); }
  }

  // ---- readers ----

  /**
  Reader safety: on a connection the publisher answers for, every handle of its pool that is
  queued, viewed or on its way back is there once and is owed (or is just being queued); every
  view still reads the bytes it was given, which are those published under its sequence; and the
  next dequeue of a subscriber that joined with nothing queued reads successfully.
  */
  lemma ReaderSafety(s: System, i: nat)
    requires Reachable(s) && i < |s.connections| && Tracked(s, i)
    ensures Shaped(s.pool)
    ensures var c := s.connections[i];
            forall h: ChunkHandle :: h.poolId == s.pool.id && Held(c)[h] > 0 ==>
              && Held(c)[h] == 1
              && (h in c.outstanding
                  || (s.pc.Dispatching? && s.pc.index == i && s.pc.phase.Enqueued? && s.pc.handle == h))
              && Read(s.pool, s.pool.id, h, c.maxSize).error == Ok
    ensures var c := s.connections[i];
            forall k :: 0 <= k < |c.views| && c.views[k].handle.poolId == s.pool.id ==>
              var v := c.views[k];
              var r := Read(s.pool, s.pool.id, v.handle, c.maxSize);
              && r.error == Ok && r.payload == v.payload && r.sequence == v.sequence
              && v.sequence in s.published && s.published[v.sequence] == v.payload
    ensures var c := s.connections[i];
            c.wasEmpty && c.installed == Some(s.pool.id) && c.ring.items != [] ==>
              forall foreignReads :: Take(s.pool, c, c.ring.items[0], foreignReads).Some?
  {
    ReachableInv(s);
    AtConnection(s, i);
    var c := s.connections[i];
    forall h: ChunkHandle | h.poolId == s.pool.id && Held(c)[h] > 0
      ensures Held(c)[h] == 1
      ensures h in c.outstanding || (s.pc.Dispatching? && s.pc.index == i && s.pc.phase.Enqueued? && s.pc.handle == h)
      ensures Read(s.pool, s.pool.id, h, c.maxSize)
           == ChunkView(Ok, ViewOf(s.pool, h).payload, ViewOf(s.pool, h).sequence, s.pool.chunks[h.chunk].timestamp)
      ensures ViewOf(s.pool, h).sequence in s.published
              && s.published[ViewOf(s.pool, h).sequence] == ViewOf(s.pool, h).payload
    {
      HeldReads(s, i, h);
    }
    forall k | 0 <= k < |c.views| ensures Held(c)[c.views[k].handle] > 0 {
      assert Handles(c.views)[k] in multiset(Handles(c.views));
    }
    forall k | 0 <= k < |c.ring.items| ensures Held(c)[c.ring.items[k]] > 0 {
      assert c.ring.items[k] in multiset(c.ring.items);
    }
  }

  lemma HeldReads(s: System, i: nat, h: ChunkHandle)
    requires Inv(s) && i < |s.connections| && Tracked(s, i)
    requires h.poolId == s.pool.id && Held(s.connections[i])[h] > 0
    ensures var c := s.connections[i];
            && Held(c)[h] == 1
            && (h in c.outstanding
                || (s.pc.Dispatching? && s.pc.index == i && s.pc.phase.Enqueued? && s.pc.handle == h))
            && h.chunk < |s.pool.chunks|
            && var v := ViewOf(s.pool, h);
            && Read(s.pool, s.pool.id, h, c.maxSize)
               == ChunkView(Ok, v.payload, v.sequence, s.pool.chunks[h.chunk].timestamp)
            && v.sequence in s.published && s.published[v.sequence] == v.payload
  {
    AtConnection(s, i);
    var c := s.connections[i];
    assert Limits(s.connections)[i] == c.maxSize;
    SS.HeldIsLive(s.pool, c, ContextOf(s.pc, s.sequence, i, c.endpoint), h);
    assert HandleOf(s.pool, h.chunk) == h;
    assert ChunkOk(s.pool, h.chunk);
  }

  /** Each subscriber reads a strictly increasing subsequence of the sequences dispatched. */
  lemma ReadsIncrease(s: System, i: nat)
    requires Reachable(s) && i < |s.connections| && Tracked(s, i)
    ensures var log := s.connections[i].readLog;
            && Increasing(log)
            && forall k :: 0 <= k < |log| ==> log[k] in s.published && log[k] <= s.sequence + 1
  {
    ReachableInv(s);
    AtConnection(s, i);
  }

  /** The log is append-only: what was published under a sequence never changes. */
  lemma {:induction false} LogAppends(s: System, steps: seq<Step>, t: System)
    requires Inv(s) && Run(s, steps, t)
    ensures forall k :: k in s.published ==> k in t.published && t.published[k] == s.published[k]
    ensures s.sequence <= t.sequence
    decreases |steps|
  {
    if steps != [] {
      var m := PathHead(StepTo, s, steps, t);
      StepKeeps(s, steps[0]);
      StepAppends(s, steps[0]);
      LogAppends(m, steps[1..], t);
    }
  }

  ghost predicate Appends(s: System, t: System) {
    && s.sequence <= t.sequence
    && forall k :: k in s.published ==> k in t.published && t.published[k] == s.published[k]
  }

  /** A sequence is only ever given out once. */
  lemma PublishAppends(s: System, step: Step)
    requires Inv(s) && Enabled(s, step) && (step.PublishCopy? || step.PublishLoan?)
    ensures Appends(s, Next(s, step))
  {
  }

  lemma StepAppends(s: System, step: Step)
    requires Inv(s) && Enabled(s, step)
    ensures Appends(s, Next(s, step))
  {
    if step.PublishCopy? || step.PublishLoan? { PublishAppends(s, step); }
  }

  // ---- wake-ups ----

  /**
  No lost wake-up: a subscriber whose ring was empty when the publisher connected, or at any moment
  since, and that is about to poll or has not mapped this publisher's pool yet, has an unread wake
  frame whenever its ring is not empty.
  */
  lemma NoLostWake(s: System, i: nat)
    requires Reachable(s) && i < |s.connections|
    ensures var c := s.connections[i];
            c.wasEmpty && c.pc != Detached && (c.pc == Polling || c.installed != Some(s.pool.id)) && c.ring.items != []
            ==> c.wakes > 0
  {
    ReachableInv(s);
    AtConnection(s, i);
  }

  // ---- endpoints ----

  /** No endpoint is ever connected a second time. */
  lemma ConnectedOnce(s: System, peer: Option<Connection>)
    requires Reachable(s) && Enabled(s, ConnectNext(peer)) && s.pc.order != []
    ensures Shaped(s.pool)
    ensures |Next(s, ConnectNext(peer)).connections| > |s.connections| ==> s.pc.order[0] !in s.seen
  {
    ReachableInv(s);
    var e := s.pc.order[0];
    if FindConnection(s.connections, e) == |s.connections| {
      assert e !in Endpoints(s.connections);
    }
  }

  /**
  Owner death costs queued samples, never references: the ring is empty for the next lock holder,
  and pool and obligations are exactly as before.
  */
  lemma OwnerDeathKeepsObligations(s: System, i: nat)
    requires Reachable(s) && i < |s.connections|
    ensures Shaped(s.pool)
    ensures var t := Next(s, OwnerDies(i));
            && Inv(t)
            && t.connections[i].ring.items == [] && ValidRing(t.connections[i].ring)
            && t.pool == s.pool && Obligations(t.connections) == Obligations(s.connections)
  {
    ReachableInv(s);
    StepKeeps(s, OwnerDies(i));
    AtConnection(Next(s, OwnerDies(i)), i);
  }
}
