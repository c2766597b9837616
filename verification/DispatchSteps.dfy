/** Offering a published chunk to each subscriber in turn keeps the invariant. */
module DispatchSteps {
  import opened Basics
  import opened PoolModel
  import opened PoolLemmas
  import opened RingModel
  import opened Protocol
  import opened ProtocolInvariant
  import opened ReleaseEffects
  import SS = SubscriberSteps

  // ---- moving on to the next connection ----

  /** Only the highest admissible sequence of a connection may have grown. */
  ghost predicate Loosened(a: Context, b: Context) {
    b == a.(top := b.top) && a.top <= b.top
  }

  lemma LoosenedKeeps(p: Pool, cs: seq<Connection>, pc: PublisherPc, pc': PublisherPc, sequence: nat,
                      published: map<nat, seq<Byte>>)
    requires Shaped(p) && ConnectionsOk(p, cs, pc, sequence, published)
    requires forall i :: 0 <= i < |cs| ==>
                           Loosened(ContextOf(pc, sequence, i, cs[i].endpoint),
                                    ContextOf(pc', sequence, i, cs[i].endpoint))
    ensures ConnectionsOk(p, cs, pc', sequence, published)
  {
    forall i | 0 <= i < |cs|
      ensures ConnectionOk(p, cs[i], ContextOf(pc', sequence, i, cs[i].endpoint), published)
    {
      assert ConnectionOk(p, cs[i], ContextOf(pc, sequence, i, cs[i].endpoint), published);
    }
  }

  // ---- taking the tentative reference ----

  lemma AddReferenceFacts(p: Pool, h: ChunkHandle)
    requires ValidPool(p) && Live(p, h)
    ensures var (q, e) := AddReference(p, h);
            && ValidPool(q) && SameExcept(p, q, h.chunk)
            && (e == Ok <==> p.chunks[h.chunk].refs < U32_LIMIT - 1)
            && (e == Ok ==> q.chunks[h.chunk] == p.chunks[h.chunk].(refs := p.chunks[h.chunk].refs + 1))
            && (e != Ok ==> q == p)
  {
    var (q, e) := AddReference(p, h);
    assert ChunkOk(p, h.chunk);
    if e == Ok { SetChunkKeeps(p, h.chunk, q.chunks[h.chunk]); }
  }

  /** Changing only reference counts is invisible to every connection. */
  lemma CountKeepsConnections(p: Pool, q: Pool, h: ChunkHandle, cs: seq<Connection>, pc: PublisherPc, sequence: nat,
                              published: map<nat, seq<Byte>>)
    requires Shaped(p) && Shaped(q) && SameExcept(p, q, h.chunk) && Live(p, h)
    requires q.chunks[h.chunk] == p.chunks[h.chunk].(refs := q.chunks[h.chunk].refs)
    requires ConnectionsOk(p, cs, pc, sequence, published)
    requires pc.Dispatching? ==> Live(p, pc.handle)
    ensures ConnectionsOk(q, cs, pc, sequence, published)
  {
    forall j | 0 <= j < |cs|
      ensures ConnectionOk(q, cs[j], ContextOf(pc, sequence, j, cs[j].endpoint), published)
    {
      StableKeeps(p, q, cs[j], ContextOf(pc, sequence, j, cs[j].endpoint), published);
    }
  }

  lemma AddRefRefs(p: Pool, q: Pool, lists: seq<seq<ChunkHandle>>, h: ChunkHandle)
    requires Shaped(p) && Shaped(q) && RefsOk(p, lists, Guard(h, 1)) && Live(p, h)
    requires SameExcept(p, q, h.chunk)
    requires q.chunks[h.chunk] == p.chunks[h.chunk].(refs := p.chunks[h.chunk].refs + 1)
    ensures RefsOk(q, lists, Guard(h, 2))
  {
    forall j | 0 <= j < |q.chunks|
      ensures q.chunks[j].state == p.chunks[j].state && HandleOf(q, j) == HandleOf(p, j)
    {
      if j == h.chunk { assert HandleOf(p, j) == h; }
    }
  }

  lemma SkipKeeps(s: System)
    requires Inv(s) && s.pc.Dispatching? && s.pc.phase.Start? && s.pc.index < |s.connections|
    ensures Inv(s.(pc := s.pc.(index := s.pc.index + 1)))
  {
    var pc' := s.pc.(index := s.pc.index + 1);
    LoosenedKeeps(s.pool, s.connections, s.pc, pc', s.sequence, s.published);
  }

  lemma AddRefKeeps(s: System)
    requires Inv(s) && Enabled(s, AddRef)
    ensures Inv(Next(s, AddRef))
  {
    var (q, e) := AddReference(s.pool, s.pc.handle);
    if |s.connections[s.pc.index].outstanding| >= |s.pool.chunks| || e != Ok {
      SkipKeeps(s);
    } else {
      ReferencedKeeps(s);
    }
  }

  lemma ReferencedKeeps(s: System)
    requires Inv(s) && s.pc.Dispatching? && s.pc.phase.Start? && s.pc.index < |s.connections|
    requires AddReference(s.pool, s.pc.handle).1 == Ok
    ensures Inv(s.(pool := AddReference(s.pool, s.pc.handle).0, pc := s.pc.(phase := Referenced)))
  {
    var h := s.pc.handle;
    AddReferenceFacts(s.pool, h);
    var q := AddReference(s.pool, h).0;
    AddRefRefs(s.pool, q, Obligations(s.connections), h);
    CountKeepsConnections(s.pool, q, h, s.connections, s.pc, s.sequence, s.published);
    LoosenedKeeps(q, s.connections, s.pc, s.pc.(phase := Referenced), s.sequence, s.published);
    AddRefRest(s, q);
  }

  lemma AddRefRest(s: System, q: Pool)
    requires Inv(s) && s.pc.Dispatching? && Shaped(q) && SameExcept(s.pool, q, s.pc.handle.chunk)
    requires s.pc.index < |s.connections|
    requires Live(s.pool, s.pc.handle)
    requires q.chunks[s.pc.handle.chunk] == s.pool.chunks[s.pc.handle.chunk].(refs := q.chunks[s.pc.handle.chunk].refs)
    ensures LogOk(q, Current(s.pc), s.sequence, s.published)
    ensures LoansOk(q, s.loans)
    ensures DispatchOk(q, Obligations(s.connections), Limits(s.connections), s.pc.(phase := Referenced))
  {
    forall j | 0 <= j < |q.chunks|
      ensures q.chunks[j] == s.pool.chunks[j].(refs := q.chunks[j].refs) && HandleOf(q, j) == HandleOf(s.pool, j)
      ensures ViewOf(q, HandleOf(q, j)) == ViewOf(s.pool, HandleOf(s.pool, j))
    {
    }
    forall j | 0 <= j < |q.chunks| && q.chunks[j].state == Loaned
      ensures exists k :: 0 <= k < |s.loans| && s.loans[k].handle.chunk == j
    {
      assert s.pool.chunks[j].state == Loaned;
    }
  }

  // ---- the enqueue ----

  lemma RefusedKeeps(s: System, broken: seq<nat>)
    requires Inv(s) && s.pc.Dispatching? && s.pc.phase.Referenced?
    ensures Inv(s.(pc := s.pc.(phase := Refused, broken := broken)))
  {
    var pc' := s.pc.(phase := Refused, broken := broken);
    LoosenedKeeps(s.pool, s.connections, s.pc, pc', s.sequence, s.published);
  }

  /** Queueing the handle under dispatch, evicting the head if `evict`. */
  lemma AcceptedCovered(p: Pool, c: Connection, ring: Ring, h: ChunkHandle, evict: bool, ctx: Context)
    requires Covered(p, c, ctx) && ctx.arriving.None? && ctx.evicted.None?
    requires h.poolId == p.id && h !in c.outstanding
    requires evict ==> c.ring.items != []
    requires ring.items == (if evict then c.ring.items[1..] else c.ring.items) + [h]
    ensures Covered(p, c.(ring := ring),
                    ctx.(arriving := Some(h), evicted := if evict then Some(c.ring.items[0]) else None))
    ensures evict && c.ring.items[0].poolId == p.id ==> c.ring.items[0] in c.outstanding && c.ring.items[0] != h
  {
    var c' := c.(ring := ring);
    if evict { HeadFacts(c.ring.items); }
    assert multiset(ring.items) + (if evict then multiset{c.ring.items[0]} else multiset{})
        == multiset(c.ring.items) + multiset{h};
    assert Held(c)[h] == 0;
    forall g: ChunkHandle | g.poolId == p.id
      ensures Held(c')[g] + (if evict && g == c.ring.items[0] then 1 else 0) == Held(c)[g] + (if g == h then 1 else 0)
      ensures Held(c)[g] <= if g in c.outstanding then 1 else 0
    {
    }
    if evict { assert Held(c)[c.ring.items[0]] >= 1; }
  }

  lemma AcceptedOrder(p: Pool, c: Connection, ring: Ring, h: ChunkHandle, evict: bool, top: nat,
                      published: map<nat, seq<Byte>>)
    requires Shaped(p) && OrderOk(p, c, top) && SS.QueueLive(p, c, top, published)
    requires SequenceOf(p, h) == top + 1
    requires evict ==> c.ring.items != []
    requires ring.items == (if evict then c.ring.items[1..] else c.ring.items) + [h]
    ensures OrderOk(p, c.(ring := ring), top + 1)
  {
  }

  lemma AcceptedWake(p: Pool, c: Connection, ring: Ring, h: ChunkHandle, evict: bool, wakes: nat)
    requires ValidRing(c.ring) && WakeOk(p, c) && SinceEmptyOk(p, c) && h.poolId == p.id
    requires evict ==> c.ring.items != []
    requires ring.items == (if evict then c.ring.items[1..] else c.ring.items) + [h]
    requires wakes == c.wakes + (if c.ring.items == [] then 1 else 0)
    ensures WakeOk(p, c.(ring := ring, wakes := wakes)) && SinceEmptyOk(p, c.(ring := ring, wakes := wakes))
  {
  }

  /** `ring` is the connection's ring once it has accepted `h`, evicting its head if `evict`. */
  ghost predicate Accepts(c: Connection, ring: Ring, h: ChunkHandle, evict: bool, wakes: nat) {
    && ValidRing(ring)
    && (evict ==> c.ring.items != [])
    && ring.items == (if evict then c.ring.items[1..] else c.ring.items) + [h]
    && wakes == c.wakes + (if c.ring.items == [] then 1 else 0)
  }

  function Dropped(c: Connection, evict: bool): Option<ChunkHandle>
    requires evict ==> c.ring.items != []
  {
    if evict then Some(c.ring.items[0]) else None
  }

  lemma AcceptedRing(c: Connection, h: ChunkHandle, notify: Notify)
    requires ValidRing(c.ring) && !Waits(c.ring) && notify != NoCallback
    requires EnqueueNow(c.ring, h, notify).1.status == Accepted
    ensures var (ring, x) := EnqueueNow(c.ring, h, notify);
            && Accepts(c, ring, h, x.dropped.Some?, c.wakes + if x.notified then 1 else 0)
            && x.dropped == Dropped(c, x.dropped.Some?)
  {
  }

  /** The connection that accepts stays well formed, whatever it had to evict. */
  lemma AcceptedConnection(p: Pool, c: Connection, ring: Ring, h: ChunkHandle, evict: bool, wakes: nat, ctx: Context,
                           published: map<nat, seq<Byte>>)
    requires Shaped(p) && ConnectionOk(p, c, ctx, published) && SS.QueueLive(p, c, ctx.top, published)
    requires ctx.tracked && ctx.arriving.None? && ctx.evicted.None?
    requires h.poolId == p.id && h !in c.outstanding && SequenceOf(p, h) == ctx.top + 1
    requires Accepts(c, ring, h, evict, wakes)
    ensures ConnectionOk(p, c.(ring := ring, wakes := wakes),
                         ctx.(arriving := Some(h), evicted := Dropped(c, evict), top := ctx.top + 1), published)
    ensures evict && c.ring.items[0].poolId == p.id ==> c.ring.items[0] in c.outstanding
  {
    AcceptedCovered(p, c, ring, h, evict, ctx);
    AcceptedOrder(p, c, ring, h, evict, ctx.top, published);
    AcceptedWake(p, c, ring, h, evict, wakes);
    AssembleAccepted(p, c, ring, wakes, ctx,
                     ctx.(arriving := Some(h), evicted := Dropped(c, evict), top := ctx.top + 1), published);
  }

  lemma AssembleAccepted(p: Pool, c: Connection, ring: Ring, wakes: nat, ctx: Context, ctx': Context,
                         published: map<nat, seq<Byte>>)
    requires Shaped(p) && ConnectionOk(p, c, ctx, published) && ctx.tracked && ctx'.tracked
    requires ValidRing(ring)
    requires ctx'.top == ctx.top + 1
    requires Covered(p, c.(ring := ring), ctx.(arriving := ctx'.arriving, evicted := ctx'.evicted))
             && OrderOk(p, c.(ring := ring), ctx'.top)
    requires WakeOk(p, c.(ring := ring, wakes := wakes)) && SinceEmptyOk(p, c.(ring := ring, wakes := wakes))
    ensures ConnectionOk(p, c.(ring := ring, wakes := wakes), ctx', published)
  {
    var c1, c2 := c.(ring := ring), c.(ring := ring, wakes := wakes);
    assert Held(c1) == Held(c2);
    forall g: ChunkHandle | g.poolId == p.id
      ensures Held(c2)[g] <=
                if (g in c2.outstanding && ctx'.evicted != Some(g)) || ctx'.arriving == Some(g) then 1 else 0
    {
      assert Held(c1)[g] == Held(c2)[g];
    }
  }

  /** The handle under dispatch is new to the connection it is about to be offered to. */
  lemma ReadyToEnqueue(s: System)
    requires Inv(s) && s.pc.Dispatching? && s.pc.phase.Referenced? && s.pc.index < |s.connections|
    ensures var c := s.connections[s.pc.index];
            var ctx := ContextOf(s.pc, s.sequence, s.pc.index, c.endpoint);
            && ctx == Context(true, None, None, s.sequence)
            && ConnectionOk(s.pool, c, ctx, s.published) && SS.QueueLive(s.pool, c, s.sequence, s.published)
            && s.pc.handle.poolId == s.pool.id && s.pc.handle !in c.outstanding
            && SequenceOf(s.pool, s.pc.handle) == s.sequence + 1
  {
    SS.QueueIsLive(s, s.pc.index);
    AtConnection(s, s.pc.index);
    assert HandleOf(s.pool, s.pc.handle.chunk) == s.pc.handle;
    assert Obligations(s.connections)[s.pc.index] == s.connections[s.pc.index].outstanding;
  }

  /** The publisher is about to act on the ring of the connection it has reached. */
  ghost predicate AtRing(s: System) {
    && s.pc.Dispatching? && s.pc.phase.Referenced? && s.pc.index < |s.connections|
    && ValidRing(s.connections[s.pc.index].ring) && !Waits(s.connections[s.pc.index].ring)
  }

  function Outcome(s: System, delivered: bool): (Ring, EnqueueResult)
    requires AtRing(s)
  {
    EnqueueNow(s.connections[s.pc.index].ring, s.pc.handle, if delivered then Sends else Fails)
  }

  lemma AcceptedStepIs(s: System, delivered: bool)
    requires AtRing(s) && Outcome(s, delivered).1.status == Accepted
    ensures var (ring, x) := Outcome(s, delivered);
            var c := s.connections[s.pc.index];
            TryEnqueueStep(s, Acts(delivered))
            == Update(s, s.pc.index, c.(ring := ring, wakes := c.wakes + if x.notified then 1 else 0))
               .(pc := s.pc.(phase := Enqueued(x.dropped)))
  {
  }

  lemma AcceptedKeeps(s: System, delivered: bool)
    requires Inv(s) && AtRing(s) && Outcome(s, delivered).1.status == Accepted
    ensures Inv(TryEnqueueStep(s, Acts(delivered)))
  {
    var k := s.pc.index;
    var c := s.connections[k];
    var (ring, x) := Outcome(s, delivered);
    var wakes := c.wakes + if x.notified then 1 else 0;
    AcceptedRing(c, s.pc.handle, if delivered then Sends else Fails);
    AcceptedUpdate(s, ring, x.dropped.Some?, wakes);
    AcceptedStepIs(s, delivered);
  }

  lemma AcceptedUpdate(s: System, ring: Ring, evict: bool, wakes: nat)
    requires Inv(s) && AtRing(s) && Accepts(s.connections[s.pc.index], ring, s.pc.handle, evict, wakes)
    ensures var c := s.connections[s.pc.index];
            Inv(Update(s, s.pc.index, c.(ring := ring, wakes := wakes))
                .(pc := s.pc.(phase := Enqueued(Dropped(c, evict)))))
  {
    var c := s.connections[s.pc.index];
    ReadyToEnqueue(s);
    AcceptedConnection(s.pool, c, ring, s.pc.handle, evict, wakes,
                       ContextOf(s.pc, s.sequence, s.pc.index, c.endpoint), s.published);
    AcceptedSystem(s, c.(ring := ring, wakes := wakes), Dropped(c, evict));
  }

  /** Replacing the accepting connection and moving to the Enqueued phase. */
  lemma AcceptedSystem(s: System, c': Connection, dropped: Option<ChunkHandle>)
    requires Inv(s) && s.pc.Dispatching? && s.pc.phase.Referenced? && s.pc.index < |s.connections|
    requires var c := s.connections[s.pc.index];
             && c'.outstanding == c.outstanding && c'.endpoint == c.endpoint && c'.maxSize == c.maxSize
             && (dropped.Some? && dropped.value.poolId == s.pool.id ==> dropped.value in c.outstanding)
    requires var ctx := ContextOf(s.pc.(phase := Enqueued(dropped)), s.sequence, s.pc.index, c'.endpoint);
             ConnectionOk(s.pool, c', ctx, s.published)
    ensures Inv(Update(s, s.pc.index, c').(pc := s.pc.(phase := Enqueued(dropped))))
  {
    var k := s.pc.index;
    var pc' := s.pc.(phase := Enqueued(dropped));
    var cs' := s.connections[k := c'];
    assert Obligations(cs') == Obligations(s.connections);
    assert Endpoints(cs') == Endpoints(s.connections);
    assert Limits(cs') == Limits(s.connections);
    forall j | 0 <= j < |cs'|
      ensures ConnectionOk(s.pool, cs'[j], ContextOf(pc', s.sequence, j, cs'[j].endpoint), s.published)
    {
      if j != k {
        assert ContextOf(pc', s.sequence, j, cs'[j].endpoint) == ContextOf(s.pc, s.sequence, j, cs'[j].endpoint);
      }
    }
  }

  lemma RejectedKeeps(s: System, delivered: bool)
    requires Inv(s) && AtRing(s) && Outcome(s, delivered).1.status != Accepted
    ensures Inv(TryEnqueueStep(s, Acts(delivered)))
  {
    var k := s.pc.index;
    var c := s.connections[k];
    var (ring, x) := Outcome(s, delivered);
    var c' := c.(ring := ring);
    RejectedConnection(s.pool, c, ring, ContextOf(s.pc, s.sequence, k, c.endpoint), s.published);
    SS.OthersKeep(s, k, c');
    var gone := x.status == Closed || x.status == NotificationFailed;
    var broken := if gone then s.pc.broken + [c.endpoint] else s.pc.broken;
    RefusedKeeps(Update(s, k, c'), broken);
    RejectedStepIs(s, delivered);
  }

  lemma RejectedConnection(p: Pool, c: Connection, ring: Ring, ctx: Context, published: map<nat, seq<Byte>>)
    requires Shaped(p) && ConnectionOk(p, c, ctx, published)
    requires ring.items == c.ring.items && ring.capacity == c.ring.capacity
    ensures ConnectionOk(p, c.(ring := ring), ctx, published)
  {
    if ctx.tracked { SS.LocalCovered(p, c, c.(ring := ring), ctx); }
  }

  lemma RejectedStepIs(s: System, delivered: bool)
    requires AtRing(s) && Outcome(s, delivered).1.status != Accepted
    ensures var (ring, x) := Outcome(s, delivered);
            var c := s.connections[s.pc.index];
            && ring.items == c.ring.items && ring.capacity == c.ring.capacity
            && TryEnqueueStep(s, Acts(delivered))
               == Update(s, s.pc.index, c.(ring := ring))
                  .(pc := s.pc.(phase := Refused,
                                broken := if x.status == Closed || x.status == NotificationFailed
                                          then s.pc.broken + [c.endpoint] else s.pc.broken))
  {
  }

  lemma TryEnqueueKeeps(s: System, attempt: Attempt)
    requires Inv(s) && Enabled(s, TryEnqueue(attempt))
    ensures Inv(TryEnqueueStep(s, attempt))
  {
    if !attempt.Acts? {
      RefusedKeeps(s, s.pc.broken);
    } else if Outcome(s, attempt.delivered).1.status == Accepted {
      AcceptedKeeps(s, attempt.delivered);
    } else {
      RejectedKeeps(s, attempt.delivered);
    }
  }
}
