/** What dropping one reference does to everyone else's view of the pool. */
module ReleaseEffects {
  import opened Basics
  import opened PoolModel
  import opened PoolLemmas
  import opened Protocol
  import opened ProtocolInvariant

  /** The chunk `h` names is still published with the same contents. */
  ghost predicate SameChunk(p: Pool, q: Pool, h: ChunkHandle)
    requires Shaped(p) && Shaped(q)
  {
    && Live(p, h) && Live(q, h)
    && q.chunks[h.chunk].payloadSize == p.chunks[h.chunk].payloadSize
    && q.chunks[h.chunk].sequence == p.chunks[h.chunk].sequence
    && q.chunks[h.chunk].payload == p.chunks[h.chunk].payload
  }

  ghost predicate StableFor(p: Pool, q: Pool, c: Connection, arriving: Option<ChunkHandle>)
    requires Shaped(p) && Shaped(q)
  {
    && q.id == p.id
    && (forall h :: h in c.outstanding ==> SameChunk(p, q, h))
    && (arriving.Some? ==> SameChunk(p, q, arriving.value))
  }

  /** A connection all of whose handles keep their chunks stays well formed. */
  lemma StableKeeps(p: Pool, q: Pool, c: Connection, ctx: Context, published: map<nat, seq<Byte>>)
    requires Shaped(p) && Shaped(q)
    requires ConnectionOk(p, c, ctx, published) && StableFor(p, q, c, ctx.arriving)
    ensures ConnectionOk(q, c, ctx, published)
  {
    if ctx.tracked {
      StableViews(p, q, c, ctx);
      StableQueue(p, q, c, ctx);
    }
  }

  lemma HeldIsSame(p: Pool, q: Pool, c: Connection, ctx: Context, h: ChunkHandle)
    requires Shaped(p) && Shaped(q)
    requires Covered(p, c, ctx) && StableFor(p, q, c, ctx.arriving)
    requires h.poolId == p.id && Held(c)[h] >= 1
    ensures SameChunk(p, q, h)
  {
  }

  lemma StableViews(p: Pool, q: Pool, c: Connection, ctx: Context)
    requires Shaped(p) && Shaped(q)
    requires Covered(p, c, ctx) && StableFor(p, q, c, ctx.arriving) && ViewsOk(p, c)
    ensures ViewsOk(q, c)
  {
    forall k | 0 <= k < |c.views| && c.views[k].handle.poolId == p.id
      ensures Live(q, c.views[k].handle) && c.views[k] == ViewOf(q, c.views[k].handle)
    {
      var h := c.views[k].handle;
      assert Handles(c.views)[k] == h;
      assert h in multiset(Handles(c.views));
      HeldIsSame(p, q, c, ctx, h);
    }
  }

  lemma StableQueue(p: Pool, q: Pool, c: Connection, ctx: Context)
    requires Shaped(p) && Shaped(q)
    requires Covered(p, c, ctx) && StableFor(p, q, c, ctx.arriving) && OrderOk(p, c, ctx.top)
    ensures OrderOk(q, c, ctx.top)
  {
    forall k | 0 <= k < |c.ring.items| && c.ring.items[k].poolId == p.id
      ensures SequenceOf(q, c.ring.items[k]) == SequenceOf(p, c.ring.items[k])
    {
      assert c.ring.items[k] in multiset(c.ring.items);
      HeldIsSame(p, q, c, ctx, c.ring.items[k]);
    }
  }

  lemma ReleaseStable(p: Pool, h: ChunkHandle, g: ChunkHandle)
    requires ValidPool(p) && Live(p, h) && Live(p, g)
    requires g != h || p.chunks[h.chunk].refs > 1
    ensures SameChunk(p, ReleaseReference(p, h).0, g)
  {
    ReleaseReferenceFacts(p, h);
    if g.chunk == h.chunk { assert g == h; }
  }

  /** Reference conservation: one claim on `h` fewer, one reference fewer. */
  lemma ReleaseRefs(p: Pool, h: ChunkHandle, lists: seq<seq<ChunkHandle>>, guard: Guard,
                    lists': seq<seq<ChunkHandle>>, guard': Guard)
    requires ValidPool(p) && Live(p, h) && RefsOk(p, lists, guard)
    requires Holders(lists', h) + Guards(guard', h) + 1 == Holders(lists, h) + Guards(guard, h)
    requires forall g :: g != h ==> Holders(lists', g) + Guards(guard', g) == Holders(lists, g) + Guards(guard, g)
    ensures ValidPool(ReleaseReference(p, h).0)
    ensures RefsOk(ReleaseReference(p, h).0, lists', guard')
  {
    ReleaseReferenceFacts(p, h);
    var q := ReleaseReference(p, h).0;
    forall i | 0 <= i < |q.chunks|
      ensures q.chunks[i].state != Released
      ensures q.chunks[i].state == Published ==>
                q.chunks[i].refs == Holders(lists', HandleOf(q, i)) + Guards(guard', HandleOf(q, i))
    {
      assert HandleOf(q, i) == HandleOf(p, i);
      assert p.chunks[i].state != Released;
      if i == h.chunk { assert HandleOf(p, i) == h; } else { assert HandleOf(p, i) != h; }
    }
  }

  lemma ReleaseLog(p: Pool, h: ChunkHandle, current: Option<nat>, sequence: nat, published: map<nat, seq<Byte>>)
    requires ValidPool(p) && Live(p, h) && LogOk(p, current, sequence, published)
    ensures Shaped(ReleaseReference(p, h).0)
    ensures LogOk(ReleaseReference(p, h).0, current, sequence, published)
  {
    ReleaseReferenceFacts(p, h);
    var q := ReleaseReference(p, h).0;
    forall i | 0 <= i < |q.chunks| && q.chunks[i].state == Published
      ensures ViewOf(q, HandleOf(q, i)) == ViewOf(p, HandleOf(p, i)) && q.chunks[i].sequence == p.chunks[i].sequence
      ensures p.chunks[i].state == Published
    {
      if i != h.chunk { assert q.chunks[i] == p.chunks[i]; }
    }
  }

  lemma ReleaseLoans(p: Pool, h: ChunkHandle, loans: seq<Loan>)
    requires ValidPool(p) && Live(p, h) && LoansOk(p, loans)
    ensures Shaped(ReleaseReference(p, h).0)
    ensures LoansOk(ReleaseReference(p, h).0, loans)
  {
    ReleaseReferenceFacts(p, h);
    var q := ReleaseReference(p, h).0;
    forall i | 0 <= i < |q.chunks| && q.chunks[i].state == Loaned
      ensures exists k :: 0 <= k < |loans| && loans[k].handle.chunk == i
    {
      assert p.chunks[i].state == Loaned;
    }
  }

  lemma LiveConnection(p: Pool, c: Connection, h: ChunkHandle)
    requires Shaped(p) && OutstandingOk(p, c) && h in c.outstanding
    ensures Live(p, h)
  {
  }

  /** Dropping a reference owed to connection `i` leaves every other connection's chunks alone. */
  lemma ReleaseOthers(p: Pool, cs: seq<Connection>, guard: Guard, i: nat, h: ChunkHandle)
    requires ValidPool(p) && RefsOk(p, Obligations(cs), guard)
    requires forall j :: 0 <= j < |cs| ==> OutstandingOk(p, cs[j])
    requires i < |cs| && h in cs[i].outstanding
    ensures Live(p, h) && Shaped(ReleaseReference(p, h).0)
    ensures forall j :: 0 <= j < |cs| && j != i ==> StableFor(p, ReleaseReference(p, h).0, cs[j], None)
  {
    LiveConnection(p, cs[i], h);
    var lists := Obligations(cs);
    ReleaseReferenceFacts(p, h);
    var q := ReleaseReference(p, h).0;
    assert h == HandleOf(p, h.chunk);
    HoldersPositive(lists, i, h);
    forall j | 0 <= j < |cs| && j != i ensures StableFor(p, q, cs[j], None) {
      forall g | g in cs[j].outstanding ensures SameChunk(p, q, g) {
        LiveConnection(p, cs[j], g);
        if g == h { assert h in lists[j]; }
        ReleaseStable(p, h, g);
      }
    }
  }

  /** Dropping a reference of the publisher's own leaves every connection's chunks alone. */
  lemma ReleaseGuard(p: Pool, cs: seq<Connection>, guard: Guard, h: ChunkHandle)
    requires ValidPool(p) && RefsOk(p, Obligations(cs), guard)
    requires forall j :: 0 <= j < |cs| ==> OutstandingOk(p, cs[j])
    requires Live(p, h) && Guards(guard, h) >= 1
    ensures Shaped(ReleaseReference(p, h).0)
    ensures forall j :: 0 <= j < |cs| ==> StableFor(p, ReleaseReference(p, h).0, cs[j], None)
  {
    var lists := Obligations(cs);
    ReleaseReferenceFacts(p, h);
    var q := ReleaseReference(p, h).0;
    assert h == HandleOf(p, h.chunk);
    forall j | 0 <= j < |cs| ensures StableFor(p, q, cs[j], None) {
      forall g | g in cs[j].outstanding ensures SameChunk(p, q, g) {
        LiveConnection(p, cs[j], g);
        if g == h { assert h in lists[j]; HoldersPositive(lists, j, h); }
        ReleaseStable(p, h, g);
      }
    }
  }
}
