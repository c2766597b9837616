/** Recording the outcome of an offer, and dropping the guard, keep the invariant. */
module SettleSteps {
  import opened Basics
  import opened PoolModel
  import opened PoolLemmas
  import opened Protocol
  import opened ProtocolInvariant
  import opened ReleaseEffects
  import DS = DispatchSteps

  function After(pc: PublisherPc): PublisherPc
    requires pc.Dispatching?
  {
    pc.(index := pc.index + 1, phase := Start)
  }

  /** What connection `j` sees of the publisher moving past connection `pc.index`. */
  lemma AfterContext(pc: PublisherPc, sequence: nat, j: nat, endpoint: nat)
    requires pc.Dispatching?
    ensures var a, b := ContextOf(pc, sequence, j, endpoint), ContextOf(After(pc), sequence, j, endpoint);
            && b.tracked && b.arriving.None? && b.evicted.None? && a.tracked && a.top <= b.top
            && (j != pc.index ==> b == a)
            && (j == pc.index && pc.phase.Enqueued? ==>
                  a == b.(arriving := Some(pc.handle), evicted := pc.phase.dropped))
            && (j == pc.index && !pc.phase.Enqueued? ==> a == b.(top := a.top))
  {
  }

  // ---- the offer was taken ----

  lemma RecordConnection(p: Pool, c: Connection, h: ChunkHandle, ctx: Context, published: map<nat, seq<Byte>>)
    requires Shaped(p) && ConnectionOk(p, c, ctx, published) && ctx.tracked && ctx.arriving == Some(h)
    requires Live(p, h) && p.chunks[h.chunk].payloadSize <= c.maxSize && h !in c.outstanding
    requires ctx.evicted != Some(h)
    ensures ConnectionOk(p, c.(outstanding := c.outstanding + [h]), ctx.(arriving := None), published)
  {
    var c' := c.(outstanding := c.outstanding + [h]);
    var ctx' := ctx.(arriving := None);
    assert Held(c') == Held(c);
    forall g: ChunkHandle | g.poolId == p.id
      ensures Held(c')[g] <=
                if (g in c'.outstanding && ctx'.evicted != Some(g)) || ctx'.arriving == Some(g) then 1 else 0
    {
      assert Held(c)[g] == Held(c')[g];
    }
  }

  /** The evicted handle's obligation goes; nobody on this side holds it any more. */
  lemma ForgetEvicted(p: Pool, c: Connection, k: nat, ctx: Context, published: map<nat, seq<Byte>>)
    requires Shaped(p) && ConnectionOk(p, c, ctx, published) && ctx.tracked && ctx.arriving.None?
    requires k < |c.outstanding| && ctx.evicted == Some(c.outstanding[k])
    ensures ConnectionOk(p, c.(outstanding := Drop(c.outstanding, k)), ctx.(evicted := None), published)
  {
    var c' := c.(outstanding := Drop(c.outstanding, k));
    DropFacts(c.outstanding, k);
    assert Held(c') == Held(c);
    forall g: ChunkHandle | g.poolId == p.id
      ensures Held(c')[g] <= if g in c'.outstanding then 1 else 0
    {
      assert Held(c)[g] == Held(c')[g];
    }
  }

  /** An evicted handle of another pool was never owed. */
  lemma IgnoreEvicted(p: Pool, c: Connection, ctx: Context, published: map<nat, seq<Byte>>)
    requires Shaped(p) && ConnectionOk(p, c, ctx, published) && ctx.arriving.None?
    requires ctx.evicted.Some? ==> ctx.evicted.value !in c.outstanding
    ensures ConnectionOk(p, c, ctx.(evicted := None), published)
  {
    if ctx.tracked {
      forall g: ChunkHandle | g.poolId == p.id
        ensures Held(c)[g] <= if g in c.outstanding then 1 else 0
      {
      }
    }
  }

  /** The tentative reference becomes the subscriber's. */
  lemma RecordRefs(p: Pool, lists: seq<seq<ChunkHandle>>, k: nat, h: ChunkHandle)
    requires Shaped(p) && RefsOk(p, lists, Guard(h, 2)) && k < |lists| && h !in lists[k]
    ensures RefsOk(p, lists[k := lists[k] + [h]], Guard(h, 1))
  {
    forall g ensures Holders(lists[k := lists[k] + [h]], g) + Guards(Guard(h, 1), g)
                  == Holders(lists, g) + Guards(Guard(h, 2), g)
    {
      HoldersUpdate(lists, k, lists[k] + [h], g);
    }
    SameClaims(p, lists, Guard(h, 2), lists[k := lists[k] + [h]], Guard(h, 1));
  }

  /** The state after recording but before any eviction is given back. */
  lemma RecordKeeps(s: System, c': Connection)
    requires Inv(s) && s.pc.Dispatching? && s.pc.phase.Enqueued? && s.pc.index < |s.connections|
    requires var c := s.connections[s.pc.index];
             && c'.outstanding == c.outstanding + [s.pc.handle] && c'.endpoint == c.endpoint && c'.maxSize == c.maxSize
    requires ConnectionOk(s.pool, c', ContextOf(After(s.pc), s.sequence, s.pc.index, c'.endpoint), s.published)
    ensures Inv(Update(s, s.pc.index, c').(pc := After(s.pc)))
  {
    var k := s.pc.index;
    var lists := Obligations(s.connections);
    UpdateProjections(s.connections, k, c');
    RecordRefs(s.pool, lists, k, s.pc.handle);
    AfterDispatch(s.pool, s.pool, lists, Limits(s.connections), s.pc, c'.outstanding);
    RecordedConnections(s.pool, s.connections, s.pc, s.sequence, s.published, c');
  }

  lemma AfterDispatch(p: Pool, q: Pool, lists: seq<seq<ChunkHandle>>, limits: seq<nat>, pc: PublisherPc,
                      l: seq<ChunkHandle>)
    requires Shaped(p) && Shaped(q) && |lists| == |limits| && pc.Dispatching? && pc.index < |lists|
    requires DispatchOk(p, lists, limits, pc) && SameChunk(p, q, pc.handle)
    ensures DispatchOk(q, lists[pc.index := l], limits, After(pc))
  {
  }

  lemma RecordedConnections(p: Pool, cs: seq<Connection>, pc: PublisherPc, sequence: nat,
                            published: map<nat, seq<Byte>>,
                            c': Connection)
    requires Shaped(p) && ConnectionsOk(p, cs, pc, sequence, published) && pc.Dispatching? && pc.index < |cs|
    requires ConnectionOk(p, c', ContextOf(After(pc), sequence, pc.index, c'.endpoint), published)
    ensures ConnectionsOk(p, cs[pc.index := c'], After(pc), sequence, published)
  {
    var cs' := cs[pc.index := c'];
    forall j | 0 <= j < |cs'|
      ensures ConnectionOk(p, cs'[j], ContextOf(After(pc), sequence, j, cs'[j].endpoint), published)
    {
      AfterContext(pc, sequence, j, cs'[j].endpoint);
    }
  }

  /** What holds at the connection whose offer was taken. */
  lemma TakenFacts(s: System)
    requires Inv(s) && s.pc.Dispatching? && s.pc.phase.Enqueued?
    ensures s.pc.index < |s.connections|
    ensures var c := s.connections[s.pc.index];
            var h := s.pc.handle;
            && Live(s.pool, h) && h !in c.outstanding && s.pool.chunks[h.chunk].payloadSize <= c.maxSize
            && s.pc.phase.dropped != Some(h)
            && (s.pc.phase.dropped.Some? && s.pc.phase.dropped.value.poolId == s.pool.id ==>
                  s.pc.phase.dropped.value in c.outstanding)
            && (s.pc.phase.dropped.Some? && s.pc.phase.dropped.value in c.outstanding ==>
                  Live(s.pool, s.pc.phase.dropped.value))
            && ConnectionOk(s.pool, c, ContextOf(s.pc, s.sequence, s.pc.index, c.endpoint), s.published)
  {
    var k := s.pc.index;
    assert Obligations(s.connections)[k] == s.connections[k].outstanding;
    assert Limits(s.connections)[k] == s.connections[k].maxSize;
  }

  lemma SettleTakenKeeps(s: System)
    requires Inv(s) && s.pc.Dispatching? && s.pc.phase.Enqueued?
    ensures s.pc.index < |s.connections| && Inv(SettleStep(s))
  {
    TakenFacts(s);
    var k := s.pc.index;
    var c := s.connections[k];
    var h := s.pc.handle;
    var ctx := ContextOf(s.pc, s.sequence, k, c.endpoint);
    AfterContext(s.pc, s.sequence, k, c.endpoint);
    RecordConnection(s.pool, c, h, ctx, s.published);
    var c1 := c.(outstanding := c.outstanding + [h]);
    var d := s.pc.phase.dropped;
    if d.Some? && d.value in c.outstanding {
      SettleEvicted(s, c1, d.value);
    } else {
      IgnoreEvicted(s.pool, c1, ctx.(arriving := None), s.published);
      RecordKeeps(s, c1);
      SettleStepPlain(s);
    }
  }

  lemma SettleStepPlain(s: System)
    requires Shaped(s.pool) && s.pc.Dispatching? && s.pc.phase.Enqueued? && s.pc.index < |s.connections|
    requires var c := s.connections[s.pc.index];
             s.pc.phase.dropped.Some? ==> s.pc.phase.dropped.value !in c.outstanding + [s.pc.handle]
    ensures var c := s.connections[s.pc.index];
            SettleStep(s) == Update(s, s.pc.index, c.(outstanding := c.outstanding + [s.pc.handle])).(pc := After(s.pc))
  {
  }

  lemma EvictedRefs(p: Pool, lists: seq<seq<ChunkHandle>>, k: nat, h: ChunkHandle, m: nat)
    requires ValidPool(p) && RefsOk(p, lists, Guard(h, 2)) && k < |lists| && h !in lists[k]
    requires m < |lists[k]| && NoDup(lists[k]) && Live(p, lists[k][m])
    ensures var l := Drop(lists[k] + [h], m);
            var q := ReleaseReference(p, lists[k][m]).0;
            ValidPool(q) && RefsOk(q, lists[k := l], Guard(h, 1))
  {
    var d := lists[k][m];
    var l := Drop(lists[k] + [h], m);
    DropFacts(lists[k] + [h], m);
    assert d in lists[k];
    forall g ensures Holders(lists[k := l], g) + Guards(Guard(h, 1), g) + Bit(g == d)
                  == Holders(lists, g) + Guards(Guard(h, 2), g)
    {
      HoldersUpdate(lists, k, l, g);
    }
    ReleaseRefs(p, d, lists, Guard(h, 2), lists[k := l], Guard(h, 1));
  }

  lemma SettleStepEvicting(s: System, m: nat)
    requires Shaped(s.pool) && s.pc.Dispatching? && s.pc.phase.Enqueued? && s.pc.index < |s.connections|
    requires var c := s.connections[s.pc.index];
             && s.pc.phase.dropped.Some?
             && m < |c.outstanding| && m == Find(c.outstanding + [s.pc.handle], s.pc.phase.dropped.value)
    ensures var c := s.connections[s.pc.index];
            SettleStep(s)
            == Update(s, s.pc.index, c.(outstanding := Drop(c.outstanding + [s.pc.handle], m)))
               .(pool := ReleaseReference(s.pool, s.pc.phase.dropped.value).0, pc := After(s.pc))
  {
  }

  lemma EvictingConnection(p: Pool, c1: Connection, m: nat, ctx: Context, published: map<nat, seq<Byte>>)
    requires ValidPool(p) && ConnectionOk(p, c1, ctx, published) && ctx.tracked && ctx.arriving.None?
    requires m < |c1.outstanding| && ctx.evicted == Some(c1.outstanding[m])
    ensures Live(p, c1.outstanding[m])
    ensures ConnectionOk(ReleaseReference(p, c1.outstanding[m]).0, c1.(outstanding := Drop(c1.outstanding, m)),
                         ctx.(evicted := None), published)
  {
    var d := c1.outstanding[m];
    var c2 := c1.(outstanding := Drop(c1.outstanding, m));
    LiveConnection(p, c1, d);
    ForgetEvicted(p, c1, m, ctx, published);
    DropFacts(c1.outstanding, m);
    ReleaseReferenceFacts(p, d);
    forall g | g in c2.outstanding ensures SameChunk(p, ReleaseReference(p, d).0, g) {
      LiveConnection(p, c1, g);
      ReleaseStable(p, d, g);
    }
    StableKeeps(p, ReleaseReference(p, d).0, c2, ctx.(evicted := None), published);
  }

  lemma SettleEvicted(s: System, c1: Connection, d: ChunkHandle)
    requires Inv(s) && s.pc.Dispatching? && s.pc.phase == Enqueued(Some(d)) && s.pc.index < |s.connections|
    requires var c := s.connections[s.pc.index];
             && c1 == c.(outstanding := c.outstanding + [s.pc.handle]) && s.pc.handle !in c.outstanding
             && d in c.outstanding && d != s.pc.handle
             && ConnectionOk(s.pool, c1, ContextOf(s.pc, s.sequence, s.pc.index, c.endpoint).(arriving := None),
                             s.published)
    ensures Inv(SettleStep(s))
  {
    var k := s.pc.index;
    var c := s.connections[k];
    var m := Find(c1.outstanding, d);
    FindInFront(c.outstanding, s.pc.handle, d);
    EvictingConnection(s.pool, c1, m, ContextOf(s.pc, s.sequence, k, c.endpoint).(arriving := None), s.published);
    AfterContext(s.pc, s.sequence, k, c.endpoint);
    SettleStepEvicting(s, m);
    EvictedSystem(s, m, c1.(outstanding := Drop(c1.outstanding, m)));
  }

  lemma FindInFront(l: seq<ChunkHandle>, h: ChunkHandle, d: ChunkHandle)
    requires d in l && d != h
    ensures Find(l + [h], d) < |l|
  {
    var i :| 0 <= i < |l| && l[i] == d;
    assert (l + [h])[i] == d;
  }

  /** Giving back the evicted handle's reference: the publisher's side. */
  lemma EvictedPublisher(s: System, m: nat, l: seq<ChunkHandle>)
    requires Inv(s) && s.pc.Dispatching? && s.pc.phase.Enqueued? && s.pc.index < |s.connections|
    requires var c := s.connections[s.pc.index];
             && m < |c.outstanding| && s.pc.handle !in c.outstanding && l == Drop(c.outstanding + [s.pc.handle], m)
    ensures var q := ReleaseReference(s.pool, s.connections[s.pc.index].outstanding[m]).0;
            var lists := Obligations(s.connections)[s.pc.index := l];
            && ValidPool(q) && LoansOk(q, s.loans) && RefsOk(q, lists, Guard(s.pc.handle, 1))
            && LogOk(q, Current(s.pc), s.sequence, s.published)
            && DispatchOk(q, lists, Limits(s.connections), After(s.pc))
  {
    var k := s.pc.index;
    var c := s.connections[k];
    var d := c.outstanding[m];
    var lists := Obligations(s.connections);
    assert lists[k] == c.outstanding && d in c.outstanding;
    AtConnection(s, k);
    LiveConnection(s.pool, c, d);
    EvictedRefs(s.pool, lists, k, s.pc.handle, m);
    ReleaseLog(s.pool, d, Current(s.pc), s.sequence, s.published);
    ReleaseLoans(s.pool, d, s.loans);
    ReleaseStable(s.pool, d, s.pc.handle);
    AfterDispatch(s.pool, ReleaseReference(s.pool, d).0, lists, Limits(s.connections), s.pc, l);
  }

  lemma EvictedSystem(s: System, m: nat, c2: Connection)
    requires Inv(s) && s.pc.Dispatching? && s.pc.phase.Enqueued? && s.pc.index < |s.connections|
    requires var c := s.connections[s.pc.index];
             && m < |c.outstanding| && s.pc.handle !in c.outstanding
             && c2.outstanding == Drop(c.outstanding + [s.pc.handle], m) && c2.endpoint == c.endpoint
                && c2.maxSize == c.maxSize
    requires ConnectionOk(ReleaseReference(s.pool, s.connections[s.pc.index].outstanding[m]).0, c2,
                          ContextOf(After(s.pc), s.sequence, s.pc.index, c2.endpoint), s.published)
    ensures Inv(Update(s, s.pc.index, c2)
                .(pool := ReleaseReference(s.pool, s.connections[s.pc.index].outstanding[m]).0, pc := After(s.pc)))
  {
    UpdateProjections(s.connections, s.pc.index, c2);
    EvictedPublisher(s, m, c2.outstanding);
    EvictedConnections(s, m, c2);
  }

  lemma EvictedConnections(s: System, m: nat, c2: Connection)
    requires Inv(s) && s.pc.Dispatching? && s.pc.index < |s.connections|
    requires m < |s.connections[s.pc.index].outstanding| && c2.endpoint == s.connections[s.pc.index].endpoint
    requires ConnectionOk(ReleaseReference(s.pool, s.connections[s.pc.index].outstanding[m]).0, c2,
                          ContextOf(After(s.pc), s.sequence, s.pc.index, c2.endpoint), s.published)
    ensures ConnectionsOk(ReleaseReference(s.pool, s.connections[s.pc.index].outstanding[m]).0,
                          s.connections[s.pc.index := c2], After(s.pc), s.sequence, s.published)
  {
    var k := s.pc.index;
    var d := s.connections[k].outstanding[m];
    var q := ReleaseReference(s.pool, d).0;
    var cs' := s.connections[k := c2];
    AllOutstanding(s.pool, s.connections, s.pc, s.sequence, s.published);
    ReleaseOthers(s.pool, s.connections, GuardOf(s.pc), k, d);
    forall j | 0 <= j < |cs'|
      ensures ConnectionOk(q, cs'[j], ContextOf(After(s.pc), s.sequence, j, cs'[j].endpoint), s.published)
    {
      if j != k {
        AfterContext(s.pc, s.sequence, j, cs'[j].endpoint);
        StableKeeps(s.pool, q, s.connections[j], ContextOf(s.pc, s.sequence, j, cs'[j].endpoint), s.published);
      }
    }
  }

  // ---- the offer was refused ----

  lemma GuardedConnections(p: Pool, q: Pool, cs: seq<Connection>, pc: PublisherPc, sequence: nat,
                           published: map<nat, seq<Byte>>)
    requires Shaped(p) && Shaped(q) && ConnectionsOk(p, cs, pc, sequence, published)
    requires forall j :: 0 <= j < |cs| ==> StableFor(p, q, cs[j], None)
    requires forall j :: 0 <= j < |cs| ==> ContextOf(pc, sequence, j, cs[j].endpoint).arriving.None?
    ensures ConnectionsOk(q, cs, pc, sequence, published)
  {
    forall j | 0 <= j < |cs|
      ensures ConnectionOk(q, cs[j], ContextOf(pc, sequence, j, cs[j].endpoint), published)
    {
      StableKeeps(p, q, cs[j], ContextOf(pc, sequence, j, cs[j].endpoint), published);
    }
  }

  lemma RefusedPublisher(s: System)
    requires Inv(s) && s.pc.Dispatching? && s.pc.phase.Refused? && s.pc.index < |s.connections|
    ensures var q := ReleaseReference(s.pool, s.pc.handle).0;
            && ValidPool(q) && LoansOk(q, s.loans)
            && RefsOk(q, Obligations(s.connections), Guard(s.pc.handle, 1))
            && LogOk(q, Current(s.pc), s.sequence, s.published)
            && SameChunk(s.pool, q, s.pc.handle)
  {
    var h := s.pc.handle;
    var lists := Obligations(s.connections);
    assert h == HandleOf(s.pool, h.chunk);
    ReleaseRefs(s.pool, h, lists, Guard(h, 2), lists, Guard(h, 1));
    ReleaseLog(s.pool, h, Current(s.pc), s.sequence, s.published);
    ReleaseLoans(s.pool, h, s.loans);
    ReleaseStable(s.pool, h, h);
  }

  lemma RefusedConnections(p: Pool, cs: seq<Connection>, pc: PublisherPc, sequence: nat, published: map<nat, seq<Byte>>)
    requires ValidPool(p) && RefsOk(p, Obligations(cs), GuardOf(pc)) && ConnectionsOk(p, cs, pc, sequence, published)
    requires pc.Dispatching? && pc.phase.Refused? && Live(p, pc.handle)
    ensures ConnectionsOk(ReleaseReference(p, pc.handle).0, cs, After(pc), sequence, published)
  {
    AllOutstanding(p, cs, pc, sequence, published);
    ReleaseGuard(p, cs, GuardOf(pc), pc.handle);
    GuardedConnections(p, ReleaseReference(p, pc.handle).0, cs, pc, sequence, published);
    DS.LoosenedKeeps(ReleaseReference(p, pc.handle).0, cs, pc, After(pc), sequence, published);
  }

  lemma SettleRefusedKeeps(s: System)
    requires Inv(s) && s.pc.Dispatching? && s.pc.phase.Refused? && s.pc.index < |s.connections|
    ensures Inv(SettleStep(s))
  {
    var lists := Obligations(s.connections);
    RefusedPublisher(s);
    RefusedConnections(s.pool, s.connections, s.pc, s.sequence, s.published);
    AfterDispatch(s.pool, ReleaseReference(s.pool, s.pc.handle).0, lists, Limits(s.connections), s.pc,
                  lists[s.pc.index]);
    assert lists[s.pc.index := lists[s.pc.index]] == lists;
  }

  // ---- all offers made ----

  lemma GuardLog(p: Pool, h: ChunkHandle, sequence: nat, published: map<nat, seq<Byte>>)
    requires Shaped(p) && LogOk(p, Some(h.chunk), sequence, published)
    ensures LogOk(p, None, sequence + 1, published)
  {
    forall i | 0 <= i < |p.chunks| && p.chunks[i].state == Published
      ensures p.chunks[i].sequence in published && p.chunks[i].sequence <= sequence + 1
      ensures published[p.chunks[i].sequence] == ViewOf(p, HandleOf(p, i)).payload
    {
      assert HandleOf(p, i).chunk == i;
    }
  }

  lemma DropGuardConnections(p: Pool, cs: seq<Connection>, pc: PublisherPc, pc': PublisherPc, sequence: nat,
                             published: map<nat, seq<Byte>>)
    requires Shaped(p) && ConnectionsOk(p, cs, pc, sequence, published)
    requires pc.Dispatching? && pc.phase.Start? && pc.index >= |cs| && pc'.Removing?
    ensures ConnectionsOk(p, cs, pc', sequence + 1, published)
  {
    forall j | 0 <= j < |cs|
      ensures ConnectionOk(p, cs[j], ContextOf(pc', sequence + 1, j, cs[j].endpoint), published)
    {
      assert ConnectionOk(p, cs[j], ContextOf(pc, sequence, j, cs[j].endpoint), published);
    }
  }

  lemma GuardPublisher(s: System)
    requires Inv(s) && s.pc.Dispatching? && s.pc.phase.Start?
    ensures var q := ReleaseReference(s.pool, s.pc.handle).0;
            && ValidPool(q) && LoansOk(q, s.loans) && RefsOk(q, Obligations(s.connections), NoGuard)
            && LogOk(q, None, s.sequence + 1, s.published)
  {
    var h := s.pc.handle;
    var lists := Obligations(s.connections);
    ReleaseRefs(s.pool, h, lists, Guard(h, 1), lists, NoGuard);
    ReleaseLog(s.pool, h, Current(s.pc), s.sequence, s.published);
    GuardLog(ReleaseReference(s.pool, h).0, h, s.sequence, s.published);
    ReleaseLoans(s.pool, h, s.loans);
  }

  lemma DropGuardKeeps(s: System)
    requires Inv(s) && s.pc.Dispatching? && s.pc.phase.Start? && s.pc.index >= |s.connections|
    ensures Inv(DropGuardStep(s))
  {
    GuardPublisher(s);
    GuardConnections(s.pool, s.connections, s.pc, s.sequence, s.published);
  }

  lemma GuardConnections(p: Pool, cs: seq<Connection>, pc: PublisherPc, sequence: nat, published: map<nat, seq<Byte>>)
    requires ValidPool(p) && RefsOk(p, Obligations(cs), GuardOf(pc)) && ConnectionsOk(p, cs, pc, sequence, published)
    requires pc.Dispatching? && pc.phase.Start? && pc.index >= |cs| && Live(p, pc.handle)
    ensures ConnectionsOk(ReleaseReference(p, pc.handle).0, cs, Removing(pc.broken, true, None), sequence + 1,
                          published)
  {
    var q := ReleaseReference(p, pc.handle).0;
    AllOutstanding(p, cs, pc, sequence, published);
    ReleaseGuard(p, cs, GuardOf(pc), pc.handle);
    GuardedConnections(p, q, cs, pc, sequence, published);
    DropGuardConnections(q, cs, pc, Removing(pc.broken, true, None), sequence, published);
  }
}
