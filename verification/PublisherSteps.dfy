/** The publisher's steps between dispatches keep the invariant. */
module PublisherSteps {
  import opened Basics
  import opened PoolModel
  import opened PoolLemmas
  import opened Protocol
  import opened ProtocolInvariant
  import opened ReleaseEffects
  import SS = SubscriberSteps

  lemma JoinKeeps(s: System)
    requires Inv(s)
    ensures Inv(Next(s, Join))
  {
  }

  lemma LeaveKeeps(s: System, e: nat)
    requires Inv(s)
    ensures Inv(Next(s, Leave(e)))
  {
  }

  /** Changing only the program counter, between two positions without a guard. */
  lemma PcKeeps(s: System, pc: PublisherPc)
    requires Inv(s) && !s.pc.Dispatching? && !pc.Dispatching?
    requires PcEndpointsOk(Endpoints(s.connections), DirectoryOf(s), pc)
    requires s.pc.Connecting? ==> pc.Connecting?
    requires forall i :: 0 <= i < |s.connections| ==>
                           ContextOf(pc, s.sequence, i, s.connections[i].endpoint).tracked ==>
                             ContextOf(s.pc, s.sequence, i, s.connections[i].endpoint).tracked
    ensures Inv(s.(pc := pc))
  {
    var s' := s.(pc := pc);
    forall i | 0 <= i < |s'.connections|
      ensures ConnectionOk(s'.pool, s'.connections[i], ContextOf(s'.pc, s'.sequence, i, s'.connections[i].endpoint),
                           s'.published)
    {
      assert ConnectionOk(s.pool, s.connections[i], ContextOf(s.pc, s.sequence, i, s.connections[i].endpoint),
                          s.published);
    }
  }

  lemma RemoveKeeps(s: System, e: nat)
    requires Inv(s) && s.pc.Idle?
    ensures Inv(Next(s, Remove(e)))
  {
    PcKeeps(s, Removing([e], true, None));
  }

  lemma DiscoverKeeps(s: System, found: seq<nat>)
    requires Inv(s) && Enabled(s, Discover(found))
    ensures Inv(Next(s, Discover(found)))
  {
    var s1 := s.(failed := s.failed * s.registered);
    assert Inv(s1);
    VanishedAreConnected(s.connections, s.registered);
    var pc := Removing(Vanished(s.connections, s.registered), false, Some(found));
    assert PcEndpointsOk(Endpoints(s1.connections), DirectoryOf(s1), pc);
    PcKeeps(s1, pc);
  }

  lemma {:induction false} VanishedAreConnected(cs: seq<Connection>, registered: set<nat>)
    ensures forall e :: e in Vanished(cs, registered) ==> e in Endpoints(cs)
  {
    if cs != [] {
      VanishedAreConnected(cs[1..], registered);
      assert Endpoints(cs) == [cs[0].endpoint] + Endpoints(cs[1..]);
    }
  }

  // ---- a release frame arrives ----

  /** Giving back obligation `k` while returning its handle. */
  lemma ReturnedCovered(p: Pool, c: Connection, c': Connection, ctx: Context, k: nat)
    requires NoDup(c.outstanding) && Covered(p, c, ctx) && k < |c.outstanding|
    requires ctx.arriving.None?
    requires c'.outstanding == Drop(c.outstanding, k)
    requires Held(c) == Held(c') + multiset{c.outstanding[k]}
    ensures Covered(p, c', ctx)
  {
    DropFacts(c.outstanding, k);
    var h := c.outstanding[k];
    forall g: ChunkHandle | g.poolId == p.id
      ensures Held(c')[g] <= if g in c'.outstanding && ctx.evicted != Some(g) then 1 else 0
    {
      assert Held(c)[g] <= 1;
      if g == h { assert Held(c)[g] == Held(c')[g] + 1; } else { assert Held(c)[g] == Held(c')[g]; }
    }
  }

  lemma DropRefs(s: System, i: nat, k: nat)
    requires Inv(s) && !s.pc.Dispatching? && i < |s.connections| && k < |s.connections[i].outstanding|
    ensures var h := s.connections[i].outstanding[k];
            var q := ReleaseReference(s.pool, h).0;
            var lists := Obligations(s.connections)[i := Drop(s.connections[i].outstanding, k)];
            ValidPool(q) && RefsOk(q, lists, GuardOf(s.pc))
  {
    var c := s.connections[i];
    var h := c.outstanding[k];
    var lists := Obligations(s.connections);
    AtConnection(s, i);
    LiveConnection(s.pool, c, h);
    DropFacts(c.outstanding, k);
    forall g ensures Holders(lists[i := Drop(c.outstanding, k)], g) + Bit(g in c.outstanding)
                  == Holders(lists, g) + Bit(g in Drop(c.outstanding, k))
    {
      HoldersUpdate(lists, i, Drop(c.outstanding, k), g);
    }
    ReleaseRefs(s.pool, h, lists, GuardOf(s.pc), lists[i := Drop(c.outstanding, k)], GuardOf(s.pc));
  }

  /** Connection `i` gives back obligation `k`: the system around it is unharmed. */
  lemma GiveBackKeeps(s: System, i: nat, k: nat, c': Connection)
    requires Inv(s) && !s.pc.Dispatching? && i < |s.connections| && k < |s.connections[i].outstanding|
    requires c'.endpoint == s.connections[i].endpoint && c'.maxSize == s.connections[i].maxSize
    requires c'.outstanding == Drop(s.connections[i].outstanding, k)
    requires ConnectionOk(ReleaseReference(s.pool, s.connections[i].outstanding[k]).0, c',
                          ContextOf(s.pc, s.sequence, i, c'.endpoint), s.published)
    ensures Inv(Update(s, i, c').(pool := ReleaseReference(s.pool, s.connections[i].outstanding[k]).0))
  {
    var h := s.connections[i].outstanding[k];
    var q := ReleaseReference(s.pool, h).0;
    var cs' := s.connections[i := c'];
    AllOutstanding(s.pool, s.connections, s.pc, s.sequence, s.published);
    ReleaseOthers(s.pool, s.connections, GuardOf(s.pc), i, h);
    DropRefs(s, i, k);
    assert Obligations(cs') == Obligations(s.connections)[i := c'.outstanding];
    assert Endpoints(cs') == Endpoints(s.connections);
    assert Limits(cs') == Limits(s.connections);
    ReleaseLog(s.pool, h, Current(s.pc), s.sequence, s.published);
    ReleaseLoans(s.pool, h, s.loans);
    forall j | 0 <= j < |cs'| && j != i
      ensures ConnectionOk(q, cs'[j], ContextOf(s.pc, s.sequence, j, cs'[j].endpoint), s.published)
    {
      StableKeeps(s.pool, q, s.connections[j], ContextOf(s.pc, s.sequence, j, cs'[j].endpoint), s.published);
    }
  }

  lemma ReturnedConnection(s: System, i: nat)
    requires Inv(s) && s.pc.Idle? && i < |s.connections| && s.connections[i].releases != []
    requires s.connections[i].releases[0] in s.connections[i].outstanding
    ensures var c := s.connections[i];
            var h := c.releases[0];
            var k := Find(c.outstanding, h);
            ConnectionOk(ReleaseReference(s.pool, h).0,
                         c.(releases := c.releases[1..], outstanding := Drop(c.outstanding, k)),
                         ContextOf(s.pc, s.sequence, i, c.endpoint), s.published)
  {
    var c := s.connections[i];
    var ctx := ContextOf(s.pc, s.sequence, i, c.endpoint);
    var h := c.releases[0];
    var k := Find(c.outstanding, h);
    var c' := c.(releases := c.releases[1..], outstanding := Drop(c.outstanding, k));
    HeadFacts(c.releases);
    DropFacts(c.outstanding, k);
    ReturnedCovered(s.pool, c, c', ctx, k);
    LiveConnection(s.pool, c, h);
    assert ConnectionOk(s.pool, c', ctx, s.published);
    ReleaseReferenceFacts(s.pool, h);
    forall g | g in c'.outstanding ensures SameChunk(s.pool, ReleaseReference(s.pool, h).0, g) {
      ReleaseStable(s.pool, h, g);
    }
    StableKeeps(s.pool, ReleaseReference(s.pool, h).0, c', ctx, s.published);
  }

  lemma ReceiveReleaseKeeps(s: System, i: nat)
    requires Inv(s) && Enabled(s, ReceiveRelease(i))
    ensures Inv(Next(s, ReceiveRelease(i)))
  {
    var c := s.connections[i];
    var h := c.releases[0];
    if h in c.outstanding {
      ReturnedConnection(s, i);
      GiveBackKeeps(s, i, Find(c.outstanding, h),
                    c.(releases := c.releases[1..], outstanding := Drop(c.outstanding, Find(c.outstanding, h))));
    } else {
      IgnoredRelease(s, i);
    }
  }

  /** A handle the publisher does not owe changes nothing but the channel. */
  lemma IgnoredRelease(s: System, i: nat)
    requires Inv(s) && s.pc.Idle? && i < |s.connections| && s.connections[i].releases != []
    ensures Inv(Update(s, i, s.connections[i].(releases := s.connections[i].releases[1..])))
  {
    var c := s.connections[i];
    var ctx := ContextOf(s.pc, s.sequence, i, c.endpoint);
    var c' := c.(releases := c.releases[1..]);
    HeadFacts(c.releases);
    SS.LocalCovered(s.pool, c, c', ctx);
    SS.OthersKeep(s, i, c');
  }

  // ---- removing a connection ----

  lemma RemoveOneKeeps(s: System)
    requires Inv(s) && s.pc.Removing? && s.pc.endpoints != []
    requires var k := FindConnection(s.connections, s.pc.endpoints[0]);
             k < |s.connections| && s.connections[k].outstanding != []
    ensures Inv(RemoveNextStep(s))
  {
    var k := FindConnection(s.connections, s.pc.endpoints[0]);
    var c := s.connections[k];
    var h := c.outstanding[0];
    var c' := c.(outstanding := c.outstanding[1..]);
    assert c'.outstanding == Drop(c.outstanding, 0);
    HeadFacts(c.outstanding);
    AtConnection(s, k);
    LiveConnection(s.pool, c, h);
    forall g | g in c'.outstanding ensures SameChunk(s.pool, ReleaseReference(s.pool, h).0, g) {
      ReleaseStable(s.pool, h, g);
    }
    GiveBackKeeps(s, k, 0, c');
  }

  lemma EraseRefs(p: Pool, lists: seq<seq<ChunkHandle>>, k: nat, guard: Guard)
    requires Shaped(p) && RefsOk(p, lists, guard) && k < |lists| && lists[k] == []
    ensures RefsOk(p, Drop(lists, k), guard)
  {
    forall h ensures Holders(Drop(lists, k), h) == Holders(lists, h) { HoldersDrop(lists, k, h); }
    SameClaims(p, lists, guard, Drop(lists, k), guard);
  }

  lemma ErasePcEndpoints(ids: seq<nat>, d: Directory, pc: PublisherPc, k: nat)
    requires EndpointsOk(ids, d) && PcEndpointsOk(ids, d, pc) && pc.Removing? && pc.endpoints != []
    requires k < |ids| && ids[k] == pc.endpoints[0]
    ensures var d' := d.(failed := if pc.tombstone then d.failed + {ids[k]} else d.failed);
            && EndpointsOk(Drop(ids, k), d')
            && PcEndpointsOk(Drop(ids, k), d', pc.(endpoints := pc.endpoints[1..]))
  {
    DropFacts(ids, k);
    assert forall e :: e in pc.endpoints[1..] ==> e in pc.endpoints;
  }

  lemma EraseKeeps(s: System, k: nat)
    requires Inv(s) && s.pc.Removing? && s.pc.endpoints != []
    requires k < |s.connections| && s.connections[k].endpoint == s.pc.endpoints[0] && s.connections[k].outstanding == []
    ensures Inv(Forget(s, Drop(s.connections, k)))
  {
    var cs := s.connections;
    DropProjections(cs, k);
    EraseRefs(s.pool, Obligations(cs), k, NoGuard);
    ErasePcEndpoints(Endpoints(cs), DirectoryOf(s), s.pc, k);
    EraseConnections(s, k, s.pc.(endpoints := s.pc.endpoints[1..]));
  }

  lemma EraseConnections(s: System, k: nat, pc: PublisherPc)
    requires Shaped(s.pool) && ConnectionsOk(s.pool, s.connections, s.pc, s.sequence, s.published)
    requires k < |s.connections|
    requires NoDup(Endpoints(s.connections))
    requires s.pc.Removing? && s.pc.endpoints != [] && s.pc.endpoints[0] == s.connections[k].endpoint
    requires pc.Removing?
    ensures ConnectionsOk(s.pool, Drop(s.connections, k), pc, s.sequence, s.published)
  {
    var cs := s.connections;
    var cs' := Drop(cs, k);
    forall j | 0 <= j < |cs'|
      ensures ConnectionOk(s.pool, cs'[j], ContextOf(pc, s.sequence, j, cs'[j].endpoint), s.published)
    {
      var i := if j < k then j else j + 1;
      assert cs'[j] == cs[i] && Endpoints(cs)[i] != Endpoints(cs)[k];
      var ctx := ContextOf(s.pc, s.sequence, i, cs[i].endpoint);
      assert ctx.tracked && ConnectionOk(s.pool, cs[i], ctx, s.published);
    }
  }

  lemma SkipAbsentKeeps(s: System)
    requires Inv(s) && s.pc.Removing? && s.pc.endpoints != []
    requires FindConnection(s.connections, s.pc.endpoints[0]) == |s.connections|
    ensures Inv(RemoveNextStep(s))
  {
    var e := s.pc.endpoints[0];
    assert e !in Endpoints(s.connections);
    var s1 := s.(failed := if s.pc.tombstone then s.failed + {e} else s.failed);
    assert Inv(s1);
    assert forall x :: x in s.pc.endpoints[1..] ==> x in s.pc.endpoints;
    PcKeeps(s1, s.pc.(endpoints := s.pc.endpoints[1..]));
  }

  lemma RemoveNextKeeps(s: System)
    requires Inv(s) && s.pc.Removing?
    ensures Inv(Next(s, RemoveNext))
  {
    if s.pc.endpoints == [] {
      PcKeeps(s, match s.pc.joining case None => Idle case Some(order) => Connecting(order));
    } else {
      var k := FindConnection(s.connections, s.pc.endpoints[0]);
      if k == |s.connections| { SkipAbsentKeeps(s); }
      else if s.connections[k].outstanding == [] { EraseKeeps(s, k); }
      else { RemoveOneKeeps(s); }
    }
  }

  // ---- connecting ----

  lemma NoneHeld(c: Connection, id: nat, h: ChunkHandle)
    requires NoneOf(c, id) && h.poolId == id
    ensures Held(c)[h] == 0
  {
    assert h !in multiset(c.ring.items);
    assert h !in multiset(Handles(c.views));
    assert h !in multiset(c.releases);
  }

  lemma NewConnectionOk(p: Pool, c: Connection, endpoint: nat, ctx: Context, published: map<nat, seq<Byte>>)
    requires Shaped(p) && NewPeer(c, endpoint) && NoneOf(c, p.id)
    requires ctx.arriving.None? && ctx.evicted.None?
    ensures ConnectionOk(p, c, ctx, published)
  {
    forall h: ChunkHandle | h.poolId == p.id ensures Held(c)[h] == 0 { NoneHeld(c, p.id, h); }
  }

  lemma AppendKeeps(s: System, c: Connection, e: nat)
    requires Inv(s) && s.pc.Connecting? && NewPeer(c, e) && NoneOf(c, s.pool.id)
    requires e !in Endpoints(s.connections) && e < s.nextEndpoint && e !in s.pc.order
    ensures Inv(s.(connections := s.connections + [c], seen := s.seen + {e}))
  {
    var cs := s.connections;
    var cs' := cs + [c];
    assert Obligations(cs') == Obligations(cs) + [[]];
    assert Endpoints(cs') == Endpoints(cs) + [e];
    assert Limits(cs') == Limits(cs) + [c.maxSize];
    forall h ensures Holders(Obligations(cs'), h) == Holders(Obligations(cs), h) {
      HoldersAppend(Obligations(cs), [], h);
    }
    SameClaims(s.pool, Obligations(cs), GuardOf(s.pc), Obligations(cs'), GuardOf(s.pc));
    NewConnectionOk(s.pool, c, e, ContextOf(s.pc, s.sequence, |cs|, e), s.published);
  }

  lemma ConnectNextKeeps(s: System, peer: Option<Connection>)
    requires Inv(s) && Enabled(s, ConnectNext(peer))
    ensures Inv(Next(s, ConnectNext(peer)))
  {
    if s.pc.order == [] {
      assert Inv(s.(negotiated := Negotiate(s.maxSize, s.connections)));
      FinishConnecting(s);
    } else {
      ConnectHeadKeeps(s, peer);
    }
  }

  lemma ConnectHeadKeeps(s: System, peer: Option<Connection>)
    requires Inv(s) && Enabled(s, ConnectNext(peer)) && s.pc.order != []
    ensures Inv(Next(s, ConnectNext(peer)))
  {
    var e, s1 := s.pc.order[0], s.(pc := Connecting(s.pc.order[1..]));
    ConnectRest(s);
    if FindConnection(s.connections, e) < |s.connections| || e in s.failed {
    } else if peer.None? {
      assert Inv(s1.(failed := s.failed + {e}));
    } else {
      assert e !in Endpoints(s.connections);
      AppendKeeps(s1, peer.value, e);
    }
  }

  lemma ConnectRest(s: System)
    requires Inv(s) && s.pc.Connecting? && s.pc.order != []
    ensures Inv(s.(pc := Connecting(s.pc.order[1..]))) && s.pc.order[0] !in s.pc.order[1..]
  {
    HeadFacts(s.pc.order);
    assert forall x :: x in s.pc.order[1..] ==> x in s.pc.order;
    PcKeeps(s, Connecting(s.pc.order[1..]));
  }

  lemma FinishConnecting(s: System)
    requires Inv(s) && s.pc.Connecting?
    ensures Inv(s.(negotiated := Negotiate(s.maxSize, s.connections), pc := Idle))
  {
    var s' := s.(negotiated := Negotiate(s.maxSize, s.connections), pc := Idle);
    forall i | 0 <= i < |s'.connections|
      ensures ConnectionOk(s'.pool, s'.connections[i], ContextOf(s'.pc, s'.sequence, i, s'.connections[i].endpoint),
                           s'.published)
    {
      assert ContextOf(s'.pc, s'.sequence, i, s'.connections[i].endpoint)
          == ContextOf(s.pc, s.sequence, i, s.connections[i].endpoint);
    }
  }
}
