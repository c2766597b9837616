/** Between calls any chunk that is not queued in a given ring can be had back, and that ring left as it is. */
module ChunkReturns {
  import opened Basics
  import opened PoolModel
  import opened Protocol
  import opened ProtocolInvariant
  import opened ProtocolTheorems
  import opened ProtocolRuns
  import opened HeldBack
  import opened WakeRisk

  ghost predicate Sound(s: System) {
    Inv(s) && AllFine(s)
  }

  lemma Go(s: System, step: Step) returns (t: System)
    requires Sound(s) && Enabled(s, step)
    ensures t == Next(s, step) && Goes(s, t) && Sound(t)
  {
    t := Take1(s, step);
    StepFine(s, step);
  }

  /** The chunks are the same as far as their classes go. */
  ghost predicate SameClasses(p: Pool, q: Pool) {
    && q.id == p.id && q.classes == p.classes && |q.chunks| == |p.chunks|
    && forall i {:trigger q.chunks[i]} :: 0 <= i < |p.chunks| ==> q.chunks[i].classIndex == p.chunks[i].classIndex
  }

  lemma ReleaseSameClasses(p: Pool, h: ChunkHandle)
    requires Shaped(p)
    ensures SameClasses(p, ReleaseReference(p, h).0)
  {
  }

  lemma CancelSameClasses(p: Pool, h: ChunkHandle)
    requires Shaped(p)
    ensures SameClasses(p, Cancel(p, h).0)
  {
  }

  lemma SameClassesTwice(p: Pool, q: Pool, r: Pool)
    requires SameClasses(p, q) && SameClasses(q, r)
    ensures SameClasses(p, r)
  {
    forall i | 0 <= i < |p.chunks| ensures r.chunks[i].classIndex == p.chunks[i].classIndex {
      assert q.chunks[i].classIndex == p.chunks[i].classIndex;
    }
  }

  // ---- the other connections go ----

  /** The endpoint is being removed, its connection is number `k`, and gives back one handle. */
  lemma GivesOne(s: System, e: nat, k: nat) returns (t: System)
    requires Sound(s) && s.pc == Removing([e], true, None) && k < |s.connections|
    requires FindConnection(s.connections, e) == k && s.connections[k].outstanding != []
    ensures Goes(s, t) && Sound(t) && t.pc == s.pc && SameClasses(s.pool, t.pool)
    ensures var c := s.connections[k]; t.connections == s.connections[k := c.(outstanding := c.outstanding[1..])]
  {
    ReleaseSameClasses(s.pool, s.connections[k].outstanding[0]);
    t := Go(s, RemoveNext);
  }

  lemma SameFind(cs: seq<Connection>, k: nat, c: Connection, e: nat)
    requires k < |cs| && FindConnection(cs, e) == k && c.endpoint == cs[k].endpoint
    ensures FindConnection(cs[k := c], e) == k
  {
    var ds := cs[k := c];
    assert ds[k].endpoint == e && forall m :: 0 <= m < k ==> ds[m].endpoint == cs[m].endpoint;
  }

  lemma {:induction false} GivesAll(s: System, e: nat, k: nat) returns (t: System)
    requires Sound(s) && s.pc == Removing([e], true, None) && k < |s.connections|
    requires FindConnection(s.connections, e) == k
    ensures Goes(s, t) && Sound(t) && t.pc == s.pc && SameClasses(s.pool, t.pool)
    ensures t.connections == s.connections[k := s.connections[k].(outstanding := [])]
    decreases |s.connections[k].outstanding|
  {
    if s.connections[k].outstanding == [] {
      Stays(s);
      t := s;
    } else {
      var m := GivesOne(s, e, k);
      SameFind(s.connections, k, m.connections[k], e);
      t := GivesAll(m, e, k);
      Onward(s, m, t);
      SameClassesTwice(s.pool, m.pool, t.pool);
    }
  }

  lemma Erases(s: System, e: nat, k: nat) returns (t: System)
    requires Sound(s) && s.pc == Removing([e], true, None) && k < |s.connections|
    requires FindConnection(s.connections, e) == k && s.connections[k].outstanding == []
    ensures Goes(s, t) && Sound(t) && t.pc == Removing([], true, None) && t.pool == s.pool
    ensures t.connections == Drop(s.connections, k)
  {
    t := Go(s, RemoveNext);
  }

  lemma EndsErasing(s: System) returns (t: System)
    requires Sound(s) && s.pc == Removing([], true, None)
    ensures Goes(s, t) && Sound(t) && t.pc.Idle? && t.pool == s.pool && t.connections == s.connections
  {
    t := Go(s, RemoveNext);
  }

  lemma BeginsErasing(s: System, e: nat) returns (t: System)
    requires Sound(s) && s.pc.Idle?
    ensures Goes(s, t) && Sound(t) && t.pc == Removing([e], true, None) && t.pool == s.pool
    ensures t.connections == s.connections
  {
    t := Go(s, Remove(e));
  }

  lemma FoundAt(s: System, k: nat)
    requires Inv(s) && k < |s.connections|
    ensures FindConnection(s.connections, s.connections[k].endpoint) == k
  {
    var ids := Endpoints(s.connections);
    assert forall m :: 0 <= m < |ids| ==> ids[m] == s.connections[m].endpoint;
    assert forall m :: 0 <= m < k ==> ids[m] != ids[k];
  }

  /** One connection is removed, whatever it owes. */
  lemma RemovesOne(s: System, k: nat) returns (t: System)
    requires Sound(s) && s.pc.Idle? && k < |s.connections|
    ensures Goes(s, t) && Sound(t) && t.pc.Idle? && SameClasses(s.pool, t.pool)
    ensures t.connections == Drop(s.connections, k)
  {
    var e := s.connections[k].endpoint;
    FoundAt(s, k);
    var a := BeginsErasing(s, e);
    var b := GivesAll(a, e, k);
    Onward(s, a, b);
    SameFind(s.connections, k, b.connections[k], e);
    var c := Erases(b, e, k);
    Onward(s, b, c);
    t := EndsErasing(c);
    Onward(s, c, t);
  }

  lemma OneFewer(s: System, i: nat) returns (t: System, j: nat)
    requires Sound(s) && s.pc.Idle? && i < |s.connections| && |s.connections| > 1
    ensures Goes(s, t) && Sound(t) && t.pc.Idle? && SameClasses(s.pool, t.pool)
    ensures |t.connections| == |s.connections| - 1 && j < |t.connections| && t.connections[j] == s.connections[i]
  {
    var n := |s.connections| - 1;
    t := RemovesOne(s, if i == n then 0 else n);
    j := if i == n then i - 1 else i;
  }

  lemma {:induction false} Alone(s: System, i: nat) returns (t: System)
    requires Sound(s) && s.pc.Idle? && i < |s.connections|
    ensures Goes(s, t) && Sound(t) && t.pc.Idle? && SameClasses(s.pool, t.pool)
    ensures t.connections == [s.connections[i]]
    decreases |s.connections|
  {
    var n := |s.connections| - 1;
    if n == 0 {
      Stays(s);
      t := s;
    } else {
      var m, j := OneFewer(s, i);
      t := Alone(m, j);
      Onward(s, m, t);
      SameClassesTwice(s.pool, m.pool, t.pool);
    }
  }

  // ---- the one that is left returns what it has taken ----

  lemma {:induction false} LetsGo(s: System) returns (t: System)
    requires Sound(s) && s.pc.Idle? && |s.connections| == 1
    ensures Goes(s, t) && Sound(t) && t.pc.Idle? && t.pool == s.pool && |t.connections| == 1
    ensures SameSide(s.connections[0], t.connections[0]) && t.connections[0].views == []
    decreases |s.connections[0].views|
  {
    if s.connections[0].views == [] {
      Stays(s);
      t := s;
    } else {
      var m := LetsOneGo(s);
      t := LetsGo(m);
      Onward(s, m, t);
    }
  }

  lemma LetsOneGo(s: System) returns (t: System)
    requires Sound(s) && s.pc.Idle? && |s.connections| == 1 && s.connections[0].views != []
    ensures Goes(s, t) && Sound(t) && t.pc.Idle? && t.pool == s.pool && |t.connections| == 1
    ensures SameSide(s.connections[0], t.connections[0])
    ensures |t.connections[0].views| < |s.connections[0].views|
  {
    t := Go(s, ReleaseView(0, 0));
  }

  lemma {:induction false} ComesBack(s: System) returns (t: System)
    requires Sound(s) && s.pc.Idle? && |s.connections| == 1 && s.connections[0].views == []
    ensures Goes(s, t) && Sound(t) && t.pc.Idle? && SameClasses(s.pool, t.pool) && |t.connections| == 1
    ensures SameSide(s.connections[0], t.connections[0])
    ensures t.connections[0].views == [] && t.connections[0].releases == []
    decreases |s.connections[0].releases|
  {
    if s.connections[0].releases == [] {
      Stays(s);
      t := s;
    } else {
      var m := OneComesBack(s);
      t := ComesBack(m);
      Onward(s, m, t);
      SameClassesTwice(s.pool, m.pool, t.pool);
    }
  }

  lemma OneComesBack(s: System) returns (t: System)
    requires Sound(s) && s.pc.Idle? && |s.connections| == 1
    requires s.connections[0].views == [] && s.connections[0].releases != []
    ensures Goes(s, t) && Sound(t) && t.pc.Idle? && SameClasses(s.pool, t.pool) && |t.connections| == 1
    ensures SameSide(s.connections[0], t.connections[0]) && t.connections[0].views == []
    ensures |t.connections[0].releases| < |s.connections[0].releases|
  {
    ReleaseSameClasses(s.pool, s.connections[0].releases[0]);
    t := Go(s, ReceiveRelease(0));
  }

  // ---- the chunk is free ----

  /** Chunk `k` is of the class that serves an empty message. */
  predicate Smallest(p: Pool, k: nat) {
    k < |p.chunks| && p.chunks[k].classIndex == ClassFor(p.classes, 0)
  }

  /** No handle of chunk `k` of this pool is among `items`. */
  ghost predicate Unqueued(p: Pool, items: seq<ChunkHandle>, k: nat) {
    forall m :: 0 <= m < |items| && items[m].poolId == p.id ==> items[m].chunk != k
  }

  lemma FreeAllocates(p: Pool, k: nat)
    requires ValidPool(p) && Smallest(p, k) && p.chunks[k].state == Free
    ensures CanAllocate(p, 0)
  {
    assert ChunkOk(p, k);
  }

  /** With nothing on its way, what is owed is queued, so a chunk that is not queued is owed by nobody. */
  lemma NotOwed(s: System, k: nat)
    requires Sound(s) && s.pc.Idle? && |s.connections| == 1 && Attached(s.connections[0])
    requires s.connections[0].views == [] && s.connections[0].releases == []
    requires k < |s.pool.chunks| && Unqueued(s.pool, s.connections[0].ring.items, k)
    ensures s.pool.chunks[k].state == Free || s.pool.chunks[k].state == Loaned
  {
    var c, h := s.connections[0], HandleOf(s.pool, k);
    HolderFacts(s, k);
    assert Fine(c, None, None);
    assert h in c.outstanding ==> h in c.ring.items;
  }

  lemma Cancels(s: System, k: nat) returns (t: System)
    requires Sound(s) && s.pc.Idle? && Smallest(s.pool, k) && s.pool.chunks[k].state == Loaned
    ensures Goes(s, t) && Sound(t) && t.pc.Idle? && t.connections == s.connections && t.pool.id == s.pool.id
    ensures Shaped(t.pool) && CanAllocate(t.pool, 0)
  {
    var m :| 0 <= m < |s.loans| && s.loans[m].handle.chunk == k;
    CancelSameClasses(s.pool, s.loans[m].handle);
    t := Go(s, CancelLoan(m));
    FreeAllocates(t.pool, k);
  }

  /** Anything that is not queued in the ring of connection `i` can be had back, with that ring as it was. */
  lemma MakesRoom(s: System, i: nat, k: nat) returns (t: System)
    requires Sound(s) && s.pc.Idle? && i < |s.connections| && Attached(s.connections[i])
    requires Smallest(s.pool, k) && Unqueued(s.pool, s.connections[i].ring.items, k)
    ensures Goes(s, t) && Inv(t) && t.pc.Idle? && |t.connections| == 1 && t.pool.id == s.pool.id
    ensures SameSide(s.connections[i], t.connections[0]) && Shaped(t.pool) && CanAllocate(t.pool, 0)
  {
    var a := AloneEmptied(s, i);
    NotOwed(a, k);
    if a.pool.chunks[k].state == Free {
      t := a;
      FreeAllocates(t.pool, k);
    } else {
      t := Cancels(a, k);
      Onward(s, a, t);
    }
  }

  lemma AloneEmptied(s: System, i: nat) returns (t: System)
    requires Sound(s) && s.pc.Idle? && i < |s.connections|
    ensures Goes(s, t) && Sound(t) && t.pc.Idle? && |t.connections| == 1 && SameClasses(s.pool, t.pool)
    ensures SameSide(s.connections[i], t.connections[0])
    ensures t.connections[0].views == [] && t.connections[0].releases == []
  {
    var a := Alone(s, i);
    var b := LetsGo(a);
    Onward(s, a, b);
    t := ComesBack(b);
    Onward(s, b, t);
    SameClassesTwice(s.pool, b.pool, t.pool);
  }
}
