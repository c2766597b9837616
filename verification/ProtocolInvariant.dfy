/**
The cross-process invariant of the chunk protocol. Each part speaks of the few components it
depends on, so that a step has to account only for the parts whose components it changes.
*/
module ProtocolInvariant {
  import opened Basics
  import opened PoolModel
  import opened RingModel
  import opened Protocol

  // ---- projections of the connection list ----

  function Obligations(cs: seq<Connection>): (r: seq<seq<ChunkHandle>>)
    ensures |r| == |cs|
    ensures forall k :: 0 <= k < |cs| ==> r[k] == cs[k].outstanding
  {
    seq(|cs|, k requires 0 <= k < |cs| => cs[k].outstanding)
  }

  function Endpoints(cs: seq<Connection>): (r: seq<nat>)
    ensures |r| == |cs|
    ensures forall k :: 0 <= k < |cs| ==> r[k] == cs[k].endpoint
  {
    seq(|cs|, k requires 0 <= k < |cs| => cs[k].endpoint)
  }

  function Limits(cs: seq<Connection>): (r: seq<nat>)
    ensures |r| == |cs|
    ensures forall k :: 0 <= k < |cs| ==> r[k] == cs[k].maxSize
  {
    seq(|cs|, k requires 0 <= k < |cs| => cs[k].maxSize)
  }

  function Handles(vs: seq<View>): (r: seq<ChunkHandle>)
    ensures |r| == |vs|
    ensures forall k :: 0 <= k < |vs| ==> r[k] == vs[k].handle
  {
    seq(|vs|, k requires 0 <= k < |vs| => vs[k].handle)
  }

  lemma UpdateProjections(cs: seq<Connection>, k: nat, c': Connection)
    requires k < |cs| && c'.endpoint == cs[k].endpoint && c'.maxSize == cs[k].maxSize
    ensures Obligations(cs[k := c']) == Obligations(cs)[k := c'.outstanding]
    ensures Endpoints(cs[k := c']) == Endpoints(cs)
    ensures Limits(cs[k := c']) == Limits(cs)
  {
  }

  lemma DropProjections(cs: seq<Connection>, k: nat)
    requires k < |cs|
    ensures Obligations(Drop(cs, k)) == Drop(Obligations(cs), k)
    ensures Endpoints(Drop(cs, k)) == Drop(Endpoints(cs), k)
    ensures Limits(Drop(cs, k)) == Drop(Limits(cs), k)
  {
  }

  // ---- who holds what ----

  /** Everything on the subscriber's side of one connection: queued, viewed, or being returned. */
  ghost function Held(c: Connection): multiset<ChunkHandle> {
    multiset(c.ring.items) + multiset(Handles(c.views)) + multiset(c.releases)
  }

  /** The number of obligation lists that hold `h`. */
  function Holders(lists: seq<seq<ChunkHandle>>, h: ChunkHandle): (n: nat)
    ensures n <= |lists|
  {
    if lists == [] then 0
    else Holders(lists[..|lists| - 1], h) + (if h in lists[|lists| - 1] then 1 else 0)
  }

  /** References the publisher itself holds: the guard, and one being offered to a subscriber. */
  datatype Guard = NoGuard | Guard(handle: ChunkHandle, count: nat)

  function GuardOf(pc: PublisherPc): Guard {
    if pc.Dispatching? then Guard(pc.handle, if pc.phase.Start? then 1 else 2) else NoGuard
  }

  function Guards(g: Guard, h: ChunkHandle): nat {
    if g.Guard? && g.handle == h then g.count else 0
  }

  /**
  What the publisher's position means for connection `i`: whether it still answers for the
  connection, a handle queued there but not yet recorded, a handle evicted there but not yet
  given back, and the highest sequence the connection can have been given.
  */
  datatype Context = Context(
    tracked: bool, arriving: Option<ChunkHandle>, evicted: Option<ChunkHandle>, top: nat)

  function ContextOf(pc: PublisherPc, sequence: nat, i: int, endpoint: nat): Context {
    var here := pc.Dispatching? && pc.index == i && pc.phase.Enqueued?;
    Context(
      !(pc.Removing? && pc.endpoints != [] && pc.endpoints[0] == endpoint),
      if here then Some(pc.handle) else None,
      if here then pc.phase.dropped else None,
      if pc.Dispatching? && (pc.index > i || here) then sequence + 1 else sequence)
  }

  // ---- one handle ----

  ghost predicate Live(p: Pool, h: ChunkHandle)
    requires Shaped(p)
  {
    Matches(p, h) && p.chunks[h.chunk].state == Published
  }

  function SequenceOf(p: Pool, h: ChunkHandle): nat {
    if h.chunk < |p.chunks| then p.chunks[h.chunk].sequence else 0
  }

  // ---- one connection ----

  ghost predicate OutstandingOk(p: Pool, c: Connection)
    requires Shaped(p)
  {
    && NoDup(c.outstanding)
    && forall h :: h in c.outstanding ==> Live(p, h) && p.chunks[h.chunk].payloadSize <= c.maxSize
  }

  /** Handles of this pool on the subscriber side: each at most once, and each still owed. */
  ghost predicate Covered(p: Pool, c: Connection, ctx: Context) {
    forall h: ChunkHandle ::
      h.poolId == p.id ==>
        Held(c)[h] <= if (h in c.outstanding && ctx.evicted != Some(h)) || ctx.arriving == Some(h) then 1 else 0
  }

  ghost predicate ViewsOk(p: Pool, c: Connection)
    requires Shaped(p)
  {
    forall k :: 0 <= k < |c.views| && c.views[k].handle.poolId == p.id ==>
                  Live(p, c.views[k].handle) && c.views[k] == ViewOf(p, c.views[k].handle)
  }

  ghost predicate Increasing(s: seq<nat>) {
    forall i, j :: 0 <= i < j < |s| ==> s[i] < s[j]
  }

  ghost predicate QueueRises(p: Pool, items: seq<ChunkHandle>) {
    forall i, j :: 0 <= i < j < |items| && items[i].poolId == p.id && items[j].poolId == p.id ==>
                     SequenceOf(p, items[i]) < SequenceOf(p, items[j])
  }

  /** Queued sequences rise towards the tail and all lie above those already read. */
  ghost predicate Ordered(p: Pool, items: seq<ChunkHandle>, log: seq<nat>, top: nat) {
    && Increasing(log)
    && (forall k :: 0 <= k < |log| ==> log[k] <= top)
    && QueueRises(p, items)
    && (forall i, k :: 0 <= i < |items| && items[i].poolId == p.id && 0 <= k < |log| ==>
                         log[k] < SequenceOf(p, items[i]))
  }

  ghost predicate OrderOk(p: Pool, c: Connection, top: nat) {
    Ordered(p, c.ring.items, c.readLog, top)
  }

  ghost predicate WakeOk(p: Pool, c: Connection) {
    c.wasEmpty && c.pc != Detached && c.ring.items != [] && (c.pc == Polling || c.installed != Some(p.id))
    ==> c.wakes > 0
  }

  /** Once a ring has been empty it holds this pool's handles only; until then no wake is ever sent. */
  ghost predicate SinceEmptyOk(p: Pool, c: Connection) {
    && (c.wasEmpty ==> forall k :: 0 <= k < |c.ring.items| ==> c.ring.items[k].poolId == p.id)
    && (!c.wasEmpty ==> c.ring.items != [] && c.wakes == 0 && c.installed != Some(p.id))
  }

  ghost predicate ConnectionOk(p: Pool, c: Connection, ctx: Context, published: map<nat, seq<Byte>>)
    requires Shaped(p)
  {
    && ValidRing(c.ring)
    && OutstandingOk(p, c)
    && WakeOk(p, c) && SinceEmptyOk(p, c)
    && (ctx.tracked ==> Covered(p, c, ctx) && ViewsOk(p, c) && OrderOk(p, c, ctx.top))
    && (forall k :: 0 <= k < |c.readLog| ==> c.readLog[k] in published)
  }

  // ---- the pool and the publisher ----

  ghost predicate LoansOk(p: Pool, loans: seq<Loan>)
    requires Shaped(p)
  {
    && (forall k :: 0 <= k < |loans| ==>
                      && Matches(p, loans[k].handle)
                      && p.chunks[loans[k].handle.chunk].state == Loaned
                      && p.chunks[loans[k].handle.chunk].payloadSize == loans[k].size)
    && (forall j, k :: 0 <= j < k < |loans| ==> loans[j].handle.chunk != loans[k].handle.chunk)
    && (forall i :: 0 <= i < |p.chunks| && p.chunks[i].state == Loaned ==>
                      exists k :: 0 <= k < |loans| && loans[k].handle.chunk == i)
  }

  ghost predicate RefsOk(p: Pool, lists: seq<seq<ChunkHandle>>, guard: Guard)
    requires Shaped(p)
  {
    forall i {:trigger HandleOf(p, i)} :: 0 <= i < |p.chunks| ==>
                  && p.chunks[i].state != Released
                  && (p.chunks[i].state == Published ==>
                        p.chunks[i].refs == Holders(lists, HandleOf(p, i)) + Guards(guard, HandleOf(p, i)))
  }

  /** The chunk being dispatched, if any. */
  function Current(pc: PublisherPc): Option<nat> {
    if pc.Dispatching? then Some(pc.handle.chunk) else None
  }

  ghost predicate LogOk(p: Pool, current: Option<nat>, sequence: nat, published: map<nat, seq<Byte>>)
    requires Shaped(p)
  {
    forall i {:trigger HandleOf(p, i)} :: 0 <= i < |p.chunks| && p.chunks[i].state == Published ==>
                  && p.chunks[i].sequence in published
                  && published[p.chunks[i].sequence] == ViewOf(p, HandleOf(p, i)).payload
                  && (if current == Some(i) then p.chunks[i].sequence == sequence + 1
                      else p.chunks[i].sequence <= sequence)
  }

  /** The log holds nothing beyond what has been dispatched. */
  ghost predicate PublishedOk(current: Option<nat>, sequence: nat, published: map<nat, seq<Byte>>) {
    forall k :: k in published ==> k <= sequence + (if current.Some? then 1 else 0)
  }

  ghost predicate DispatchOk(p: Pool, lists: seq<seq<ChunkHandle>>, limits: seq<nat>, pc: PublisherPc)
    requires Shaped(p) && |lists| == |limits|
  {
    pc.Dispatching? ==>
      && Live(p, pc.handle)
      && pc.index <= |lists|
      && (!pc.phase.Start? ==> pc.index < |lists|)
      && (forall j :: pc.index <= j < |lists| ==> pc.handle !in lists[j])
      && (forall j :: 0 <= j < |limits| ==> p.chunks[pc.handle.chunk].payloadSize <= limits[j])
      && (pc.phase.Enqueued? && pc.phase.dropped.Some? && pc.phase.dropped.value.poolId == p.id ==>
            pc.phase.dropped.value in lists[pc.index])
  }

  ghost predicate NegotiatedOk(maxSize: nat, limits: seq<nat>, negotiated: nat, pc: PublisherPc) {
    && negotiated <= maxSize
    && (!pc.Connecting? ==> forall j :: 0 <= j < |limits| ==> negotiated <= limits[j])
  }

  datatype Directory = Directory(registered: set<nat>, nextEndpoint: nat, seen: set<nat>, failed: set<nat>)

  function DirectoryOf(s: System): Directory {
    Directory(s.registered, s.nextEndpoint, s.seen, s.failed)
  }

  /** Endpoints offered for connection: none is one that was connected before and let go. */
  ghost predicate Offered(ids: seq<nat>, d: Directory, order: seq<nat>) {
    NoDup(order) && forall e :: e in order ==> e < d.nextEndpoint && (e in d.seen ==> e in ids || e in d.failed)
  }

  ghost predicate PcEndpointsOk(ids: seq<nat>, d: Directory, pc: PublisherPc) {
    match pc
    case Idle => true
    case Dispatching(_, _, _, _) => true
    case Removing(endpoints, tombstone, joining) =>
      && (tombstone ==> joining.None?)
      && (!tombstone ==> forall e :: e in endpoints ==>
                                       && e !in d.registered && e < d.nextEndpoint
                                       && (joining.Some? ==> e !in joining.value))
      && (joining.Some? ==> Offered(ids, d, joining.value))
    case Connecting(order) => Offered(ids, d, order)
  }

  /** An endpoint once connected is connected still, or tombstoned, or gone from the registry. */
  ghost predicate EndpointsOk(ids: seq<nat>, d: Directory) {
    && NoDup(ids)
    && (forall e :: e in ids ==> e in d.seen)
    && (forall e :: e in d.registered ==> e < d.nextEndpoint)
    && (forall e :: e in d.seen ==> e < d.nextEndpoint)
    && (forall e :: e in d.seen && e in d.registered ==> e in ids || e in d.failed)
  }

  // ---- the invariant ----

  ghost predicate ConnectionsOk(p: Pool, cs: seq<Connection>, pc: PublisherPc, sequence: nat,
                                published: map<nat, seq<Byte>>)
    requires Shaped(p)
  {
    forall i {:trigger ContextOf(pc, sequence, i, cs[i].endpoint)} ::
      0 <= i < |cs| ==> ConnectionOk(p, cs[i], ContextOf(pc, sequence, i, cs[i].endpoint), published)
  }

  ghost predicate Inv(s: System) {
    && ValidPool(s.pool)
    && LoansOk(s.pool, s.loans)
    && RefsOk(s.pool, Obligations(s.connections), GuardOf(s.pc))
    && LogOk(s.pool, Current(s.pc), s.sequence, s.published)
    && PublishedOk(Current(s.pc), s.sequence, s.published)
    && DispatchOk(s.pool, Obligations(s.connections), Limits(s.connections), s.pc)
    && NegotiatedOk(s.maxSize, Limits(s.connections), s.negotiated, s.pc)
    && EndpointsOk(Endpoints(s.connections), DirectoryOf(s))
    && PcEndpointsOk(Endpoints(s.connections), DirectoryOf(s), s.pc)
    && ConnectionsOk(s.pool, s.connections, s.pc, s.sequence, s.published)
  }

  /** The state of a new session: an unused pool and no connections. */
  ghost predicate Init(s: System) {
    && ValidPool(s.pool)
    && (forall i :: 0 <= i < |s.pool.chunks| ==> s.pool.chunks[i].state == Free)
    && s.connections == [] && s.pc == Idle && s.loans == [] && s.seen == {}
    && s.negotiated == s.maxSize && s.published == map[]
    && (forall e :: e in s.registered ==> e < s.nextEndpoint)
  }

  lemma InitHolds(s: System)
    requires Init(s)
    ensures Inv(s)
  {
  }

  /** What the invariant says of connection `i`. */
  lemma AtConnection(s: System, i: nat)
    requires Inv(s) && i < |s.connections|
    ensures ConnectionOk(s.pool, s.connections[i], ContextOf(s.pc, s.sequence, i, s.connections[i].endpoint),
                         s.published)
  {
    assert ContextOf(s.pc, s.sequence, i, s.connections[i].endpoint).top >= s.sequence;
  }

  lemma AllOutstanding(p: Pool, cs: seq<Connection>, pc: PublisherPc, sequence: nat, published: map<nat, seq<Byte>>)
    requires Shaped(p) && ConnectionsOk(p, cs, pc, sequence, published)
    ensures forall j :: 0 <= j < |cs| ==> OutstandingOk(p, cs[j])
  {
    forall j | 0 <= j < |cs| ensures OutstandingOk(p, cs[j]) {
      assert ConnectionOk(p, cs[j], ContextOf(pc, sequence, j, cs[j].endpoint), published);
    }
  }

  /** Moving claims between lists and guard without changing any total. */
  lemma SameClaims(p: Pool, lists: seq<seq<ChunkHandle>>, guard: Guard, lists': seq<seq<ChunkHandle>>, guard': Guard)
    requires Shaped(p) && RefsOk(p, lists, guard)
    requires forall g :: Holders(lists', g) + Guards(guard', g) == Holders(lists, g) + Guards(guard, g)
    ensures RefsOk(p, lists', guard')
  {
    forall i | 0 <= i < |p.chunks|
      ensures p.chunks[i].state != Released
      ensures p.chunks[i].state == Published ==>
                p.chunks[i].refs == Holders(lists', HandleOf(p, i)) + Guards(guard', HandleOf(p, i))
    {
      var h := HandleOf(p, i);
      assert Holders(lists', h) + Guards(guard', h) == Holders(lists, h) + Guards(guard, h);
    }
  }

  // ---- counting holders ----

  function Bit(b: bool): nat { if b then 1 else 0 }

  lemma {:induction false} HoldersUpdate(lists: seq<seq<ChunkHandle>>, i: nat, l: seq<ChunkHandle>, h: ChunkHandle)
    requires i < |lists|
    ensures Holders(lists[i := l], h) + Bit(h in lists[i]) == Holders(lists, h) + Bit(h in l)
  {
    var last := |lists| - 1;
    if i == last {
      assert lists[i := l][..last] == lists[..last];
    } else {
      assert lists[i := l][..last] == lists[..last][i := l];
      HoldersUpdate(lists[..last], i, l, h);
    }
  }

  lemma {:induction false} HoldersDrop(lists: seq<seq<ChunkHandle>>, i: nat, h: ChunkHandle)
    requires i < |lists|
    ensures Holders(Drop(lists, i), h) + Bit(h in lists[i]) == Holders(lists, h)
  {
    var last := |lists| - 1;
    if i == last {
      assert Drop(lists, i) == lists[..last];
    } else {
      assert Drop(lists, i)[..last - 1] == Drop(lists[..last], i);
      HoldersDrop(lists[..last], i, h);
    }
  }

  lemma HoldersAppend(lists: seq<seq<ChunkHandle>>, l: seq<ChunkHandle>, h: ChunkHandle)
    ensures Holders(lists + [l], h) == Holders(lists, h) + Bit(h in l)
  {
    assert (lists + [l])[..|lists|] == lists;
  }

  /** A list that holds `h` is counted, and so is a second one. */
  lemma HoldersPositive(lists: seq<seq<ChunkHandle>>, i: nat, h: ChunkHandle)
    requires i < |lists| && h in lists[i]
    ensures Holders(lists, h) >= 1
    ensures forall j :: 0 <= j < |lists| && j != i && h in lists[j] ==> Holders(lists, h) >= 2
  {
    HoldersUpdate(lists, i, [], h);
    forall j | 0 <= j < |lists| && j != i && h in lists[j] ensures Holders(lists, h) >= 2 {
      HoldersUpdate(lists[i := []], j, [], h);
    }
  }

  lemma {:induction false} HoldersNone(lists: seq<seq<ChunkHandle>>, h: ChunkHandle)
    requires forall j :: 0 <= j < |lists| ==> h !in lists[j]
    ensures Holders(lists, h) == 0
  {
    if lists != [] { HoldersNone(lists[..|lists| - 1], h); }
  }

  lemma {:induction false} HoldersWitness(lists: seq<seq<ChunkHandle>>, h: ChunkHandle) returns (i: nat)
    requires Holders(lists, h) > 0
    ensures i < |lists| && h in lists[i]
  {
    var last := |lists| - 1;
    if h in lists[last] { i := last; } else { i := HoldersWitness(lists[..last], h); }
  }
}
