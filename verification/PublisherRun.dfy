/** Runs of the protocol machine, one publisher action at a time. */
module PublisherRun {
  import opened Basics
  import opened PoolModel
  import opened RingModel
  import opened Protocol
  import opened ProtocolInvariant
  import opened ProtocolTheorems
  import opened PublishOutcome
  import opened ConnectionLists
  import LS = LoanSteps
  import PL = PoolLemmas

  /** `trace` leads from a new session to `s`. */
  ghost predicate Reaches(start: System, trace: seq<Step>, s: System) {
    Init(start) && Run(start, trace, s)
  }

  lemma ReachesInv(start: System, trace: seq<Step>, s: System)
    requires Reaches(start, trace, s)
    ensures Inv(s)
  {
    InitHolds(start);
    RunKeeps(start, trace, s);
  }

  lemma ReachesShaped(start: System, trace: seq<Step>, s: System)
    requires Reaches(start, trace, s)
    ensures Shaped(s.pool)
  {
    ReachesInv(start, trace, s);
  }

  lemma Extend(start: System, trace: seq<Step>, s: System, step: Step, t: System)
    requires Reaches(start, trace, s) && StepTo(s, step, t)
    ensures Reaches(start, trace + [step], t)
  {
    PathOne(StepTo, s, step, t);
    PathAppend(StepTo, start, trace, s, [step], t);
  }

  // ---- other processes ----

  /** What others do changes neither endpoints nor debts, and takes back no frame. */
  ghost predicate Undisturbed(cs: seq<Connection>, cs': seq<Connection>) {
    Obligations(cs') == Obligations(cs) && Endpoints(cs') == Endpoints(cs) && Grow(Frames(cs), Frames(cs'))
  }

  lemma UndisturbedTwice(a: seq<Connection>, b: seq<Connection>, c: seq<Connection>)
    requires Undisturbed(a, b) && Undisturbed(b, c)
    ensures Undisturbed(a, c)
  {
    GrowTwice(Frames(a), Frames(b), Frames(c));
  }

  lemma SubscriberKeepsLists(p: Pool, cs: seq<Connection>, step: Step)
    requires Shaped(p) && SubscriberStep(step) && step.i < |cs| && SubscriberEnabled(cs[step.i], step)
    ensures Undisturbed(cs, cs[step.i := SubscriberNext(p, cs[step.i], step)])
  {
    var c, c' := cs[step.i], SubscriberNext(p, cs[step.i], step);
    assert c'.outstanding == c.outstanding && c'.endpoint == c.endpoint;
    assert c.releases <= c'.releases;
  }

  lemma SubscriberRuns(start: System, trace: seq<Step>, s: System, step: Step) returns (t: System)
    requires Reaches(start, trace, s) && SubscriberStep(step)
    requires step.i < |s.connections| && SubscriberEnabled(s.connections[step.i], step)
    requires step.Reset? && !step.detach ==> step.deadPool != s.pool.id
    ensures Shaped(s.pool)
    ensures t == Update(s, step.i, SubscriberNext(s.pool, s.connections[step.i], step))
    ensures Reaches(start, trace + [step], t)
  {
    ReachesShaped(start, trace, s);
    t := Update(s, step.i, SubscriberNext(s.pool, s.connections[step.i], step));
    Extend(start, trace, s, step, t);
  }

  ghost predicate MovedAt(p: Pool, c: Connection, i: nat, step: Step, d: Connection) {
    && Shaped(p) && SubscriberStep(step) && step.i == i && SubscriberEnabled(c, step) && d == SubscriberNext(p, c, step)
    && (step.Reset? && !step.detach ==> step.deadPool != p.id)
  }

  /** `d` is connection number `i` once its subscriber has taken the step. */
  ghost predicate Moved(p: Pool, c: Connection, i: nat, step: Step, d: Connection) {
    forall n: nat {:trigger MovedAt(p, c, n, step, d)} :: n == i ==> MovedAt(p, c, n, step, d)
  }

  lemma MovedRuns(start: System, trace: seq<Step>, s: System, i: nat, step: Step, d: Connection) returns (t: System)
    requires Reaches(start, trace, s) && i < |s.connections| && Moved(s.pool, s.connections[i], i, step, d)
    ensures t == Update(s, i, d) && Undisturbed(s.connections, s.connections[i := d])
    ensures Reaches(start, trace + [step], t)
  {
    assert MovedAt(s.pool, s.connections[i], i, step, d);
    SubscriberKeepsLists(s.pool, s.connections, step);
    t := SubscriberRuns(start, trace, s, step);
  }

  lemma JoinRuns(start: System, trace: seq<Step>, s: System) returns (t: System)
    requires Reaches(start, trace, s)
    ensures Shaped(s.pool)
    ensures t == s.(registered := s.registered + {s.nextEndpoint}, nextEndpoint := s.nextEndpoint + 1)
    ensures Reaches(start, trace + [Join], t)
  {
    ReachesShaped(start, trace, s);
    t := Next(s, Join);
    Extend(start, trace, s, Join, t);
  }

  lemma LeaveRuns(start: System, trace: seq<Step>, s: System, e: nat) returns (t: System)
    requires Reaches(start, trace, s)
    ensures Shaped(s.pool)
    ensures t == s.(registered := s.registered - {e})
    ensures Reaches(start, trace + [Leave(e)], t)
  {
    ReachesShaped(start, trace, s);
    t := Next(s, Leave(e));
    Extend(start, trace, s, Leave(e), t);
  }

  /** `n` is the smallest among the publisher's own limit and its connections'. */
  ghost predicate SmallestLimit(maxSize: nat, cs: seq<Connection>, n: nat) {
    && n <= maxSize && (forall i :: 0 <= i < |cs| ==> n <= cs[i].maxSize)
    && (n == maxSize || exists i :: 0 <= i < |cs| && n == cs[i].maxSize)
  }

  // ---- dispatch ----

  lemma AddRefRuns(start: System, trace: seq<Step>, s: System) returns (t: System)
    requires Reaches(start, trace, s)
    requires s.pc.Dispatching? && s.pc.phase.Start? && s.pc.index < |s.connections|
    ensures Shaped(s.pool)
    ensures s.pc.handle !in s.connections[s.pc.index].outstanding
    ensures t == AddRefStep(s)
    ensures Reaches(start, trace + [AddRef], t)
  {
    ReachesInv(start, trace, s);
    assert Obligations(s.connections)[s.pc.index] == s.connections[s.pc.index].outstanding;
    t := AddRefStep(s);
    Extend(start, trace, s, AddRef, t);
  }

  lemma TryEnqueueRuns(start: System, trace: seq<Step>, s: System, attempt: Attempt) returns (t: System)
    requires Reaches(start, trace, s)
    requires s.pc.Dispatching? && s.pc.phase.Referenced? && s.pc.index < |s.connections|
    requires attempt.Acts? ==> !Waits(s.connections[s.pc.index].ring)
    requires attempt.TimesOut? ==> s.connections[s.pc.index].ring.policy == BlockWithTimeout
    ensures Shaped(s.pool)
    ensures ValidRing(s.connections[s.pc.index].ring)
    ensures t == TryEnqueueStep(s, attempt)
    ensures Reaches(start, trace + [TryEnqueue(attempt)], t)
  {
    ReachesInv(start, trace, s);
    AtConnection(s, s.pc.index);
    t := TryEnqueueStep(s, attempt);
    Extend(start, trace, s, TryEnqueue(attempt), t);
  }

  lemma GiveUpRuns(start: System, trace: seq<Step>, s: System, attempt: Attempt) returns (t: System)
    requires Reaches(start, trace, s)
    requires s.pc.Dispatching? && s.pc.phase.Referenced? && s.pc.index < |s.connections|
    requires !attempt.Acts? && (attempt.TimesOut? ==> s.connections[s.pc.index].ring.policy == BlockWithTimeout)
    ensures Shaped(s.pool)
    ensures t == s.(pc := s.pc.(phase := Refused))
    ensures Reaches(start, trace + [TryEnqueue(attempt)], t)
  {
    ReachesShaped(start, trace, s);
    t := TryEnqueueRuns(start, trace, s, attempt);
  }

  /** The connection after an enqueue, and the result. */
  function Placed(c: Connection, h: ChunkHandle, delivered: bool): (Connection, EnqueueResult)
    requires ValidRing(c.ring) && !Waits(c.ring)
  {
    var (ring, x) := EnqueueNow(c.ring, h, if delivered then Sends else Fails);
    (c.(ring := ring, wakes := c.wakes + if x.notified then 1 else 0), x)
  }

  lemma PlaceRuns(start: System, trace: seq<Step>, s: System, delivered: bool) returns (t: System)
    requires Reaches(start, trace, s)
    requires s.pc.Dispatching? && s.pc.phase.Referenced? && s.pc.index < |s.connections|
    requires !Waits(s.connections[s.pc.index].ring)
    ensures Shaped(s.pool)
    ensures ValidRing(s.connections[s.pc.index].ring)
    ensures var (c, x) := Placed(s.connections[s.pc.index], s.pc.handle, delivered);
            var pc' := if x.status == Accepted then s.pc.(phase := Enqueued(x.dropped))
                       else if x.status == Closed || x.status == NotificationFailed then
                         s.pc.(phase := Refused, broken := s.pc.broken + [c.endpoint])
                       else s.pc.(phase := Refused);
            t == Update(s, s.pc.index, c).(pc := pc')
    ensures Reaches(start, trace + [TryEnqueue(Acts(delivered))], t)
  {
    ReachesShaped(start, trace, s);
    t := TryEnqueueRuns(start, trace, s, Acts(delivered));
  }

  lemma PlacedKeepsLists(cs: seq<Connection>, i: nat, h: ChunkHandle, delivered: bool)
    requires i < |cs| && ValidRing(cs[i].ring) && !Waits(cs[i].ring)
    ensures var (c, x) := Placed(cs[i], h, delivered);
            && Obligations(cs[i := c]) == Obligations(cs) && Endpoints(cs[i := c]) == Endpoints(cs)
            && x.status != SynchronizationError && x.status != TimedOut
  {
    var c := Placed(cs[i], h, delivered).0;
    assert c.outstanding == cs[i].outstanding && c.endpoint == cs[i].endpoint;
  }

  lemma CanSettle(start: System, trace: seq<Step>, s: System)
    requires Reaches(start, trace, s) && s.pc.Dispatching? && (s.pc.phase.Refused? || s.pc.phase.Enqueued?)
    ensures Shaped(s.pool) && s.pc.index < |s.connections|
    ensures s.pc.handle !in s.connections[s.pc.index].outstanding && OutstandingOk(s.pool, s.connections[s.pc.index])
    ensures StepTo(s, Settle, SettleStep(s))
  {
    ReachesInv(start, trace, s);
    assert Obligations(s.connections)[s.pc.index] == s.connections[s.pc.index].outstanding;
    AllOutstanding(s.pool, s.connections, s.pc, s.sequence, s.published);
  }

  lemma SettleRefusedRuns(start: System, trace: seq<Step>, s: System) returns (t: System)
    requires Reaches(start, trace, s) && s.pc.Dispatching? && s.pc.phase.Refused?
    ensures Shaped(s.pool)
    ensures s.pc.index < |s.connections|
    ensures s.pc.handle !in s.connections[s.pc.index].outstanding
    ensures t == s.(pool := ReleaseReference(s.pool, s.pc.handle).0,
                       pc := s.pc.(index := s.pc.index + 1, phase := Start))
    ensures Reaches(start, trace + [Settle], t)
  {
    CanSettle(start, trace, s);
    t := SettleStep(s);
    Extend(start, trace, s, Settle, t);
  }

  /** The pool and the connection once an accepted handle is recorded and an evicted one given back. */
  function Settled(p: Pool, c: Connection, h: ChunkHandle, dropped: Option<ChunkHandle>): (r: (Pool, Connection))
    requires Shaped(p)
    ensures r.1.endpoint == c.endpoint
  {
    var added := c.(outstanding := c.outstanding + [h]);
    if dropped.Some? then ReleaseOutstanding(p, added, dropped.value) else (p, added)
  }

  /** The handle is owed besides what was, and the one it evicted no longer is. */
  ghost predicate OwesAfter(before: seq<ChunkHandle>, h: ChunkHandle, dropped: Option<ChunkHandle>,
                            now: seq<ChunkHandle>) {
    h in now && forall g :: g in now <==> (g in before || g == h) && Some(g) != dropped
  }

  lemma SettledHolds(p: Pool, c: Connection, h: ChunkHandle, dropped: Option<ChunkHandle>)
    requires Shaped(p) && h.poolId == p.id && h !in c.outstanding && NoDup(c.outstanding)
    requires dropped.Some? && dropped.value.poolId == p.id ==> dropped.value in c.outstanding
    ensures OwesAfter(c.outstanding, h, dropped, Settled(p, c, h, dropped).1.outstanding)
  {
    var added := c.outstanding + [h];
    assert added[|c.outstanding|] == h;
    if dropped.Some? {
      var k := Find(added, dropped.value);
      if k < |added| { DropFacts(added, k); }
    }
  }

  ghost predicate TakenAt(p: Pool, c: Connection, h: ChunkHandle, dropped: Option<ChunkHandle>, q: Pool, d: Connection,
                          endpoint: nat) {
    Shaped(p) && (q, d) == Settled(p, c, h, dropped)
  }

  /** `q` and `d` are the pool and the connection once the handle is recorded and the evicted one given back. */
  ghost predicate Taken(p: Pool, c: Connection, h: ChunkHandle, dropped: Option<ChunkHandle>, q: Pool, d: Connection) {
    forall n: nat {:trigger TakenAt(p, c, h, dropped, q, d, n)} ::
      n == c.endpoint ==> TakenAt(p, c, h, dropped, q, d, n)
  }

  /** What was evicted is owed, and not yet what evicted it. */
  lemma EvictedIsOwed(start: System, trace: seq<Step>, s: System)
    requires Reaches(start, trace, s) && s.pc.Dispatching? && s.pc.phase.Enqueued?
    ensures s.pc.index < |s.connections| && s.pc.handle.poolId == s.pool.id
    ensures s.pc.phase.dropped.Some? && s.pc.phase.dropped.value.poolId == s.pool.id ==>
              s.pc.phase.dropped.value in s.connections[s.pc.index].outstanding
  {
    ReachesInv(start, trace, s);
    assert Obligations(s.connections)[s.pc.index] == s.connections[s.pc.index].outstanding;
  }

  lemma SettleTakenRuns(start: System, trace: seq<Step>, s: System) returns (t: System, d: Connection)
    requires Reaches(start, trace, s) && s.pc.Dispatching? && s.pc.phase.Enqueued?
    ensures s.pc.index < |s.connections|
    ensures Taken(s.pool, s.connections[s.pc.index], s.pc.handle, s.pc.phase.dropped, t.pool, d)
    ensures var c := s.connections[s.pc.index];
            && OwesAfter(c.outstanding, s.pc.handle, s.pc.phase.dropped, d.outstanding)
            && d.endpoint == c.endpoint && d.maxSize == c.maxSize
    ensures t == Update(s, s.pc.index, d).(pool := t.pool, pc := s.pc.(index := s.pc.index + 1, phase := Start))
    ensures Reaches(start, trace + [Settle], t)
  {
    CanSettle(start, trace, s);
    EvictedIsOwed(start, trace, s);
    SettledHolds(s.pool, s.connections[s.pc.index], s.pc.handle, s.pc.phase.dropped);
    d := Settled(s.pool, s.connections[s.pc.index], s.pc.handle, s.pc.phase.dropped).1;
    t := SettleStep(s);
    Extend(start, trace, s, Settle, t);
  }

  /** The chunk under dispatch carries the sequence that comes next, and keeps it as long as it lives. */
  lemma DispatchedSequence(start: System, trace: seq<Step>, s: System)
    requires Reaches(start, trace, s) && s.pc.Dispatching?
    ensures Shaped(s.pool) && Live(s.pool, s.pc.handle) && SequenceOf(s.pool, s.pc.handle) == s.sequence + 1
    ensures var q := ReleaseReference(s.pool, s.pc.handle).0;
            Live(q, s.pc.handle) ==> SequenceOf(q, s.pc.handle) == s.sequence + 1
  {
    ReachesInv(start, trace, s);
    assert HandleOf(s.pool, s.pc.handle.chunk) == s.pc.handle;
    PL.ReleaseReferenceFacts(s.pool, s.pc.handle);
  }

  ghost predicate GuardDroppedAt(p: Pool, h: ChunkHandle, q: Pool, chunk: nat) {
    Shaped(p) && q == ReleaseReference(p, h).0
  }

  /** `q` is the pool once the dispatch's own reference to `h` has been given back. */
  ghost predicate GuardDropped(p: Pool, h: ChunkHandle, q: Pool) {
    forall n: nat {:trigger GuardDroppedAt(p, h, q, n)} :: n == h.chunk ==> GuardDroppedAt(p, h, q, n)
  }

  lemma DropGuardRuns(start: System, trace: seq<Step>, s: System) returns (t: System)
    requires Reaches(start, trace, s)
    requires s.pc.Dispatching? && s.pc.phase.Start? && s.pc.index >= |s.connections|
    ensures GuardDropped(s.pool, s.pc.handle, t.pool)
    ensures t == s.(pool := t.pool, sequence := s.sequence + 1, pc := Removing(s.pc.broken, true, None))
    ensures Shaped(t.pool) && (Live(t.pool, s.pc.handle) ==> SequenceOf(t.pool, s.pc.handle) == s.sequence + 1)
    ensures Reaches(start, trace + [DropGuard], t)
  {
    DispatchedSequence(start, trace, s);
    t := DropGuardStep(s);
    Extend(start, trace, s, DropGuard, t);
  }

  // ---- connections ----

  lemma ReceiveReleaseRuns(start: System, trace: seq<Step>, s: System, i: nat) returns (t: System)
    requires Reaches(start, trace, s)
    requires s.pc.Idle? && i < |s.connections| && s.connections[i].releases != []
    ensures Shaped(s.pool)
    ensures t == ReceiveReleaseStep(s, i)
    ensures Reaches(start, trace + [ReceiveRelease(i)], t)
  {
    ReachesShaped(start, trace, s);
    t := ReceiveReleaseStep(s, i);
    Extend(start, trace, s, ReceiveRelease(i), t);
  }

  lemma RemoveRuns(start: System, trace: seq<Step>, s: System, e: nat) returns (t: System)
    requires Reaches(start, trace, s) && s.pc.Idle?
    ensures Shaped(s.pool)
    ensures t == s.(pc := Removing([e], true, None))
    ensures Reaches(start, trace + [Remove(e)], t)
  {
    ReachesShaped(start, trace, s);
    t := s.(pc := Removing([e], true, None));
    Extend(start, trace, s, Remove(e), t);
  }

  /** What was live and is not in `given` is in place as it was. */
  ghost predicate Untouched(p: Pool, q: Pool, given: seq<ChunkHandle>) {
    && Shaped(p) && Shaped(q) && q.id == p.id && q.offsets == p.offsets && |q.chunks| == |p.chunks|
    && forall h {:trigger Live(p, h)} :: Live(p, h) && h !in given ==> q.chunks[h.chunk] == p.chunks[h.chunk]
  }

  lemma ReleaseUntouched(p: Pool, g: ChunkHandle)
    requires ValidPool(p) && Live(p, g)
    ensures Untouched(p, ReleaseReference(p, g).0, [g])
  {
    PL.ReleaseReferenceFacts(p, g);
  }

  lemma UntouchedTwice(p: Pool, q: Pool, r: Pool, a: seq<ChunkHandle>, b: seq<ChunkHandle>)
    requires Untouched(p, q, a) && Untouched(q, r, b)
    ensures Untouched(p, r, a + b)
  {
    forall h | Live(p, h) && h !in a + b ensures r.chunks[h.chunk] == p.chunks[h.chunk] {
      assert Live(q, h);
    }
  }

  lemma OwedIsLive(start: System, trace: seq<Step>, s: System, k: nat)
    requires Reaches(start, trace, s) && k < |s.connections|
    ensures ValidPool(s.pool) && NoDup(s.connections[k].outstanding)
    ensures forall h :: h in s.connections[k].outstanding ==> Live(s.pool, h)
  {
    ReachesInv(start, trace, s);
    AtConnection(s, k);
  }

  lemma ReleaseHeadRuns(start: System, trace: seq<Step>, s: System, k: nat) returns (t: System)
    requires Reaches(start, trace, s) && s.pc.Removing? && s.pc.endpoints != []
    requires k < |s.connections| && s.connections[k].endpoint == s.pc.endpoints[0]
    requires forall j :: 0 <= j < k ==> s.connections[j].endpoint != s.pc.endpoints[0]
    requires s.connections[k].outstanding != []
    ensures Shaped(s.pool)
    ensures var c := s.connections[k];
            t == Update(s, k, c.(outstanding := c.outstanding[1..]))
                    .(pool := ReleaseReference(s.pool, c.outstanding[0]).0)
    ensures Untouched(s.pool, t.pool, [s.connections[k].outstanding[0]])
    ensures Reaches(start, trace + [RemoveNext], t)
  {
    OwedIsLive(start, trace, s, k);
    ReleaseUntouched(s.pool, s.connections[k].outstanding[0]);
    assert FindConnection(s.connections, s.pc.endpoints[0]) == k;
    t := RemoveNextStep(s);
    Extend(start, trace, s, RemoveNext, t);
  }

  lemma ForgetRuns(start: System, trace: seq<Step>, s: System, k: nat) returns (t: System)
    requires Reaches(start, trace, s) && s.pc.Removing? && s.pc.endpoints != []
    requires k <= |s.connections| && forall j :: 0 <= j < k ==> s.connections[j].endpoint != s.pc.endpoints[0]
    requires k < |s.connections| ==>
               s.connections[k].endpoint == s.pc.endpoints[0] && s.connections[k].outstanding == []
    ensures Shaped(s.pool)
    ensures t == Forget(s, if k < |s.connections| then Drop(s.connections, k) else s.connections)
    ensures Reaches(start, trace + [RemoveNext], t)
  {
    ReachesShaped(start, trace, s);
    t := RemoveNextStep(s);
    Extend(start, trace, s, RemoveNext, t);
  }

  lemma RemovedRuns(start: System, trace: seq<Step>, s: System) returns (t: System)
    requires Reaches(start, trace, s) && s.pc.Removing? && s.pc.endpoints == []
    ensures Shaped(s.pool)
    ensures t == s.(pc := match s.pc.joining case None => Idle case Some(order) => Connecting(order))
    ensures Reaches(start, trace + [RemoveNext], t)
  {
    ReachesShaped(start, trace, s);
    t := RemoveNextStep(s);
    Extend(start, trace, s, RemoveNext, t);
  }

  /** The lists with the connection to `e`, if any, taken out. */
  ghost predicate Without(e: nat, ids: seq<nat>, lists: seq<seq<ChunkHandle>>,
                          ids': seq<nat>, lists': seq<seq<ChunkHandle>>) {
    && |ids| == |lists|
    && var k := Find(ids, e);
       if k < |ids| then ids' == Drop(ids, k) && lists' == Drop(lists, k) else ids' == ids && lists' == lists
  }

  lemma WithoutIs(e: nat, ids: seq<nat>, lists: seq<seq<ChunkHandle>>, cs: seq<Connection>, k: nat)
    requires Endpoints(cs) == ids && |lists| == |ids| && k <= |cs|
    requires forall j :: 0 <= j < k ==> cs[j].endpoint != e
    requires k < |cs| ==> cs[k].endpoint == e && Obligations(cs) == lists[k := []]
    requires k == |cs| ==> Obligations(cs) == lists
    ensures var cs' := if k < |cs| then Drop(cs, k) else cs;
            Without(e, ids, lists, Endpoints(cs'), Obligations(cs'))
  {
    assert forall j :: 0 <= j < k ==> ids[j] != e;
    if k < |cs| {
      assert ids[k] == e;
      DropProjections(cs, k);
      assert Drop(lists[k := []], k) == Drop(lists, k);
    }
  }

  /** The listed endpoints are connected as before. */
  ghost predicate SameListed(listed: set<nat>, before: seq<nat>, now: seq<nat>) {
    && (forall e :: e in now ==> e in before)
    && (forall e :: e in before && e in listed ==> e in now)
  }

  /** Since `first` and pool `p`, connection `k` has given back `given`; the others owe what they did. */
  ghost predicate Returning(first: seq<Connection>, p: Pool, cs: seq<Connection>, q: Pool, k: nat,
                            given: seq<ChunkHandle>)
    requires k < |first| == |cs|
  {
    && Endpoints(cs) == Endpoints(first) && Obligations(cs) == Obligations(first)[k := cs[k].outstanding]
    && first[k].outstanding == given + cs[k].outstanding
    && Grow(Frames(first), Frames(cs)) && Untouched(p, q, given)
  }

  lemma ReturningNone(first: seq<Connection>, p: Pool, k: nat)
    requires k < |first| && Shaped(p)
    ensures Returning(first, p, first, p, k, [])
  {
    assert Obligations(first)[k := first[k].outstanding] == Obligations(first);
  }

  lemma ReturningNext(first: seq<Connection>, p: Pool, cs: seq<Connection>, q: Pool, k: nat, given: seq<ChunkHandle>,
                      cs': seq<Connection>, q': Pool)
    requires k < |first| == |cs| == |cs'| && Returning(first, p, cs, q, k, given) && cs[k].outstanding != []
    requires Endpoints(cs') == Endpoints(cs) && Obligations(cs') == Obligations(cs)[k := cs'[k].outstanding]
    requires cs'[k].outstanding == cs[k].outstanding[1..]
    requires Grow(Frames(cs), Frames(cs')) && Untouched(q, q', [cs[k].outstanding[0]])
    ensures Returning(first, p, cs', q', k, given + [cs[k].outstanding[0]])
  {
    GrowTwice(Frames(first), Frames(cs), Frames(cs'));
    UntouchedTwice(p, q, q', given, [cs[k].outstanding[0]]);
    assert cs[k].outstanding == [cs[k].outstanding[0]] + cs'[k].outstanding;
  }

  lemma DistinctEntries(cs: seq<Connection>)
    requires NoDup(Endpoints(cs))
    ensures Distinct(Debts(cs)) && Distinct(Frames(cs))
  {
    assert forall j :: 0 <= j < |cs| ==> Endpoints(cs)[j] == cs[j].endpoint;
  }

  /**
  Connection `k` to `e`, if there is one, has given back all it owed and is about to go; the lists
  of the others are as they were in `first`.
  */
  lemma ForgottenDebts(e: nat, first: seq<Connection>, cs: seq<Connection>, k: nat)
    requires Distinct(Debts(first)) && |cs| == |first| && k <= |cs|
    requires k < |cs| ==> first[k].endpoint == e
    requires forall j :: 0 <= j < k ==> first[j].endpoint != e
    requires forall j :: 0 <= j < |cs| && j != k ==> Debts(cs)[j] == Debts(first)[j]
    ensures Debts(if k < |cs| then Drop(cs, k) else cs) == Others(Debts(first), {e})
  {
    if k < |cs| {
      OthersDrop(Debts(first), k);
      DropSame(first, cs, k);
    } else {
      OthersNone(Debts(first), {e});
      assert Debts(cs) == Debts(first);
    }
  }

  lemma DropSame(first: seq<Connection>, cs: seq<Connection>, k: nat)
    requires k < |cs| == |first| && forall j :: 0 <= j < |cs| && j != k ==> Debts(cs)[j] == Debts(first)[j]
    ensures Debts(Drop(cs, k)) == Drop(Debts(first), k)
  {
    var d, f := Debts(Drop(cs, k)), Drop(Debts(first), k);
    forall j | 0 <= j < |d| ensures d[j] == f[j] {
      var i := if j < k then j else j + 1;
      assert d[j] == Debts(cs)[i] && f[j] == Debts(first)[i];
    }
  }

  /** And the frames of the others are still there. */
  lemma ForgottenFrames(e: nat, first: seq<Connection>, cs: seq<Connection>, k: nat)
    requires Distinct(Frames(first)) && |cs| == |first| && k <= |cs| && Grow(Frames(first), Frames(cs))
    requires k < |cs| ==> first[k].endpoint == e
    requires forall j :: 0 <= j < k ==> first[j].endpoint != e
    ensures Grow(Others(Frames(first), {e}), Frames(if k < |cs| then Drop(cs, k) else cs))
  {
    if k < |cs| {
      OthersDrop(Frames(first), k);
      GrowDrop(Frames(first), Frames(cs), k);
      assert Frames(Drop(cs, k)) == Drop(Frames(cs), k);
    } else {
      OthersNone(Frames(first), {e});
    }
  }

  /** Connection `k` to `e`, if there is one, owes nothing any more; otherwise the lists are those of `first`. */
  ghost predicate Emptied(e: nat, first: seq<Connection>, cs: seq<Connection>, k: nat) {
    && NoDup(Endpoints(first)) && Endpoints(cs) == Endpoints(first) && k <= |first|
    && (k < |first| ==> first[k].endpoint == e)
    && (forall j :: 0 <= j < k ==> first[j].endpoint != e)
    && Obligations(cs) == (if k < |first| then Obligations(first)[k := []] else Obligations(first))
    && Grow(Frames(first), Frames(cs))
  }

  /** The connection to `e` has gone from `first`, and the others are as they were. */
  ghost predicate Forgotten(e: nat, first: seq<Connection>, cs: seq<Connection>) {
    && Without(e, Endpoints(first), Obligations(first), Endpoints(cs), Obligations(cs))
    && Debts(cs) == Others(Debts(first), {e}) && Grow(Others(Frames(first), {e}), Frames(cs))
  }

  lemma ForgetLists(e: nat, first: seq<Connection>, cs: seq<Connection>, k: nat)
    requires Emptied(e, first, cs, k)
    ensures k <= |cs| && (k < |cs| ==> cs[k].endpoint == e && cs[k].outstanding == [])
    ensures forall j :: 0 <= j < k ==> cs[j].endpoint != e
    ensures Forgotten(e, first, if k < |cs| then Drop(cs, k) else cs)
  {
    assert forall j :: 0 <= j < |first| ==> Endpoints(first)[j] == cs[j].endpoint;
    if k < |cs| { assert Obligations(cs)[k] == []; }
    WithoutIs(e, Endpoints(first), Obligations(first), cs, k);
    DistinctEntries(first);
    DebtsFrom(first, cs, k);
    ForgottenDebts(e, first, cs, k);
    ForgottenFrames(e, first, cs, k);
  }

  lemma DebtsFrom(a: seq<Connection>, b: seq<Connection>, k: nat)
    requires Endpoints(a) == Endpoints(b) && k <= |a|
    requires Obligations(b) == if k < |a| then Obligations(a)[k := []] else Obligations(a)
    ensures forall j :: 0 <= j < |b| && j != k ==> Debts(b)[j] == Debts(a)[j]
  {
    forall j | 0 <= j < |b| && j != k ensures Debts(b)[j] == Debts(a)[j] {
      assert Endpoints(a)[j] == Endpoints(b)[j] && Obligations(a)[j] == Obligations(b)[j];
    }
  }

  /** What the connection to `e` owes. */
  function Owed(cs: seq<Connection>, e: nat): seq<ChunkHandle> {
    var k := FindConnection(cs, e);
    if k < |cs| then cs[k].outstanding else []
  }

  /** Among distinct endpoints the one at `i` is the one that goes. */
  lemma WithoutAt(i: nat, ids: seq<nat>, lists: seq<seq<ChunkHandle>>, ids': seq<nat>, lists': seq<seq<ChunkHandle>>)
    requires i < |ids| && NoDup(ids) && Without(ids[i], ids, lists, ids', lists')
    ensures |ids'| == |ids| - 1 && ids'[..i] == ids[..i] && ids'[i..] == ids[i + 1..]
  {
    var k := Find(ids, ids[i]);
    assert k == i;
  }

  lemma WithoutListed(e: nat, ids: seq<nat>, lists: seq<seq<ChunkHandle>>, ids': seq<nat>,
                      lists': seq<seq<ChunkHandle>>, listed: set<nat>)
    requires Without(e, ids, lists, ids', lists') && e !in listed
    ensures SameListed(listed, ids, ids')
  {
    var k := Find(ids, e);
    if k < |ids| { DropFacts(ids, k); }
  }

  lemma LocatedIn(cs: seq<Connection>, e: nat, k: nat)
    requires k <= |cs| && (k < |cs| ==> cs[k].endpoint == e) && forall j :: 0 <= j < k ==> cs[j].endpoint != e
    ensures k < |cs| <==> e in Endpoints(cs)
  {
    if k < |cs| { assert Endpoints(cs)[k] == e; }
  }

  lemma EndpointsJoin(cs: seq<Connection>, c: Connection)
    ensures Endpoints(cs + [c]) == Endpoints(cs) + [c.endpoint]
  {
  }

  /** The members of `ids` that are not listed, in order. */
  function Unlisted(ids: seq<nat>, listed: set<nat>): seq<nat> {
    if ids == [] then [] else (if ids[0] in listed then [] else [ids[0]]) + Unlisted(ids[1..], listed)
  }

  lemma {:induction false} VanishedIsUnlisted(cs: seq<Connection>, listed: set<nat>)
    ensures Vanished(cs, listed) == Unlisted(Endpoints(cs), listed)
  {
    if cs != [] {
      VanishedIsUnlisted(cs[1..], listed);
      assert Endpoints(cs)[1..] == Endpoints(cs[1..]);
    }
  }

  lemma UnlistedNext(ids: seq<nat>, i: nat, listed: set<nat>)
    requires i < |ids|
    ensures Unlisted(ids[i..], listed)
         == if ids[i] in listed then Unlisted(ids[i + 1..], listed) else [ids[i]] + Unlisted(ids[i + 1..], listed)
    ensures Drop(ids, i)[i..] == ids[i + 1..]
  {
    assert ids[i..][1..] == ids[i + 1..];
  }

  lemma DiscoverRuns(start: System, trace: seq<Step>, s: System, found: seq<nat>) returns (t: System)
    requires Reaches(start, trace, s) && s.pc.Idle?
    requires NoDup(found) && forall e :: e in found <==> e in s.registered
    ensures Shaped(s.pool)
    ensures t == s.(failed := s.failed * s.registered,
                       pc := Removing(Unlisted(Endpoints(s.connections), s.registered), false, Some(found)))
    ensures Reaches(start, trace + [Discover(found)], t)
  {
    ReachesShaped(start, trace, s);
    VanishedIsUnlisted(s.connections, s.registered);
    t := DiscoverStep(s, found);
    Extend(start, trace, s, Discover(found), t);
  }

  lemma ConnectNextRuns(start: System, trace: seq<Step>, s: System, peer: Option<Connection>) returns (t: System)
    requires Reaches(start, trace, s) && s.pc.Connecting?
    requires s.pc.order != [] && peer.Some? ==> NewPeer(peer.value, s.pc.order[0]) && NoneOf(peer.value, s.pool.id)
    ensures Shaped(s.pool)
    ensures t == ConnectNextStep(s, peer)
    ensures Reaches(start, trace + [ConnectNext(peer)], t)
  {
    ReachesShaped(start, trace, s);
    t := ConnectNextStep(s, peer);
    Extend(start, trace, s, ConnectNext(peer), t);
  }

  /** An endpoint that is connected or tombstoned is passed over. */
  lemma SkipRuns(start: System, trace: seq<Step>, s: System, e: nat, rest: seq<nat>, peer: Option<Connection>)
    returns (t: System)
    requires Reaches(start, trace, s) && s.pc == Connecting([e] + rest)
    requires peer.Some? ==> NewPeer(peer.value, e) && NoneOf(peer.value, s.pool.id)
    requires e in Endpoints(s.connections) || e in s.failed
    ensures t == s.(pc := Connecting(rest)) && Reaches(start, trace + [ConnectNext(peer)], t)
  {
    assert s.pc.order[1..] == rest;
    FoundIn(s.connections, e);
    t := ConnectNextRuns(start, trace, s, peer);
  }

  /** Any other is tombstoned if it cannot be reached, and connected if it can. */
  lemma AdmitRuns(start: System, trace: seq<Step>, s: System, e: nat, rest: seq<nat>, peer: Option<Connection>)
    returns (t: System)
    requires Reaches(start, trace, s) && s.pc == Connecting([e] + rest)
    requires peer.Some? ==> NewPeer(peer.value, e) && NoneOf(peer.value, s.pool.id)
    requires e !in Endpoints(s.connections) && e !in s.failed
    ensures t == if peer.None? then s.(pc := Connecting(rest), failed := s.failed + {e})
                 else s.(pc := Connecting(rest), connections := s.connections + [peer.value], seen := s.seen + {e})
    ensures Reaches(start, trace + [ConnectNext(peer)], t)
  {
    assert s.pc.order[1..] == rest;
    FoundIn(s.connections, e);
    t := ConnectNextRuns(start, trace, s, peer);
  }

  lemma FoundIn(cs: seq<Connection>, e: nat)
    ensures FindConnection(cs, e) < |cs| <==> e in Endpoints(cs)
  {
    var k := FindConnection(cs, e);
    if k < |cs| { assert Endpoints(cs)[k] == e; }
  }

  /** Every listed endpoint so far is connected or tombstoned, and nothing unlisted is connected. */
  ghost predicate Joined(found: seq<nat>, k: nat, ids: seq<nat>, failed: set<nat>) {
    && k <= |found|
    && (forall j :: 0 <= j < k ==> found[j] in ids || found[j] in failed)
    && (forall e :: e in ids ==> e in found)
  }

  lemma JoinedNext(found: seq<nat>, k: nat, ids: seq<nat>, failed: set<nat>, ids': seq<nat>, failed': set<nat>)
    requires Joined(found, k, ids, failed) && k < |found|
    requires ids' == ids || ids' == ids + [found[k]]
    requires failed' == failed || failed' == failed + {found[k]}
    requires found[k] in ids' || found[k] in failed'
    ensures Joined(found, k + 1, ids', failed')
  {
    assert forall e :: e in ids ==> e in ids';
    assert forall e :: e in ids' ==> e in ids || e == found[k];
  }

  lemma ConnectedRuns(start: System, trace: seq<Step>, s: System) returns (t: System)
    requires Reaches(start, trace, s) && s.pc == Connecting([])
    ensures t == s.(negotiated := Negotiate(s.maxSize, s.connections), pc := Idle)
    ensures Reaches(start, trace + [ConnectNext(None)], t)
  {
    ReachesShaped(start, trace, s);
    t := ConnectNextStep(s, None);
    Extend(start, trace, s, ConnectNext(None), t);
  }

  // ---- loans and publishing ----

  lemma LoanRuns(start: System, trace: seq<Step>, s: System, size: nat) returns (t: System)
    requires Reaches(start, trace, s) && s.pc.Idle? && size <= s.maxSize
    ensures Shaped(s.pool)
    ensures t == LoanStep(s, size)
    ensures Reaches(start, trace + [LoanChunk(size)], t)
  {
    ReachesShaped(start, trace, s);
    t := LoanStep(s, size);
    Extend(start, trace, s, LoanChunk(size), t);
  }

  /** The chunk that `h` names is free. */
  predicate FreedAt(p: Pool, h: ChunkHandle) {
    h.chunk < |p.chunks| && p.chunks[h.chunk].state == Free
  }

  lemma CancelRuns(start: System, trace: seq<Step>, s: System, k: nat) returns (t: System)
    requires Reaches(start, trace, s) && s.pc.Idle? && k < |s.loans|
    ensures Shaped(s.pool)
    ensures Cancel(s.pool, s.loans[k].handle).1 == Ok && FreedAt(t.pool, s.loans[k].handle)
    ensures t == s.(pool := Cancel(s.pool, s.loans[k].handle).0, loans := Drop(s.loans, k))
    ensures Reaches(start, trace + [CancelLoan(k)], t)
  {
    ReachesInv(start, trace, s);
    t := CancelLoanStep(s, k);
    Extend(start, trace, s, CancelLoan(k), t);
  }

  lemma FillRuns(start: System, trace: seq<Step>, s: System, k: nat, data: seq<Byte>) returns (t: System)
    requires Reaches(start, trace, s) && k < |s.loans| && |data| <= s.loans[k].size
    ensures Shaped(s.pool) && s.loans[k].handle.chunk < |s.pool.chunks|
    ensures |data| <= |s.pool.chunks[s.loans[k].handle.chunk].payload|
    ensures t == s.(pool := WriteLoan(s.pool, s.loans[k].handle, data))
    ensures t.pool.chunks[s.loans[k].handle.chunk].payload
            == Overwrite(s.pool.chunks[s.loans[k].handle.chunk].payload, data)
    ensures Reaches(start, trace + [FillLoan(k, data)], t)
  {
    ReachesInv(start, trace, s);
    assert ChunkOk(s.pool, s.loans[k].handle.chunk);
    t := s.(pool := WriteLoan(s.pool, s.loans[k].handle, data));
    Extend(start, trace, s, FillLoan(k, data), t);
  }

  /** Whether a chunk can be had is decided by the free lists alone. */
  lemma AllocationRuns(start: System, trace: seq<Step>, s: System, size: nat)
    requires Reaches(start, trace, s)
    ensures Shaped(s.pool)
    ensures var (q, a) := Allocate(s.pool, size);
            (a.error == Ok <==> CanAllocate(s.pool, size)) && (a.error != Ok ==> q == s.pool)
  {
    ReachesInv(start, trace, s);
    PL.AllocateOutcome(s.pool, size);
  }

  /** The system once the data has been written and published as chunk `h` of pool `q`. */
  function Sent(s: System, q: Pool, h: ChunkHandle, data: seq<Byte>): System {
    s.(pool := q, published := s.published[s.sequence + 1 := data], pc := Dispatching(h, 0, Start, []))
  }

  ghost predicate CopiedAt(p: Pool, h: ChunkHandle, data: seq<Byte>, sequence: nat, timestamp: nat, q: Pool, refs: nat)
    requires Shaped(p)
  {
    q == WriteAndPublish(p, h, data, sequence, timestamp, refs).0
  }

  /** `q` is the pool once the data has been written to `h` and published with the guard's one reference. */
  ghost predicate Copied(p: Pool, h: ChunkHandle, data: seq<Byte>, sequence: nat, timestamp: nat, q: Pool)
    requires Shaped(p)
  {
    forall n: nat {:trigger CopiedAt(p, h, data, sequence, timestamp, q, n)} ::
      n == 1 ==> CopiedAt(p, h, data, sequence, timestamp, q, n)
  }

  /** Once a chunk is allocated, publishing a copy begins the dispatch of the data. */
  lemma CopyIsSent(s: System, data: seq<Byte>, timestamp: nat)
    requires Inv(s) && s.pc.Idle? && |data| <= s.negotiated && Allocate(s.pool, |data|).1.error == Ok
    ensures var (p, a), t := Allocate(s.pool, |data|), PublishCopyStep(s, data, timestamp);
            Shaped(p) && Copied(p, a.handle, data, s.sequence + 1, timestamp, t.pool)
              && t == Sent(s, t.pool, a.handle, data)
  {
    LS.CopyPublishes(s, data, timestamp);
  }

  lemma PublishCopyRuns(start: System, trace: seq<Step>, s: System, data: seq<Byte>, timestamp: nat) returns (t: System)
    requires Reaches(start, trace, s) && s.pc.Idle? && |data| <= s.negotiated
    requires Shaped(s.pool) && Allocate(s.pool, |data|).1.error == Ok
    ensures var (p, a) := Allocate(s.pool, |data|);
            Shaped(p) && Copied(p, a.handle, data, s.sequence + 1, timestamp, t.pool)
              && t == Sent(s, t.pool, a.handle, data)
    ensures Reaches(start, trace + [PublishCopy(data, timestamp)], t)
  {
    ReachesInv(start, trace, s);
    CopyIsSent(s, data, timestamp);
    t := PublishCopyStep(s, data, timestamp);
    Extend(start, trace, s, PublishCopy(data, timestamp), t);
  }

  /** An active loan names a chunk that is large enough for it. */
  lemma LoanFits(start: System, trace: seq<Step>, s: System, k: nat)
    requires Reaches(start, trace, s) && k < |s.loans|
    ensures Shaped(s.pool) && Matches(s.pool, s.loans[k].handle)
    ensures s.pool.chunks[s.loans[k].handle.chunk].state == Loaned
    ensures s.loans[k].size <= |s.pool.chunks[s.loans[k].handle.chunk].payload|
  {
    ReachesInv(start, trace, s);
    assert ChunkOk(s.pool, s.loans[k].handle.chunk);
  }

  /** A loan above the negotiated limit goes back to the pool. */
  lemma PublishOversizedRuns(start: System, trace: seq<Step>, s: System, k: nat, timestamp: nat) returns (t: System)
    requires Reaches(start, trace, s) && s.pc.Idle? && k < |s.loans| && s.loans[k].size > s.negotiated
    ensures Shaped(s.pool) && FreedAt(t.pool, s.loans[k].handle)
    ensures Reaches(start, trace + [PublishLoan(k, timestamp)], t)
    ensures t == s.(pool := Cancel(s.pool, s.loans[k].handle).0, loans := Drop(s.loans, k))
  {
    LoanFits(start, trace, s, k);
    t := PublishLoanStep(s, k, timestamp);
    Extend(start, trace, s, PublishLoan(k, timestamp), t);
  }

  lemma LoanPublishes(start: System, trace: seq<Step>, s: System, k: nat, timestamp: nat)
    requires Reaches(start, trace, s) && k < |s.loans|
    ensures Shaped(s.pool)
    ensures PublishLoaned(s.pool, s.loans[k].handle, s.loans[k].size, s.sequence + 1, timestamp, 1).1 == Ok
  {
    ReachesInv(start, trace, s);
    assert ChunkOk(s.pool, s.loans[k].handle.chunk);
  }

  /** Otherwise dispatch begins of exactly what the application wrote. */
  lemma PublishLoanRuns(start: System, trace: seq<Step>, s: System, k: nat, timestamp: nat) returns (t: System)
    requires Reaches(start, trace, s) && s.pc.Idle? && k < |s.loans| && s.loans[k].size <= s.negotiated
    ensures Shaped(s.pool) && Matches(s.pool, s.loans[k].handle)
    ensures s.loans[k].size <= |s.pool.chunks[s.loans[k].handle.chunk].payload|
    ensures Reaches(start, trace + [PublishLoan(k, timestamp)], t)
    ensures var loan := s.loans[k];
            && var (q, e) := PublishLoaned(s.pool, loan.handle, loan.size, s.sequence + 1, timestamp, 1);
               var written := s.pool.chunks[loan.handle.chunk].payload[..loan.size];
               && e == Ok
               && t == s.(pool := q, loans := Drop(s.loans, k), published := s.published[s.sequence + 1 := written],
                          pc := Dispatching(loan.handle, 0, Start, []))
  {
    LoanFits(start, trace, s, k);
    LoanPublishes(start, trace, s, k, timestamp);
    t := PublishLoanStep(s, k, timestamp);
    Extend(start, trace, s, PublishLoan(k, timestamp), t);
  }

  // ---- what dispatch has done so far ----

  /** Exactly the connections that took the handle hold it, and every outcome is a proper one. */
  ghost predicate Delivering(lists: seq<seq<ChunkHandle>>, h: ChunkHandle, os: seq<Outcome>) {
    && |lists| == |os|
    && forall j :: 0 <= j < |os| ==> Proper(os[j]) && (h in lists[j] <==> os[j].Delivered?)
  }

  /** The state of the dispatch loop after `index` connections. */
  ghost predicate Progress(ids: seq<nat>, lists: seq<seq<ChunkHandle>>, h: ChunkHandle, index: nat,
                           broken: seq<nat>, os: seq<Outcome>, r: PublishResult) {
    forall n: nat {:trigger ProgressAt(ids, lists, h, n, broken, os, r)} ::
      n == index ==> ProgressAt(ids, lists, h, n, broken, os, r)
  }

  ghost predicate ProgressAt(ids: seq<nat>, lists: seq<seq<ChunkHandle>>, h: ChunkHandle, index: nat,
                             broken: seq<nat>, os: seq<Outcome>, r: PublishResult) {
    && |os| == index <= |lists| == |ids|
    && Delivering(lists[..index], h, os)
    && broken == Broken(ids, os)
    && Summarises(r, os)
  }

  lemma ProgressNone(ids: seq<nat>, lists: seq<seq<ChunkHandle>>, h: ChunkHandle, r: PublishResult)
    requires |lists| == |ids| && r == PublishResult(Ok, r.sequence, r.payloadSize, 0, 0, 0, 0)
    ensures Progress(ids, lists, h, 0, [], [], r)
  {
  }

  lemma DeliveringNext(lists: seq<seq<ChunkHandle>>, h: ChunkHandle, index: nat, os: seq<Outcome>,
                       l: seq<ChunkHandle>, o: Outcome)
    requires |os| == index < |lists| && Delivering(lists[..index], h, os)
    requires Proper(o) && (h in l <==> o.Delivered?)
    ensures Delivering(lists[index := l][..index + 1], h, os + [o])
  {
    var after := lists[index := l][..index + 1];
    forall j | 0 <= j <= index ensures h in after[j] <==> (os + [o])[j].Delivered? {
      if j < index { assert after[j] == lists[..index][j]; }
    }
  }

  lemma ProgressNext(ids: seq<nat>, lists: seq<seq<ChunkHandle>>, h: ChunkHandle, index: nat,
                     broken: seq<nat>, os: seq<Outcome>, r: PublishResult, l: seq<ChunkHandle>, o: Outcome)
    requires Progress(ids, lists, h, index, broken, os, r) && index < |lists| == |ids|
    requires Proper(o) && (h in l <==> o.Delivered?)
    ensures Progress(ids, lists[index := l], h, index + 1, broken + (if Breaks(o) then [ids[index]] else []),
                     os + [o], Note(r, o))
  {
    assert ProgressAt(ids, lists, h, index, broken, os, r);
    NoteSummarises(r, os, o);
    assert (os + [o])[..index] == os;
    DeliveringNext(lists, h, index, os, l, o);
    assert ProgressAt(ids, lists[index := l], h, index + 1, broken + (if Breaks(o) then [ids[index]] else []),
                      os + [o], Note(r, o));
  }

  /** The lists that hold `h` number the deliveries. */
  lemma {:induction false} HoldersAreDeliveries(lists: seq<seq<ChunkHandle>>, h: ChunkHandle, os: seq<Outcome>)
    requires Delivering(lists, h, os)
    ensures Holders(lists, h) == Count(os, IsDelivered)
  {
    if os != [] {
      var n := |os| - 1;
      HoldersAreDeliveries(lists[..n], h, os[..n]);
    }
  }

  /** A connection about to be given up does not hold the handle. */
  lemma BrokenHoldNothing(ids: seq<nat>, lists: seq<seq<ChunkHandle>>, h: ChunkHandle, os: seq<Outcome>)
    requires NoDup(ids) && |ids| == |os| && Delivering(lists, h, os)
    ensures forall j :: 0 <= j < |ids| && ids[j] in Broken(ids, os) ==> h !in lists[j]
  {
    BrokenExact(ids, os);
    forall j | 0 <= j < |ids| && ids[j] in Broken(ids, os) ensures h !in lists[j] {
      var k :| 0 <= k < |os| && ids[k] == ids[j] && Breaks(os[k]);
      assert k == j;
    }
  }

  /** No connection to an endpoint of `broken` holds `h`. */
  ghost predicate Spared(ids: seq<nat>, lists: seq<seq<ChunkHandle>>, broken: seq<nat>, h: ChunkHandle) {
    |ids| == |lists| && forall j :: 0 <= j < |ids| && ids[j] in broken ==> h !in lists[j]
  }

  lemma WithoutSpares(e: nat, ids: seq<nat>, lists: seq<seq<ChunkHandle>>, ids': seq<nat>,
                      lists': seq<seq<ChunkHandle>>, broken: seq<nat>, h: ChunkHandle)
    requires Without(e, ids, lists, ids', lists') && Spared(ids, lists, broken, h) && e in broken
    ensures Spared(ids', lists', broken, h)
    ensures Holders(lists', h) == Holders(lists, h)
  {
    var k := Find(ids, e);
    if k < |ids| { HoldersDrop(lists, k, h); }
  }

  /** When every connection has been offered the handle, its holders are the deliveries. */
  lemma AfterDispatch(start: System, trace: seq<Step>, s: System, os: seq<Outcome>, r: PublishResult)
    requires Reaches(start, trace, s) && s.pc.Dispatching?
    requires Progress(Endpoints(s.connections), Obligations(s.connections), s.pc.handle, |s.connections|,
                      s.pc.broken, os, r)
    ensures Holders(Obligations(s.connections), s.pc.handle) == r.enqueued
    ensures Spared(Endpoints(s.connections), Obligations(s.connections), s.pc.broken, s.pc.handle)
    ensures forall j :: 0 <= j < |os| ==> Proper(os[j])
  {
    ReachesInv(start, trace, s);
    var lists := Obligations(s.connections);
    assert ProgressAt(Endpoints(s.connections), lists, s.pc.handle, |s.connections|, s.pc.broken, os, r);
    assert lists[..|s.connections|] == lists;
    HoldersAreDeliveries(lists, s.pc.handle, os);
    BrokenHoldNothing(Endpoints(s.connections), lists, s.pc.handle, os);
  }

  /** Unless it is dispatching, a handle is live exactly when some connection owes it. */
  lemma HeldIsLive(start: System, trace: seq<Step>, s: System, h: ChunkHandle)
    requires Reaches(start, trace, s) && !s.pc.Dispatching?
    ensures Shaped(s.pool)
    ensures Live(s.pool, h) <==> Holders(Obligations(s.connections), h) > 0
    ensures Live(s.pool, h) ==> s.pool.chunks[h.chunk].refs == Holders(Obligations(s.connections), h)
  {
    ReachesInv(start, trace, s);
    if Holders(Obligations(s.connections), h) > 0 {
      var j := HoldersWitness(Obligations(s.connections), h);
      AllOutstanding(s.pool, s.connections, s.pc, s.sequence, s.published);
      assert h in s.connections[j].outstanding;
    }
    if Live(s.pool, h) {
      assert HandleOf(s.pool, h.chunk) == h;
      assert ChunkOk(s.pool, h.chunk);
    }
  }

  /** Every reference is one that some connection owes. */
  ghost predicate Balanced(p: Pool, cs: seq<Connection>) {
    && Shaped(p)
    && forall h {:trigger Holders(Obligations(cs), h)} ::
         && (Live(p, h) <==> Holders(Obligations(cs), h) > 0)
         && (Live(p, h) ==> p.chunks[h.chunk].refs == Holders(Obligations(cs), h))
  }

  lemma AllBalanced(start: System, trace: seq<Step>, s: System)
    requires Reaches(start, trace, s) && !s.pc.Dispatching?
    ensures Balanced(s.pool, s.connections)
  {
    ReachesShaped(start, trace, s);
    forall h: ChunkHandle
      ensures Live(s.pool, h) <==> Holders(Obligations(s.connections), h) > 0
      ensures Live(s.pool, h) ==> s.pool.chunks[h.chunk].refs == Holders(Obligations(s.connections), h)
    {
      HeldIsLive(start, trace, s, h);
    }
  }

  /** What a live handle shows is what was published under its sequence. */
  lemma LiveReads(start: System, trace: seq<Step>, s: System, h: ChunkHandle)
    requires Reaches(start, trace, s)
    ensures Shaped(s.pool)
    ensures Live(s.pool, h) ==>
              var n := SequenceOf(s.pool, h);
              n in s.published && ViewOf(s.pool, h) == View(h, n, s.published[n])
  {
    ReachesInv(start, trace, s);
    if Live(s.pool, h) {
      assert HandleOf(s.pool, h.chunk) == h;
      assert ChunkOk(s.pool, h.chunk);
    }
  }

  // ---- giving up what broke ----

  ghost predicate Kept(p: Pool, q: Pool, h: ChunkHandle) {
    Shaped(p) && Shaped(q) && (Live(p, h) ==> Live(q, h) && q.chunks[h.chunk] == p.chunks[h.chunk])
  }

  /** Since `first` and pool `p` exactly the connections to `gone` have gone, and `h` is in place. */
  ghost predicate Cleared(first: seq<Connection>, p: Pool, cs: seq<Connection>, q: Pool, gone: set<nat>,
                          h: ChunkHandle) {
    Debts(cs) == Others(Debts(first), gone) && Kept(p, q, h)
  }

  lemma ClearedNone(cs: seq<Connection>, p: Pool, h: ChunkHandle)
    requires Shaped(p)
    ensures Cleared(cs, p, cs, p, {}, h)
  {
    OthersNone(Debts(cs), {});
  }

  lemma ClearedNext(first: seq<Connection>, p: Pool, cs: seq<Connection>, q: Pool, gone: set<nat>, h: ChunkHandle,
                    e: nat, cs': seq<Connection>, q': Pool)
    requires Cleared(first, p, cs, q, gone, h) && Cleared(cs, q, cs', q', {e}, h)
    ensures Cleared(first, p, cs', q', gone + {e}, h)
  {
    OthersTwice(Debts(first), gone, {e});
  }

  /** The connection that goes does not owe `h`. */
  lemma ForgottenClears(cs: seq<Connection>, p: Pool, cs': seq<Connection>, q: Pool, e: nat, broken: seq<nat>,
                        h: ChunkHandle)
    requires Spared(Endpoints(cs), Obligations(cs), broken, h) && e in broken
    requires Debts(cs') == Others(Debts(cs), {e}) && Untouched(p, q, Owed(cs, e))
    ensures Cleared(cs, p, cs', q, {e}, h)
  {
    var k := FindConnection(cs, e);
    if k < |cs| { assert Endpoints(cs)[k] == e && Obligations(cs)[k] == cs[k].outstanding; }
  }

  lemma ClearedEndpoints(first: seq<Connection>, p: Pool, cs: seq<Connection>, q: Pool, gone: set<nat>, h: ChunkHandle)
    requires Cleared(first, p, cs, q, gone, h)
    ensures forall e :: e in Endpoints(cs) <==> e in Endpoints(first) && e !in gone
  {
    OthersMembers(Debts(first), gone);
    forall e | e in Endpoints(cs) ensures e in Endpoints(first) && e !in gone {
      var k :| 0 <= k < |cs| && Endpoints(cs)[k] == e;
      assert Debts(cs)[k] in Debts(cs);
      var j :| 0 <= j < |first| && Debts(first)[j] == Debts(cs)[k];
      assert Endpoints(first)[j] == e;
    }
    forall e | e in Endpoints(first) && e !in gone ensures e in Endpoints(cs) {
      var k :| 0 <= k < |first| && Endpoints(first)[k] == e;
      assert Debts(first)[k] in Debts(cs);
      var j :| 0 <= j < |cs| && Debts(cs)[j] == Debts(first)[k];
      assert Endpoints(cs)[j] == e;
    }
  }

  // ---- taking release frames ----

  /**
  Since `first`, connection `i` has been receiving: a handle whose frame was waiting is not owed any
  more or its frame still waits. The other connections owe what they did.
  */
  ghost predicate Draining(first: seq<Connection>, cs: seq<Connection>, i: nat) {
    && i < |cs| == |first|
    && Debts(cs) == Debts(first)[i := Entry(first[i].endpoint, cs[i].outstanding)]
    && Grow(Frames(first), Frames(cs)[i := Frames(first)[i]])
    && forall h :: h in first[i].releases ==> h in cs[i].releases || h !in cs[i].outstanding
  }

  lemma DrainingNone(cs: seq<Connection>, i: nat)
    requires i < |cs|
    ensures Draining(cs, cs, i)
  {
    assert Debts(cs)[i := Entry(cs[i].endpoint, cs[i].outstanding)] == Debts(cs);
    assert Frames(cs)[i := Frames(cs)[i]] == Frames(cs);
  }

  lemma DrainingYield(first: seq<Connection>, cs: seq<Connection>, cs': seq<Connection>, i: nat)
    requires Draining(first, cs, i) && Obligations(cs') == Obligations(cs) && Endpoints(cs') == Endpoints(cs)
    requires Grow(Frames(cs), Frames(cs'))
    ensures Draining(first, cs', i)
  {
    SameDebts(cs, cs');
    var a, b, c := Frames(first), Frames(cs)[i := Frames(first)[i]], Frames(cs')[i := Frames(first)[i]];
    forall k | 0 <= k < |b| ensures b[k].endpoint == c[k].endpoint && b[k].handles <= c[k].handles {
      assert Frames(cs)[k].endpoint == Frames(cs')[k].endpoint;
    }
    GrowTwice(a, b, c);
    assert Debts(cs)[i] == Debts(cs')[i] && Frames(cs)[i].handles <= Frames(cs')[i].handles;
  }

  lemma SameDebts(cs: seq<Connection>, cs': seq<Connection>)
    requires Obligations(cs') == Obligations(cs) && Endpoints(cs') == Endpoints(cs)
    ensures Debts(cs') == Debts(cs)
  {
    forall k | 0 <= k < |cs| ensures Debts(cs')[k] == Debts(cs)[k] {
      assert Obligations(cs')[k] == Obligations(cs)[k] && Endpoints(cs')[k] == Endpoints(cs)[k];
    }
  }

  lemma DrainingReceive(first: seq<Connection>, cs: seq<Connection>, i: nat, p: Pool)
    requires Draining(first, cs, i) && Shaped(p) && cs[i].releases != [] && NoDup(cs[i].outstanding)
    ensures var c := cs[i];
            var c' := ReleaseOutstanding(p, c.(releases := c.releases[1..]), c.releases[0]).1;
            Draining(first, cs[i := c'], i)
  {
    var c := cs[i];
    var g := c.releases[0];
    var c' := ReleaseOutstanding(p, c.(releases := c.releases[1..]), g).1;
    var cs' := cs[i := c'];
    var k := Find(c.outstanding, g);
    if k < |c.outstanding| { DropFacts(c.outstanding, k); }
    assert Debts(cs') == Debts(cs)[i := Entry(c.endpoint, c'.outstanding)];
    assert Frames(cs')[i := Frames(first)[i]] == Frames(cs)[i := Frames(first)[i]];
    forall h | h in first[i].releases ensures h in c'.releases || h !in c'.outstanding {
      assert c.releases == [g] + c'.releases;
    }
  }

  /** Once no frame waits at connection `i`, its part of `waiting` has been taken in. */
  lemma DrainedNext(waiting: seq<Entry>, first: seq<Connection>, cs: seq<Connection>, i: nat)
    requires TakenIn(waiting, Frames(first), Debts(first), i) && Draining(first, cs, i) && cs[i].releases == []
    ensures TakenIn(waiting, Frames(cs), Debts(cs), i + 1)
  {
    assert Frames(cs)[i].endpoint == Debts(cs)[i].endpoint;
    TakenInNext(waiting, Frames(first), Debts(first), i, Frames(cs), Debts(cs));
  }

  /** Of all the frames, those of the connections still to be looked at, and of those that are done. */
  ghost predicate Waiting(waiting: seq<Entry>, all: seq<Entry>, hangups: set<nat>, cs: seq<Connection>, i: nat) {
    && TakenIn(waiting, Frames(cs), Debts(cs), i)
    && Others(waiting, hangups) == Others(all, hangups)
    && forall k :: 0 <= k < i ==> waiting[k].endpoint !in hangups
  }

  /** Connection `i` has been drained; whether it stays is still open. */
  lemma WaitedAt(waiting: seq<Entry>, all: seq<Entry>, hangups: set<nat>, first: seq<Connection>, cs: seq<Connection>,
                 i: nat)
    requires Waiting(waiting, all, hangups, first, i) && Draining(first, cs, i) && cs[i].releases == []
    ensures TakenIn(waiting, Frames(cs), Debts(cs), i + 1) && waiting[i].endpoint == cs[i].endpoint
    ensures cs[i].endpoint !in hangups ==> Waiting(waiting, all, hangups, cs, i + 1)
    ensures cs[i].endpoint in hangups ==> TakenIn(waiting[i := Frames(cs)[i]], Frames(cs), Debts(cs), i)
  {
    DrainedNext(waiting, first, cs, i);
    assert waiting[i].endpoint == Debts(cs)[i].endpoint;
  }

  lemma WaitingDrop(waiting: seq<Entry>, all: seq<Entry>, hangups: set<nat>, cs: seq<Connection>, cs': seq<Connection>,
                    i: nat)
    requires i < |waiting| && waiting[i].endpoint in hangups && Others(waiting, hangups) == Others(all, hangups)
    requires forall k :: 0 <= k < i ==> waiting[k].endpoint !in hangups
    requires i < |cs| && TakenIn(waiting[i := Frames(cs)[i]], Frames(cs), Debts(cs), i)
    requires Debts(cs') == Drop(Debts(cs), i) && Grow(Drop(Frames(cs), i), Frames(cs'))
    ensures Waiting(Drop(waiting, i), all, hangups, cs', i)
  {
    OthersDropGone(waiting, i, hangups);
    TakenInDrop(waiting[i := Frames(cs)[i]], Frames(cs), Debts(cs), i, Frames(cs'));
    assert Drop(waiting[i := Frames(cs)[i]], i) == Drop(waiting, i);
  }

  lemma AllWaited(waiting: seq<Entry>, all: seq<Entry>, hangups: set<nat>, cs: seq<Connection>)
    requires Waiting(waiting, all, hangups, cs, |cs|)
    ensures TakenIn(Others(all, hangups), Frames(cs), Debts(cs), |cs|)
  {
    OthersNone(waiting, hangups);
  }

  lemma GoneAt(cs: seq<Connection>, i: nat)
    requires NoDup(Endpoints(cs)) && i < |cs|
    ensures Find(Endpoints(cs), cs[i].endpoint) == i
    ensures Others(Debts(cs), {cs[i].endpoint}) == Drop(Debts(cs), i)
    ensures Others(Frames(cs), {cs[i].endpoint}) == Drop(Frames(cs), i)
  {
    assert Endpoints(cs)[i] == cs[i].endpoint;
    assert Find(Endpoints(cs), cs[i].endpoint) == i;
    DistinctEntries(cs);
    OthersDrop(Debts(cs), i);
    OthersDrop(Frames(cs), i);
  }

  /** Of the connections in `first` no listed one is missing, and the first `i` of those left are listed. */
  ghost predicate Pruning(first: seq<Connection>, cs: seq<Connection>, listed: set<nat>, i: nat) {
    && i <= |cs| && (forall k :: 0 <= k < i ==> cs[k].endpoint in listed)
    && SameListed(listed, Endpoints(first), Endpoints(cs))
    && Only(Debts(cs), listed) == Only(Debts(first), listed)
  }

  lemma PruningDrop(first: seq<Connection>, cs: seq<Connection>, cs': seq<Connection>, listed: set<nat>, i: nat)
    requires Pruning(first, cs, listed, i) && i < |cs| && cs[i].endpoint !in listed && NoDup(Endpoints(cs))
    requires Forgotten(cs[i].endpoint, cs, cs')
    ensures Pruning(first, cs', listed, i) && |cs'| == |cs| - 1
    ensures Endpoints(cs')[i..] == Endpoints(cs)[i + 1..]
  {
    var e := cs[i].endpoint;
    assert Endpoints(cs)[i] == e;
    WithoutAt(i, Endpoints(cs), Obligations(cs), Endpoints(cs'), Obligations(cs'));
    WithoutListed(e, Endpoints(cs), Obligations(cs), Endpoints(cs'), Obligations(cs'), listed);
    OnlyOthers(Debts(cs), e, listed);
    forall k | 0 <= k < i ensures cs'[k].endpoint in listed {
      assert Endpoints(cs')[..i][k] == Endpoints(cs)[..i][k];
    }
  }

  lemma PruningEnd(first: seq<Connection>, cs: seq<Connection>, listed: set<nat>)
    requires Pruning(first, cs, listed, |cs|)
    ensures forall e :: e in Endpoints(cs) <==> e in listed && e in Endpoints(first)
    ensures Debts(cs) == Only(Debts(first), listed)
  {
    AllListed(cs, listed);
  }

  lemma AllListed(cs: seq<Connection>, listed: set<nat>)
    requires forall e :: e in Endpoints(cs) ==> e in listed
    ensures Only(Debts(cs), listed) == Debts(cs)
  {
    forall k | 0 <= k < |cs| ensures Debts(cs)[k].endpoint in listed {
      assert Endpoints(cs)[k] in Endpoints(cs);
    }
    OnlyAll(Debts(cs), listed);
  }

  /** Giving back a handle that is owed takes exactly it from what is owed. */
  lemma ReleaseOwed(p: Pool, c: Connection)
    requires Shaped(p) && c.releases != []
    ensures var h := c.releases[0];
            var (q, d) := ReleaseOutstanding(p, c.(releases := c.releases[1..]), h);
            if h in c.outstanding then
              multiset(d.outstanding) == multiset(c.outstanding) - multiset{h} && q == ReleaseReference(p, h).0
            else d.outstanding == c.outstanding && q == p
  {
    var k := Find(c.outstanding, c.releases[0]);
    if k < |c.outstanding| { DropFacts(c.outstanding, k); }
  }

  lemma EndpointsDistinct(start: System, trace: seq<Step>, s: System)
    requires Reaches(start, trace, s)
    ensures NoDup(Endpoints(s.connections))
  {
    ReachesInv(start, trace, s);
  }

  /**
  Of `ids`, those still in `now`: only hangups are missing, the missing ones are tombstoned, and
  the first `i` are no hangups.
  */
  ghost predicate Sifted(ids: seq<nat>, now: seq<nat>, i: nat, hangups: set<nat>, before: set<nat>, failed: set<nat>) {
    && i <= |now|
    && (forall j :: 0 <= j < i ==> now[j] !in hangups)
    && (forall e :: e in now ==> e in ids)
    && (forall e :: e in ids && e !in hangups ==> e in now)
    && failed == before + set e | e in ids && e !in now
  }

  lemma SiftOut(ids: seq<nat>, now: seq<nat>, i: nat, hangups: set<nat>, before: set<nat>, failed: set<nat>)
    requires Sifted(ids, now, i, hangups, before, failed) && NoDup(now) && i < |now| && now[i] in hangups
    ensures Sifted(ids, Drop(now, i), i, hangups, before, failed + {now[i]})
  {
    DropFacts(now, i);
    var now' := Drop(now, i);
    assert (set e | e in ids && e !in now') == (set e | e in ids && e !in now) + {now[i]};
  }
}
