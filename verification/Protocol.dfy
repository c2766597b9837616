/**
One publisher session and its subscribers as a state machine. A step is one critical section
or one message: subscriber steps, registry steps and publisher steps interleave freely, except
that the publisher's own calls are serialised (its program counter says where it is in a call).
*/
module Protocol {
  import opened Basics
  import opened PoolModel
  import opened RingModel

  /** A SampleView: the reference it holds and what its reader saw when it was taken. */
  datatype View = View(handle: ChunkHandle, sequence: nat, payload: seq<Byte>)

  /**
  Where the subscriber is in waitAndTakeView: outside it, draining wake frames, about to peek,
  between peek and dequeue, about to poll its socket, or detached from this publisher for good.
  */
  datatype SubscriberPc = Outside | DrainingWakes | Looping | Peeked | Polling | Detached

  /**
  A data connection. The publisher owns `outstanding`; `ring` is the shared queue; the rest is the
  subscriber side: views held, release frames in flight, unread wake frames, the pool it has
  mapped, and the sequences it has read from this publisher. `wasEmpty` records that the ring has
  been empty at some moment since the publisher connected, the moment it connected included.
  */
  datatype Connection = Connection(
    endpoint: nat,
    maxSize: nat,
    outstanding: seq<ChunkHandle>,
    ring: Ring,
    views: seq<View>,
    releases: seq<ChunkHandle>,
    wakes: nat,
    installed: Option<nat>,
    pc: SubscriberPc,
    readLog: seq<nat>,
    wasEmpty: bool)

  /** Progress of dispatchPublished at one connection. */
  datatype Phase = Start | Referenced | Enqueued(dropped: Option<ChunkHandle>) | Refused

  datatype PublisherPc =
    | Idle
    | Dispatching(handle: ChunkHandle, index: nat, phase: Phase, broken: seq<nat>)
    | Removing(endpoints: seq<nat>, tombstone: bool, joining: Option<seq<nat>>)
    | Connecting(order: seq<nat>)

  datatype Loan = Loan(handle: ChunkHandle, size: nat)

  /**
  `published` logs the payload dispatched under each sequence, `seen` the endpoints ever connected;
  `registered` and `nextEndpoint` are the registry's current subscribers and its next fresh id.
  */
  datatype System = System(
    pool: Pool,
    maxSize: nat,
    connections: seq<Connection>,
    pc: PublisherPc,
    sequence: nat,
    published: map<nat, seq<Byte>>,
    failed: set<nat>,
    loans: seq<Loan>,
    negotiated: nat,
    registered: set<nat>,
    nextEndpoint: nat,
    seen: set<nat>)

  /** What the environment decides about one enqueue attempt. */
  datatype Attempt = EncodeFails | LockFails | TimesOut | Acts(delivered: bool)

  datatype Step =
    // subscriber `i`
    | Enter(i: nat)
    | DrainWake(i: nat)
    | Drained(i: nat)
    | Peek(i: nat)
    | Dequeue(i: nat, foreignReads: bool)
    | PollWake(i: nat, opens: bool)
    | PollEnd(i: nat)
    | ReleaseView(i: nat, k: nat)
    | Reset(i: nat, deadPool: nat, detach: bool)
    | CloseAndDrain(i: nat)
    | Die(i: nat)
    | OwnerDies(i: nat)
    | CloseByRegistry(i: nat)
    // registry
    | Join
    | Leave(endpoint: nat)
    // publisher, between calls
    | ReceiveRelease(i: nat)
    | Remove(endpoint: nat)
    | Discover(found: seq<nat>)
    | LoanChunk(size: nat)
    | FillLoan(k: nat, data: seq<Byte>)
    | CancelLoan(k: nat)
    | PublishLoan(k: nat, timestamp: nat)
    | PublishCopy(data: seq<Byte>, timestamp: nat)
    // publisher, inside a call
    | RemoveNext
    | ConnectNext(peer: Option<Connection>)
    | AddRef
    | TryEnqueue(attempt: Attempt)
    | Settle
    | DropGuard

  function Update(s: System, i: nat, c: Connection): System
    requires i < |s.connections|
  {
    s.(connections := s.connections[i := c])
  }

  /** The position of the connection to `endpoint`, or the number of connections. */
  function FindConnection(cs: seq<Connection>, endpoint: nat): (k: nat)
    ensures k <= |cs|
    ensures k < |cs| ==> cs[k].endpoint == endpoint
    ensures forall j :: 0 <= j < k ==> cs[j].endpoint != endpoint
  {
    if cs == [] || cs[0].endpoint == endpoint then 0 else 1 + FindConnection(cs[1..], endpoint)
  }

  // ---- subscriber steps ----

  /** What tryTakeQueued makes of a handle it has dequeued. */
  function Take(p: Pool, c: Connection, h: ChunkHandle, foreignReads: bool): Option<View>
    requires Shaped(p)
  {
    if c.installed == Some(p.id) then
      var r := Read(p, p.id, h, c.maxSize);
      if r.error == Ok then Some(View(h, r.sequence, r.payload)) else None
    else if c.installed == Some(h.poolId) && foreignReads then Some(View(h, 0, []))
    else None
  }

  /** The connection with `ring` in place of its own. */
  function WithRing(c: Connection, ring: Ring): Connection {
    c.(ring := ring, wasEmpty := c.wasEmpty || ring.items == [])
  }

  function DequeueStep(p: Pool, c: Connection, foreignReads: bool): Connection
    requires Shaped(p)
  {
    var (ring, taken) := TryDequeue(c.ring);
    if taken.None? then c.(pc := Polling)
    else
      var h := taken.value;
      match Take(p, c, h, foreignReads)
      case None => WithRing(c, ring).(releases := c.releases + [h], pc := Outside)
      case Some(v) =>
        WithRing(c, ring).(views := c.views + [v], pc := Outside,
                           readLog := if h.poolId == p.id then c.readLog + [v.sequence] else c.readLog)
  }

  /**
  receiveWakeAvailable on a frame of this publisher: the first one maps its pool if that can be
  opened, and a frame for a pool other than the one mapped costs the connection.
  */
  function ReadWake(p: Pool, c: Connection, opens: bool): Connection
    requires c.wakes > 0
  {
    var c' := c.(wakes := c.wakes - 1);
    if c.installed.None? && opens then c'.(installed := Some(p.id), pc := Looping)
    else if c.installed == Some(p.id) then c'.(pc := Looping)
    else c'.(pc := Detached)
  }

  predicate CanTake(c: Connection) {
    c.installed.Some? && c.ring.items != [] && c.installed == Some(c.ring.items[0].poolId)
  }

  predicate SubscriberStep(step: Step) {
    step.Enter? || step.DrainWake? || step.Drained? || step.Peek? || step.Dequeue? || step.PollWake?
    || step.PollEnd? || step.ReleaseView? || step.Reset? || step.CloseAndDrain? || step.Die?
    || step.OwnerDies? || step.CloseByRegistry?
  }

  predicate SubscriberEnabled(c: Connection, step: Step)
    requires SubscriberStep(step)
  {
    match step
    case Enter(_) => c.pc == Outside
    case DrainWake(_) => c.pc == DrainingWakes && c.installed.Some? && c.wakes > 0
    case Drained(_) => c.pc == DrainingWakes && (c.installed.None? || c.wakes == 0)
    case Peek(_) => c.pc == Looping
    case Dequeue(_, _) => c.pc == Peeked
    case PollWake(_, _) => c.pc == Polling && c.wakes > 0
    case PollEnd(_) => c.pc == Polling
    case ReleaseView(_, k) => k < |c.views|
    case Reset(_, deadPool, detach) => detach || deadPool != 0
    case CloseAndDrain(_) => true
    case Die(_) => true
    case OwnerDies(_) => true
    case CloseByRegistry(_) => true
  }

  function SubscriberNext(p: Pool, c: Connection, step: Step): Connection
    requires Shaped(p) && SubscriberStep(step) && SubscriberEnabled(c, step)
  {
    match step
    case Enter(_) => c.(pc := DrainingWakes)
    case DrainWake(_) => ReadWake(p, c, true).(pc := if c.installed == Some(p.id) then DrainingWakes else Detached)
    case Drained(_) => c.(pc := Looping)
    case Peek(_) => c.(pc := if CanTake(c) then Peeked else Polling)
    case Dequeue(_, foreignReads) => DequeueStep(p, c, foreignReads)
    case PollWake(_, opens) => ReadWake(p, c, opens)
    case PollEnd(_) => c.(pc := Outside)
    case ReleaseView(_, k) => c.(views := Drop(c.views, k), releases := c.releases + [c.views[k].handle])
    case Reset(_, deadPool, detach) =>
      // A mapping of the dead pool goes, and another publisher's can be mapped in its place.
      WithRing(c, DiscardPool(c.ring, deadPool))
      .(pc := if detach then Detached else c.pc,
        installed := if c.installed == Some(deadPool) then None else c.installed)
    case CloseAndDrain(_) =>
      // The drained handles are released one by one afterwards, like views.
      WithRing(c, Drain(c.ring).0.(closed := true))
      .(pc := Detached,
        views := c.views + seq(|c.ring.items|, k requires 0 <= k < |c.ring.items| => ViewOf(p, c.ring.items[k])))
    case Die(_) => c.(views := [], pc := Detached)
    case OwnerDies(_) => WithRing(c, c.ring.(items := []))
    case CloseByRegistry(_) => WithRing(c, c.ring.(items := [], closed := true))
  }

  /** A handle drained unread, with what its chunk holds. */
  function ViewOf(p: Pool, h: ChunkHandle): (v: View)
    ensures v.handle == h
  {
    if h.chunk < |p.chunks| then
      var c := p.chunks[h.chunk];
      View(h, c.sequence, if c.payloadSize <= |c.payload| then c.payload[..c.payloadSize] else [])
    else View(h, 0, [])
  }

  // ---- publisher steps ----

  /** Publisher::Impl::releaseOutstanding on one connection. */
  function ReleaseOutstanding(p: Pool, c: Connection, h: ChunkHandle): (r: (Pool, Connection))
    requires Shaped(p)
    ensures Shaped(r.0)
  {
    var k := Find(c.outstanding, h);
    if k == |c.outstanding| then (p, c)
    else (ReleaseReference(p, h).0, c.(outstanding := Drop(c.outstanding, k)))
  }

  function ReceiveReleaseStep(s: System, i: nat): System
    requires Shaped(s.pool) && i < |s.connections| && s.connections[i].releases != []
  {
    var c := s.connections[i];
    var (p, c') := ReleaseOutstanding(s.pool, c.(releases := c.releases[1..]), c.releases[0]);
    Update(s, i, c').(pool := p)
  }

  /** The endpoints of connections that the registry no longer lists, in order. */
  function Vanished(cs: seq<Connection>, registered: set<nat>): (r: seq<nat>)
    ensures forall e :: e in r ==> e !in registered
  {
    if cs == [] then []
    else
      (if cs[0].endpoint in registered then [] else [cs[0].endpoint]) + Vanished(cs[1..], registered)
  }

  function DiscoverStep(s: System, found: seq<nat>): System {
    s.(failed := s.failed * s.registered,
       pc := Removing(Vanished(s.connections, s.registered), false, Some(found)))
  }

  function RemoveNextStep(s: System): System
    requires Shaped(s.pool) && s.pc.Removing?
  {
    if s.pc.endpoints == [] then
      s.(pc := match s.pc.joining case None => Idle case Some(order) => Connecting(order))
    else
      var e := s.pc.endpoints[0];
      var k := FindConnection(s.connections, e);
      if k < |s.connections| && s.connections[k].outstanding != [] then
        var c := s.connections[k];
        Update(s, k, c.(outstanding := c.outstanding[1..]))
        .(pool := ReleaseReference(s.pool, c.outstanding[0]).0)
      else
        Forget(s, if k < |s.connections| then Drop(s.connections, k) else s.connections)
  }

  /** The endpoint being removed is done with; `cs` are the connections that remain. */
  function Forget(s: System, cs: seq<Connection>): System
    requires s.pc.Removing? && s.pc.endpoints != []
  {
    s.(connections := cs,
       failed := if s.pc.tombstone then s.failed + {s.pc.endpoints[0]} else s.failed,
       pc := s.pc.(endpoints := s.pc.endpoints[1..]))
  }

  /** The smallest limit among the publisher's own and its connections'. */
  function Negotiate(maxSize: nat, cs: seq<Connection>): (n: nat)
    ensures n <= maxSize
    ensures forall i :: 0 <= i < |cs| ==> n <= cs[i].maxSize
    ensures n == maxSize || exists i :: 0 <= i < |cs| && n == cs[i].maxSize
  {
    if cs == [] then maxSize
    else
      var n := Negotiate(maxSize, cs[..|cs| - 1]);
      Min(n, cs[|cs| - 1].maxSize)
  }

  /** A connection as it is when the publisher has just opened it. */
  predicate NewPeer(c: Connection, endpoint: nat) {
    && c.endpoint == endpoint
    && c.outstanding == [] && c.readLog == [] && c.wakes == 0
    && c.pc != Detached
    && (c.wasEmpty <==> c.ring.items == [])
    && 0 < c.ring.capacity && |c.ring.items| <= c.ring.capacity
  }

  /** The subscriber has not mapped this pool, and neither it nor the ring holds a handle of it. */
  ghost predicate NoneOf(c: Connection, poolId: nat) {
    && c.installed != Some(poolId)
    && (forall k :: 0 <= k < |c.ring.items| ==> c.ring.items[k].poolId != poolId)
    && (forall k :: 0 <= k < |c.views| ==> c.views[k].handle.poolId != poolId)
    && (forall k :: 0 <= k < |c.releases| ==> c.releases[k].poolId != poolId)
  }

  function ConnectNextStep(s: System, peer: Option<Connection>): System
    requires s.pc.Connecting?
  {
    if s.pc.order == [] then
      s.(negotiated := Negotiate(s.maxSize, s.connections), pc := Idle)
    else
      var e := s.pc.order[0];
      var s' := s.(pc := Connecting(s.pc.order[1..]));
      if FindConnection(s.connections, e) < |s.connections| || e in s.failed then s'
      else if peer.None? then s'.(failed := s.failed + {e})
      else s'.(connections := s.connections + [peer.value], seen := s.seen + {e})
  }

  function AddRefStep(s: System): System
    requires Shaped(s.pool) && s.pc.Dispatching? && s.pc.index < |s.connections|
  {
    var c := s.connections[s.pc.index];
    if |c.outstanding| >= |s.pool.chunks| then s.(pc := s.pc.(index := s.pc.index + 1))
    else
      var (p, e) := AddReference(s.pool, s.pc.handle);
      if e != Ok then s.(pc := s.pc.(index := s.pc.index + 1))
      else s.(pool := p, pc := s.pc.(phase := Referenced))
  }

  function TryEnqueueStep(s: System, attempt: Attempt): System
    requires s.pc.Dispatching? && s.pc.index < |s.connections|
    requires ValidRing(s.connections[s.pc.index].ring)
    requires attempt.Acts? ==> !Waits(s.connections[s.pc.index].ring)
  {
    if !attempt.Acts? then s.(pc := s.pc.(phase := Refused))
    else
      var c := s.connections[s.pc.index];
      var (ring, x) := EnqueueNow(c.ring, s.pc.handle, if attempt.delivered then Sends else Fails);
      var s' := Update(s, s.pc.index, c.(ring := ring, wakes := c.wakes + if x.notified then 1 else 0));
      if x.status == Accepted then s'.(pc := s.pc.(phase := Enqueued(x.dropped)))
      else if x.status == Closed || x.status == NotificationFailed then
        s'.(pc := s.pc.(phase := Refused, broken := s.pc.broken + [c.endpoint]))
      else s'.(pc := s.pc.(phase := Refused))
  }

  function SettleStep(s: System): System
    requires Shaped(s.pool) && s.pc.Dispatching? && s.pc.index < |s.connections|
  {
    var next := s.pc.(index := s.pc.index + 1, phase := Start);
    if s.pc.phase.Enqueued? then
      var c := s.connections[s.pc.index].(outstanding := s.connections[s.pc.index].outstanding + [s.pc.handle]);
      var (p, c') := if s.pc.phase.dropped.Some? then ReleaseOutstanding(s.pool, c, s.pc.phase.dropped.value)
                     else (s.pool, c);
      Update(s, s.pc.index, c').(pool := p, pc := next)
    else
      s.(pool := ReleaseReference(s.pool, s.pc.handle).0, pc := next)
  }

  function DropGuardStep(s: System): System
    requires Shaped(s.pool) && s.pc.Dispatching?
  {
    s.(pool := ReleaseReference(s.pool, s.pc.handle).0, sequence := s.sequence + 1,
       pc := Removing(s.pc.broken, true, None))
  }

  function LoanStep(s: System, size: nat): System
    requires Shaped(s.pool)
  {
    var (p, a) := Allocate(s.pool, size);
    if a.error != Ok then s else s.(pool := p, loans := s.loans + [Loan(a.handle, size)])
  }

  function CancelLoanStep(s: System, k: nat): System
    requires Shaped(s.pool) && k < |s.loans|
  {
    s.(pool := Cancel(s.pool, s.loans[k].handle).0, loans := Drop(s.loans, k))
  }

  /** Chunk `h` of pool `q` has been published: log its payload and begin offering it. */
  function StartDispatch(s: System, q: Pool, h: ChunkHandle, loans: seq<Loan>): System {
    s.(pool := q, loans := loans, published := s.published[s.sequence + 1 := ViewOf(q, h).payload],
       pc := Dispatching(h, 0, Start, []))
  }

  function PublishLoanStep(s: System, k: nat, timestamp: nat): System
    requires Shaped(s.pool) && k < |s.loans|
  {
    var loan := s.loans[k];
    if loan.size > s.negotiated then CancelLoanStep(s, k)
    else
      var (p, e) := PublishLoaned(s.pool, loan.handle, loan.size, s.sequence + 1, timestamp, 1);
      if e != Ok then CancelLoanStep(s, k)
      else StartDispatch(s, p, loan.handle, Drop(s.loans, k))
  }

  function PublishCopyStep(s: System, data: seq<Byte>, timestamp: nat): System
    requires Shaped(s.pool)
  {
    var (p, a) := Allocate(s.pool, |data|);
    if a.error != Ok then s
    else
      var (p', e) := WriteAndPublish(p, a.handle, data, s.sequence + 1, timestamp, 1);
      if e != Ok then s.(pool := Cancel(p, a.handle).0)
      else StartDispatch(s, p', a.handle, s.loans)
  }

  // ---- the machine ----

  ghost predicate Enabled(s: System, step: Step) {
    if SubscriberStep(step) then
      && step.i < |s.connections| && SubscriberEnabled(s.connections[step.i], step)
      // The subscriber stays attached only when it is another publisher's pool that died.
      && (step.Reset? && !step.detach ==> step.deadPool != s.pool.id)
    else
      match step
      case Join => true
      case Leave(_) => true
      case ReceiveRelease(i) => s.pc.Idle? && i < |s.connections| && s.connections[i].releases != []
      case Remove(_) => s.pc.Idle?
      case Discover(found) =>
        s.pc.Idle? && NoDup(found) && (forall e :: e in found <==> e in s.registered)
      case LoanChunk(size) => s.pc.Idle? && size <= s.maxSize
      case FillLoan(k, data) => k < |s.loans| && |data| <= s.loans[k].size
      case CancelLoan(k) => s.pc.Idle? && k < |s.loans|
      case PublishLoan(k, _) => s.pc.Idle? && k < |s.loans|
      case PublishCopy(data, _) => s.pc.Idle? && |data| <= s.negotiated
      case RemoveNext => s.pc.Removing?
      case ConnectNext(peer) =>
        && s.pc.Connecting?
        && (s.pc.order != [] && peer.Some? ==>
              && NewPeer(peer.value, s.pc.order[0])
              // Only this publisher puts handles of its pool anywhere.
              && (s.pc.order[0] !in s.seen ==> NoneOf(peer.value, s.pool.id)))
      case AddRef => s.pc.Dispatching? && s.pc.phase.Start? && s.pc.index < |s.connections|
      case TryEnqueue(attempt) =>
        && s.pc.Dispatching? && s.pc.phase.Referenced? && s.pc.index < |s.connections|
        && var r := s.connections[s.pc.index].ring;
        && ValidRing(r)
        // A wait that ends at its deadline has timed out even if there is room by then.
        && (attempt.Acts? ==> !Waits(r)) && (attempt.TimesOut? ==> r.policy == BlockWithTimeout)
      case Settle =>
        && s.pc.Dispatching? && s.pc.index < |s.connections|
        && (s.pc.phase.Enqueued? || s.pc.phase.Refused?)
      case DropGuard => s.pc.Dispatching? && s.pc.phase.Start? && s.pc.index >= |s.connections|
      case _ => false
  }

  ghost function Next(s: System, step: Step): System
    requires Shaped(s.pool) && Enabled(s, step)
  {
    if SubscriberStep(step) then
      Update(s, step.i, SubscriberNext(s.pool, s.connections[step.i], step))
    else
      match step
      case Join => s.(registered := s.registered + {s.nextEndpoint}, nextEndpoint := s.nextEndpoint + 1)
      case Leave(e) => s.(registered := s.registered - {e})
      case ReceiveRelease(i) => ReceiveReleaseStep(s, i)
      case Remove(e) => s.(pc := Removing([e], true, None))
      case Discover(found) => DiscoverStep(s, found)
      case LoanChunk(size) => LoanStep(s, size)
      case FillLoan(k, data) => s.(pool := WriteLoan(s.pool, s.loans[k].handle, data))
      case CancelLoan(k) => CancelLoanStep(s, k)
      case PublishLoan(k, timestamp) => PublishLoanStep(s, k, timestamp)
      case PublishCopy(data, timestamp) => PublishCopyStep(s, data, timestamp)
      case RemoveNext => RemoveNextStep(s)
      case ConnectNext(peer) => ConnectNextStep(s, peer)
      case AddRef => AddRefStep(s)
      case TryEnqueue(attempt) => TryEnqueueStep(s, attempt)
      case Settle => SettleStep(s)
      case DropGuard => DropGuardStep(s)
      case _ => s
  }
}
