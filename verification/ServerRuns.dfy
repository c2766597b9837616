/**
The registry server as a state machine: everything that reaches it one event at a time, and what
becomes of each request over a whole run.
*/
module ServerRuns {
  import opened Basics
  import opened RegistryModel
  import opened RegistryLemmas
  import opened RegistryRemoval
  import opened RegistryCleanup
  import opened RegistryRuns
  import opened RegistryState
  import opened RegistryServer

  /** A frame from a client. The queries, and whatever cannot be decoded, only get an answer. */
  datatype Request =
    | RegisterNode(name: string, now: int)
    | UnregisterNode(node: nat)
    | AdvertiseTopic(node: nat, spec: TopicSpec, pool: PoolInfo)
    | UnadvertiseTopic(node: nat, endpoint: nat)
    | SubscribeTopic(node: nat, spec: TopicSpec, path: string, queue: QueueInfo)
    | UnsubscribeTopic(node: nat, endpoint: nat)
    | ResolveEndpoint(node: nat, endpoint: nat)
    | AttachHeartbeat(node: nat, session: nat)
    | SendHeartbeat(node: nat, session: nat, now: int)
    | Query(error: ErrorCode)

  datatype Event = Connect(fd: nat) | Ask(fd: nat, id: nat, request: Request) | HangUp(fd: nat) | Tick(now: int)

  datatype Snapshot = Snapshot(
    reg: Reg, clients: map<nat, nat>, next: nat, pending: map<nat, Parked>, answers: seq<Answer>)

  const START: Snapshot := Snapshot(EMPTY, map[], 1, map[], [])

  ghost predicate SnapOk(s: Snapshot) {
    RegInv(s.reg) && ClientsOk(s.clients, s.next) && PendingOk(s.reg, s.clients, s.pending)
  }

  // ---- one event ----

  /** A limit that does not fit in 32 bits is refused before the registry is asked at all. */
  predicate TooWide(spec: TopicSpec) {
    spec.maxSize >= U32_LIMIT
  }

  /** What a request does to the registry, and the code it is answered with. */
  ghost function Carry(r: Reg, c: nat, q: Request): (Reg, ErrorCode)
    requires RegInv(r)
  {
    match q
    case RegisterNode(name, now) => Register(r, c, name, now)
    case UnregisterNode(n) => Unregister(r, c, n)
    case AdvertiseTopic(n, spec, pool) =>
      if TooWide(spec) then (r, InvalidArgument) else Advertise(r, c, n, spec, pool)
    case UnadvertiseTopic(n, e) => Unadvertise(r, c, n, e)
    case SubscribeTopic(n, spec, path, queue) =>
      if TooWide(spec) then (r, InvalidArgument) else Subscribe(r, c, n, spec, path, queue)
    case UnsubscribeTopic(n, e) => Unsubscribe(r, c, n, e)
    case ResolveEndpoint(n, e) => (r, ResolveError(r, c, n, e))
    case AttachHeartbeat(n, session) => Attach(r, c, n, session)
    case SendHeartbeat(n, session, now) => Heartbeat(r, c, n, session, now)
    case Query(error) => (r, error)
  }

  /** A resolve request for a topic that has no subscriber is parked instead of answered. */
  ghost predicate Parks(r: Reg, c: nat, q: Request) {
    q.ResolveEndpoint? && ResolveError(r, c, q.node, q.endpoint) == TopicNotFound
  }

  ghost predicate Serves(s: Snapshot, fd: nat, id: nat, q: Request, s': Snapshot)
    requires RegInv(s.reg) && fd in s.clients
  {
    var c := s.clients[fd];
    var (r, error) := Carry(s.reg, c, q);
    var log := s.answers + [Answer(fd, id, error)];
    && s'.reg == r && s'.clients == s.clients && s'.next == s.next
    && if Parks(s.reg, c, q) then
         s'.pending == s.pending[q.endpoint := Parked(fd, c, q.node, id)] && s'.answers == s.answers
       else if q.SubscribeTopic? then Completed(r, error, s.pending, s'.pending, log, s'.answers)
       else
         && s'.answers == log
         && s'.pending == if q.UnadvertiseTopic? then s.pending - {q.endpoint}
                          else if q.UnregisterNode? then WithPublisher(s.pending, r.pubs) else s.pending
  }

  /** The nodes `ids` die, and their connections close. */
  ghost predicate Buries(s: Snapshot, r: Reg, gone: set<nat>, s': Snapshot) {
    && s'.reg == r && s'.next == s.next && s'.answers == s.answers
    && Departs(s.clients, s.pending, s'.clients, s'.pending, gone, r.pubs)
  }

  ghost predicate Next(t: Timing, s: Snapshot, ev: Event, s': Snapshot) {
    && RegInv(s.reg)
    && match ev
       case Connect(fd) => fd !in s.clients && s' == s.(clients := s.clients[fd := s.next], next := s.next + 1)
       case Ask(fd, id, q) => fd in s.clients && Serves(s, fd, id, q, s')
       case HangUp(fd) =>
         && fd in s.clients
         && var c := s.clients[fd];
            Buries(s, Disconnect(s.reg, c), {c} + LinesIn(s.reg, DroppedBy(s.reg, c)), s')
       case Tick(now) => Buries(s, Evaluate(s.reg, now, t), LinesIn(s.reg, ExpiredBy(s.reg, now, t)), s')
  }

  /** The connections of the nodes `ids`: those that control them and those they beat through. */
  ghost function LinesIn(r: Reg, ids: seq<nat>): set<nat> {
    if ids == [] then {}
    else
      var n := ids[|ids| - 1];
      LinesIn(r, ids[..|ids| - 1]) + if n in r.nodes then {r.nodes[n].control, r.nodes[n].heartbeat} else {}
  }

  // ---- the server takes these steps ----

  lemma {:induction false} PlanLines(r: Reg, ids: seq<nat>, plans: seq<Plan>)
    requires PlansOf(r, ids, plans)
    ensures LinesOf(plans) == LinesIn(r, ids)
  {
    if ids != [] {
      var k := |ids| - 1;
      FrontPlans(r, ids, plans, k);
      PlanLines(r, ids[..k], plans[..k]);
      LastPlan(r, ids, plans);
    }
  }

  lemma LastPlan(r: Reg, ids: seq<nat>, plans: seq<Plan>)
    requires PlansOf(r, ids, plans) && ids != []
    ensures var k := |ids| - 1;
            && ids[k] in r.nodes && plans[k].control == r.nodes[ids[k]].control
            && plans[k].heartbeat == r.nodes[ids[k]].heartbeat
  {
    var k := |ids| - 1;
    WithoutAllNodes(r, ids[..k]);
    assert plans[k] == PlanOf(WithoutAll(r, ids[..k]), ids[k]);
  }

  lemma MarkedLines(r: Reg, now: int, t: Timing, ids: seq<nat>)
    ensures LinesIn(MarkAll(r, now, t), ids) == LinesIn(r, ids)
    decreases |ids|
  {
    if ids != [] { MarkedLines(r, now, t, ids[..|ids| - 1]); }
  }

  ghost function Snap(v: Server): Snapshot
    reads v, v.registry
  {
    Snapshot(v.registry.State(), v.clients, v.nextConnection, v.pending, v.answers)
  }

  /** A new server is at the start of every run. */
  method Launch(timing: Timing) returns (v: Server)
    requires ValidTiming(timing)
    ensures fresh(v) && fresh(v.registry) && v.Valid() && v.registry.timing == timing && Snap(v) == START
  {
    EmptyHolds();
    var registry := new Registry(timing);
    v := new Server(registry);
  }

  /** The event can happen: a new descriptor is not in use, and only a client there is asks or hangs up. */
  predicate Possible(clients: map<nat, nat>, ev: Event) {
    (ev.Connect? ==> ev.fd !in clients) && (ev.Ask? || ev.HangUp? ==> ev.fd in clients)
  }

  /** The server run on any events: the states it passes through are a run of the state machine. */
  method Serve(timing: Timing, events: seq<Event>)
    returns (v: Server, taken: seq<Event>, ghost states: seq<Snapshot>)
    requires ValidTiming(timing)
    ensures v.Valid() && |states| == |taken| + 1 && states[0] == START && states[|taken|] == Snap(v)
    ensures forall k {:trigger taken[k]} :: 0 <= k < |taken| ==> Next(timing, states[k], taken[k], states[k + 1])
  {
    v := Launch(timing);
    taken, states := [], [Snap(v)];
    var k := 0;
    while k < |events|
      invariant 0 <= k <= |events| && fresh(v) && fresh(v.registry) && v.Valid() && v.registry.timing == timing
      invariant |states| == |taken| + 1 && states[0] == START && states[|taken|] == Snap(v)
      invariant forall i {:trigger taken[i]} :: 0 <= i < |taken| ==> Next(timing, states[i], taken[i], states[i + 1])
    {
      if Possible(v.clients, events[k]) {
        Handle(v, events[k]);
        taken, states := taken + [events[k]], states + [Snap(v)];
      }
      k := k + 1;
    }
  }

  /** pollOnce, for one event: the server does what the step says. */
  method Handle(v: Server, ev: Event)
    requires v.Valid() && Possible(v.clients, ev)
    modifies v, v.registry
    ensures v.Valid() && Next(v.registry.timing, old(Snap(v)), ev, Snap(v))
  {
    match ev
    case Connect(fd) => v.Accept(fd);
    case Ask(fd, id, q) => Dispatch(v, fd, id, q);
    case HangUp(fd) =>
      ghost var r, c := v.registry.State(), v.clients[fd];
      ghost var plans := v.RemoveClient(fd);
      PlanLines(r, DroppedBy(r, c), plans);
    case Tick(now) =>
      ghost var r := v.registry.State();
      ghost var plans := v.Expire(now);
      PlanLines(MarkAll(r, now, v.registry.timing), ExpiredBy(r, now, v.registry.timing), plans);
      MarkedLines(r, now, v.registry.timing, ExpiredBy(r, now, v.registry.timing));
  }

  method Dispatch(v: Server, fd: nat, id: nat, q: Request)
    requires v.Valid() && fd in v.clients
    modifies v`pending, v`notices, v`answers, v.registry
    ensures v.Valid() && Serves(old(Snap(v)), fd, id, q, Snap(v))
  {
    match q
    case AdvertiseTopic(n, spec, pool) =>
      if TooWide(spec) { v.Respond(fd, id, InvalidArgument); } else { v.Advertise(fd, id, n, spec, pool); }
    case UnadvertiseTopic(n, e) => v.Unadvertise(fd, id, n, e);
    case SubscribeTopic(n, spec, path, queue) =>
      if TooWide(spec) { v.Respond(fd, id, InvalidArgument); } else { v.Subscribe(fd, id, n, spec, path, queue); }
    case UnsubscribeTopic(n, e) => v.Unsubscribe(fd, id, n, e);
    case ResolveEndpoint(n, e) => v.Resolve(fd, id, n, e);
    case Query(error) => v.Respond(fd, id, error);
    case _ => DispatchNode(v, fd, id, q);
  }

  /** The requests about a node as a whole. */
  method DispatchNode(v: Server, fd: nat, id: nat, q: Request)
    requires v.Valid() && fd in v.clients
    requires q.RegisterNode? || q.UnregisterNode? || q.AttachHeartbeat? || q.SendHeartbeat?
    modifies v`pending, v`notices, v`answers, v.registry
    ensures v.Valid() && Serves(old(Snap(v)), fd, id, q, Snap(v))
  {
    match q
    case RegisterNode(name, now) => v.Register(fd, id, name, now);
    case UnregisterNode(n) => v.Unregister(fd, id, n);
    case AttachHeartbeat(n, session) => v.Attach(fd, id, n, session);
    case SendHeartbeat(n, session, now) => var events := v.Heartbeat(fd, id, n, session, now);
  }

  // ---- every step keeps the server's invariant ----

  lemma CarryKeeps(r: Reg, c: nat, q: Request)
    requires RegInv(r)
    ensures RegInv(Carry(r, c, q).0)
  {
    if q.AdvertiseTopic? || q.SubscribeTopic? { CarryEndpointKeeps(r, c, q); } else { CarryOtherKeeps(r, c, q); }
  }

  lemma CarryEndpointKeeps(r: Reg, c: nat, q: Request)
    requires RegInv(r) && (q.AdvertiseTopic? || q.SubscribeTopic?)
    ensures RegInv(Carry(r, c, q).0)
  {
    if TooWide(q.spec) {
    } else if q.AdvertiseTopic? {
      AdvertiseKeeps(r, c, q.node, q.spec, q.pool);
    } else {
      SubscribeKeeps(r, c, q.node, q.spec, q.path, q.queue);
    }
  }

  lemma CarryOtherKeeps(r: Reg, c: nat, q: Request)
    requires RegInv(r) && !q.AdvertiseTopic? && !q.SubscribeTopic?
    ensures RegInv(Carry(r, c, q).0)
  {
    match q
    case RegisterNode(name, now) => RegisterKeeps(r, c, name, now);
    case UnregisterNode(n) => UnregisterKeeps(r, c, n);
    case UnadvertiseTopic(n, e) => UnadvertiseKeeps(r, c, n, e);
    case UnsubscribeTopic(n, e) => UnsubscribeKeeps(r, c, n, e);
    case AttachHeartbeat(n, session) => AttachKeeps(r, c, n, session);
    case SendHeartbeat(n, session, now) => HeartbeatKeeps(r, c, n, session, now);
    case ResolveEndpoint(_, _) =>
    case Query(_) =>
  }

  lemma ServeParked(s: Snapshot, fd: nat, id: nat, q: Request, s': Snapshot)
    requires SnapOk(s) && fd in s.clients && Serves(s, fd, id, q, s')
    ensures PendingOk(s'.reg, s'.clients, s'.pending)
  {
    var r, c := s.reg, s.clients[fd];
    match q
    case RegisterNode(name, now) => RegisterParked(r, c, name, now, s.clients, s.pending, map[]);
    case UnregisterNode(n) => UnregisterParked(r, c, n, s.clients, s.pending, map[]);
    case AdvertiseTopic(n, spec, pool) => AdvertiseParked(r, c, n, spec, pool, s.clients, s.pending);
    case UnadvertiseTopic(n, e) => UnadvertiseParked(r, c, n, e, s.clients, s.pending, map[]);
    case SubscribeTopic(n, spec, path, queue) => SubscribeParked(s, fd, id, q, s');
    case UnsubscribeTopic(n, e) => UnsubscribeParked(r, c, n, e, s.clients, s.pending, map[]);
    case AttachHeartbeat(n, session) => AttachParked(r, c, n, session, s.clients, s.pending, map[]);
    case SendHeartbeat(n, session, now) => HeartbeatParked(r, c, n, session, now, s.clients, s.pending, map[]);
    case ResolveEndpoint(_, _) =>
    case Query(_) =>
  }

  /** What a subscription leaves parked, and what it adds to the answers. */
  lemma SubscribeServes(s: Snapshot, fd: nat, id: nat, q: Request, s': Snapshot)
    requires RegInv(s.reg) && fd in s.clients && Serves(s, fd, id, q, s') && q.SubscribeTopic?
    ensures var error := Carry(s.reg, s.clients[fd], q).1;
            CompletedAt(s'.reg, s'.reg.nextEndpoint, error, s.pending, s'.pending,
                        s.answers + [Answer(fd, id, error)], s'.answers)
  {
  }

  lemma SubscribeParked(s: Snapshot, fd: nat, id: nat, q: Request, s': Snapshot)
    requires SnapOk(s) && fd in s.clients && Serves(s, fd, id, q, s') && q.SubscribeTopic?
    ensures PendingOk(s'.reg, s'.clients, s'.pending)
  {
    SubscribeServes(s, fd, id, q, s');
    if Carry(s.reg, s.clients[fd], q).1 == Ok {
      UnansweredOk(s'.reg, s.reg, s.clients, s.pending);
    } else {
      RefusedSubscribe(s.reg, s.clients[fd], q);
    }
  }

  lemma RefusedSubscribe(r: Reg, c: nat, q: Request)
    requires RegInv(r) && q.SubscribeTopic? && Carry(r, c, q).1 != Ok
    ensures Carry(r, c, q).0 == r
  {
  }

  lemma BuryKeeps(s: Snapshot, r: Reg, ids: seq<nat>, gone: set<nat>, s': Snapshot)
    requires SnapOk(s) && Bereft(s.reg, r, ids) && Buries(s, r, gone, s')
    ensures SnapOk(s')
  {
    AfterDeparture(s.reg, r, s.clients, s.pending, map[], ids);
    HeldIsParked(r, s.clients, s.pending, s'.clients, s'.pending, gone);
  }

  lemma NextKeeps(t: Timing, s: Snapshot, ev: Event, s': Snapshot)
    requires SnapOk(s) && Next(t, s, ev, s')
    ensures SnapOk(s')
  {
    match ev
    case Connect(fd) =>
    case Ask(fd, id, q) =>
      CarryKeeps(s.reg, s.clients[fd], q);
      ServeParked(s, fd, id, q, s');
    case HangUp(fd) =>
      var c := s.clients[fd];
      DisconnectBereaves(s.reg, c);
      BuryKeeps(s, Disconnect(s.reg, c), DroppedBy(s.reg, c), {c} + LinesIn(s.reg, DroppedBy(s.reg, c)), s');
    case Tick(now) =>
      EvaluateBereaves(s.reg, now, t);
      BuryKeeps(s, Evaluate(s.reg, now, t), ExpiredBy(s.reg, now, t), LinesIn(s.reg, ExpiredBy(s.reg, now, t)), s');
  }
}
