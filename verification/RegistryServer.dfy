/**
The registry server's own state: its clients, the discovery requests it has parked until a
subscriber appears, and the death notices waiting to be collected.
*/
module RegistryServer {
  import opened Basics
  import opened RegistryModel
  import opened RegistryRemoval
  import opened RegistryCleanup
  import opened RegistryRuns
  import opened RegistryState
  import opened DeathNotices


  /** A resolve request that could not be answered yet. */
  datatype Parked = Parked(fd: nat, connection: nat, node: nat, requestId: nat)

  datatype Answer = Answer(fd: nat, requestId: nat, error: ErrorCode)

  /** The request is its publisher's own, from a client still there, and still cannot be answered. */
  ghost predicate ParkedOk(r: Reg, clients: map<nat, nat>, e: nat, p: Parked) {
    && ResolveError(r, p.connection, p.node, e) == TopicNotFound
    && p.fd in clients && clients[p.fd] == p.connection
  }

  ghost predicate PendingOk(r: Reg, clients: map<nat, nat>, pending: map<nat, Parked>) {
    forall e {:trigger pending[e]} :: e in pending ==> ParkedOk(r, clients, e, pending[e])
  }

  /** Notices wait only for nodes that exist, and never more than the limit. */
  ghost predicate NoticesOk(r: Reg, notices: map<nat, seq<PeerEvent>>) {
    forall n {:trigger notices[n]} :: n in notices ==> n in r.nodes && |notices[n]| <= MAX_EVENTS
  }

  ghost predicate ClientsOk(clients: map<nat, nat>, next: nat) {
    && 0 < next && (forall f :: f in clients ==> 0 < clients[f] < next)
    && (forall f, g :: f in clients && g in clients && f != g ==> clients[f] != clients[g])
  }

  // ---- what keeps a parked request parked ----

  /** `q` is `r` after removals: what is still there is unchanged, and no topic gained subscribers. */
  ghost predicate Shrinks(r: Reg, q: Reg) {
    && (forall e :: e in q.pubs ==> e in r.pubs && q.pubs[e] == r.pubs[e])
    && (forall n :: n in q.nodes ==> n in r.nodes && q.nodes[n].control == r.nodes[n].control)
    && (forall t :: t in q.topics ==> t in r.topics && q.topics[t].subs <= r.topics[t].subs)
  }

  lemma ShrinkKeepsParked(r: Reg, q: Reg, clients: map<nat, nat>, e: nat, p: Parked)
    requires PubsOk(r.nodes, r.topics, r.pubs) && PubsOk(q.nodes, q.topics, q.pubs)
    requires Shrinks(r, q) && ParkedOk(r, clients, e, p) && e in q.pubs
    ensures ParkedOk(q, clients, e, p)
  {
    assert PubOk(r.nodes, r.topics, e, r.pubs[e]) && PubOk(q.nodes, q.topics, e, q.pubs[e]);
  }

  lemma PrunedShrinks(r: Reg, gone: set<nat>)
    ensures Shrinks(r, Pruned(r, gone))
  {
    var q := Pruned(r, gone);
    forall t | t in q.topics ensures q.topics[t].subs <= r.topics[t].subs {
      ResizedKeeps(PrunedTopic(r.topics[t], gone), q.pubs, q.subs);
    }
  }

  lemma WithoutShrinks(r: Reg, node: nat)
    ensures Shrinks(r, Without(r, node))
  {
    if node in r.nodes { PrunedShrinks(r, r.nodes[node].pubs + r.nodes[node].subs); }
  }

  lemma {:induction false} WithoutAllShrinks(r: Reg, ids: seq<nat>)
    ensures Shrinks(r, WithoutAll(r, ids))
  {
    if ids != [] {
      WithoutAllShrinks(r, ids[..|ids| - 1]);
      WithoutShrinks(WithoutAll(r, ids[..|ids| - 1]), ids[|ids| - 1]);
    }
  }

  /** Registering, attaching, heartbeats and advertising never answer a parked request. */
  lemma AdvertiseKeepsParked(r: Reg, connection: nat, node: nat, s: TopicSpec, pool: PoolInfo, clients: map<nat, nat>,
                             e: nat, p: Parked)
    requires RegInv(r) && ParkedOk(r, clients, e, p)
    ensures ParkedOk(Advertise(r, connection, node, s, pool).0, clients, e, p)
  {
    assert PubOk(r.nodes, r.topics, e, r.pubs[e]);
  }

  lemma AdvertiseParked(r: Reg, connection: nat, node: nat, s: TopicSpec, pool: PoolInfo, clients: map<nat, nat>,
                        pending: map<nat, Parked>)
    requires RegInv(r) && PendingOk(r, clients, pending)
    ensures PendingOk(Advertise(r, connection, node, s, pool).0, clients, pending)
  {
    forall e | e in pending ensures ParkedOk(Advertise(r, connection, node, s, pool).0, clients, e, pending[e]) {
      AdvertiseKeepsParked(r, connection, node, s, pool, clients, e, pending[e]);
    }
  }

  class Server {
    const registry: Registry
    var clients: map<nat, nat>
    var nextConnection: nat
    var pending: map<nat, Parked>
    var notices: map<nat, seq<PeerEvent>>
    var answers: seq<Answer>

    ghost predicate Valid()
      reads this, registry
    {
      && RegInv(registry.State())
      && ClientsOk(clients, nextConnection)
      && PendingOk(registry.State(), clients, pending)
      && NoticesOk(registry.State(), notices)
    }

    constructor (registry: Registry)
      requires registry.State() == EMPTY && RegInv(EMPTY)
      ensures Valid() && this.registry == registry && clients == map[] && nextConnection == 1
      ensures pending == map[] && notices == map[] && answers == []
    {
      this.registry := registry;
      clients, nextConnection, pending, notices, answers := map[], 1, map[], map[], [];
    }

    method Accept(fd: nat)
      requires Valid() && fd !in clients
      modifies this`clients, this`nextConnection
      ensures Valid() && clients == old(clients)[fd := old(nextConnection)] && nextConnection == old(nextConnection) + 1
    {
      clients := clients[fd := nextConnection];
      nextConnection := nextConnection + 1;
    }

    method Respond(fd: nat, requestId: nat, error: ErrorCode)
      modifies this`answers
      ensures answers == if fd in clients then old(answers) + [Answer(fd, requestId, error)] else old(answers)
    {
      if fd in clients { answers := answers + [Answer(fd, requestId, error)]; }
    }

    // ---- requests ----

    /** ResolveEndpoint: answered at once, or parked while the topic has no subscriber. */
    method Resolve(fd: nat, requestId: nat, node: nat, e: nat)
      requires Valid() && fd in clients
      modifies this`pending, this`answers
      ensures Valid()
      ensures var error := ResolveError(registry.State(), clients[fd], node, e);
              if error == TopicNotFound then
                pending == old(pending)[e := Parked(fd, clients[fd], node, requestId)] && answers == old(answers)
              else
                pending == old(pending) && answers == old(answers) + [Answer(fd, requestId, error)]
    {
      var error, found := registry.Resolve(clients[fd], node, e);
      if error == TopicNotFound {
        pending := pending[e := Parked(fd, clients[fd], node, requestId)];
      } else {
        Respond(fd, requestId, error);
      }
    }

    /** completePending: every parked request that can now be answered is answered and unparked. */
    method CompletePending()
      requires RegInv(registry.State())
      requires forall e {:trigger pending[e]} :: e in pending ==> e in registry.pubs && pending[e].fd in clients
      modifies this`pending, this`answers
      ensures pending == Unanswered(registry.State(), old(pending))
      ensures answers == old(answers)
              + Replies(registry.State(), old(pending), ParkedOrder(old(pending), registry.nextEndpoint))
    {
      var es := Ascending(pending.Keys, registry.nextEndpoint);
      ghost var r := registry.State();
      AllPending(r, pending);
      NoneDone(r, pending, es);
      CompleteEach(es, r);
    }

    method CompleteEach(es: seq<nat>, ghost r: Reg)
      requires RegInv(r) && registry.State() == r && NoDup(es)
      requires forall k :: 0 <= k < |es| ==> es[k] in pending && pending[es[k]].fd in clients
      modifies this`pending, this`answers
      ensures pending == Remaining(r, old(pending), es)
      ensures answers == old(answers) + Replies(r, old(pending), es)
    {
      ghost var before, log := pending, answers;
      var k := 0;
      while k < |es|
        invariant 0 <= k <= |es| && registry.State() == r
        invariant pending == Remaining(r, before, es[..k])
        invariant answers == log + Replies(r, before, es[..k])
      {
        CompleteNext(r, before, es, k, log);
        CompleteOne(es[k], r);
        k := k + 1;
      }
      assert es[..k] == es;
    }

    method CompleteOne(e: nat, ghost r: Reg)
      requires RegInv(r) && r == registry.State() && e in pending && pending[e].fd in clients
      modifies this`pending, this`answers
      ensures registry.State() == r
      ensures var p := old(pending)[e];
              if StillParked(r, e, p) then pending == old(pending) && answers == old(answers)
              else pending == old(pending) - {e} && answers == old(answers) + [AnswerFor(r, e, p)]
    {
      var p := pending[e];
      var error, found := registry.Resolve(p.connection, p.node, e);
      if error != TopicNotFound {
        Respond(p.fd, p.requestId, error);
        pending := pending - {e};
      }
    }

    /** SubscribeTopic: a new subscriber may be what parked requests are waiting for. */
    method Subscribe(fd: nat, requestId: nat, node: nat, spec: TopicSpec, path: string, queue: QueueInfo)
      requires Valid() && fd in clients
      modifies this`pending, this`answers, registry
      ensures Valid()
      ensures registry.State() == RegistryModel.Subscribe(old(registry.State()), clients[fd], node, spec, path, queue).0
      ensures var error := RegistryModel.Subscribe(old(registry.State()), clients[fd], node, spec, path, queue).1;
              Completed(registry.State(), error, old(pending), pending,
                        old(answers) + [Answer(fd, requestId, error)], answers)
    {
      ghost var before := registry.State();
      var error := Enroll(clients[fd], node, spec, path, queue);
      ReplyAndAnswer(fd, requestId, error, before);
    }

    method ReplyAndAnswer(fd: nat, requestId: nat, error: ErrorCode, ghost before: Reg)
      requires fd in clients && RegInv(registry.State()) && registry.pubs == before.pubs
               && PendingOk(before, clients, pending)
      requires error != Ok ==> registry.State() == before
      modifies this`pending, this`answers
      ensures PendingOk(registry.State(), clients, pending)
      ensures Completed(registry.State(), error, old(pending), pending, old(answers) + [Answer(fd, requestId, error)],
                        answers)
    {
      Respond(fd, requestId, error);
      if error == Ok { AnswerParked(before); }
    }

    method Enroll(connection: nat, node: nat, spec: TopicSpec, path: string, queue: QueueInfo)
      returns (error: ErrorCode)
      requires Valid()
      modifies registry
      ensures (registry.State(), error)
              == RegistryModel.Subscribe(old(registry.State()), connection, node, spec, path, queue)
      ensures RegInv(registry.State()) && NoticesOk(registry.State(), notices)
      ensures registry.pubs == old(registry.pubs) && (error != Ok ==> registry.State() == old(registry.State()))
    {
      SubscribeKeepsPubs(registry.State(), connection, node, spec, path, queue, notices);
      var id;
      error, id := registry.SubscribeTopic(connection, node, spec, path, queue);
    }

    /** A subscriber has just been added to `before`. */
    method AnswerParked(ghost before: Reg)
      requires RegInv(registry.State()) && registry.pubs == before.pubs && PendingOk(before, clients, pending)
      modifies this`pending, this`answers
      ensures PendingOk(registry.State(), clients, pending)
      ensures Completed(registry.State(), Ok, old(pending), pending, old(answers), answers)
    {
      ParkedHavePubs(before, clients, pending);
      UnansweredOk(registry.State(), before, clients, pending);
      CompletePending();
    }

    method Advertise(fd: nat, requestId: nat, node: nat, spec: TopicSpec, pool: PoolInfo)
      requires Valid() && fd in clients
      modifies this`answers, registry
      ensures Valid()
      ensures var (r, error) := RegistryModel.Advertise(old(registry.State()), clients[fd], node, spec, pool);
              registry.State() == r && answers == old(answers) + [Answer(fd, requestId, error)]
    {
      ghost var before := registry.State();
      AdvertiseParked(before, clients[fd], node, spec, pool, clients, pending);
      var error, id := registry.AdvertiseTopic(clients[fd], node, spec, pool);
      Respond(fd, requestId, error);
    }

    method Unsubscribe(fd: nat, requestId: nat, node: nat, e: nat)
      requires Valid() && fd in clients
      modifies this`answers, registry
      ensures Valid()
      ensures var (r, error) := RegistryModel.Unsubscribe(old(registry.State()), clients[fd], node, e);
              registry.State() == r && answers == old(answers) + [Answer(fd, requestId, error)]
    {
      ghost var before := registry.State();
      var error := registry.UnsubscribeTopic(clients[fd], node, e);
      UnsubscribeParked(before, clients[fd], node, e, clients, pending, notices);
      Respond(fd, requestId, error);
    }

    /** UnadvertiseTopic: the endpoint's parked request goes, whether or not the call succeeded. */
    method Unadvertise(fd: nat, requestId: nat, node: nat, e: nat)
      requires Valid() && fd in clients
      modifies this`pending, this`answers, registry
      ensures Valid() && pending == old(pending) - {e}
      ensures var (r, error) := RegistryModel.Unadvertise(old(registry.State()), clients[fd], node, e);
              registry.State() == r && answers == old(answers) + [Answer(fd, requestId, error)]
    {
      ghost var before := registry.State();
      var error := registry.UnadvertiseTopic(clients[fd], node, e);
      UnadvertiseParked(before, clients[fd], node, e, clients, pending, notices);
      pending := pending - {e};
      Respond(fd, requestId, error);
    }

    method Register(fd: nat, requestId: nat, name: string, now: int)
      requires Valid() && fd in clients
      modifies this`answers, registry
      ensures Valid()
      ensures var (r, error) := RegistryModel.Register(old(registry.State()), clients[fd], name, now);
              registry.State() == r && answers == old(answers) + [Answer(fd, requestId, error)]
    {
      ghost var before := registry.State();
      RegisterParked(before, clients[fd], name, now, clients, pending, notices);
      var error, id, session := registry.RegisterNode(clients[fd], name, now);
      Respond(fd, requestId, error);
    }

    /** Heartbeat: an accepted one collects the notices waiting for the node. */
    method Heartbeat(fd: nat, requestId: nat, node: nat, session: nat, now: int) returns (events: seq<PeerEvent>)
      requires Valid() && fd in clients
      modifies this`notices, this`answers, registry
      ensures Valid()
      ensures var (r, error) := RegistryModel.Heartbeat(old(registry.State()), clients[fd], node, session, now);
              && registry.State() == r && answers == old(answers) + [Answer(fd, requestId, error)]
              && events == (if error == Ok && node in old(notices) then old(notices)[node] else [])
              && notices == (if error == Ok then old(notices) - {node} else old(notices))
    {
      HeartbeatParked(registry.State(), clients[fd], node, session, now, clients, pending, notices);
      var error := registry.ReceiveHeartbeat(clients[fd], node, session, now);
      events := Collect(node, error);
      Respond(fd, requestId, error);
    }

    method Collect(node: nat, error: ErrorCode) returns (events: seq<PeerEvent>)
      modifies this`notices
      ensures events == (if error == Ok && node in old(notices) then old(notices)[node] else [])
      ensures notices == (if error == Ok then old(notices) - {node} else old(notices))
    {
      events := [];
      if error == Ok {
        if node in notices { events := notices[node]; }
        notices := notices - {node};
      }
    }

    method Attach(fd: nat, requestId: nat, node: nat, session: nat)
      requires Valid() && fd in clients
      modifies this`answers, registry
      ensures Valid()
      ensures var (r, error) := RegistryModel.Attach(old(registry.State()), clients[fd], node, session);
              registry.State() == r && answers == old(answers) + [Answer(fd, requestId, error)]
    {
      AttachParked(registry.State(), clients[fd], node, session, clients, pending, notices);
      var error := registry.AttachHeartbeat(clients[fd], node, session);
      Respond(fd, requestId, error);
    }

    // ---- departures ----

    /** cleanupPending: requests whose publisher is gone are forgotten. */
    method CleanupPending()
      modifies this`pending
      ensures pending == WithPublisher(old(pending), registry.pubs)
    {
      var es := pending.Keys;
      ghost var before := pending;
      while es != {}
        invariant es <= before.Keys
        invariant pending == map e | e in before && (e in es || e in registry.pubs) :: before[e]
        decreases |es|
      {
        var e :| e in es;
        if e !in registry.pubs { pending := pending - {e}; }
        es := es - {e};
      }
    }

    method Unregister(fd: nat, requestId: nat, node: nat)
      requires Valid() && fd in clients
      modifies this`pending, this`notices, this`answers, registry
      ensures Valid()
      ensures var (r, error) := RegistryModel.Unregister(old(registry.State()), clients[fd], node);
              && registry.State() == r && answers == old(answers) + [Answer(fd, requestId, error)]
              && notices == (if error == Ok then old(notices) - {node} else old(notices))
      ensures pending == WithPublisher(old(pending), registry.pubs)
    {
      ghost var before := registry.State();
      var error := registry.UnregisterNode(clients[fd], node);
      if error == Ok { notices := notices - {node}; }
      CleanupPending();
      UnregisterParked(before, clients[fd], node, clients, old(pending), old(notices));
      Respond(fd, requestId, error);
    }

    /** The peer-event part of applyCleanup: each live target's list keeps its latest events. */
    method DeliverNotices(plan: Plan)
      requires forall n {:trigger notices[n]} :: n in notices ==> |notices[n]| <= MAX_EVENTS
      modifies this`notices
      ensures exists sent ::
                Noticed(old(notices), sent, registry.nodes.Keys, plan.events) && notices == sent - {plan.node}
    {
      ghost var live := registry.nodes.Keys;
      NoticedNone(notices, live);
      var k := 0;
      while k < |plan.events|
        invariant 0 <= k <= |plan.events| && Noticed(old(notices), notices, live, plan.events[..k])
      {
        var x := plan.events[k];
        NoticedNext(old(notices), notices, live, plan.events, k);
        if x.targetNode in registry.nodes {
          var events := if x.targetNode in notices then notices[x.targetNode] else [];
          if |events| == MAX_EVENTS { events := events[1..]; }
          notices := notices[x.targetNode := events + [x]];
        }
        k := k + 1;
      }
      assert plan.events[..k] == plan.events;
      notices := notices - {plan.node};
    }

    /** applyCleanup for one plan, then the closing of the dead node's connections. */
    method ApplyOne(plan: Plan, except: Option<nat>, ghost dead: seq<nat>)
      requires Linked(clients, nextConnection, pending, except) && plan.node !in registry.nodes
      requires Fitting(notices, registry.nodes.Keys, [plan.node] + dead)
      modifies this`clients, this`pending, this`notices
      ensures Linked(clients, nextConnection, pending, except)
      ensures Fitting(notices, registry.nodes.Keys, dead)
      ensures Notified(old(notices), notices, registry.nodes.Keys, plan.events)
      ensures Departs(old(clients), old(pending), clients, pending, {plan.control, plan.heartbeat}, registry.pubs)
    {
      ClearOne(plan, dead);
      ghost var held := pending;
      CloseBoth(plan.control, plan.heartbeat, except);
      ClearedThenClosed(old(clients), old(pending), held, clients, pending, {plan.control, plan.heartbeat},
                        registry.pubs);
    }

    method ClearOne(plan: Plan, ghost dead: seq<nat>)
      requires plan.node !in registry.nodes && Fitting(notices, registry.nodes.Keys, [plan.node] + dead)
      modifies this`pending, this`notices
      ensures Fitting(notices, registry.nodes.Keys, dead)
      ensures Notified(old(notices), notices, registry.nodes.Keys, plan.events)
      ensures pending == WithPublisher(old(pending), registry.pubs)
    {
      DeliverNotices(plan);
      ghost var sent :|
        Noticed(old(notices), sent, registry.nodes.Keys, plan.events) && notices == sent - {plan.node};
      NoticedBounded(old(notices), sent, registry.nodes.Keys, plan.events);
      NoticedNotifies(old(notices), sent, registry.nodes.Keys, plan.events, plan.node);
      assert forall n {:trigger notices[n]} :: n in notices ==> n in sent && notices[n] == sent[n];
      CleanupPending();
    }

    method CloseBoth(control: nat, heartbeat: nat, except: Option<nat>)
      requires Linked(clients, nextConnection, pending, except)
      modifies this`clients, this`pending
      ensures Linked(clients, nextConnection, pending, except)
      ensures Closes(old(clients), old(pending), clients, pending, {control, heartbeat})
    {
      CloseConnection(control, except);
      ghost var left, held := clients, pending;
      CloseConnection(heartbeat, except);
      ClosesTwice(old(clients), old(pending), left, held, clients, pending, control, heartbeat);
    }

    method ApplyAll(plans: seq<Plan>, except: Option<nat>, ghost ids: seq<nat>)
      requires Linked(clients, nextConnection, pending, except) && Fitting(notices, registry.nodes.Keys, ids)
      requires |plans| == |ids| && forall k :: 0 <= k < |ids| ==> plans[k].node == ids[k] && ids[k] !in registry.nodes
      requires plans == [] ==> WithPublisher(pending, registry.pubs) == pending
      modifies this`clients, this`pending, this`notices
      ensures ClientsOk(clients, nextConnection) && Fitting(notices, registry.nodes.Keys, [])
      ensures Notified(old(notices), notices, registry.nodes.Keys, AllEvents(plans))
      ensures Departs(old(clients), old(pending), clients, pending, LinesOf(plans), registry.pubs)
    {
      ghost var live := registry.nodes.Keys;
      NoneNotified(notices, live);
      NoneSwept(clients, nextConnection, pending, except, registry.pubs);
      var k := 0;
      assert ids[0..] == ids && plans[..0] == [];
      while k < |plans|
        invariant 0 <= k <= |plans| && Fitting(notices, live, ids[k..])
        invariant Linked(clients, nextConnection, pending, except)
        invariant Notified(old(notices), notices, live, AllEvents(plans[..k]))
        invariant Swept(old(clients), old(pending), clients, pending, plans[..k], registry.pubs)
      {
        SliceHead(ids, k);
        ghost var before, left, held := notices, clients, pending;
        ApplyOne(plans[k], except, ids[k + 1..]);
        NotifiedNext(old(notices), before, notices, live, plans, k);
        SweptNext(old(clients), old(pending), left, held, clients, pending, plans, k, registry.pubs);
        k := k + 1;
      }
      assert ids[k..] == [] && plans[..k] == plans;
    }

    /** removeClient without cleanup, for the client of a connection, if there is one. */
    method CloseConnection(connection: nat, except: Option<nat>)
      requires Linked(clients, nextConnection, pending, except)
      modifies this`clients, this`pending
      ensures Linked(clients, nextConnection, pending, except)
      ensures Closes(old(clients), old(pending), clients, pending, {connection})
    {
      NobodyCloses(clients, nextConnection, pending, except, connection);
      if connection == 0 { return; }
      var fs := set f | f in clients && clients[f] == connection;
      assert forall f :: f in clients && clients[f] == connection ==> f in fs;
      if fs != {} {
        var f :| f in fs;
        OneCloses(clients, nextConnection, pending, except, f);
        if except != Some(f) { DropClient(f); }
      }
    }

    method DropClient(fd: nat)
      modifies this`clients, this`pending
      ensures clients == old(clients) - {fd}
      ensures pending == NotFrom(old(pending), fd)
    {
      pending := NotFrom(pending, fd);
      clients := clients - {fd};
    }

    /** removeClient: the nodes a client owns die with it, and so do the connections they beat through. */
    method RemoveClient(fd: nat) returns (ghost plans: seq<Plan>)
      requires Valid() && fd in clients
      modifies this, registry
      ensures Valid() && registry.State() == Disconnect(old(registry.State()), old(clients)[fd])
      ensures PlansOf(old(registry.State()), DroppedBy(old(registry.State()), old(clients)[fd]), plans)
      ensures Notified(old(notices), notices, registry.nodes.Keys, AllEvents(plans))
      ensures Departs(old(clients), old(pending), clients, pending, {old(clients)[fd]} + LinesOf(plans), registry.pubs)
      ensures answers == old(answers) && nextConnection == old(nextConnection)
      ensures Told(old(registry.State()), registry.State(), old(notices), notices)
    {
      var connection := clients[fd];
      ghost var before := registry.State();
      ClientGone(before, clients, nextConnection, pending, fd);
      DropClient(fd);
      ghost var left, held := clients, pending;
      plans := Sweep(connection, Some(fd));
      BothDepart(old(clients), old(pending), connection, left, held, clients, pending, LinesOf(plans), registry.pubs);
      DisconnectTells(before, connection, plans, old(notices), notices);
    }

    /** disconnectConnection and what follows from it. */
    method Sweep(connection: nat, except: Option<nat>) returns (ghost plans: seq<Plan>)
      requires Valid() && Absent(clients, except)
      modifies this`clients, this`pending, this`notices, registry
      ensures Valid() && registry.State() == Disconnect(old(registry.State()), connection)
      ensures PlansOf(old(registry.State()), DroppedBy(old(registry.State()), connection), plans)
      ensures Notified(old(notices), notices, registry.nodes.Keys, AllEvents(plans))
      ensures Departs(old(clients), old(pending), clients, pending, LinesOf(plans), registry.pubs)
    {
      ghost var before := registry.State();
      ghost var ids := DroppedBy(before, connection);
      var cleanups := registry.DisconnectConnection(connection);
      plans := cleanups;
      DisconnectBereaves(before, connection);
      AfterDeparture(before, registry.State(), clients, pending, notices, ids);
      PlanNodes(before, ids, plans);
      ApplyAll(cleanups, except, ids);
      HeldIsParked(registry.State(), old(clients), old(pending), clients, pending, LinesOf(plans));
    }

    /** expireDeadNodes: whoever is left is told of every death that concerns it. */
    method Expire(now: int) returns (ghost plans: seq<Plan>)
      requires Valid()
      modifies this`clients, this`pending, this`notices, registry
      ensures Valid() && registry.State() == Evaluate(old(registry.State()), now, registry.timing)
      ensures PlansOf(MarkAll(old(registry.State()), now, registry.timing),
                      ExpiredBy(old(registry.State()), now, registry.timing), plans)
      ensures Notified(old(notices), notices, registry.nodes.Keys, AllEvents(plans))
      ensures Departs(old(clients), old(pending), clients, pending, LinesOf(plans), registry.pubs)
      ensures Told(old(registry.State()), registry.State(), old(notices), notices)
    {
      plans := ExpireAll(now);
      EvaluateTells(old(registry.State()), now, registry.timing, plans, old(notices), notices);
    }

    method ExpireAll(now: int) returns (ghost plans: seq<Plan>)
      requires Valid()
      modifies this`clients, this`pending, this`notices, registry
      ensures Valid() && registry.State() == Evaluate(old(registry.State()), now, registry.timing)
      ensures PlansOf(MarkAll(old(registry.State()), now, registry.timing),
                      ExpiredBy(old(registry.State()), now, registry.timing), plans)
      ensures Notified(old(notices), notices, registry.nodes.Keys, AllEvents(plans))
      ensures Departs(old(clients), old(pending), clients, pending, LinesOf(plans), registry.pubs)
    {
      ghost var before := registry.State();
      ghost var ids := ExpiredBy(before, now, registry.timing);
      var suspected, cleanups := registry.EvaluateLiveness(now);
      plans := cleanups;
      EvaluateBereaves(before, now, registry.timing);
      AfterDeparture(before, registry.State(), clients, pending, notices, ids);
      PlanNodes(MarkAll(before, now, registry.timing), ids, plans);
      ApplyAll(cleanups, None, ids);
      HeldIsParked(registry.State(), old(clients), old(pending), clients, pending, LinesOf(plans));
    }
  }

  /** The nodes that die with a connection, and those that have been silent too long, smallest first. */
  function DroppedBy(r: Reg, connection: nat): seq<nat> {
    Ascending(OwnedBy(r, connection), r.nextNode)
  }

  function ExpiredBy(r: Reg, now: int, t: Timing): seq<nat> {
    Ascending(Expired(r, now, t), r.nextNode)
  }

  // ---- clients and what they wait for ----

  predicate Absent(clients: map<nat, nat>, fd: Option<nat>) {
    fd.Some? ==> fd.value !in clients
  }

  ghost predicate AllFrom(clients: map<nat, nat>, pending: map<nat, Parked>) {
    forall e {:trigger pending[e]} :: e in pending ==> pending[e].fd in clients
  }

  ghost predicate Linked(clients: map<nat, nat>, next: nat, pending: map<nat, Parked>, except: Option<nat>) {
    ClientsOk(clients, next) && AllFrom(clients, pending) && Absent(clients, except)
  }

  /** Notices wait only for nodes that exist or are in `dead`, and never more than the limit. */
  ghost predicate Fitting(notices: map<nat, seq<PeerEvent>>, live: set<nat>, dead: seq<nat>) {
    forall n {:trigger notices[n]} :: n in notices ==> |notices[n]| <= MAX_EVENTS && (n in live || n in dead)
  }

  /** The clients whose connections are not among `gone`. */
  function Connected(clients: map<nat, nat>, gone: set<nat>): map<nat, nat> {
    map f | f in clients && clients[f] !in gone :: clients[f]
  }

  /** The connections the plans name: those that controlled the dead nodes and those they beat through. */
  function LinesOf(plans: seq<Plan>): set<nat> {
    if plans == [] then {}
    else LinesOf(plans[..|plans| - 1]) + {plans[|plans| - 1].control, plans[|plans| - 1].heartbeat}
  }

  function FromClients(pending: map<nat, Parked>, clients: map<nat, nat>): map<nat, Parked> {
    map e | e in pending && pending[e].fd in clients :: pending[e]
  }

  /** What stays parked when these clients and these publishers are left. */
  function StillHeld(pending: map<nat, Parked>, clients: map<nat, nat>, pubs: map<nat, Pub>): map<nat, Parked> {
    map e | e in pending && pending[e].fd in clients && e in pubs :: pending[e]
  }

  /** Exactly the clients on the connections `gone` go, and with them what they waited for. */
  ghost predicate Closes(clients: map<nat, nat>, pending: map<nat, Parked>, clients': map<nat, nat>,
                         pending': map<nat, Parked>, gone: set<nat>) {
    clients' == Connected(clients, gone) && pending' == FromClients(pending, clients')
  }

  /** The same where publishers have gone too: what waited for a publisher not in `pubs` is dropped with it. */
  ghost predicate Departs(clients: map<nat, nat>, pending: map<nat, Parked>, clients': map<nat, nat>,
                          pending': map<nat, Parked>, gone: set<nat>, pubs: map<nat, Pub>) {
    clients' == Connected(clients, gone) && pending' == StillHeld(pending, clients', pubs)
  }

  ghost predicate Swept(clients: map<nat, nat>, pending: map<nat, Parked>, clients': map<nat, nat>,
                        pending': map<nat, Parked>, plans: seq<Plan>, pubs: map<nat, Pub>) {
    if plans == [] then clients' == clients && pending' == pending
    else Departs(clients, pending, clients', pending', LinesOf(plans), pubs)
  }

  lemma NobodyCloses(clients: map<nat, nat>, next: nat, pending: map<nat, Parked>, except: Option<nat>, connection: nat)
    requires Linked(clients, next, pending, except)
    ensures (forall f :: f in clients ==> clients[f] != connection) ==>
              Closes(clients, pending, clients, pending, {connection})
  {
  }

  lemma OneCloses(clients: map<nat, nat>, next: nat, pending: map<nat, Parked>, except: Option<nat>, f: nat)
    requires Linked(clients, next, pending, except) && f in clients
    ensures except != Some(f) && Linked(clients - {f}, next, NotFrom(pending, f), except)
    ensures Closes(clients, pending, clients - {f}, NotFrom(pending, f), {clients[f]})
  {
  }

  lemma ClosesTwice(clients: map<nat, nat>, pending: map<nat, Parked>, left: map<nat, nat>, held: map<nat, Parked>,
                    clients': map<nat, nat>, pending': map<nat, Parked>, a: nat, b: nat)
    requires Closes(clients, pending, left, held, {a}) && Closes(left, held, clients', pending', {b})
    ensures Closes(clients, pending, clients', pending', {a, b})
  {
  }

  lemma ClearedThenClosed(clients: map<nat, nat>, pending: map<nat, Parked>, held: map<nat, Parked>,
                          clients': map<nat, nat>, pending': map<nat, Parked>, gone: set<nat>, pubs: map<nat, Pub>)
    requires held == WithPublisher(pending, pubs) && Closes(clients, held, clients', pending', gone)
    ensures Departs(clients, pending, clients', pending', gone, pubs)
  {
  }

  lemma NoneSwept(clients: map<nat, nat>, next: nat, pending: map<nat, Parked>, except: Option<nat>,
                  pubs: map<nat, Pub>)
    requires Linked(clients, next, pending, except)
    ensures Swept(clients, pending, clients, pending, [], pubs)
    ensures WithPublisher(pending, pubs) == pending ==> Departs(clients, pending, clients, pending, LinesOf([]), pubs)
  {
  }

  lemma SweptNext(clients: map<nat, nat>, pending: map<nat, Parked>, left: map<nat, nat>, held: map<nat, Parked>,
                  clients': map<nat, nat>, pending': map<nat, Parked>, plans: seq<Plan>, k: nat, pubs: map<nat, Pub>)
    requires k < |plans| && Swept(clients, pending, left, held, plans[..k], pubs)
    requires Departs(left, held, clients', pending', {plans[k].control, plans[k].heartbeat}, pubs)
    ensures Swept(clients, pending, clients', pending', plans[..k + 1], pubs)
  {
    assert plans[..k + 1][..k] == plans[..k];
  }

  /** What is still held is rightly parked. */
  lemma HeldIsParked(r: Reg, clients: map<nat, nat>, pending: map<nat, Parked>, clients': map<nat, nat>,
                     pending': map<nat, Parked>, gone: set<nat>)
    requires PendingOk(r, clients, WithPublisher(pending, r.pubs))
    requires Departs(clients, pending, clients', pending', gone, r.pubs)
    ensures PendingOk(r, clients', pending')
  {
    forall e | e in pending' ensures ParkedOk(r, clients', e, pending'[e]) {
      assert WithPublisher(pending, r.pubs)[e] == pending'[e];
    }
  }

  /** A client is dropped first and the connections `gone` follow. */
  lemma BothDepart(clients: map<nat, nat>, pending: map<nat, Parked>, connection: nat, left: map<nat, nat>,
                   held: map<nat, Parked>, clients': map<nat, nat>, pending': map<nat, Parked>, gone: set<nat>,
                   pubs: map<nat, Pub>)
    requires Closes(clients, pending, left, held, {connection}) && Departs(left, held, clients', pending', gone, pubs)
    ensures Departs(clients, pending, clients', pending', {connection} + gone, pubs)
  {
    assert Connected(left, gone) == Connected(clients, {connection} + gone);
    assert StillHeld(held, clients', pubs) == StillHeld(pending, clients', pubs);
  }

  function WithPublisher(pending: map<nat, Parked>, pubs: map<nat, Pub>): map<nat, Parked> {
    map e | e in pending && e in pubs :: pending[e]
  }

  function NotFrom(pending: map<nat, Parked>, fd: nat): map<nat, Parked> {
    map e | e in pending && pending[e].fd != fd :: pending[e]
  }

  // ---- notices ----

  lemma LatestNext(events: seq<PeerEvent>, x: PeerEvent)
    ensures var kept := Latest(events);
            Latest(events + [x]) == (if |kept| == MAX_EVENTS then kept[1..] else kept) + [x]
  {
  }

  /** Every live node's list is the latest of what waited and the events meant for it; no other list changes. */
  ghost predicate Noticed(before: map<nat, seq<PeerEvent>>, now: map<nat, seq<PeerEvent>>, live: set<nat>,
                          events: seq<PeerEvent>) {
    && (forall n {:trigger now[n]} :: n in now ==> n in before || n in live)
    && (forall n {:trigger Waiting(now, n)} ::
          Waiting(now, n) == if n in live then Latest(Waiting(before, n) + EventsFor(n, events))
            else Waiting(before, n))
  }

  lemma NoticedNone(notices: map<nat, seq<PeerEvent>>, live: set<nat>)
    requires forall n {:trigger notices[n]} :: n in notices ==> |notices[n]| <= MAX_EVENTS
    ensures Noticed(notices, notices, live, [])
  {
    forall n: nat ensures n in live ==> Waiting(notices, n) == Latest(Waiting(notices, n) + EventsFor(n, [])) {
      assert Waiting(notices, n) + [] == Waiting(notices, n);
    }
  }

  /** `now` with one more event delivered to a live node. */
  function WithNotice(now: map<nat, seq<PeerEvent>>, live: set<nat>, x: PeerEvent): map<nat, seq<PeerEvent>> {
    var kept := Waiting(now, x.targetNode);
    if x.targetNode in live then now[x.targetNode := (if |kept| == MAX_EVENTS then kept[1..] else kept) + [x]] else now
  }

  lemma EventsForNext(n: nat, events: seq<PeerEvent>, k: nat)
    requires k < |events|
    ensures EventsFor(n, events[..k + 1])
         == EventsFor(n, events[..k]) + if events[k].targetNode == n then [events[k]] else []
  {
    assert events[..k + 1][..k] == events[..k];
  }

  lemma WaitingNext(before: seq<PeerEvent>, mine: seq<PeerEvent>, kept: seq<PeerEvent>, x: PeerEvent)
    requires kept == Latest(before + mine)
    ensures (if |kept| == MAX_EVENTS then kept[1..] else kept) + [x] == Latest(before + (mine + [x]))
  {
    LatestNext(before + mine, x);
    assert before + (mine + [x]) == before + mine + [x];
  }

  lemma NoticedNext(before: map<nat, seq<PeerEvent>>, now: map<nat, seq<PeerEvent>>, live: set<nat>,
                    events: seq<PeerEvent>, k: nat)
    requires k < |events| && Noticed(before, now, live, events[..k])
    ensures Noticed(before, WithNotice(now, live, events[k]), live, events[..k + 1])
  {
    var x := events[k];
    var now' := WithNotice(now, live, x);
    forall n: nat
      ensures Waiting(now', n) == if n in live then Latest(Waiting(before, n) + EventsFor(n, events[..k + 1]))
              else Waiting(before, n)
    {
      var mine := EventsFor(n, events[..k]);
      EventsForNext(n, events, k);
      assert Waiting(now, n) == if n in live then Latest(Waiting(before, n) + mine) else Waiting(before, n);
      if n == x.targetNode && n in live {
        WaitingNext(Waiting(before, n), mine, Waiting(now, n), x);
      } else {
        assert mine + [] == mine;
      }
    }
  }

  lemma NoticedBounded(before: map<nat, seq<PeerEvent>>, now: map<nat, seq<PeerEvent>>, live: set<nat>,
                       events: seq<PeerEvent>)
    requires Noticed(before, now, live, events)
    requires forall n {:trigger before[n]} :: n in before ==> |before[n]| <= MAX_EVENTS
    ensures forall n {:trigger now[n]} :: n in now ==> |now[n]| <= MAX_EVENTS && (n in before || n in live)
  {
    forall n | n in now ensures |now[n]| <= MAX_EVENTS {
      assert Waiting(now, n) == now[n];
    }
  }

  lemma NoticedNotifies(before: map<nat, seq<PeerEvent>>, sent: map<nat, seq<PeerEvent>>, live: set<nat>,
                        events: seq<PeerEvent>, dead: nat)
    requires Noticed(before, sent, live, events) && dead !in live
    ensures Notified(before, sent - {dead}, live, events)
  {
    forall n: nat | n in live ensures Waiting(sent - {dead}, n) == Waiting(sent, n) {}
  }

  lemma NoneNotified(notices: map<nat, seq<PeerEvent>>, live: set<nat>)
    requires forall n {:trigger notices[n]} :: n in notices ==> |notices[n]| <= MAX_EVENTS
    ensures Notified(notices, notices, live, AllEvents([]))
  {
    forall n: nat ensures Waiting(notices, n) == Latest(Waiting(notices, n) + EventsFor(n, [])) {
      assert Waiting(notices, n) + [] == Waiting(notices, n);
    }
  }

  lemma {:induction false} EventsForBoth(n: nat, a: seq<PeerEvent>, b: seq<PeerEvent>)
    ensures EventsFor(n, a + b) == EventsFor(n, a) + EventsFor(n, b)
  {
    if b == [] {
      assert a + b == a;
    } else {
      var k := |b| - 1;
      EventsForBoth(n, a, b[..k]);
      assert (a + b)[..|a| + k] == a + b[..k];
    }
  }

  lemma LatestTwice(u: seq<PeerEvent>, v: seq<PeerEvent>)
    ensures Latest(Latest(u) + v) == Latest(u + v)
  {
  }

  lemma LatestOfBoth(w: seq<PeerEvent>, n: nat, a: seq<PeerEvent>, b: seq<PeerEvent>)
    ensures Latest(Latest(w + EventsFor(n, a)) + EventsFor(n, b)) == Latest(w + EventsFor(n, a + b))
  {
    EventsForBoth(n, a, b);
    LatestTwice(w + EventsFor(n, a), EventsFor(n, b));
    assert w + EventsFor(n, a) + EventsFor(n, b) == w + (EventsFor(n, a) + EventsFor(n, b));
  }

  lemma NotifiedBoth(first: map<nat, seq<PeerEvent>>, before: map<nat, seq<PeerEvent>>, now: map<nat, seq<PeerEvent>>,
                     live: set<nat>, a: seq<PeerEvent>, b: seq<PeerEvent>)
    requires Notified(first, before, live, a) && Notified(before, now, live, b)
    ensures Notified(first, now, live, a + b)
  {
    forall n: nat | n in live ensures Waiting(now, n) == Latest(Waiting(first, n) + EventsFor(n, a + b)) {
      LatestOfBoth(Waiting(first, n), n, a, b);
      assert Waiting(before, n) == Latest(Waiting(first, n) + EventsFor(n, a));
    }
  }

  lemma NotifiedNext(first: map<nat, seq<PeerEvent>>, before: map<nat, seq<PeerEvent>>, now: map<nat, seq<PeerEvent>>,
                     live: set<nat>, plans: seq<Plan>, k: nat)
    requires k < |plans| && Notified(first, before, live, AllEvents(plans[..k]))
             && Notified(before, now, live, plans[k].events)
    ensures Notified(first, now, live, AllEvents(plans[..k + 1]))
  {
    assert plans[..k + 1][..k] == plans[..k];
    NotifiedBoth(first, before, now, live, AllEvents(plans[..k]), plans[k].events);
  }

  // ---- what departures do to parked requests and notices ----

  lemma DisconnectTells(r: Reg, connection: nat, plans: seq<Plan>, before: map<nat, seq<PeerEvent>>,
                        now: map<nat, seq<PeerEvent>>)
    requires RegInv(r) && PlansOf(r, DroppedBy(r, connection), plans)
    requires Notified(before, now, Disconnect(r, connection).nodes.Keys, AllEvents(plans))
    ensures Told(r, Disconnect(r, connection), before, now)
  {
    var ids := DroppedBy(r, connection);
    AscendingFacts(OwnedBy(r, connection), r.nextNode);
    WithoutAllNodes(r, ids);
    assert FindsAll(r, r, ids, Disconnect(r, connection), |ids|);
    AllTold(r, r, ids, plans, Disconnect(r, connection), before, now);
  }

  lemma EvaluateTells(r: Reg, now: int, t: Timing, plans: seq<Plan>, before: map<nat, seq<PeerEvent>>,
                      after: map<nat, seq<PeerEvent>>)
    requires RegInv(r) && PlansOf(MarkAll(r, now, t), ExpiredBy(r, now, t), plans)
    requires Notified(before, after, Evaluate(r, now, t).nodes.Keys, AllEvents(plans))
    ensures Told(r, Evaluate(r, now, t), before, after)
  {
    ExpiredGo(r, now, t);
    AllTold(r, MarkAll(r, now, t), ExpiredBy(r, now, t), plans, Evaluate(r, now, t), before, after);
  }

  lemma ExpiredGo(r: Reg, now: int, t: Timing)
    requires RegInv(r)
    ensures Finds(r, MarkAll(r, now, t), ExpiredBy(r, now, t), Evaluate(r, now, t))
  {
    AscendingFacts(Expired(r, now, t), r.nextNode);
    EvaluatedNodes(r, now, t);
    NodesAlike(r, MarkAll(r, now, t).nodes);
    var ids := ExpiredBy(r, now, t);
    assert FindsAll(r, MarkAll(r, now, t), ids, Evaluate(r, now, t), |ids|);
  }

  lemma PlanNodes(r: Reg, ids: seq<nat>, plans: seq<Plan>)
    requires PlansOf(r, ids, plans)
    ensures |plans| == |ids| && forall k :: 0 <= k < |ids| ==> plans[k].node == ids[k]
  {
  }

  /** Nothing a parked request depends on changes when only nodes are added or refreshed. */
  lemma NodesKeepParked(r: Reg, q: Reg, clients: map<nat, nat>, pending: map<nat, Parked>)
    requires PendingOk(r, clients, pending)
    requires q.pubs == r.pubs && q.topics == r.topics
    requires forall n :: n in r.nodes ==> n in q.nodes && q.nodes[n].control == r.nodes[n].control
    ensures PendingOk(q, clients, pending)
  {
    forall e | e in pending ensures ParkedOk(q, clients, e, pending[e]) {
      assert ParkedOk(r, clients, e, pending[e]);
    }
  }

  lemma RegisterParked(r: Reg, connection: nat, name: string, now: int, clients: map<nat, nat>,
                       pending: map<nat, Parked>, notices: map<nat, seq<PeerEvent>>)
    requires RegInv(r) && PendingOk(r, clients, pending) && NoticesOk(r, notices)
    ensures var q := RegistryModel.Register(r, connection, name, now).0;
            PendingOk(q, clients, pending) && NoticesOk(q, notices)
  {
    var q := RegistryModel.Register(r, connection, name, now).0;
    NodesKeepParked(r, q, clients, pending);
  }

  lemma AttachParked(r: Reg, connection: nat, node: nat, session: nat, clients: map<nat, nat>,
                     pending: map<nat, Parked>, notices: map<nat, seq<PeerEvent>>)
    requires RegInv(r) && PendingOk(r, clients, pending) && NoticesOk(r, notices)
    ensures var q := RegistryModel.Attach(r, connection, node, session).0;
            PendingOk(q, clients, pending) && NoticesOk(q, notices)
  {
    var q := RegistryModel.Attach(r, connection, node, session).0;
    NodesKeepParked(r, q, clients, pending);
  }

  lemma HeartbeatParked(r: Reg, connection: nat, node: nat, session: nat, now: int, clients: map<nat, nat>,
                        pending: map<nat, Parked>, notices: map<nat, seq<PeerEvent>>)
    requires RegInv(r) && PendingOk(r, clients, pending) && NoticesOk(r, notices)
    ensures var q := RegistryModel.Heartbeat(r, connection, node, session, now).0;
            PendingOk(q, clients, pending) && NoticesOk(q, notices) && NoticesOk(q, notices - {node})
  {
    var q := RegistryModel.Heartbeat(r, connection, node, session, now).0;
    NodesKeepParked(r, q, clients, pending);
  }

  lemma UnregisterParked(r: Reg, connection: nat, node: nat, clients: map<nat, nat>,
                         pending: map<nat, Parked>, notices: map<nat, seq<PeerEvent>>)
    requires RegInv(r) && PendingOk(r, clients, pending) && NoticesOk(r, notices)
    ensures var (q, error) := RegistryModel.Unregister(r, connection, node);
            && PendingOk(q, clients, WithPublisher(pending, q.pubs))
            && NoticesOk(q, if error == Ok then notices - {node} else notices)
  {
    var (q, error) := RegistryModel.Unregister(r, connection, node);
    if error == Ok {
      WithoutShrinks(r, node);
      WithoutKeeps(r, node);
    }
    forall e | e in pending && e in q.pubs ensures ParkedOk(q, clients, e, pending[e]) {
      assert ParkedOk(r, clients, e, pending[e]);
      if error == Ok { ShrinkKeepsParked(r, q, clients, e, pending[e]); }
    }
  }

  lemma ClientGone(r: Reg, clients: map<nat, nat>, next: nat, pending: map<nat, Parked>, fd: nat)
    requires ClientsOk(clients, next) && PendingOk(r, clients, pending)
    ensures ClientsOk(clients - {fd}, next) && PendingOk(r, clients - {fd}, NotFrom(pending, fd))
    ensures fd in clients ==> Closes(clients, pending, clients - {fd}, NotFrom(pending, fd), {clients[fd]})
  {
    ParkedHavePubs(r, clients, pending);
    forall e | e in pending && pending[e].fd != fd ensures ParkedOk(r, clients - {fd}, e, pending[e]) {
      assert ParkedOk(r, clients, e, pending[e]);
    }
  }

  lemma DisconnectShrinks(r: Reg, connection: nat)
    ensures Shrinks(r, Disconnect(r, connection))
  {
    WithoutAllShrinks(r, Ascending(OwnedBy(r, connection), r.nextNode));
  }

  lemma EvaluateShrinks(r: Reg, now: int, t: Timing)
    ensures Shrinks(r, Evaluate(r, now, t))
  {
    WithoutAllShrinks(MarkAll(r, now, t), Ascending(Expired(r, now, t), r.nextNode));
  }

  /** Once the nodes `ids` are gone, what is parked by a publisher still there is rightly parked. */
  lemma Departed(r: Reg, q: Reg, clients: map<nat, nat>, pending: map<nat, Parked>,
                 notices: map<nat, seq<PeerEvent>>, ids: seq<nat>)
    requires PubsOk(r.nodes, r.topics, r.pubs) && PubsOk(q.nodes, q.topics, q.pubs) && Shrinks(r, q)
    requires PendingOk(r, clients, pending) && NoticesOk(r, notices)
    requires forall n :: n in r.nodes ==> n in q.nodes || n in ids
    ensures PendingOk(q, clients, WithPublisher(pending, q.pubs)) && AllFrom(clients, pending)
    ensures Fitting(notices, q.nodes.Keys, ids)
  {
    forall e | e in pending && e in q.pubs ensures ParkedOk(q, clients, e, pending[e]) {
      assert ParkedOk(r, clients, e, pending[e]);
      ShrinkKeepsParked(r, q, clients, e, pending[e]);
    }
  }

  /** `q` is `r` after the nodes `ids` have gone with all that was theirs. */
  ghost predicate Bereft(r: Reg, q: Reg, ids: seq<nat>) {
    && RegInv(q) && Shrinks(r, q) && (ids == [] ==> q.pubs == r.pubs)
    && (forall n :: n in q.nodes ==> n !in ids) && (forall n :: n in r.nodes ==> n in q.nodes || n in ids)
  }

  lemma DisconnectBereaves(r: Reg, connection: nat)
    requires RegInv(r)
    ensures Bereft(r, Disconnect(r, connection), DroppedBy(r, connection))
  {
    DisconnectKeeps(r, connection);
    DisconnectShrinks(r, connection);
    WithoutAllNodes(r, DroppedBy(r, connection));
  }

  lemma EvaluateBereaves(r: Reg, now: int, t: Timing)
    requires RegInv(r)
    ensures Bereft(r, Evaluate(r, now, t), ExpiredBy(r, now, t))
  {
    EvaluateKeeps(r, now, t);
    EvaluateShrinks(r, now, t);
    WithoutAllNodes(MarkAll(r, now, t), ExpiredBy(r, now, t));
  }

  lemma AfterDeparture(r: Reg, q: Reg, clients: map<nat, nat>, pending: map<nat, Parked>,
                       notices: map<nat, seq<PeerEvent>>, ids: seq<nat>)
    requires RegInv(r) && PendingOk(r, clients, pending) && NoticesOk(r, notices) && Bereft(r, q, ids)
    ensures PendingOk(q, clients, WithPublisher(pending, q.pubs)) && AllFrom(clients, pending)
    ensures Fitting(notices, q.nodes.Keys, ids) && (ids == [] ==> WithPublisher(pending, q.pubs) == pending)
  {
    Departed(r, q, clients, pending, notices, ids);
    ParkedHavePubs(r, clients, pending);
  }

  lemma SubscribeKeepsPubs(r: Reg, connection: nat, node: nat, s: TopicSpec, path: string, queue: QueueInfo,
                           notices: map<nat, seq<PeerEvent>>)
    requires RegInv(r) && NoticesOk(r, notices)
    ensures var q := RegistryModel.Subscribe(r, connection, node, s, path, queue).0;
            && q.pubs == r.pubs && NoticesOk(q, notices)
            && (RegistryModel.Subscribe(r, connection, node, s, path, queue).1 != Ok ==> q == r)
  {
  }

  lemma ParkedHavePubs(r: Reg, clients: map<nat, nat>, pending: map<nat, Parked>)
    requires PendingOk(r, clients, pending)
    ensures forall e {:trigger pending[e]} :: e in pending ==> e in r.pubs && pending[e].fd in clients
  {
    forall e | e in pending ensures e in r.pubs && pending[e].fd in clients {
      assert ParkedOk(r, clients, e, pending[e]);
    }
  }

  lemma UnansweredOk(q: Reg, r: Reg, clients: map<nat, nat>, pending: map<nat, Parked>)
    requires PendingOk(r, clients, pending)
    ensures PendingOk(q, clients, Unanswered(q, pending))
  {
    forall e | e in pending && StillParked(q, e, pending[e]) ensures ParkedOk(q, clients, e, pending[e]) {
      assert ParkedOk(r, clients, e, pending[e]);
    }
  }

  /** Once endpoint `e` is gone, everything else that is parked is rightly parked. */
  /** One endpoint went: the requests of the others stay parked. */
  lemma OneLess(r: Reg, q: Reg, e: nat, clients: map<nat, nat>, pending: map<nat, Parked>,
                notices: map<nat, seq<PeerEvent>>)
    requires PubsOk(r.nodes, r.topics, r.pubs) && PubsOk(q.nodes, q.topics, q.pubs) && Shrinks(r, q)
    requires PendingOk(r, clients, pending) && NoticesOk(r, notices)
    requires q.nodes.Keys == r.nodes.Keys && q.pubs.Keys == r.pubs.Keys - {e}
    ensures PendingOk(q, clients, pending - {e}) && NoticesOk(q, notices)
  {
    ParkedHavePubs(r, clients, pending);
    forall f | f in pending - {e} ensures ParkedOk(q, clients, f, pending[f]) {
      assert f in q.pubs.Keys;
      ShrinkKeepsParked(r, q, clients, f, pending[f]);
    }
    assert forall n :: n in r.nodes ==> n in q.nodes.Keys;
  }

  lemma PrunedParked(r: Reg, e: nat, clients: map<nat, nat>, pending: map<nat, Parked>,
                     notices: map<nat, seq<PeerEvent>>)
    requires RegInv(r) && PendingOk(r, clients, pending) && NoticesOk(r, notices)
    ensures var q := Pruned(r, {e});
            PendingOk(q, clients, pending - {e}) && NoticesOk(q, notices)
  {
    PrunedShrinks(r, {e});
    PrunedKeeps(r, {e});
    OneLess(r, Pruned(r, {e}), e, clients, pending, notices);
  }

  lemma UnsubscribeParked(r: Reg, connection: nat, node: nat, e: nat, clients: map<nat, nat>,
                          pending: map<nat, Parked>, notices: map<nat, seq<PeerEvent>>)
    requires RegInv(r) && PendingOk(r, clients, pending) && NoticesOk(r, notices)
    ensures var q := RegistryModel.Unsubscribe(r, connection, node, e).0;
            PendingOk(q, clients, pending) && NoticesOk(q, notices)
  {
    PrunedParked(r, e, clients, pending, notices);
    ParkedHavePubs(r, clients, pending);
    if e in r.subs {
      assert SubOk(r.nodes, r.topics, e, r.subs[e]);
      assert pending - {e} == pending;
    }
  }

  lemma UnadvertiseParked(r: Reg, connection: nat, node: nat, e: nat, clients: map<nat, nat>,
                          pending: map<nat, Parked>, notices: map<nat, seq<PeerEvent>>)
    requires RegInv(r) && PendingOk(r, clients, pending) && NoticesOk(r, notices)
    ensures var q := RegistryModel.Unadvertise(r, connection, node, e).0;
            PendingOk(q, clients, pending - {e}) && NoticesOk(q, notices)
  {
    PrunedParked(r, e, clients, pending, notices);
  }

  function AnswerFor(r: Reg, e: nat, p: Parked): Answer {
    Answer(p.fd, p.requestId, ResolveError(r, p.connection, p.node, e))
  }

  /** The parked requests in the order they are gone through. */
  function ParkedOrder(pending: map<nat, Parked>, next: nat): seq<nat> {
    Ascending(pending.Keys, next)
  }

  /** The requests that still cannot be answered. */
  ghost function Unanswered(r: Reg, pending: map<nat, Parked>): map<nat, Parked> {
    map e | e in pending && StillParked(r, e, pending[e]) :: pending[e]
  }

  /** The same when only those in `done` have been looked at. */
  ghost function Remaining(r: Reg, pending: map<nat, Parked>, done: seq<nat>): map<nat, Parked> {
    map e | e in pending && (e !in done || StillParked(r, e, pending[e])) :: pending[e]
  }

  /** One answer for each request among `es` that can be answered. */
  ghost function Replies(r: Reg, pending: map<nat, Parked>, es: seq<nat>): seq<Answer> {
    if es == [] then []
    else
      var e := es[|es| - 1];
      Replies(r, pending, es[..|es| - 1])
      + if e !in pending || StillParked(r, e, pending[e]) then [] else [AnswerFor(r, e, pending[e])]
  }

  lemma AllPending(r: Reg, pending: map<nat, Parked>)
    requires forall e {:trigger pending[e]} :: e in pending ==> e in r.pubs
    requires RegInv(r)
    ensures var es := ParkedOrder(pending, r.nextEndpoint);
            NoDup(es) && (forall e :: e in es <==> e in pending) && forall k :: 0 <= k < |es| ==> es[k] in pending
  {
    AscendingFacts(pending.Keys, r.nextEndpoint);
    var es := ParkedOrder(pending, r.nextEndpoint);
    forall e | e in pending ensures e in es {
      assert pending[e] == pending[e];
      assert PubOk(r.nodes, r.topics, e, r.pubs[e]);
    }
    forall k | 0 <= k < |es| ensures es[k] in pending { assert es[k] in es; }
  }

  lemma NoneDone(r: Reg, pending: map<nat, Parked>, es: seq<nat>)
    requires forall e :: e in es <==> e in pending
    ensures Remaining(r, pending, es[..0]) == pending && Remaining(r, pending, es) == Unanswered(r, pending)
  {
  }

  lemma CompleteNext(r: Reg, pending: map<nat, Parked>, es: seq<nat>, k: nat, log: seq<Answer>)
    requires NoDup(es) && k < |es| && forall k :: 0 <= k < |es| ==> es[k] in pending
    ensures var now, e := Remaining(r, pending, es[..k]), es[k];
            && e in now && now[e] == pending[e]
            && Remaining(r, pending, es[..k + 1]) == (if StillParked(r, e, pending[e]) then now else now - {e})
            && log + Replies(r, pending, es[..k + 1])
               == log + Replies(r, pending, es[..k])
                  + if StillParked(r, e, pending[e]) then [] else [AnswerFor(r, e, pending[e])]
  {
    assert es[..k + 1] == es[..k] + [es[k]];
    assert es[..k + 1][..k] == es[..k];
    var now, e, next := Remaining(r, pending, es[..k]), es[k], Remaining(r, pending, es[..k + 1]);
    assert next == if StillParked(r, e, pending[e]) then now else now - {e};
  }

  /**
  After an accepted subscription the requests still parked are exactly those that still cannot be
  answered, and each of the others has been answered once; a refused one changes neither.
  */
  ghost predicate Completed(r: Reg, error: ErrorCode, before: map<nat, Parked>, now: map<nat, Parked>,
                            log: seq<Answer>, answers: seq<Answer>) {
    forall next: nat {:trigger CompletedAt(r, next, error, before, now, log, answers)} ::
      next == r.nextEndpoint ==> CompletedAt(r, next, error, before, now, log, answers)
  }

  ghost predicate CompletedAt(r: Reg, next: nat, error: ErrorCode, before: map<nat, Parked>, now: map<nat, Parked>,
                              log: seq<Answer>, answers: seq<Answer>) {
    if error == Ok then
      && now == Unanswered(r, before)
      && answers == log + Replies(r, before, ParkedOrder(before, next))
    else now == before && answers == log
  }

  ghost predicate StillParked(r: Reg, e: nat, p: Parked) {
    ResolveError(r, p.connection, p.node, e) == TopicNotFound
  }
}
