/**
What the registry tells the rest of the system when a node dies: which resources to remove and
which peers to notify, as the node stood when it died.
*/
module RegistryCleanup {
  import opened Basics
  import opened RegistryModel

  datatype PeerEvent =
    | PublisherDead(targetNode: nat, target: nat, dead: nat, topic: nat, resource: nat)
    | SubscriberDead(targetNode: nat, target: nat, dead: nat, topic: nat, resource: nat)

  datatype Plan = Plan(
    node: nat, session: nat, control: nat, heartbeat: nat,
    pools: seq<PoolInfo>, queues: seq<QueueInfo>, paths: seq<string>, events: seq<PeerEvent>)

  // ---- ordered iteration ----

  /** The elements of `s` below `n`, smallest first. */
  function Ascending(s: set<nat>, n: nat): (r: seq<nat>) {
    if n == 0 then [] else Ascending(s, n - 1) + if n - 1 in s then [n - 1] else []
  }

  lemma {:induction false} AscendingFacts(s: set<nat>, n: nat)
    ensures forall x :: x in Ascending(s, n) <==> x in s && x < n
    ensures forall i, j :: 0 <= i < j < |Ascending(s, n)| ==> Ascending(s, n)[i] < Ascending(s, n)[j]
  {
    if n > 0 {
      AscendingFacts(s, n - 1);
      var front := Ascending(s, n - 1);
      assert forall k :: 0 <= k < |front| ==> front[k] in front;
    }
  }

  // ---- the plan ----

  function Pools(r: Reg, es: seq<nat>): seq<PoolInfo> {
    if es == [] then []
    else
      var n := |es| - 1;
      Pools(r, es[..n]) + if es[n] in r.pubs && r.pubs[es[n]].pool.name != "" then [r.pubs[es[n]].pool] else []
  }

  function Queues(r: Reg, es: seq<nat>): seq<QueueInfo> {
    if es == [] then []
    else
      var n := |es| - 1;
      Queues(r, es[..n]) + if es[n] in r.subs && r.subs[es[n]].queue.name != "" then [r.subs[es[n]].queue] else []
  }

  function Paths(r: Reg, es: seq<nat>): seq<string> {
    if es == [] then []
    else
      var n := |es| - 1;
      Paths(r, es[..n]) + if es[n] in r.subs then [r.subs[es[n]].path] else []
  }

  function PubEvent(r: Reg, e: nat, s: nat): PeerEvent
    requires e in r.pubs && s in r.subs
  {
    PublisherDead(r.subs[s].node, s, e, r.pubs[e].topic, r.pubs[e].pool.poolId)
  }

  function SubEvent(r: Reg, e: nat, s: nat): PeerEvent
    requires e in r.pubs && s in r.subs
  {
    SubscriberDead(r.pubs[e].node, e, s, r.subs[s].topic, r.subs[s].queue.queueId)
  }

  /** The events of one dead publisher, one per subscriber in `ss`. */
  function EventsOfPub(r: Reg, e: nat, ss: seq<nat>): seq<PeerEvent>
    requires e in r.pubs
  {
    if ss == [] then []
    else
      var n := |ss| - 1;
      EventsOfPub(r, e, ss[..n]) + if ss[n] in r.subs then [PubEvent(r, e, ss[n])] else []
  }

  /** The subscribers a publisher's death concerns. */
  function Audience(r: Reg, e: nat): seq<nat>
    requires e in r.pubs
  {
    if r.pubs[e].topic in r.topics then Ascending(r.topics[r.pubs[e].topic].subs, r.nextEndpoint) else []
  }

  function PubEvents(r: Reg, es: seq<nat>): seq<PeerEvent> {
    if es == [] then []
    else
      var n := |es| - 1;
      PubEvents(r, es[..n]) + if es[n] in r.pubs then EventsOfPub(r, es[n], Audience(r, es[n])) else []
  }

  /** The publisher a subscriber's death concerns. */
  function Source(r: Reg, s: nat): Option<nat>
    requires s in r.subs
  {
    if r.subs[s].topic in r.topics && r.topics[r.subs[s].topic].publisher.Some?
       && r.topics[r.subs[s].topic].publisher.value in r.pubs
    then r.topics[r.subs[s].topic].publisher else None
  }

  function SubEvents(r: Reg, ss: seq<nat>): seq<PeerEvent> {
    if ss == [] then []
    else
      var n := |ss| - 1;
      SubEvents(r, ss[..n])
      + if ss[n] in r.subs && Source(r, ss[n]).Some? then [SubEvent(r, Source(r, ss[n]).value, ss[n])] else []
  }

  function PlanOf(r: Reg, node: nat): Plan
    requires node in r.nodes
  {
    var n := r.nodes[node];
    var ps, ss := Ascending(n.pubs, r.nextEndpoint), Ascending(n.subs, r.nextEndpoint);
    Plan(node, n.session, n.control, n.heartbeat, Pools(r, ps), Queues(r, ss), Paths(r, ss),
         PubEvents(r, ps) + SubEvents(r, ss))
  }

  // ---- exactness ----

  lemma {:induction false} PoolsMembers(r: Reg, es: seq<nat>, p: PoolInfo)
    ensures p in Pools(r, es) <==> p.name != "" && exists e :: e in es && e in r.pubs && r.pubs[e].pool == p
  {
    if es != [] {
      PoolsMembers(r, es[..|es| - 1], p);
      LastApart(es);
    }
  }

  lemma {:induction false} QueuesMembers(r: Reg, es: seq<nat>, q: QueueInfo)
    ensures q in Queues(r, es) <==> q.name != "" && exists e :: e in es && e in r.subs && r.subs[e].queue == q
  {
    if es != [] {
      QueuesMembers(r, es[..|es| - 1], q);
      LastApart(es);
    }
  }

  lemma {:induction false} PathsMembers(r: Reg, es: seq<nat>, p: string)
    ensures p in Paths(r, es) <==> exists e :: e in es && e in r.subs && r.subs[e].path == p
  {
    if es != [] {
      PathsMembers(r, es[..|es| - 1], p);
      LastApart(es);
    }
  }

  lemma {:induction false} EventsOfPubMembers(r: Reg, e: nat, ss: seq<nat>, x: PeerEvent)
    requires e in r.pubs
    ensures x in EventsOfPub(r, e, ss) <==> exists s :: s in ss && s in r.subs && x == PubEvent(r, e, s)
  {
    if ss != [] {
      EventsOfPubMembers(r, e, ss[..|ss| - 1], x);
      LastApart(ss);
    }
  }

  lemma {:induction false} SubEventsMembers(r: Reg, ss: seq<nat>, x: PeerEvent)
    ensures x in SubEvents(r, ss) <==>
              exists s :: s in ss && s in r.subs && Source(r, s).Some? && x == SubEvent(r, Source(r, s).value, s)
  {
    if ss != [] {
      SubEventsMembers(r, ss[..|ss| - 1], x);
      LastApart(ss);
    }
  }

  ghost predicate Pair(r: Reg, e: nat, s: nat) {
    e in r.pubs && s in r.subs && r.pubs[e].topic == r.subs[s].topic
  }

  /**
  The notifications a death calls for. Each goes to the node of a live endpoint's peer: the subscriber of a dead
  publisher is told its pool, the publisher of a dead subscriber is told its queue.
  */
  ghost predicate CalledFor(r: Reg, node: nat, x: PeerEvent) {
    match x
    case PublisherDead(targetNode, target, dead, topic, resource) =>
      && dead in r.pubs && target in r.subs
      && r.pubs[dead].node == node && r.subs[target].node == targetNode
      && r.pubs[dead].topic == topic == r.subs[target].topic && r.pubs[dead].pool.poolId == resource
    case SubscriberDead(targetNode, target, dead, topic, resource) =>
      && dead in r.subs && target in r.pubs
      && r.subs[dead].node == node && r.pubs[target].node == targetNode
      && r.subs[dead].topic == topic == r.pubs[target].topic && r.subs[dead].queue.queueId == resource
  }

  lemma AudienceExact(r: Reg, e: nat, s: nat)
    requires RegInv(r) && e in r.pubs
    ensures s in Audience(r, e) <==> Pair(r, e, s)
  {
    assert PubOk(r.nodes, r.topics, e, r.pubs[e]);
    var t := r.pubs[e].topic;
    assert TopicSubsOk(r.subs, t, r.topics[t]);
    AscendingFacts(r.topics[t].subs, r.nextEndpoint);
    if s in r.subs { assert SubOk(r.nodes, r.topics, s, r.subs[s]); }
  }

  lemma SourceExact(r: Reg, s: nat)
    requires RegInv(r) && s in r.subs
    ensures forall e: nat :: Source(r, s) == Some(e) <==> Pair(r, e, s)
  {
    assert SubOk(r.nodes, r.topics, s, r.subs[s]);
    var t := r.subs[s].topic;
    assert TopicPubOk(r.pubs, t, r.topics[t]);
    forall e | e in r.pubs && r.pubs[e].topic == t ensures Source(r, s) == Some(e) {
      assert PubOk(r.nodes, r.topics, e, r.pubs[e]);
    }
  }

  lemma {:induction false} PubEventsExact(r: Reg, es: seq<nat>, x: PeerEvent)
    requires RegInv(r)
    ensures x in PubEvents(r, es) <==> exists e, s :: e in es && Pair(r, e, s) && x == PubEvent(r, e, s)
  {
    if es != [] {
      var n := |es| - 1;
      PubEventsExact(r, es[..n], x);
      assert forall e :: e in es <==> e in es[..n] || e == es[n] by { assert es == es[..n] + [es[n]]; }
      if es[n] in r.pubs {
        var audience := Audience(r, es[n]);
        forall s ensures s in audience <==> Pair(r, es[n], s) { AudienceExact(r, es[n], s); }
        EventsOfPubMembers(r, es[n], audience, x);
        assert x in EventsOfPub(r, es[n], audience) <==> exists s :: Pair(r, es[n], s) && x == PubEvent(r, es[n], s);
      }
    }
  }

  lemma SubEventsExact(r: Reg, ss: seq<nat>, x: PeerEvent)
    requires RegInv(r)
    ensures x in SubEvents(r, ss) <==> exists e: nat, s: nat :: s in ss && Pair(r, e, s) && x == SubEvent(r, e, s)
  {
    SubEventsMembers(r, ss, x);
    if x in SubEvents(r, ss) {
      var s :| s in ss && s in r.subs && Source(r, s).Some? && x == SubEvent(r, Source(r, s).value, s);
      SourceExact(r, s);
      assert Pair(r, Source(r, s).value, s);
    }
    if e: nat, s: nat :| s in ss && Pair(r, e, s) && x == SubEvent(r, e, s) {
      SourceExact(r, s);
      assert Source(r, s) == Some(e);
    }
  }

  lemma NodeEndpoints(r: Reg, node: nat)
    requires RegInv(r) && node in r.nodes
    ensures forall e :: e in Ascending(r.nodes[node].pubs, r.nextEndpoint) <==> e in r.pubs && r.pubs[e].node == node
    ensures forall e :: e in Ascending(r.nodes[node].subs, r.nextEndpoint) <==> e in r.subs && r.subs[e].node == node
  {
    assert NodePubsOk(r.pubs, node, r.nodes[node]) && NodeSubsOk(r.subs, node, r.nodes[node]);
    AscendingFacts(r.nodes[node].pubs, r.nextEndpoint);
    AscendingFacts(r.nodes[node].subs, r.nextEndpoint);
    forall e | e in r.pubs && r.pubs[e].node == node ensures e in r.nodes[node].pubs {
      assert PubOk(r.nodes, r.topics, e, r.pubs[e]);
    }
    forall e | e in r.subs && r.subs[e].node == node ensures e in r.nodes[node].subs {
      assert SubOk(r.nodes, r.topics, e, r.subs[e]);
    }
  }

  /** The plan notifies exactly the peers concerned. */
  lemma EventsExact(r: Reg, node: nat, x: PeerEvent)
    requires RegInv(r) && node in r.nodes
    ensures x in PlanOf(r, node).events <==> CalledFor(r, node, x)
  {
    var n := r.nodes[node];
    var ps, ss := Ascending(n.pubs, r.nextEndpoint), Ascending(n.subs, r.nextEndpoint);
    NodeEndpoints(r, node);
    PubEventsExact(r, ps, x);
    SubEventsExact(r, ss, x);
    if CalledFor(r, node, x) {
      if x.PublisherDead? {
        assert Pair(r, x.dead, x.target) && x == PubEvent(r, x.dead, x.target);
      } else {
        assert Pair(r, x.target, x.dead) && x == SubEvent(r, x.target, x.dead);
      }
    }
  }

  // ---- each notification once ----

  lemma {:induction false} EventsOfPubOnce(r: Reg, e: nat, ss: seq<nat>)
    requires e in r.pubs && NoDup(ss)
    ensures NoDup(EventsOfPub(r, e, ss))
  {
    if ss != [] {
      var n := |ss| - 1;
      EventsOfPubOnce(r, e, ss[..n]);
      if ss[n] in r.subs {
        var x := PubEvent(r, e, ss[n]);
        EventsOfPubMembers(r, e, ss[..n], x);
        assert ss[n] !in ss[..n];
      }
    }
  }

  lemma {:induction false} PubEventsOnce(r: Reg, es: seq<nat>)
    requires RegInv(r) && NoDup(es)
    ensures NoDup(PubEvents(r, es))
  {
    if es != [] {
      var n := |es| - 1;
      PubEventsOnce(r, es[..n]);
      if es[n] in r.pubs {
        var front, back := PubEvents(r, es[..n]), EventsOfPub(r, es[n], Audience(r, es[n]));
        AscendingFacts(if r.pubs[es[n]].topic in r.topics then r.topics[r.pubs[es[n]].topic].subs else {},
                       r.nextEndpoint);
        EventsOfPubOnce(r, es[n], Audience(r, es[n]));
        assert es[n] !in es[..n];
        forall x | x in back ensures x !in front {
          PubEventsExact(r, es[..n], x);
          EventsOfPubMembers(r, es[n], Audience(r, es[n]), x);
        }
        JoinOnce(front, back);
      }
    }
  }

  lemma JoinOnce<T>(a: seq<T>, b: seq<T>)
    requires NoDup(a) && NoDup(b) && forall x :: x in b ==> x !in a
    ensures NoDup(a + b)
  {
    var s := a + b;
    forall i, j | 0 <= i < j < |s| ensures s[i] != s[j] {
      if i < |a| <= j { assert s[j] in b && s[i] in a; }
    }
  }

  lemma {:induction false} SubEventsOnce(r: Reg, ss: seq<nat>)
    requires NoDup(ss)
    ensures NoDup(SubEvents(r, ss))
  {
    if ss != [] {
      var n := |ss| - 1;
      SubEventsOnce(r, ss[..n]);
      if ss[n] in r.subs && Source(r, ss[n]).Some? {
        var x := SubEvent(r, Source(r, ss[n]).value, ss[n]);
        SubEventsMembers(r, ss[..n], x);
        assert ss[n] !in ss[..n];
      }
    }
  }

  /** No notification is sent twice. */
  lemma EventsOnce(r: Reg, node: nat)
    requires RegInv(r) && node in r.nodes
    ensures NoDup(PlanOf(r, node).events)
  {
    var n := r.nodes[node];
    var ps, ss := Ascending(n.pubs, r.nextEndpoint), Ascending(n.subs, r.nextEndpoint);
    AscendingFacts(n.pubs, r.nextEndpoint);
    AscendingFacts(n.subs, r.nextEndpoint);
    PubEventsOnce(r, ps);
    SubEventsOnce(r, ss);
    forall x | x in SubEvents(r, ss) ensures x !in PubEvents(r, ps) {
      PubEventsExact(r, ps, x);
      SubEventsExact(r, ss, x);
    }
    JoinOnce(PubEvents(r, ps), SubEvents(r, ss));
  }

  // ---- each resource once ----

  /** The endpoints among `es` that have the pool, the queue, the path. */
  function PoolUsers(r: Reg, es: set<nat>, x: PoolInfo): set<nat> {
    set e | e in es && e in r.pubs && r.pubs[e].pool == x
  }

  function QueueUsers(r: Reg, es: set<nat>, x: QueueInfo): set<nat> {
    set e | e in es && e in r.subs && r.subs[e].queue == x
  }

  function PathUsers(r: Reg, es: set<nat>, x: string): set<nat> {
    set e | e in es && e in r.subs && r.subs[e].path == x
  }

  lemma CountAppend<T>(s: seq<T>, y: T, x: T)
    ensures multiset(s + [y])[x] == multiset(s)[x] + if x == y then 1 else 0
  {
  }

  /** A set of elements of `es` has one more than its part without the last, if the last is in it. */
  lemma CountNext(es: seq<nat>, before: set<nat>, now: set<nat>)
    requires es != [] && NoDup(es)
    requires forall e :: e in before <==> e in es[..|es| - 1] && e in now
    requires forall e :: e in now ==> e in es
    ensures |now| == |before| + if es[|es| - 1] in now then 1 else 0
  {
    var last := es[|es| - 1];
    assert es == es[..|es| - 1] + [last];
    assert last !in before;
    if last in now { assert now == before + {last}; } else { assert now == before; }
  }

  lemma {:induction false} PoolsCount(r: Reg, es: seq<nat>, x: PoolInfo)
    requires NoDup(es) && x.name != ""
    ensures multiset(Pools(r, es))[x] == |PoolUsers(r, Elements(es), x)|
  {
    if es == [] {
      assert PoolUsers(r, Elements(es), x) == {};
    } else {
      var n := |es| - 1;
      PoolsCount(r, es[..n], x);
      CountNext(es, PoolUsers(r, Elements(es[..n]), x), PoolUsers(r, Elements(es), x));
      if es[n] in r.pubs { CountAppend(Pools(r, es[..n]), r.pubs[es[n]].pool, x); }
    }
  }

  lemma {:induction false} QueuesCount(r: Reg, es: seq<nat>, x: QueueInfo)
    requires NoDup(es) && x.name != ""
    ensures multiset(Queues(r, es))[x] == |QueueUsers(r, Elements(es), x)|
  {
    if es == [] {
      assert QueueUsers(r, Elements(es), x) == {};
    } else {
      var n := |es| - 1;
      QueuesCount(r, es[..n], x);
      CountNext(es, QueueUsers(r, Elements(es[..n]), x), QueueUsers(r, Elements(es), x));
      if es[n] in r.subs { CountAppend(Queues(r, es[..n]), r.subs[es[n]].queue, x); }
    }
  }

  lemma {:induction false} PathsCount(r: Reg, es: seq<nat>, x: string)
    requires NoDup(es)
    ensures multiset(Paths(r, es))[x] == |PathUsers(r, Elements(es), x)|
  {
    if es == [] {
      assert PathUsers(r, Elements(es), x) == {};
    } else {
      var n := |es| - 1;
      PathsCount(r, es[..n], x);
      CountNext(es, PathUsers(r, Elements(es[..n]), x), PathUsers(r, Elements(es), x));
      if es[n] in r.subs { CountAppend(Paths(r, es[..n]), r.subs[es[n]].path, x); }
    }
  }

  /** The plan names each resource once for every endpoint of the dead node that had it. */
  lemma ResourcesOnce(r: Reg, node: nat)
    requires RegInv(r) && node in r.nodes
    ensures var plan, n := PlanOf(r, node), r.nodes[node];
            && (forall x: PoolInfo :: x.name != "" ==> multiset(plan.pools)[x] == |PoolUsers(r, n.pubs, x)|)
            && (forall x: QueueInfo :: x.name != "" ==> multiset(plan.queues)[x] == |QueueUsers(r, n.subs, x)|)
            && (forall x: string :: multiset(plan.paths)[x] == |PathUsers(r, n.subs, x)|)
  {
    var n := r.nodes[node];
    var ps, ss := Ascending(n.pubs, r.nextEndpoint), Ascending(n.subs, r.nextEndpoint);
    AllListed(r, node);
    forall x: PoolInfo | x.name != "" ensures multiset(Pools(r, ps))[x] == |PoolUsers(r, n.pubs, x)| {
      PoolsCount(r, ps, x);
    }
    forall x: QueueInfo | x.name != "" ensures multiset(Queues(r, ss))[x] == |QueueUsers(r, n.subs, x)| {
      QueuesCount(r, ss, x);
    }
    forall x: string ensures multiset(Paths(r, ss))[x] == |PathUsers(r, n.subs, x)| {
      PathsCount(r, ss, x);
    }
  }

  lemma AllListed(r: Reg, node: nat)
    requires RegInv(r) && node in r.nodes
    ensures var n := r.nodes[node];
            var ps, ss := Ascending(n.pubs, r.nextEndpoint), Ascending(n.subs, r.nextEndpoint);
            NoDup(ps) && NoDup(ss) && Elements(ps) == n.pubs && Elements(ss) == n.subs
  {
    var n := r.nodes[node];
    AscendingFacts(n.pubs, r.nextEndpoint);
    AscendingFacts(n.subs, r.nextEndpoint);
    assert NodePubsOk(r.pubs, node, n) && NodeSubsOk(r.subs, node, n);
  }

  /** The plan names exactly the dead node's resources. */
  lemma ResourcesExact(r: Reg, node: nat)
    requires RegInv(r) && node in r.nodes
    ensures var plan := PlanOf(r, node);
            && plan.node == node && plan.session == r.nodes[node].session
            && plan.control == r.nodes[node].control && plan.heartbeat == r.nodes[node].heartbeat
            && (forall p: PoolInfo :: p in plan.pools <==>
                  p.name != "" && exists e :: e in r.pubs && r.pubs[e].node == node && r.pubs[e].pool == p)
            && (forall q: QueueInfo :: q in plan.queues <==>
                  q.name != "" && exists e :: e in r.subs && r.subs[e].node == node && r.subs[e].queue == q)
            && (forall p: string :: p in plan.paths <==>
                  exists e :: e in r.subs && r.subs[e].node == node && r.subs[e].path == p)
  {
    var n := r.nodes[node];
    var ps, ss := Ascending(n.pubs, r.nextEndpoint), Ascending(n.subs, r.nextEndpoint);
    NodeEndpoints(r, node);
    PoolsExact(r, node, ps);
    QueuesExact(r, node, ss);
    PathsExact(r, node, ss);
  }

  lemma PoolsExact(r: Reg, node: nat, ps: seq<nat>)
    requires forall e :: e in ps <==> e in r.pubs && r.pubs[e].node == node
    ensures forall p: PoolInfo :: p in Pools(r, ps) <==>
              p.name != "" && exists e :: e in r.pubs && r.pubs[e].node == node && r.pubs[e].pool == p
  {
    forall p: PoolInfo
      ensures p in Pools(r, ps) <==>
                p.name != "" && exists e :: e in r.pubs && r.pubs[e].node == node && r.pubs[e].pool == p
    {
      PoolsMembers(r, ps, p);
    }
  }

  lemma QueuesExact(r: Reg, node: nat, ss: seq<nat>)
    requires forall e :: e in ss <==> e in r.subs && r.subs[e].node == node
    ensures forall q: QueueInfo :: q in Queues(r, ss) <==>
              q.name != "" && exists e :: e in r.subs && r.subs[e].node == node && r.subs[e].queue == q
  {
    forall q: QueueInfo
      ensures q in Queues(r, ss) <==>
                q.name != "" && exists e :: e in r.subs && r.subs[e].node == node && r.subs[e].queue == q
    {
      QueuesMembers(r, ss, q);
    }
  }

  lemma PathsExact(r: Reg, node: nat, ss: seq<nat>)
    requires forall e :: e in ss <==> e in r.subs && r.subs[e].node == node
    ensures forall p: string :: p in Paths(r, ss) <==>
              exists e :: e in r.subs && r.subs[e].node == node && r.subs[e].path == p
  {
    forall p: string
      ensures p in Paths(r, ss) <==> exists e :: e in r.subs && r.subs[e].node == node && r.subs[e].path == p
    {
      PathsMembers(r, ss, p);
    }
  }
}
