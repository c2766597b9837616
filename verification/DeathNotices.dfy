/**
Who is told of a death. Every node that is left is told, once for each pair of a dead endpoint and one of its
own, which of its peers is gone; its list keeps the latest of what it has been told.
*/
module DeathNotices {
  import opened Basics
  import opened RegistryModel
  import opened RegistryCleanup
  import opened RegistryRuns
  import opened RegistryState

  const MAX_EVENTS: nat := 1024

  function Waiting(notices: map<nat, seq<PeerEvent>>, n: nat): seq<PeerEvent> {
    if n in notices then notices[n] else []
  }

  function EventsFor(n: nat, events: seq<PeerEvent>): seq<PeerEvent> {
    if events == [] then []
    else
      EventsFor(n, events[..|events| - 1])
      + if events[|events| - 1].targetNode == n then [events[|events| - 1]] else []
  }

  /** The last 1024 of them. */
  function Latest(events: seq<PeerEvent>): (r: seq<PeerEvent>)
    ensures |r| <= MAX_EVENTS
  {
    if |events| <= MAX_EVENTS then events else events[|events| - MAX_EVENTS..]
  }

  /** Every live node's list is the latest of what waited and the events meant for it. */
  ghost predicate Notified(before: map<nat, seq<PeerEvent>>, now: map<nat, seq<PeerEvent>>, live: set<nat>,
                           events: seq<PeerEvent>) {
    forall n {:trigger Waiting(now, n)} :: n in live ==>
      Waiting(now, n) == Latest(Waiting(before, n) + EventsFor(n, events))
  }

  function AllEvents(plans: seq<Plan>): seq<PeerEvent> {
    if plans == [] then [] else AllEvents(plans[..|plans| - 1]) + plans[|plans| - 1].events
  }

  // ---- what is left of the endpoints ----

  /** Exactly the endpoints of other nodes are left, as they were. */
  ghost predicate LeftBy(r: Reg, q: Reg, ids: seq<nat>) {
    && (forall e :: e in q.pubs <==> e in r.pubs && r.pubs[e].node !in ids)
    && (forall e :: e in q.subs <==> e in r.subs && r.subs[e].node !in ids)
    && (forall e :: e in q.pubs ==> q.pubs[e] == r.pubs[e])
    && (forall e :: e in q.subs ==> q.subs[e] == r.subs[e])
  }

  lemma OneNodeLeft(r: Reg, node: nat)
    requires RegInv(r)
    ensures LeftBy(r, Without(r, node), [node])
  {
    forall e | e in r.pubs ensures r.pubs[e].node in r.nodes && e in r.nodes[r.pubs[e].node].pubs {
      assert PubOk(r.nodes, r.topics, e, r.pubs[e]);
    }
    forall e | e in r.subs ensures r.subs[e].node in r.nodes && e in r.nodes[r.subs[e].node].subs {
      assert SubOk(r.nodes, r.topics, e, r.subs[e]);
    }
    if node in r.nodes {
      assert NodePubsOk(r.pubs, node, r.nodes[node]) && NodeSubsOk(r.subs, node, r.nodes[node]);
    }
  }

  lemma LeftTwice(r: Reg, p: Reg, q: Reg, ids: seq<nat>, node: nat)
    requires LeftBy(r, p, ids) && LeftBy(p, q, [node])
    ensures LeftBy(r, q, ids + [node])
  {
    assert forall n :: n in ids + [node] <==> n in ids || n in [node];
  }

  lemma {:induction false} EndpointsLeft(r: Reg, ids: seq<nat>)
    requires RegInv(r)
    ensures LeftBy(r, WithoutAll(r, ids), ids)
  {
    if ids != [] {
      var k := |ids| - 1;
      EndpointsLeft(r, ids[..k]);
      WithoutAllKeeps(r, ids[..k]);
      OneNodeLeft(WithoutAll(r, ids[..k]), ids[k]);
      LeftTwice(r, WithoutAll(r, ids[..k]), WithoutAll(r, ids), ids[..k], ids[k]);
      assert ids == ids[..k] + [ids[k]];
    }
  }

  /** A later death is notified as if the earlier ones had not been, but for those who died then. */
  lemma CalledLater(r: Reg, q: Reg, ids: seq<nat>, node: nat, x: PeerEvent)
    requires LeftBy(r, q, ids) && node !in ids
    ensures CalledFor(q, node, x) <==> CalledFor(r, node, x) && x.targetNode !in ids
  {
  }

  // ---- the notifications of many deaths ----

  ghost predicate CalledByAny(r: Reg, ids: seq<nat>, x: PeerEvent) {
    exists k :: 0 <= k < |ids| && CalledFor(r, ids[k], x)
  }

  lemma LastPlanTells(r: Reg, ids: seq<nat>, plans: seq<Plan>, x: PeerEvent)
    requires RegInv(r) && NoDup(ids) && PlansOf(r, ids, plans) && ids != []
    ensures var k := |ids| - 1;
            x in plans[k].events <==> CalledFor(r, ids[k], x) && x.targetNode !in ids[..k]
    ensures NoDup(plans[|ids| - 1].events)
  {
    var k := |ids| - 1;
    var q := WithoutAll(r, ids[..k]);
    WithoutAllKeeps(r, ids[..k]);
    EndpointsLeft(r, ids[..k]);
    assert ids[k] in q.nodes && plans[k] == PlanOf(q, ids[k]);
    EventsExact(q, ids[k], x);
    EventsOnce(q, ids[k]);
    CalledLater(r, q, ids[..k], ids[k], x);
  }

  lemma InEither(a: seq<PeerEvent>, b: seq<PeerEvent>, x: PeerEvent)
    ensures x in a + b <==> x in a || x in b
  {
  }

  /** `events` are what the deaths of `ids` call for, but for those who died before they could be told. */
  ghost predicate TellOf(r: Reg, ids: seq<nat>, events: seq<PeerEvent>, x: PeerEvent) {
    && (x in events ==> CalledByAny(r, ids, x))
    && (x.targetNode !in ids && CalledByAny(r, ids, x) ==> x in events)
  }

  lemma TellNext(r: Reg, ids: seq<nat>, front: seq<PeerEvent>, last: seq<PeerEvent>, x: PeerEvent)
    requires ids != [] && TellOf(r, ids[..|ids| - 1], front, x)
    requires x in last <==> CalledFor(r, ids[|ids| - 1], x) && x.targetNode !in ids[..|ids| - 1]
    ensures TellOf(r, ids, front + last, x)
  {
    InEither(front, last, x);
    CalledNext(r, ids, x);
    LastApart(ids);
  }

  lemma {:induction false} PlansTell(r: Reg, ids: seq<nat>, plans: seq<Plan>, x: PeerEvent)
    requires RegInv(r) && NoDup(ids) && PlansOf(r, ids, plans)
    ensures TellOf(r, ids, AllEvents(plans), x)
  {
    if ids != [] {
      var k := |ids| - 1;
      FrontPlans(r, ids, plans, k);
      PlansTell(r, ids[..k], plans[..k], x);
      LastPlanTells(r, ids, plans, x);
      TellNext(r, ids, AllEvents(plans[..k]), plans[k].events, x);
    }
  }

  lemma CalledNext(r: Reg, ids: seq<nat>, x: PeerEvent)
    requires ids != []
    ensures var k := |ids| - 1; CalledByAny(r, ids, x) <==> CalledByAny(r, ids[..k], x) || CalledFor(r, ids[k], x)
  {
    var k := |ids| - 1;
    if j :| 0 <= j < |ids| && CalledFor(r, ids[j], x) { assert j < k ==> CalledFor(r, ids[..k][j], x); }
    if j :| 0 <= j < k && CalledFor(r, ids[..k][j], x) { assert CalledFor(r, ids[j], x); }
  }

  lemma {:induction false} PlansTellOnce(r: Reg, ids: seq<nat>, plans: seq<Plan>)
    requires RegInv(r) && NoDup(ids) && PlansOf(r, ids, plans)
    ensures NoDup(AllEvents(plans))
  {
    if ids != [] {
      var k := |ids| - 1;
      var front, last := AllEvents(plans[..k]), plans[k].events;
      FrontPlans(r, ids, plans, k);
      PlansTellOnce(r, ids[..k], plans[..k]);
      forall x ensures x in last ==> x !in front {
        LastPlanTells(r, ids, plans, x);
        PlansTell(r, ids[..k], plans[..k], x);
        OneDies(r, ids, x);
      }
      LastPlanTells(r, ids, plans, PublisherDead(0, 0, 0, 0, 0));
      JoinOnce(front, last);
    }
  }

  /** An event is about one death. */
  lemma OneDies(r: Reg, ids: seq<nat>, x: PeerEvent)
    requires NoDup(ids) && ids != []
    ensures CalledFor(r, ids[|ids| - 1], x) ==> !CalledByAny(r, ids[..|ids| - 1], x)
  {
    var k := |ids| - 1;
    forall j | 0 <= j < k ensures ids[..k][j] != ids[k] { assert ids[j] == ids[..k][j]; }
  }

  // ---- what the nodes that are left are told ----

  /** The event tells of an endpoint whose node was there before and is gone. */
  ghost predicate DeathNotice(r: Reg, q: Reg, x: PeerEvent) {
    exists n :: n in r.nodes && n !in q.nodes && CalledFor(r, n, x)
  }

  /** `mine` are the notices for node `n`, each once. */
  ghost predicate AllFor(r: Reg, q: Reg, n: nat, mine: seq<PeerEvent>) {
    NoDup(mine) && forall x :: x in mine <==> x.targetNode == n && DeathNotice(r, q, x)
  }

  /** Every node left has been told of all deaths that concern it, after what it had not yet collected. */
  ghost predicate Told(r: Reg, q: Reg, before: map<nat, seq<PeerEvent>>, now: map<nat, seq<PeerEvent>>) {
    forall n {:trigger ToldTo(r, q, before, now, n)} :: n in q.nodes ==> ToldTo(r, q, before, now, n)
  }

  ghost predicate ToldTo(r: Reg, q: Reg, before: map<nat, seq<PeerEvent>>, now: map<nat, seq<PeerEvent>>, n: nat) {
    exists mine :: AllFor(r, q, n, mine) && Waiting(now, n) == Latest(Waiting(before, n) + mine)
  }

  lemma {:induction false} EventsForMembers(n: nat, events: seq<PeerEvent>)
    ensures forall x :: x in EventsFor(n, events) <==> x in events && x.targetNode == n
    ensures NoDup(events) ==> NoDup(EventsFor(n, events))
  {
    if events != [] {
      var k := |events| - 1;
      EventsForMembers(n, events[..k]);
      LastApart(events);
      if NoDup(events) { assert events[k] !in events[..k]; }
    }
  }

  /** `p` is the registry when the deaths `ids` were found, with the same endpoints as `r`; `q` is what is left. */
  ghost predicate Finds(r: Reg, p: Reg, ids: seq<nat>, q: Reg) {
    forall k {:trigger FindsAll(r, p, ids, q, k)} :: k == |ids| ==> FindsAll(r, p, ids, q, k)
  }

  ghost predicate FindsAll(r: Reg, p: Reg, ids: seq<nat>, q: Reg, k: nat) {
    && RegInv(p) && p.pubs == r.pubs && p.subs == r.subs && NoDup(ids)
    && forall n :: n in r.nodes && n !in q.nodes <==> n in ids
  }

  lemma AllTold(r: Reg, p: Reg, ids: seq<nat>, plans: seq<Plan>, q: Reg, before: map<nat, seq<PeerEvent>>,
                now: map<nat, seq<PeerEvent>>)
    requires Finds(r, p, ids, q) && PlansOf(p, ids, plans)
    requires Notified(before, now, q.nodes.Keys, AllEvents(plans))
    ensures Told(r, q, before, now)
  {
    assert FindsAll(r, p, ids, q, |ids|);
    PlansTellOnce(p, ids, plans);
    forall n | n in q.nodes ensures ToldTo(r, q, before, now, n) {
      var mine := EventsFor(n, AllEvents(plans));
      EventsForMembers(n, AllEvents(plans));
      forall x ensures x in mine <==> x.targetNode == n && DeathNotice(r, q, x) {
        PlansTell(p, ids, plans, x);
        SameCalls(r, p, ids, q, x);
      }
      assert AllFor(r, q, n, mine);
      assert Waiting(now, n) == Latest(Waiting(before, n) + mine);
    }
  }

  lemma SameCalls(r: Reg, p: Reg, ids: seq<nat>, q: Reg, x: PeerEvent)
    requires p.pubs == r.pubs && p.subs == r.subs
    requires forall n :: n in r.nodes && n !in q.nodes <==> n in ids
    ensures CalledByAny(p, ids, x) <==> DeathNotice(r, q, x)
  {
    if k :| 0 <= k < |ids| && CalledFor(p, ids[k], x) { assert ids[k] in ids && CalledFor(r, ids[k], x); }
    if n :| n in r.nodes && n !in q.nodes && CalledFor(r, n, x) {
      var k :| 0 <= k < |ids| && ids[k] == n;
      assert CalledFor(p, ids[k], x);
    }
  }

  lemma KeptOrFull(was: seq<PeerEvent>, mine: seq<PeerEvent>, x: PeerEvent)
    requires x in mine
    ensures var kept := Latest(was + mine);
            x in kept || (|kept| == MAX_EVENTS && forall y :: y in kept ==> y in mine)
  {
    var all := was + mine;
    var i :| 0 <= i < |mine| && mine[i] == x;
    assert all[|was| + i] == x;
    if |all| > MAX_EVENTS {
      var from := |all| - MAX_EVENTS;
      if |was| + i >= from {
        assert all[from..][|was| + i - from] == x;
      } else {
        assert all[from..] == mine[from - |was|..];
      }
    }
  }

  /** A notice is waiting, unless as many others of the same deaths have taken its place. */
  lemma NoticeWaits(r: Reg, q: Reg, before: map<nat, seq<PeerEvent>>, now: map<nat, seq<PeerEvent>>, x: PeerEvent)
    requires Told(r, q, before, now) && x.targetNode in q.nodes && DeathNotice(r, q, x)
    ensures || x in Waiting(now, x.targetNode)
            || (|Waiting(now, x.targetNode)| == MAX_EVENTS
               && forall y :: y in Waiting(now, x.targetNode) ==> DeathNotice(r, q, y))
  {
    var n := x.targetNode;
    assert ToldTo(r, q, before, now, n);
    var mine :| AllFor(r, q, n, mine) && Waiting(now, n) == Latest(Waiting(before, n) + mine);
    KeptOrFull(Waiting(before, n), mine, x);
  }

}
