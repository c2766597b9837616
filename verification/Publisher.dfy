/**
The publisher's calls as loops over its connection list, updated in place. Between any two
shared-memory actions the other processes may act (Yield). The ghost history ties every state the
publisher passes through to a run of the protocol machine from a new session, so the theorems
about reachable states hold of it between calls.
*/
module Publisher {
  import opened Basics
  import opened PoolModel
  import opened RingModel
  import opened Protocol
  import opened ProtocolInvariant
  import opened ProtocolTheorems
  import opened PublishOutcome
  import opened ConnectionLists
  import opened PublisherRun
  import opened Meetings
  import MP = MemoryPool

  /** The bookkeeping after one connection. */
  method Tally(r: PublishResult, broken: seq<nat>, o: Outcome, endpoint: nat,
               ghost ids: seq<nat>, ghost lists: seq<seq<ChunkHandle>>, ghost before: seq<seq<ChunkHandle>>,
               ghost h: ChunkHandle, ghost index: nat, ghost os: seq<Outcome>)
    returns (r': PublishResult, broken': seq<nat>)
    requires Progress(ids, before, h, index, broken, os, r) && index < |before| == |ids| && endpoint == ids[index]
    requires |lists| == |before| && lists == before[index := lists[index]]
    requires Proper(o) && (h in lists[index] <==> o.Delivered?)
    ensures Progress(ids, lists, h, index + 1, broken', os + [o], r')
    ensures r'.sequence == r.sequence && r'.payloadSize == r.payloadSize
    ensures broken' == broken + if Breaks(o) then [endpoint] else []
  {
    ProgressNext(ids, before, h, index, broken, os, r, lists[index], o);
    r' := r;
    broken' := broken;
    if o.Delivered? {
      r' := r'.(enqueued := r'.enqueued + 1);
      if o.evicted { r' := r'.(droppedOldest := r'.droppedOldest + 1); }
    } else if o == Refusal(TimedOut) {
      r' := r'.(blockTimeouts := r'.blockTimeouts + 1, error := QueueTimeout);
    } else {
      if o == Refusal(DroppedNewest) { r' := r'.(droppedNewest := r'.droppedNewest + 1); }
      if r'.error == Ok { r' := r'.(error := CodeOf(o)); }
      if Breaks(o) { broken' := broken' + [endpoint]; }
    }
    assert r' == Note(r, o) && broken' == broken + if Breaks(o) then [ids[index]] else [];
  }

  class PublisherImpl {
    const maxSize: nat
    const pool: MP.Allocator
    var connections: seq<Connection>
    var sequence: nat
    var failed: set<nat>
    var loans: seq<Loan>
    var negotiated: nat

    // The other processes: what the registry lists, and what they will do at each yield.
    var registered: set<nat>
    var nextEndpoint: nat
    var schedule: seq<seq<Step>>

    ghost var published: map<nat, seq<Byte>>
    ghost var seen: set<nat>
    ghost var start: System
    ghost var trace: seq<Step>
    ghost var reached: System
    ghost var offered: seq<Step> // the run up to the latest offer

    /** The state of the whole system when the publisher is at `pc`. */
    ghost function Now(pc: PublisherPc): System
      reads this, pool, pool.headers
    {
      System(pool.State(), maxSize, connections, pc, sequence, published, failed, loans, negotiated,
             registered, nextEndpoint, seen)
    }

    /** Everything so far is a run of the machine from a new session, and it has led to `pc`. */
    ghost predicate Following(pc: PublisherPc)
      reads this, pool, pool.headers
    {
      forall n: nat {:trigger FollowingFor(n, pc)} :: n == |trace| ==> FollowingFor(n, pc)
    }

    /** The same, spelt out; naming the length of the trace keeps it folded where it is not needed. */
    ghost predicate FollowingFor(n: nat, pc: PublisherPc)
      reads this, pool, pool.headers
    {
      Reaches(start, trace, reached) && reached == Now(pc) && offered <= trace
    }

    lemma At(pc: PublisherPc)
      requires Following(pc)
      ensures Reaches(start, trace, reached) && reached == Now(pc) && offered <= trace
    {
      assert FollowingFor(|trace|, pc);
    }

    lemma DistinctNow(pc: PublisherPc)
      requires Following(pc)
      ensures NoDup(Endpoints(connections))
    {
      At(pc);
      EndpointsDistinct(start, trace, reached);
    }

    lemma HeldNow(pc: PublisherPc, h: ChunkHandle)
      requires Following(pc) && !pc.Dispatching?
      ensures Shaped(pool.State())
      ensures Live(pool.State(), h) <==> Holders(Obligations(connections), h) > 0
      ensures Live(pool.State(), h) ==> pool.headers[h.chunk].refs == Holders(Obligations(connections), h)
    {
      At(pc);
      HeldIsLive(start, trace, reached, h);
    }

    lemma ReadsNow(pc: PublisherPc, h: ChunkHandle)
      requires Following(pc)
      ensures Shaped(pool.State())
      ensures Live(pool.State(), h) ==>
                var n := SequenceOf(pool.State(), h);
                n in published && ViewOf(pool.State(), h) == View(h, n, published[n])
    {
      At(pc);
      LiveReads(start, trace, reached, h);
    }

    lemma ShapedNow(pc: PublisherPc)
      requires Following(pc)
      ensures Shaped(pool.State())
    {
      At(pc);
      ReachesShaped(start, trace, reached);
    }

    constructor (pool: MP.Allocator, maxSize: nat, registered: set<nat>, nextEndpoint: nat,
                 schedule: seq<seq<Step>>)
      requires ValidPool(pool.State())
      requires forall i :: 0 <= i < pool.headers.Length ==> pool.headers[i].state == Free
      requires forall e :: e in registered ==> e < nextEndpoint
      ensures Following(Idle) && this.pool == pool
      ensures connections == [] && sequence == 0 && loans == []
    {
      this.pool, this.maxSize, this.registered, this.nextEndpoint := pool, maxSize, registered, nextEndpoint;
      this.schedule := schedule;
      connections, sequence, failed, loans, negotiated := [], 0, {}, [], maxSize;
      published, seen, trace, offered := map[], {}, [], [];
      start := System(pool.State(), maxSize, [], Idle, 0, map[], {}, [], maxSize, registered, nextEndpoint, {});
      reached := start;
      new;
      PathNone(StepTo, start, trace);
    }

    // ---- the other processes ----

    /** Another process takes one step, if it can. */
    method Other(step: Step, ghost pc: PublisherPc)
      requires Following(pc)
      modifies this`connections, this`registered, this`nextEndpoint, this`trace, this`reached
      ensures Following(pc)
      ensures Undisturbed(old(connections), connections)
    {
      if SubscriberStep(step) {
        if step.i < |connections| && SubscriberEnabled(connections[step.i], step)
           && (step.Reset? && !step.detach ==> step.deadPool != pool.id)
        {
          SubscriberActs(step, pc);
        }
      } else if step.Join? || step.Leave? {
        RegistryActs(step, pc);
      }
    }

    method SubscriberActs(step: Step, ghost pc: PublisherPc)
      requires Following(pc) && SubscriberStep(step)
      requires step.i < |connections| && SubscriberEnabled(connections[step.i], step)
      requires step.Reset? && !step.detach ==> step.deadPool != pool.id
      modifies this`connections, this`trace, this`reached
      ensures Following(pc)
      ensures Undisturbed(old(connections), connections)
    {
      var d := Move(step, pc);
      Follow(step.i, step, d, pc);
    }

    method Move(step: Step, ghost pc: PublisherPc) returns (d: Connection)
      requires Following(pc) && SubscriberStep(step)
      requires step.i < |connections| && SubscriberEnabled(connections[step.i], step)
      requires step.Reset? && !step.detach ==> step.deadPool != pool.id
      ensures Moved(pool.State(), connections[step.i], step.i, step, d)
    {
      ShapedNow(pc);
      d := SubscriberNext(pool.State(), connections[step.i], step);
    }

    method Follow(i: nat, step: Step, d: Connection, ghost pc: PublisherPc)
      requires Following(pc) && i < |connections| && Moved(pool.State(), connections[i], i, step, d)
      modifies this`connections, this`trace, this`reached
      ensures Following(pc) && Undisturbed(old(connections), connections)
    {
      At(pc);
      ghost var after := MovedRuns(start, trace, reached, i, step, d);
      connections := connections[i := d];
      trace, reached := trace + [step], after;
    }

    method RegistryActs(step: Step, ghost pc: PublisherPc)
      requires Following(pc) && (step.Join? || step.Leave?)
      modifies this`registered, this`nextEndpoint, this`trace, this`reached
      ensures Following(pc)
    {
      At(pc);
      ghost var after;
      if step.Join? {
        after := JoinRuns(start, trace, reached);
        registered, nextEndpoint := registered + {nextEndpoint}, nextEndpoint + 1;
      } else {
        after := LeaveRuns(start, trace, reached, step.endpoint);
        registered := registered - {step.endpoint};
      }
      trace, reached := trace + [step], after;
    }

    /** The publisher is between two shared-memory actions: the others act. */
    method Yield(ghost pc: PublisherPc)
      requires Following(pc)
      modifies this`connections, this`registered, this`nextEndpoint, this`trace, this`reached, this`schedule
      ensures Following(pc)
      ensures Undisturbed(old(connections), connections)
      ensures old(schedule) != [] ==> schedule == old(schedule)[1..]
      ensures old(schedule) == [] ==> schedule == [] && connections == old(connections)
    {
      At(pc);
      if schedule == [] { return; }
      var steps := schedule[0];
      schedule := schedule[1..];
      var k := 0;
      while k < |steps|
        invariant k <= |steps| && Following(pc)
        invariant schedule == old(schedule)[1..]
        invariant Undisturbed(old(connections), connections)
      {
        ghost var cs := connections;
        Other(steps[k], pc);
        UndisturbedTwice(old(connections), cs, connections);
        k := k + 1;
      }
    }

    // ---- dispatch ----

    /** Nothing before this moment belongs to the offers to come. */
    ghost method Mark(pc: PublisherPc)
      requires Following(pc)
      modifies this`offered
      ensures Following(pc) && offered == trace
    {
      At(pc);
      offered := trace;
    }

    /** Takes the tentative reference for one connection. It fails only at the 32-bit limit. */
    method TakeReference(h: ChunkHandle, index: nat, ghost broken: seq<nat>) returns (e: ErrorCode)
      requires Following(Dispatching(h, index, Start, broken)) && index < |connections|
      modifies this`trace, this`reached, this`offered, pool, pool.headers
      ensures e == Ok ==> Following(Dispatching(h, index, Referenced, broken))
      ensures e != Ok ==> Following(Dispatching(h, index + 1, Start, broken))
      ensures h !in connections[index].outstanding
      ensures old(offered) <= offered && (e == Ok || e == InvalidState)
      ensures e != Ok ==> Happened(start, offered, old(|offered|), h, index, Unreferenced)
    {
      At(Dispatching(h, index, Start, broken));
      assert Obligations(connections)[index] == connections[index].outstanding;
      ghost var after := AddRefRuns(start, trace, reached);
      RefusalHappens(start, trace, reached, |offered|);
      if |connections[index].outstanding| >= pool.headers.Length { return PoolExhausted; }
      e := pool.AddReference(h);
      Record(AddRef, after, if e == Ok then Dispatching(h, index, Referenced, broken)
                            else Dispatching(h, index + 1, Start, broken));
    }

    /** Offers the handle, after which the others may act before the result is settled. */
    method Offer(h: ChunkHandle, index: nat, ghost broken: seq<nat>, choice: Offering)
      returns (o: Outcome, dropped: Option<ChunkHandle>, ghost m: Meeting)
      requires Following(Dispatching(h, index, Referenced, broken)) && index < |connections|
      modifies this`connections, this`registered, this`nextEndpoint, this`trace, this`reached, this`schedule,
               this`offered
      ensures old(offered) <= offered && m.Met? && Chosen(choice, m) && Calls(m, o)
      ensures Happened(start, offered, old(|offered|), h, index, m)
      ensures Obligations(connections) == old(Obligations(connections))
      ensures Endpoints(connections) == old(Endpoints(connections))
      ensures Proper(o) && !o.NoReference? && (o.Delivered? ==> (o.evicted <==> dropped.Some?))
      ensures o.Delivered? ==> Following(Dispatching(h, index, Enqueued(dropped), broken))
      ensures !o.Delivered? ==>
                Following(Dispatching(h, index, Refused,
                                      broken + if Breaks(o) then [connections[index].endpoint] else []))
    {
      o, dropped, m := TryOffer(h, index, broken, choice);
      assert Endpoints(connections)[index] == connections[index].endpoint;
      if o.Delivered? {
        Yield(Dispatching(h, index, Enqueued(dropped), broken));
      } else {
        Yield(Dispatching(h, index, Refused, broken + if Breaks(o) then [connections[index].endpoint] else []));
        assert Endpoints(connections)[index] == connections[index].endpoint;
      }
    }

    /** Encodes the wake frame and enqueues, waiting for room under BlockWithTimeout. */
    method TryOffer(h: ChunkHandle, index: nat, ghost broken: seq<nat>, choice: Offering)
      returns (o: Outcome, dropped: Option<ChunkHandle>, ghost m: Meeting)
      requires Following(Dispatching(h, index, Referenced, broken)) && index < |connections|
      modifies this`connections, this`registered, this`nextEndpoint, this`trace, this`reached, this`schedule,
               this`offered
      ensures old(offered) <= offered && m.Met? && Chosen(choice, m) && Calls(m, o)
      ensures Happened(start, offered, old(|offered|), h, index, m)
      ensures Obligations(connections) == old(Obligations(connections))
      ensures Endpoints(connections) == old(Endpoints(connections))
      ensures Proper(o) && !o.NoReference? && (o.Delivered? ==> (o.evicted <==> dropped.Some?))
      ensures o.Delivered? ==> Following(Dispatching(h, index, Enqueued(dropped), broken))
      ensures !o.Delivered? ==>
                Following(Dispatching(h, index, Refused,
                                      broken + if Breaks(o) then [connections[index].endpoint] else []))
    {
      var waited := AwaitRoom(index, choice.patience, Dispatching(h, index, Referenced, broken));
      var expired := waited && choice.late && connections[index].ring.policy == BlockWithTimeout;
      if choice.encodes && choice.locks && !Waits(connections[index].ring) && !expired {
        m := Met(connections[index].ring, Acts(choice.delivered));
        o, dropped := Place(h, index, broken, choice.delivered);
      } else {
        o, m := GiveUp(h, index, broken, choice);
        dropped := None;
      }
    }

    method AwaitRoom(index: nat, patience: nat, ghost pc: PublisherPc) returns (waited: bool)
      requires Following(pc) && index < |connections|
      modifies this`connections, this`registered, this`nextEndpoint, this`trace, this`reached, this`schedule
      ensures Following(pc)
      ensures Obligations(connections) == old(Obligations(connections))
      ensures Endpoints(connections) == old(Endpoints(connections))
    {
      var n := 0;
      while n < patience && Waits(connections[index].ring)
        invariant Following(pc) && index < |connections|
        invariant Obligations(connections) == old(Obligations(connections))
        invariant Endpoints(connections) == old(Endpoints(connections))
        decreases patience - n
      {
        Yield(pc);
        n := n + 1;
      }
      waited := n > 0;
    }

    method GiveUp(h: ChunkHandle, index: nat, ghost broken: seq<nat>, choice: Offering)
      returns (o: Outcome, ghost m: Meeting)
      requires Following(Dispatching(h, index, Referenced, broken)) && index < |connections|
      requires choice.encodes && choice.locks ==>
                 connections[index].ring.policy == BlockWithTimeout && (Waits(connections[index].ring) || choice.late)
      modifies this`trace, this`reached, this`offered
      ensures old(offered) <= offered && m.Met? && Chosen(choice, m) && Calls(m, o)
      ensures Happened(start, offered, old(|offered|), h, index, m)
      ensures Proper(o) && !o.Delivered? && !o.NoReference? && !Breaks(o)
      ensures Following(Dispatching(h, index, Refused, broken + []))
    {
      At(Dispatching(h, index, Referenced, broken));
      ghost var after := GiveUpMeets(start, trace, reached, choice, |offered|);
      m := Met(connections[index].ring, GivenUp(choice));
      o := GivenUpOutcome(choice);
      assert broken + [] == broken;
      Record(TryEnqueue(GivenUp(choice)), after, Dispatching(h, index, Refused, broken));
    }

    /** The run goes on by an offer, or by one that could not be made. */
    ghost method Record(step: Step, after: System, pc: PublisherPc)
      requires Reaches(start, trace + [step], after) && after == Now(pc) && offered <= trace
      modifies this`trace, this`reached, this`offered
      ensures Following(pc) && offered == old(trace) + [step]
    {
      trace, reached := trace + [step], after;
      offered := trace;
    }

    /** The enqueue itself, with the wake frame sent (or not) inside the critical section. */
    method Place(h: ChunkHandle, index: nat, ghost broken: seq<nat>, delivered: bool)
      returns (o: Outcome, dropped: Option<ChunkHandle>)
      requires Following(Dispatching(h, index, Referenced, broken)) && index < |connections|
      requires !Waits(connections[index].ring)
      modifies this`connections, this`trace, this`reached, this`offered
      ensures old(offered) <= offered && Calls(Met(old(connections)[index].ring, Acts(delivered)), o)
      ensures Happened(start, offered, old(|offered|), h, index, Met(old(connections)[index].ring, Acts(delivered)))
      ensures Obligations(connections) == old(Obligations(connections))
      ensures Endpoints(connections) == old(Endpoints(connections))
      ensures Proper(o) && (o.Delivered? || o.Refusal?) && (o.Delivered? ==> (o.evicted <==> dropped.Some?))
      ensures Following(After(Dispatching(h, index, Referenced, broken), o, dropped, connections[index].endpoint))
    {
      At(Dispatching(h, index, Referenced, broken));
      ghost var after := PlaceMeets(start, trace, reached, delivered, |offered|);
      var (c, x) := Placed(connections[index], h, delivered);
      o, dropped := OutcomeOf(x), x.dropped;
      Replace(index, c, TryEnqueue(Acts(delivered)), after,
              After(Dispatching(h, index, Referenced, broken), o, dropped, c.endpoint));
    }

    /** Connection `index` becomes `c` by an offer, which leaves the publisher at `pc`. */
    method Replace(index: nat, c: Connection, ghost step: Step, ghost after: System, ghost pc: PublisherPc)
      requires index < |connections| && Reaches(start, trace + [step], after) && offered <= trace
      requires after == Now(pc).(connections := connections[index := c])
      modifies this`connections, this`trace, this`reached, this`offered
      ensures Following(pc) && connections == old(connections)[index := c] && offered == old(trace) + [step]
    {
      connections := connections[index := c];
      trace, reached := trace + [step], after;
      offered := trace;
    }

    /** Publisher::Impl::releaseOutstanding. */
    method ReleaseOutstanding(i: nat, h: ChunkHandle)
      requires i < |connections| && Shaped(pool.State())
      modifies this`connections, pool, pool.headers
      ensures Shaped(pool.State())
      ensures var (p, c) := Protocol.ReleaseOutstanding(old(pool.State()), old(connections)[i], h);
              pool.State() == p && connections == old(connections)[i := c]
    {
      var c := connections[i];
      var k := 0;
      while k < |c.outstanding| && c.outstanding[k] != h
        invariant k <= |c.outstanding|
        invariant forall j :: 0 <= j < k ==> c.outstanding[j] != h
      {
        k := k + 1;
      }
      assert k == Find(c.outstanding, h);
      if k == |c.outstanding| { return; }
      var _ := pool.ReleaseReference(h);
      connections := connections[i := c.(outstanding := Drop(c.outstanding, k))];
    }

    /** Records an accepted handle and gives back the one it evicted. */
    method SettleTaken(h: ChunkHandle, index: nat, ghost broken: seq<nat>, dropped: Option<ChunkHandle>)
      requires Following(Dispatching(h, index, Enqueued(dropped), broken)) && index < |connections|
      modifies this`connections, this`trace, this`reached, pool, pool.headers
      ensures Following(Dispatching(h, index + 1, Start, broken))
      ensures Endpoints(connections) == old(Endpoints(connections))
      ensures Obligations(connections) == old(Obligations(connections))[index := connections[index].outstanding]
      ensures OwesAfter(old(connections)[index].outstanding, h, dropped, connections[index].outstanding)
    {
      At(Dispatching(h, index, Enqueued(dropped), broken));
      ghost var after, d := SettleTakenRuns(start, trace, reached);
      UpdateProjections(connections, index, d);
      RecordTaken(h, index, dropped, after.pool, d);
      trace, reached := trace + [Settle], after;
    }

    method RecordTaken(h: ChunkHandle, index: nat, dropped: Option<ChunkHandle>, ghost q: Pool, ghost d: Connection)
      requires index < |connections| && Taken(pool.State(), connections[index], h, dropped, q, d)
      modifies this`connections, pool, pool.headers
      ensures pool.State() == q && connections == old(connections)[index := d]
    {
      var c := connections[index];
      assert TakenAt(pool.State(), c, h, dropped, q, d, c.endpoint);
      connections := connections[index := c.(outstanding := c.outstanding + [h])];
      if dropped.Some? {
        ReleaseOutstanding(index, dropped.value);
      }
    }

    /** Takes back the reference of an offer that was refused. */
    method SettleRefused(h: ChunkHandle, index: nat, ghost broken: seq<nat>)
      requires Following(Dispatching(h, index, Refused, broken)) && index < |connections|
      modifies this`trace, this`reached, pool, pool.headers
      ensures Following(Dispatching(h, index + 1, Start, broken))
      ensures h !in connections[index].outstanding
    {
      At(Dispatching(h, index, Refused, broken));
      ghost var after := SettleRefusedRuns(start, trace, reached);
      var _ := pool.ReleaseReference(h);
      trace, reached := trace + [Settle], after;
    }

    /** One round of the dispatch loop. */
    method DispatchOne(h: ChunkHandle, index: nat, ghost broken: seq<nat>, choice: Offering)
      returns (o: Outcome, ghost m: Meeting)
      requires Following(Dispatching(h, index, Start, broken)) && index < |connections|
      modifies this`connections, this`registered, this`nextEndpoint, this`trace, this`reached, this`schedule,
               this`offered, pool, pool.headers
      ensures old(offered) <= offered && Chosen(choice, m) && Calls(m, o)
      ensures Happened(start, offered, old(|offered|), h, index, m)
      ensures Proper(o) && Endpoints(connections) == old(Endpoints(connections))
      ensures Following(Dispatching(h, index + 1, Start,
                                    broken + if Breaks(o) then [connections[index].endpoint] else []))
      ensures Obligations(connections) == old(Obligations(connections))[index := connections[index].outstanding]
      ensures h in connections[index].outstanding <==> o.Delivered?
    {
      var e := TakeReference(h, index, broken);
      if e == Ok {
        Yield(Dispatching(h, index, Referenced, broken));
        ghost var before, run := old(offered), offered;
        o, m := Deliver(h, index, broken, choice);
        HappenedLater(start, offered, |run|, offered, |before|, h, index, m);
      } else {
        ghost var before := Obligations(connections);
        assert before == before[index := before[index]];
        assert broken + [] == broken;
        o, m := NoReference(e), Unreferenced;
        UnreferencedCalls();
      }
    }

    /** Offers the referenced handle to the connection and settles the result. */
    method Deliver(h: ChunkHandle, index: nat, ghost broken: seq<nat>, choice: Offering)
      returns (o: Outcome, ghost m: Meeting)
      requires Following(Dispatching(h, index, Referenced, broken)) && index < |connections|
      modifies this`connections, this`registered, this`nextEndpoint, this`trace, this`reached, this`schedule,
               this`offered, pool, pool.headers
      ensures old(offered) <= offered && Chosen(choice, m) && Calls(m, o)
      ensures Happened(start, offered, old(|offered|), h, index, m)
      ensures Proper(o) && Endpoints(connections) == old(Endpoints(connections))
      ensures Following(Dispatching(h, index + 1, Start,
                                    broken + if Breaks(o) then [connections[index].endpoint] else []))
      ensures Obligations(connections) == old(Obligations(connections))[index := connections[index].outstanding]
      ensures h in connections[index].outstanding <==> o.Delivered?
    {
      ghost var before := Obligations(connections);
      assert before == before[index := before[index]];
      var dropped;
      o, dropped, m := Offer(h, index, broken, choice);
      assert Endpoints(connections)[index] == connections[index].endpoint;
      if o.Delivered? {
        assert broken + [] == broken;
        SettleTaken(h, index, broken, dropped);
      } else {
        ghost var broken' := broken + if Breaks(o) then [connections[index].endpoint] else [];
        SettleRefused(h, index, broken');
      }
      assert Endpoints(connections)[index] == connections[index].endpoint;
    }

    /** The dispatch loop: one outcome per connection, and who now owes the handle. */
    method DispatchAll(h: ChunkHandle, size: nat, choices: seq<Offering>)
      returns (r: PublishResult, broken: seq<nat>, ghost outcomes: seq<Outcome>, ghost met: seq<Meeting>)
      requires Following(Dispatching(h, 0, Start, []))
      modifies this`connections, this`registered, this`nextEndpoint, this`trace, this`reached, this`schedule,
               this`offered, pool, pool.headers
      ensures AllCalled(met, outcomes) && AllHappened(start, offered, old(|trace|), h, choices, met)
      ensures Following(Dispatching(h, |connections|, Start, broken))
      ensures Endpoints(connections) == old(Endpoints(connections))
      ensures Progress(Endpoints(connections), Obligations(connections), h, |connections|, broken, outcomes, r)
      ensures r.sequence == sequence + 1 && r.payloadSize == size
    {
      r := PublishResult(Ok, sequence + 1, size, 0, 0, 0, 0);
      broken, outcomes, met := [], [], [];
      Mark(Dispatching(h, 0, Start, []));
      NoneHappened(start, offered, |trace|, h, choices);
      ghost var ids := Endpoints(connections);
      ProgressNone(ids, Obligations(connections), h, r);
      var index := 0;
      while index < |connections|
        invariant Following(Dispatching(h, index, Start, broken))
        invariant Endpoints(connections) == ids && 0 <= index <= |ids|
        invariant Progress(ids, Obligations(connections), h, index, broken, outcomes, r)
        invariant r.sequence == sequence + 1 && r.payloadSize == size && |met| == index
        invariant AllCalled(met, outcomes) && AllHappened(start, offered, old(|trace|), h, choices, met)
        invariant old(|trace|) <= |offered|
        decreases |ids| - index
      {
        ghost var run := offered;
        ghost var o, m;
        r, broken, o, m := DispatchNext(h, index, r, broken, ChoiceAt(choices, index), ids, outcomes);
        AllHappenedNext(start, run, old(|trace|), offered, |run|, h, choices, met, m);
        AllCalledNext(met, outcomes, m, o);
        outcomes, met := outcomes + [o], met + [m];
        index := index + 1;
      }
    }

    method DispatchNext(h: ChunkHandle, index: nat, r: PublishResult, broken: seq<nat>, choice: Offering,
                        ghost ids: seq<nat>, ghost outcomes: seq<Outcome>)
      returns (r': PublishResult, broken': seq<nat>, ghost o: Outcome, ghost m: Meeting)
      requires Following(Dispatching(h, index, Start, broken)) && index < |connections|
      requires Endpoints(connections) == ids
      requires Progress(ids, Obligations(connections), h, index, broken, outcomes, r)
      modifies this`connections, this`registered, this`nextEndpoint, this`trace, this`reached, this`schedule,
               this`offered, pool, pool.headers
      ensures old(offered) <= offered && Chosen(choice, m) && Calls(m, o)
      ensures Happened(start, offered, old(|offered|), h, index, m)
      ensures Following(Dispatching(h, index + 1, Start, broken')) && Endpoints(connections) == ids
      ensures Progress(ids, Obligations(connections), h, index + 1, broken', outcomes + [o], r')
      ensures r'.sequence == r.sequence && r'.payloadSize == r.payloadSize
    {
      ghost var lists := Obligations(connections);
      var outcome;
      outcome, m := DispatchOne(h, index, broken, choice);
      assert ids[index] == connections[index].endpoint;
      r', broken' := Tally(r, broken, outcome, connections[index].endpoint, ids, Obligations(connections), lists, h,
                           index,
                           outcomes);
      o := outcome;
    }

    method ReturnGuard(h: ChunkHandle, ghost q: Pool)
      requires GuardDropped(pool.State(), h, q)
      modifies pool, pool.headers
      ensures pool.State() == q
    {
      assert GuardDroppedAt(pool.State(), h, q, h.chunk);
      var _ := pool.ReleaseReference(h);
    }

    method DropGuard(h: ChunkHandle, ghost broken: seq<nat>)
      requires Following(Dispatching(h, |connections|, Start, broken))
      modifies this`sequence, this`trace, this`reached, pool, pool.headers
      ensures Following(Removing(broken, true, None)) && sequence == old(sequence) + 1
      ensures Shaped(pool.State()) && (Live(pool.State(), h) ==> SequenceOf(pool.State(), h) == sequence)
    {
      At(Dispatching(h, |connections|, Start, broken));
      ghost var after := DropGuardRuns(start, trace, reached);
      ReturnGuard(h, after.pool);
      sequence := sequence + 1;
      trace, reached := trace + [Protocol.DropGuard], after;
    }

    // ---- removing connections ----

    /** Gives back the oldest handle that connection `k` owes. */
    method ReleaseHead(k: nat, ghost pc: PublisherPc)
      requires Following(pc) && pc.Removing? && pc.endpoints != []
      requires k < |connections| && connections[k].endpoint == pc.endpoints[0] && connections[k].outstanding != []
      requires forall j :: 0 <= j < k ==> connections[j].endpoint != pc.endpoints[0]
      modifies this`connections, this`trace, this`reached, pool, pool.headers
      ensures Following(pc)
      ensures Endpoints(connections) == old(Endpoints(connections))
      ensures Obligations(connections) == old(Obligations(connections))[k := old(connections)[k].outstanding[1..]]
      ensures Frames(connections) == old(Frames(connections))
      ensures Untouched(old(pool.State()), pool.State(), [old(connections)[k].outstanding[0]])
    {
      At(pc);
      ghost var after := ReleaseHeadRuns(start, trace, reached, k);
      var c := connections[k];
      UpdateProjections(connections, k, c.(outstanding := c.outstanding[1..]));
      assert Frames(connections[k := c.(outstanding := c.outstanding[1..])]) == Frames(connections);
      var _ := pool.ReleaseReference(c.outstanding[0]);
      connections := connections[k := c.(outstanding := c.outstanding[1..])];
      trace, reached := trace + [RemoveNext], after;
    }

    /** Publisher::Impl::releaseAllOutstanding. */
    method ReleaseAll(k: nat, ghost pc: PublisherPc)
      requires Following(pc) && pc.Removing? && pc.endpoints != []
      requires k < |connections| && connections[k].endpoint == pc.endpoints[0]
      requires forall j :: 0 <= j < k ==> connections[j].endpoint != pc.endpoints[0]
      modifies this`connections, this`registered, this`nextEndpoint, this`trace, this`reached, this`schedule, pool,
               pool.headers
      ensures Following(pc)
      ensures Endpoints(connections) == old(Endpoints(connections))
      ensures Obligations(connections) == old(Obligations(connections))[k := []]
      ensures Grow(old(Frames(connections)), Frames(connections))
      ensures Untouched(old(pool.State()), pool.State(), old(connections)[k].outstanding)
    {
      ghost var first, p, given := connections, pool.State(), [];
      ShapedNow(pc);
      ReturningNone(first, p, k);
      while connections[k].outstanding != []
        invariant Following(pc) && |connections| == |first| && Returning(first, p, connections, pool.State(), k, given)
        decreases |connections[k].outstanding|
      {
        given := ReleaseNext(k, pc, first, p, given);
      }
      assert given + [] == given;
    }

    method ReleaseNext(k: nat, ghost pc: PublisherPc, ghost first: seq<Connection>, ghost p: Pool,
                       ghost given: seq<ChunkHandle>)
      returns (ghost given': seq<ChunkHandle>)
      requires Following(pc) && pc.Removing? && pc.endpoints != []
      requires k < |first| == |connections| && first[k].endpoint == pc.endpoints[0] && connections[k].outstanding != []
      requires forall j :: 0 <= j < k ==> first[j].endpoint != pc.endpoints[0]
      requires Returning(first, p, connections, pool.State(), k, given)
      modifies this`connections, this`registered, this`nextEndpoint, this`trace, this`reached, this`schedule, pool,
               pool.headers
      ensures Following(pc) && |connections| == |first| && Returning(first, p, connections, pool.State(), k, given')
      ensures |connections[k].outstanding| < old(|connections[k].outstanding|)
    {
      ghost var q, cs := pool.State(), connections;
      assert forall j :: 0 <= j < |first| ==> Endpoints(first)[j] == connections[j].endpoint;
      ReleaseOne(k, pc);
      given' := given + [cs[k].outstanding[0]];
      ReturningNext(first, p, cs, q, k, given, connections, pool.State());
    }

    method ReleaseOne(k: nat, ghost pc: PublisherPc)
      requires Following(pc) && pc.Removing? && pc.endpoints != []
      requires k < |connections| && connections[k].endpoint == pc.endpoints[0] && connections[k].outstanding != []
      requires forall j :: 0 <= j < k ==> connections[j].endpoint != pc.endpoints[0]
      modifies this`connections, this`registered, this`nextEndpoint, this`trace, this`reached, this`schedule, pool,
               pool.headers
      ensures Following(pc) && Endpoints(connections) == old(Endpoints(connections))
      ensures Obligations(connections) == old(Obligations(connections))[k := connections[k].outstanding]
      ensures connections[k].outstanding == old(connections)[k].outstanding[1..]
      ensures Grow(old(Frames(connections)), Frames(connections))
      ensures Untouched(old(pool.State()), pool.State(), [old(connections)[k].outstanding[0]])
    {
      ReleaseHead(k, pc);
      ghost var lists := Obligations(connections);
      Yield(pc);
      assert Obligations(connections)[k] == lists[k];
    }

    /** Publisher::Impl::removeEndpoint; endpoints are unique, so one connection at most goes. */
    method ForgetEndpoint(e: nat, tombstone: bool, ghost rest: seq<nat>, ghost joining: Option<seq<nat>>)
      requires Following(Removing([e] + rest, tombstone, joining))
      modifies this`connections, this`registered, this`nextEndpoint, this`trace, this`reached, this`schedule,
               this`failed, pool, pool.headers
      ensures Following(Removing(rest, tombstone, joining))
      ensures failed == if tombstone then old(failed) + {e} else old(failed)
      ensures Forgotten(e, old(connections), connections)
      ensures Untouched(old(pool.State()), pool.State(), Owed(old(connections), e))
    {
      ghost var pc := Removing([e] + rest, tombstone, joining);
      assert pc.endpoints[1..] == rest;
      ghost var first := connections;
      DistinctNow(pc);
      var k := Locate(e);
      assert k == FindConnection(first, e);
      ClearConnection(k, pc);
      EraseConnection(k, e, tombstone, pc, first);
    }

    /** Connection `k`, if there is one, gives back all it owes. */
    method ClearConnection(k: nat, ghost pc: PublisherPc)
      requires Following(pc) && pc.Removing? && pc.endpoints != [] && k <= |connections|
      requires k < |connections| ==> connections[k].endpoint == pc.endpoints[0]
      requires forall j :: 0 <= j < k ==> connections[j].endpoint != pc.endpoints[0]
      modifies this`connections, this`registered, this`nextEndpoint, this`trace, this`reached, this`schedule, pool,
               pool.headers
      ensures Following(pc)
      ensures NoDup(old(Endpoints(connections))) ==> Emptied(pc.endpoints[0], old(connections), connections, k)
      ensures Untouched(old(pool.State()), pool.State(),
                        if k < |old(connections)| then old(connections)[k].outstanding else [])
    {
      if k < |connections| { ReleaseAll(k, pc); } else { ShapedNow(pc); }
    }

    method EraseConnection(k: nat, e: nat, tombstone: bool, ghost pc: PublisherPc, ghost first: seq<Connection>)
      requires Following(pc) && pc.Removing? && pc.endpoints != [] && pc.endpoints[0] == e && pc.tombstone == tombstone
      requires Emptied(e, first, connections, k)
      modifies this`connections, this`trace, this`reached, this`failed
      ensures Following(pc.(endpoints := pc.endpoints[1..]))
      ensures failed == if tombstone then old(failed) + {e} else old(failed)
      ensures Forgotten(e, first, connections)
    {
      ForgetLists(e, first, connections, k);
      Erase(k, e, tombstone, pc);
    }

    /** The first connection to `e`, or the length of the list. */
    method Locate(e: nat) returns (k: nat)
      ensures k <= |connections| && (k < |connections| ==> connections[k].endpoint == e)
      ensures forall j :: 0 <= j < k ==> connections[j].endpoint != e
    {
      k := 0;
      while k < |connections| && connections[k].endpoint != e
        invariant k <= |connections|
        invariant forall j :: 0 <= j < k ==> connections[j].endpoint != e
      {
        k := k + 1;
      }
    }

    /** Takes the connection, if there is one, out of the list. */
    method Erase(k: nat, e: nat, tombstone: bool, ghost pc: PublisherPc)
      requires Following(pc) && pc.Removing? && pc.endpoints != [] && pc.endpoints[0] == e && pc.tombstone == tombstone
      requires k <= |connections| && forall j :: 0 <= j < k ==> connections[j].endpoint != e
      requires k < |connections| ==> connections[k].endpoint == e && connections[k].outstanding == []
      modifies this`connections, this`trace, this`reached, this`failed
      ensures Following(pc.(endpoints := pc.endpoints[1..]))
      ensures connections == if k < |old(connections)| then Drop(old(connections), k) else old(connections)
      ensures failed == if tombstone then old(failed) + {e} else old(failed)
    {
      At(pc);
      ghost var after := ForgetRuns(start, trace, reached, k);
      if k < |connections| { connections := Drop(connections, k); }
      if tombstone { failed := failed + {e}; }
      trace, reached := trace + [RemoveNext], after;
    }

    /** Gives up the endpoints that broke; none of them holds `h`. */
    method RemoveBroken(broken: seq<nat>, ghost h: ChunkHandle)
      requires Following(Removing(broken, true, None))
      requires Spared(Endpoints(connections), Obligations(connections), broken, h)
      modifies this`connections, this`registered, this`nextEndpoint, this`trace, this`reached, this`schedule,
               this`failed, pool, pool.headers
      ensures Following(Idle)
      ensures Holders(Obligations(connections), h) == old(Holders(Obligations(connections), h))
      ensures failed == old(failed) + Elements(broken)
      ensures Cleared(old(connections), old(pool.State()), connections, pool.State(), Elements(broken), h)
    {
      RemoveEach(broken, h);
      FinishRemoving(true, None);
    }

    method RemoveEach(broken: seq<nat>, ghost h: ChunkHandle)
      requires Following(Removing(broken, true, None))
      requires Spared(Endpoints(connections), Obligations(connections), broken, h)
      modifies this`connections, this`registered, this`nextEndpoint, this`trace, this`reached, this`schedule,
               this`failed, pool, pool.headers
      ensures Following(Removing([], true, None))
      ensures Holders(Obligations(connections), h) == old(Holders(Obligations(connections), h))
      ensures failed == old(failed) + Elements(broken)
      ensures Cleared(old(connections), old(pool.State()), connections, pool.State(), Elements(broken), h)
    {
      var k := 0;
      ghost var holders, first, p := Holders(Obligations(connections), h), connections, pool.State();
      ShapedNow(Removing(broken, true, None));
      ClearedNone(first, p, h);
      assert broken[0..] == broken && Elements(broken[..0]) == {};
      while k < |broken|
        invariant 0 <= k <= |broken|
        invariant Following(Removing(broken[k..], true, None))
        invariant Spared(Endpoints(connections), Obligations(connections), broken, h)
        invariant Holders(Obligations(connections), h) == holders
        invariant failed == old(failed) + Elements(broken[..k])
        invariant Cleared(first, p, connections, pool.State(), Elements(broken[..k]), h)
      {
        RemoveBrokenAt(k, broken, h, old(failed), first, p);
        k := k + 1;
      }
      assert broken[..k] == broken && broken[k..] == [];
    }

    method RemoveBrokenAt(k: nat, broken: seq<nat>, ghost h: ChunkHandle, ghost before: set<nat>,
                          ghost first: seq<Connection>, ghost p: Pool)
      requires k < |broken| && Following(Removing(broken[k..], true, None)) && failed == before + Elements(broken[..k])
      requires Spared(Endpoints(connections), Obligations(connections), broken, h)
      requires Cleared(first, p, connections, pool.State(), Elements(broken[..k]), h)
      modifies this`connections, this`registered, this`nextEndpoint, this`trace, this`reached, this`schedule,
               this`failed, pool, pool.headers
      ensures Following(Removing(broken[k + 1..], true, None)) && failed == before + Elements(broken[..k + 1])
      ensures Spared(Endpoints(connections), Obligations(connections), broken, h)
      ensures Holders(Obligations(connections), h) == old(Holders(Obligations(connections), h))
      ensures Cleared(first, p, connections, pool.State(), Elements(broken[..k + 1]), h)
    {
      SliceHead(broken, k);
      ElementsNext(broken, k);
      ghost var cs, q := connections, pool.State();
      RemoveOneBroken(broken[k], broken[k + 1..], broken, h);
      ClearedNext(first, p, cs, q, Elements(broken[..k]), h, broken[k], connections, pool.State());
    }

    method RemoveOneBroken(e: nat, ghost rest: seq<nat>, ghost broken: seq<nat>, ghost h: ChunkHandle)
      requires Following(Removing([e] + rest, true, None)) && e in broken
      requires Spared(Endpoints(connections), Obligations(connections), broken, h)
      modifies this`connections, this`registered, this`nextEndpoint, this`trace, this`reached, this`schedule,
               this`failed, pool, pool.headers
      ensures Following(Removing(rest, true, None)) && failed == old(failed) + {e}
      ensures Spared(Endpoints(connections), Obligations(connections), broken, h)
      ensures Holders(Obligations(connections), h) == old(Holders(Obligations(connections), h))
      ensures Cleared(old(connections), old(pool.State()), connections, pool.State(), {e}, h)
    {
      ghost var cs, p := connections, pool.State();
      ForgetEndpoint(e, true, rest, None);
      WithoutSpares(e, Endpoints(cs), Obligations(cs), Endpoints(connections), Obligations(connections), broken, h);
      ForgottenClears(cs, p, connections, pool.State(), e, broken, h);
    }

    ghost method FinishRemoving(tombstone: bool, joining: Option<seq<nat>>)
      requires Following(Removing([], tombstone, joining))
      modifies this`trace, this`reached
      ensures Following(if joining.None? then Idle else Connecting(joining.value))
    {
      At(Removing([], tombstone, joining));
      ghost var after := RemovedRuns(start, trace, reached);
      trace, reached := trace + [RemoveNext], after;
    }

    /** Drops the guard, which frees the chunk when nobody took it, and gives up what broke. */
    method FinishDispatch(h: ChunkHandle, broken: seq<nat>, ghost enqueued: nat)
      requires Following(Dispatching(h, |connections|, Start, broken))
      requires Holders(Obligations(connections), h) == enqueued
      requires Spared(Endpoints(connections), Obligations(connections), broken, h)
      modifies this`connections, this`registered, this`nextEndpoint, this`trace, this`reached, this`schedule,
               this`failed, this`sequence, pool, pool.headers
      ensures Following(Idle) && sequence == old(sequence) + 1
      ensures Shaped(pool.State())
      ensures Live(pool.State(), h) <==> enqueued > 0
      ensures Live(pool.State(), h) ==> pool.headers[h.chunk].refs == enqueued
      ensures failed == old(failed) + Elements(broken)
      ensures forall e :: e in Endpoints(connections) <==> e in old(Endpoints(connections)) && e !in Elements(broken)
      ensures Live(pool.State(), h) ==> SequenceOf(pool.State(), h) == sequence
    {
      ghost var cs := connections;
      DropGuard(h, broken);
      HeldNow(Removing(broken, true, None), h);
      ghost var p := pool.State();
      RemoveBroken(broken, h);
      HeldNow(Idle, h);
      ClearedEndpoints(cs, p, connections, pool.State(), Elements(broken), h);
    }

    /** Publisher::Impl::dispatchPublished. */
    method DispatchPublished(h: ChunkHandle, size: nat, choices: seq<Offering>)
      returns (r: PublishResult, ghost outcomes: seq<Outcome>, ghost met: seq<Meeting>)
      requires Following(Dispatching(h, 0, Start, []))
      modifies this`connections, this`registered, this`nextEndpoint, this`trace, this`reached, this`schedule,
               this`failed, this`sequence, this`offered, pool, pool.headers
      ensures |met| == |old(connections)| && Reports(r, met)
      ensures AllHappened(start, trace, old(|trace|), h, choices, met)
      ensures forall e :: e in Endpoints(connections) <==>
                e in old(Endpoints(connections)) && !GivesUp(old(Endpoints(connections)), met, e)
      ensures Following(Idle) && sequence == old(sequence) + 1 && r.sequence == sequence && r.payloadSize == size
      ensures |outcomes| == |old(connections)|
      ensures Summarises(r.(error := Remembered(outcomes)), outcomes) && r.error == ErrorOf(outcomes)
      ensures Shaped(pool.State())
      ensures Live(pool.State(), h) <==> r.enqueued > 0
      ensures Live(pool.State(), h) ==> pool.headers[h.chunk].refs == r.enqueued
      ensures failed == old(failed) + Elements(Broken(old(Endpoints(connections)), outcomes))
      ensures forall e :: e in Endpoints(connections) <==>
                e in old(Endpoints(connections)) && e !in Broken(old(Endpoints(connections)), outcomes)
      ensures Live(pool.State(), h) ==>
                sequence in published && ViewOf(pool.State(), h) == View(h, sequence, published[sequence])
    {
      var broken;
      r, broken, outcomes, met := DispatchAll(h, size, choices);
      DispatchedNow(h, broken, outcomes, r);
      ReportedError(outcomes);
      FinishDispatch(h, broken, r.enqueued);
      ReadsNow(Idle, h);
      RecordedNow(Idle, old(|trace|), h, choices, met);
      r := r.(error := if r.enqueued != 0 then Ok else if r.error == Ok then ConnectionLost else r.error);
      Reported(r, met, outcomes);
      BrokenAreLost(old(Endpoints(connections)), met, outcomes);
    }

    lemma RecordedNow(pc: PublisherPc, from: nat, h: ChunkHandle, choices: seq<Offering>, met: seq<Meeting>)
      requires Following(pc) && AllHappened(start, offered, from, h, choices, met)
      ensures AllHappened(start, trace, from, h, choices, met)
    {
      At(pc);
      AllHappenedLater(start, offered, from, trace, from, h, choices, met);
    }

    lemma DispatchedNow(h: ChunkHandle, broken: seq<nat>, outcomes: seq<Outcome>, r: PublishResult)
      requires Following(Dispatching(h, |connections|, Start, broken))
      requires Progress(Endpoints(connections), Obligations(connections), h, |connections|, broken, outcomes, r)
      ensures Holders(Obligations(connections), h) == r.enqueued
      ensures Spared(Endpoints(connections), Obligations(connections), broken, h)
      ensures forall j :: 0 <= j < |outcomes| ==> Proper(outcomes[j])
      ensures |outcomes| == |connections| && Summarises(r, outcomes)
              && broken == Broken(Endpoints(connections), outcomes)
    {
      At(Dispatching(h, |connections|, Start, broken));
      AfterDispatch(start, trace, reached, outcomes, r);
      assert ProgressAt(Endpoints(connections), Obligations(connections), h, |connections|, broken, outcomes, r);
    }

    // ---- receiving releases ----

    /** receiveOneRelease on a connection with a complete frame waiting: its handle is given back if it is owed. */
    method ReceiveOne(i: nat)
      requires Following(Idle) && i < |connections| && connections[i].releases != []
      modifies this`connections, this`trace, this`reached, pool, pool.headers
      ensures Following(Idle) && Shaped(old(pool.State()))
      ensures Endpoints(connections) == old(Endpoints(connections))
      ensures connections[i].releases == old(connections)[i].releases[1..]
      ensures var c, h := old(connections)[i], old(connections)[i].releases[0];
              && connections == old(connections)[i := connections[i]]
              && (h !in c.outstanding ==>
                    connections[i].outstanding == c.outstanding && pool.State() == old(pool.State()))
              && (h in c.outstanding ==>
                    && multiset(connections[i].outstanding) == multiset(c.outstanding) - multiset{h}
                    && pool.State() == PoolModel.ReleaseReference(old(pool.State()), h).0)
      ensures var c := old(connections)[i];
              connections[i] == Protocol.ReleaseOutstanding(old(pool.State()), c.(releases := c.releases[1..]),
                                                            c.releases[0]).1
    {
      At(Idle);
      ghost var after := ReceiveReleaseRuns(start, trace, reached, i);
      ReleaseOwed(pool.State(), connections[i]);
      TakeRelease(i);
      UpdateProjections(old(connections), i, connections[i]);
      trace, reached := trace + [ReceiveRelease(i)], after;
    }

    method TakeRelease(i: nat)
      requires Shaped(pool.State()) && i < |connections| && connections[i].releases != []
      modifies this`connections, pool, pool.headers
      ensures var c := old(connections)[i];
              var (p, c') := Protocol.ReleaseOutstanding(old(pool.State()), c.(releases := c.releases[1..]),
                                                         c.releases[0]);
              pool.State() == p && connections == old(connections)[i := c']
    {
      var c := connections[i];
      connections := connections[i := c.(releases := c.releases[1..])];
      ReleaseOutstanding(i, c.releases[0]);
    }

    /**
    Receives from one connection until its socket has no complete frame left. Whatever had a frame
    waiting is then not owed any more.
    */
    method DrainOne(i: nat)
      requires Following(Idle) && i < |connections|
      modifies this`connections, this`registered, this`nextEndpoint, this`trace, this`reached, this`schedule, pool,
               pool.headers
      ensures Following(Idle)
      ensures Endpoints(connections) == old(Endpoints(connections))
      ensures Draining(old(connections), connections, i) && connections[i].releases == []
    {
      ghost var first := connections;
      DrainingNone(first, i);
      Yield(Idle);
      DrainingYield(first, first, connections, i);
      while connections[i].releases != []
        invariant Following(Idle)
        invariant Endpoints(connections) == Endpoints(first) && Draining(first, connections, i)
        decreases |schedule|, |connections[i].releases|
      {
        ReceiveThenYield(i, first);
      }
    }

    method ReceiveThenYield(i: nat, ghost first: seq<Connection>)
      requires Following(Idle) && Draining(first, connections, i) && connections[i].releases != []
      modifies this`connections, this`registered, this`nextEndpoint, this`trace, this`reached, this`schedule, pool,
               pool.headers
      ensures Following(Idle) && Endpoints(connections) == old(Endpoints(connections))
      ensures Draining(first, connections, i)
      ensures |schedule| < old(|schedule|)
              || (schedule == old(schedule) && |connections[i].releases| < old(|connections[i].releases|))
    {
      OwedNow(i);
      DrainingReceive(first, connections, i, pool.State());
      ReceiveOne(i);
      ghost var cs := connections;
      Yield(Idle);
      DrainingYield(first, cs, connections, i);
    }

    lemma OwedNow(i: nat)
      requires Following(Idle) && i < |connections|
      ensures Shaped(pool.State()) && NoDup(connections[i].outstanding)
    {
      At(Idle);
      OwedIsLive(start, trace, reached, i);
    }

    /**
    drainReleasesNonBlocking: takes every waiting release frame of every connection, and gives up
    the connections in `hangups`, whose sockets turn out closed.
    */
    method DrainReleases(hangups: set<nat>)
      requires Following(Idle)
      modifies this`connections, this`registered, this`nextEndpoint, this`trace, this`reached, this`schedule,
               this`failed, pool, pool.headers
      ensures Following(Idle)
      ensures forall e :: e in old(Endpoints(connections)) ==> (e in Endpoints(connections) <==> e !in hangups)
      ensures failed == old(failed) + set e | e in old(Endpoints(connections)) && e in hangups
      ensures TakenIn(Others(old(Frames(connections)), hangups), Frames(connections), Debts(connections), |connections|)
    {
      var i := 0;
      ghost var ids, waiting := Endpoints(connections), Frames(connections);
      TakenInNone(connections);
      while i < |connections|
        invariant 0 <= i <= |connections| && Following(Idle)
        invariant Sifted(ids, Endpoints(connections), i, hangups, old(failed), failed)
        invariant Waiting(waiting, old(Frames(connections)), hangups, connections, i)
        decreases |connections| - i
      {
        i, waiting := DrainNext(i, hangups, ids, old(failed), waiting, old(Frames(connections)));
      }
      AllWaited(waiting, old(Frames(connections)), hangups, connections);
    }

    method DrainNext(i: nat, hangups: set<nat>, ghost ids: seq<nat>, ghost before: set<nat>, ghost waiting: seq<Entry>,
                     ghost all: seq<Entry>)
      returns (next: nat, ghost waiting': seq<Entry>)
      requires i < |connections| && Following(Idle)
      requires Sifted(ids, Endpoints(connections), i, hangups, before, failed)
               && Waiting(waiting, all, hangups, connections, i)
      modifies this`connections, this`registered, this`nextEndpoint, this`trace, this`reached, this`schedule,
               this`failed, pool, pool.headers
      ensures next <= |connections| && Following(Idle)
      ensures Sifted(ids, Endpoints(connections), next, hangups, before, failed)
              && Waiting(waiting', all, hangups, connections, next)
      ensures |connections| - next < old(|connections| - i)
    {
      ghost var cs := connections;
      DrainOne(i);
      DistinctNow(Idle);
      WaitedAt(waiting, all, hangups, cs, connections, i);
      ghost var now := connections;
      assert Endpoints(now)[i] == connections[i].endpoint;
      if connections[i].endpoint in hangups {
        next := i;
        SiftOut(ids, Endpoints(now), i, hangups, before, failed);
        GiveUpAt(i);
        WaitingDrop(waiting, all, hangups, now, connections, i);
        waiting' := Drop(waiting, i);
      } else {
        next := i + 1;
        waiting' := waiting;
      }
    }

    /** The socket of connection `i` is closed: its handles come back and it goes. */
    method GiveUpAt(i: nat)
      requires Following(Idle) && i < |connections|
      modifies this`connections, this`registered, this`nextEndpoint, this`trace, this`reached, this`schedule,
               this`failed, pool, pool.headers
      ensures Following(Idle)
      ensures Endpoints(connections) == Drop(old(Endpoints(connections)), i)
      ensures failed == old(failed) + {old(connections)[i].endpoint}
      ensures Debts(connections) == Drop(old(Debts(connections)), i)
      ensures Grow(Drop(old(Frames(connections)), i), Frames(connections))
    {
      ghost var first := connections;
      DistinctNow(Idle);
      GoneAt(first, i);
      var e := connections[i].endpoint;
      BeginRemoval(e);
      ForgetEndpoint(e, true, [], None);
      FinishRemoving(true, None);
    }

    ghost method BeginRemoval(e: nat)
      requires Following(Idle)
      modifies this`trace, this`reached
      ensures Following(Removing([e] + [], true, None))
    {
      At(Idle);
      ghost var after := RemoveRuns(start, trace, reached, e);
      assert [e] + [] == [e];
      trace, reached := trace + [Remove(e)], after;
    }

    // ---- discovery ----

    method BeginDiscovery(found: seq<nat>)
      requires Following(Idle) && NoDup(found) && forall e :: e in found <==> e in registered
      modifies this`failed, this`trace, this`reached
      ensures Following(Removing(Unlisted(Endpoints(connections), registered), false, Some(found)))
      ensures failed == old(failed) * registered
    {
      At(Idle);
      ghost var after := DiscoverRuns(start, trace, reached, found);
      failed := failed * registered;
      trace, reached := trace + [Discover(found)], after;
    }

    /** Connections to endpoints that are no longer listed give everything back and go. */
    method RemoveUnlisted(listed: set<nat>, ghost joining: seq<nat>)
      requires Following(Removing(Unlisted(Endpoints(connections), listed), false, Some(joining)))
      modifies this`connections, this`registered, this`nextEndpoint, this`trace, this`reached, this`schedule,
               this`failed, pool, pool.headers
      ensures Following(Connecting(joining)) && failed == old(failed)
      ensures forall e :: e in Endpoints(connections) <==> e in listed && e in old(Endpoints(connections))
      ensures Debts(connections) == Only(old(Debts(connections)), listed) && Balanced(pool.State(), connections)
    {
      var i: nat := 0;
      ghost var first := connections;
      assert Endpoints(connections)[0..] == Endpoints(connections);
      while i < |connections|
        invariant failed == old(failed) && Pruning(first, connections, listed, i)
        invariant Following(Removing(Unlisted(Endpoints(connections)[i..], listed), false, Some(joining)))
        decreases |connections| - i
      {
        i := KeepOrRemove(i, listed, joining, first);
      }
      assert Endpoints(connections)[i..] == [];
      PruningEnd(first, connections, listed);
      FinishRemoving(false, Some(joining));
      BalancedNow(Connecting(joining));
    }

    lemma BalancedNow(pc: PublisherPc)
      requires Following(pc) && !pc.Dispatching?
      ensures Balanced(pool.State(), connections)
    {
      At(pc);
      AllBalanced(start, trace, reached);
    }

    method KeepOrRemove(i: nat, listed: set<nat>, ghost joining: seq<nat>, ghost first: seq<Connection>)
      returns (next: nat)
      requires i < |connections| && Pruning(first, connections, listed, i)
      requires Following(Removing(Unlisted(Endpoints(connections)[i..], listed), false, Some(joining)))
      modifies this`connections, this`registered, this`nextEndpoint, this`trace, this`reached, this`schedule,
               this`failed, pool, pool.headers
      ensures failed == old(failed) && Pruning(first, connections, listed, next)
      ensures Following(Removing(Unlisted(Endpoints(connections)[next..], listed), false, Some(joining)))
      ensures |connections| - next < old(|connections| - i)
    {
      ghost var cs, ids := connections, Endpoints(connections);
      assert ids[i] == connections[i].endpoint;
      UnlistedNext(ids, i, listed);
      if connections[i].endpoint in listed {
        next := i + 1;
      } else {
        next := i;
        DistinctNow(Removing(Unlisted(ids[i..], listed), false, Some(joining)));
        ForgetEndpoint(connections[i].endpoint, false, Unlisted(ids[i + 1..], listed), Some(joining));
        PruningDrop(first, cs, connections, listed, i);
      }
    }

    /** Connects to one listed endpoint, unless it is connected already or tombstoned. */
    method ConnectOne(e: nat, peer: Option<Connection>, ghost rest: seq<nat>)
      requires Following(Connecting([e] + rest))
      requires peer.Some? ==> NewPeer(peer.value, e) && NoneOf(peer.value, pool.id)
      modifies this`connections, this`failed, this`seen, this`trace, this`reached
      ensures Following(Connecting(rest))
      ensures Endpoints(connections) == old(Endpoints(connections))
              || Endpoints(connections) == old(Endpoints(connections)) + [e]
      ensures failed == old(failed) || failed == old(failed) + {e}
      ensures e in Endpoints(connections) || e in failed
    {
      var k := Locate(e);
      LocatedIn(connections, e, k);
      if k == |connections| && e !in failed { Admit(e, peer, rest); } else { PassOver(e, peer, rest); }
    }

    ghost method PassOver(e: nat, peer: Option<Connection>, rest: seq<nat>)
      requires Following(Connecting([e] + rest)) && (e in Endpoints(connections) || e in failed)
      requires peer.Some? ==> NewPeer(peer.value, e) && NoneOf(peer.value, pool.id)
      modifies this`trace, this`reached
      ensures Following(Connecting(rest))
    {
      At(Connecting([e] + rest));
      var after := SkipRuns(start, trace, reached, e, rest, peer);
      trace, reached := trace + [ConnectNext(peer)], after;
    }

    method Admit(e: nat, peer: Option<Connection>, ghost rest: seq<nat>)
      requires Following(Connecting([e] + rest)) && e !in Endpoints(connections) && e !in failed
      requires peer.Some? ==> NewPeer(peer.value, e) && NoneOf(peer.value, pool.id)
      modifies this`connections, this`failed, this`seen, this`trace, this`reached
      ensures Following(Connecting(rest))
      ensures if peer.None? then connections == old(connections) && failed == old(failed) + {e}
              else Endpoints(connections) == old(Endpoints(connections)) + [e] && failed == old(failed)
    {
      At(Connecting([e] + rest));
      ghost var after := AdmitRuns(start, trace, reached, e, rest, peer);
      Join(e, peer);
      trace, reached := trace + [ConnectNext(peer)], after;
    }

    method Join(e: nat, peer: Option<Connection>)
      requires peer.Some? ==> peer.value.endpoint == e
      modifies this`connections, this`failed, this`seen
      ensures peer.None? ==> failed == old(failed) + {e} && connections == old(connections) && seen == old(seen)
      ensures peer.Some? ==>
                failed == old(failed) && connections == old(connections) + [peer.value] && seen == old(seen) + {e}
      ensures peer.Some? ==> Endpoints(connections) == old(Endpoints(connections)) + [e] && e in Endpoints(connections)
    {
      if peer.None? {
        failed := failed + {e};
      } else {
        EndpointsJoin(connections, peer.value);
        connections := connections + [peer.value];
        seen := seen + {e};
      }
    }

    method ConnectAll(found: seq<nat>, peers: seq<Option<Connection>>)
      requires Following(Connecting(found)) && |peers| == |found|
      requires forall k :: 0 <= k < |peers| && peers[k].Some? ==>
                             NewPeer(peers[k].value, found[k]) && NoneOf(peers[k].value, pool.id)
      requires forall e :: e in Endpoints(connections) ==> e in found
      modifies this`connections, this`failed, this`seen, this`trace, this`reached
      ensures Following(Connecting([]))
      ensures Joined(found, |found|, Endpoints(connections), failed)
      ensures old(Endpoints(connections)) <= Endpoints(connections) && old(failed) <= failed
    {
      var k := 0;
      assert found[0..] == found;
      while k < |found|
        invariant 0 <= k <= |found| && Following(Connecting(found[k..]))
        invariant Joined(found, k, Endpoints(connections), failed)
        invariant old(Endpoints(connections)) <= Endpoints(connections) && old(failed) <= failed
      {
        ghost var ids, tombstones := Endpoints(connections), failed;
        SliceHead(found, k);
        ConnectOne(found[k], peers[k], found[k + 1..]);
        JoinedNext(found, k, ids, tombstones, Endpoints(connections), failed);
        k := k + 1;
      }
      assert found[k..] == [];
    }

    method LeastLimit() returns (limit: nat)
      ensures limit == Negotiate(maxSize, connections) && SmallestLimit(maxSize, connections, limit)
    {
      limit := maxSize;
      var i := 0;
      while i < |connections|
        invariant 0 <= i <= |connections| && limit == Negotiate(maxSize, connections[..i])
      {
        assert connections[..i + 1][..i] == connections[..i];
        limit := Min(limit, connections[i].maxSize);
        i := i + 1;
      }
      assert connections[..i] == connections;
    }

    /** The negotiated limit is the smallest among the publisher's own and its connections'. */
    method NegotiateLimit()
      requires Following(Connecting([]))
      modifies this`negotiated, this`trace, this`reached
      ensures Following(Idle) && negotiated == Negotiate(maxSize, connections)
      ensures SmallestLimit(maxSize, connections, negotiated)
    {
      At(Connecting([]));
      ghost var after := ConnectedRuns(start, trace, reached);
      negotiated := LeastLimit();
      trace, reached := trace + [ConnectNext(None)], after;
    }

    /**
    connectDiscoveredEndpoints: reconciles the connections with the subscribers `found` that the
    registry lists, `peers[k]` being what connecting to `found[k]` yields.
    */
    method ConnectDiscovered(found: seq<nat>, peers: seq<Option<Connection>>) returns (r: ErrorCode)
      requires Following(Idle) && NoDup(found) && (forall e :: e in found <==> e in registered)
      requires |peers| == |found|
      requires forall k :: 0 <= k < |peers| && peers[k].Some? ==>
                             NewPeer(peers[k].value, found[k]) && NoneOf(peers[k].value, pool.id)
      modifies this`connections, this`registered, this`nextEndpoint, this`trace, this`reached, this`schedule,
               this`failed, this`seen, this`negotiated, pool, pool.headers
      ensures Following(Idle) && Joined(found, |found|, Endpoints(connections), failed)
      ensures forall e :: e in found && e in old(Endpoints(connections)) ==> e in Endpoints(connections)
      ensures forall e :: e in found && e in old(failed) ==> e in failed
      ensures SmallestLimit(maxSize, connections, negotiated)
      ensures r == if connections == [] then ConnectionLost else Ok
    {
      var listed := registered;
      BeginDiscovery(found);
      RemoveUnlisted(listed, found);
      ConnectAll(found, peers);
      NegotiateLimit();
      r := if connections == [] then ConnectionLost else Ok;
    }

    // ---- publishing ----

    /** publishSharedMemoryCopy up to the dispatch: a chunk is published under the next sequence. */
    method StartCopy(data: seq<Byte>, timestamp: nat) returns (e: ErrorCode, h: ChunkHandle)
      requires Following(Idle) && |data| <= negotiated
      modifies this`published, this`trace, this`reached, pool, pool.headers
      ensures Shaped(old(pool.State())) && (e == Ok <==> CanAllocate(old(pool.State()), |data|))
      ensures e != Ok ==> Following(Idle) && pool.State() == old(pool.State()) && published == old(published)
      ensures e == Ok ==> Following(Dispatching(h, 0, Start, [])) && published == old(published)[sequence + 1 := data]
      ensures e == Allocate(old(pool.State()), |data|).1.error
      ensures e == Ok ==> h == Allocate(old(pool.State()), |data|).1.handle
      ensures old(|trace|) <= |trace|
    {
      At(Idle);
      AllocationRuns(start, trace, reached, |data|);
      ghost var after := reached;
      if CanAllocate(pool.State(), |data|) { after := PublishCopyRuns(start, trace, reached, data, timestamp); }
      var a := pool.Allocate(|data|);
      e, h := a.error, a.handle;
      if e == Ok { FinishCopy(h, data, timestamp, after); }
    }

    method WriteOut(h: ChunkHandle, data: seq<Byte>, timestamp: nat, ghost q: Pool)
      requires Shaped(pool.State()) && Copied(pool.State(), h, data, sequence + 1, timestamp, q)
      modifies pool.headers
      ensures pool.State() == q
    {
      assert CopiedAt(pool.State(), h, data, sequence + 1, timestamp, q, 1);
      var _ := pool.WriteAndPublish(h, data, sequence + 1, timestamp, 1);
    }

    method FinishCopy(h: ChunkHandle, data: seq<Byte>, timestamp: nat, ghost after: System)
      requires Shaped(pool.State()) && Reaches(start, trace + [Protocol.PublishCopy(data, timestamp)], after)
      requires after == Sent(Now(Idle), after.pool, h, data)
      requires Copied(pool.State(), h, data, sequence + 1, timestamp, after.pool) && offered <= trace
      modifies this`published, this`trace, this`reached, pool.headers
      ensures Following(Dispatching(h, 0, Start, [])) && published == old(published)[sequence + 1 := data]
      ensures old(|trace|) <= |trace|
    {
      WriteOut(h, data, timestamp, after.pool);
      published := published[sequence + 1 := data];
      trace, reached := trace + [Protocol.PublishCopy(data, timestamp)], after;
    }

    /** Publisher::publish over shared memory, once the connections are up to date. */
    method PublishCopy(data: seq<Byte>, timestamp: nat, choices: seq<Offering>)
      returns (r: PublishResult, ghost outcomes: seq<Outcome>, ghost met: seq<Meeting>, ghost h: ChunkHandle)
      requires Following(Idle)
      modifies this, pool, pool.headers
      ensures Following(Idle) && Shaped(old(pool.State()))
      ensures |data| > old(negotiated) ==> r == NotPublished(MessageTooLarge, 0) && Now(Idle) == old(Now(Idle))
      ensures |data| <= old(negotiated) && !CanAllocate(old(pool.State()), |data|) ==>
                && r == NotPublished(Allocate(old(pool.State()), |data|).1.error, old(sequence) + 1)
                && r.error != Ok && Now(Idle) == old(Now(Idle))
      ensures |data| <= old(negotiated) && CanAllocate(old(pool.State()), |data|) ==>
                && sequence == old(sequence) + 1 == r.sequence && r.payloadSize == |data|
                && published == old(published)[sequence := data]
                && |met| == |old(connections)| && Reports(r, met)
                && AllHappened(start, trace, old(|trace|), h, choices, met)
                && |outcomes| == |old(connections)| && r.error == ErrorOf(outcomes)
                && Summarises(r.(error := Remembered(outcomes)), outcomes)
                && Shaped(pool.State()) && (r.enqueued > 0 <==> Live(pool.State(), h))
                && h == Allocate(old(pool.State()), |data|).1.handle
                && (r.enqueued > 0 ==> ViewOf(pool.State(), h) == View(h, sequence, data))
    {
      ShapedNow(Idle);
      if |data| > negotiated { return NotPublished(MessageTooLarge, 0), [], [], NO_HANDLE; }
      r, outcomes, met, h := SendCopy(data, timestamp, choices);
    }

    /** publishCopy, once the size has been found to be acceptable. */
    method SendCopy(data: seq<Byte>, timestamp: nat, choices: seq<Offering>)
      returns (r: PublishResult, ghost outcomes: seq<Outcome>, ghost met: seq<Meeting>, ghost h: ChunkHandle)
      requires Following(Idle) && |data| <= negotiated
      modifies this, pool, pool.headers
      ensures Following(Idle) && Shaped(old(pool.State()))
      ensures !CanAllocate(old(pool.State()), |data|) ==>
                && r == NotPublished(Allocate(old(pool.State()), |data|).1.error, old(sequence) + 1)
                && r.error != Ok && Now(Idle) == old(Now(Idle))
      ensures CanAllocate(old(pool.State()), |data|) ==>
                && sequence == old(sequence) + 1 == r.sequence && r.payloadSize == |data|
                && published == old(published)[sequence := data]
                && |met| == |old(connections)| && Reports(r, met)
                && AllHappened(start, trace, old(|trace|), h, choices, met)
                && |outcomes| == |old(connections)| && r.error == ErrorOf(outcomes)
                && Summarises(r.(error := Remembered(outcomes)), outcomes)
                && Shaped(pool.State()) && (r.enqueued > 0 <==> Live(pool.State(), h))
                && h == Allocate(old(pool.State()), |data|).1.handle
                && (r.enqueued > 0 ==> ViewOf(pool.State(), h) == View(h, sequence, data))
    {
      outcomes, met, h := [], [], NO_HANDLE;
      var e, handle := StartCopy(data, timestamp);
      if e != Ok { return NotPublished(e, sequence + 1), [], [], NO_HANDLE; }
      h := handle;
      r, outcomes, met := DispatchSince(handle, |data|, choices, old(|trace|));
    }

    /** The dispatch of what was started since step `from` of the run. */
    method DispatchSince(h: ChunkHandle, size: nat, choices: seq<Offering>, ghost from: nat)
      returns (r: PublishResult, ghost outcomes: seq<Outcome>, ghost met: seq<Meeting>)
      requires Following(Dispatching(h, 0, Start, [])) && from <= |trace|
      modifies this`connections, this`registered, this`nextEndpoint, this`trace, this`reached, this`schedule,
               this`failed, this`sequence, this`offered, pool, pool.headers
      ensures Following(Idle) && sequence == old(sequence) + 1 && r.sequence == sequence && r.payloadSize == size
      ensures |met| == |old(connections)| && Reports(r, met) && AllHappened(start, trace, from, h, choices, met)
      ensures |outcomes| == |old(connections)| && r.error == ErrorOf(outcomes)
      ensures Summarises(r.(error := Remembered(outcomes)), outcomes)
      ensures Shaped(pool.State()) && (r.enqueued > 0 <==> Live(pool.State(), h))
      ensures r.enqueued > 0 ==>
                sequence in published && ViewOf(pool.State(), h) == View(h, sequence, published[sequence])
    {
      ghost var now := |trace|;
      r, outcomes, met := DispatchPublished(h, size, choices);
      AllHappenedLater(start, trace, now, trace, from, h, choices, met);
    }

    /** The registry's answer to a discovery: the subscribers it lists, smallest id first. */
    method Listing() returns (found: seq<nat>)
      requires Following(Idle)
      ensures NoDup(found) && forall e :: e in found <==> e in registered
    {
      RegisteredNow(Idle);
      found := [];
      var e := 0;
      while e < nextEndpoint
        invariant e <= nextEndpoint && NoDup(found)
        invariant forall x :: x in found <==> x in registered && x < e
      {
        if e in registered { found := found + [e]; }
        e := e + 1;
      }
    }

    lemma RegisteredNow(pc: PublisherPc)
      requires Following(pc)
      ensures forall e :: e in registered ==> e < nextEndpoint
    {
      At(pc);
      ReachesInv(start, trace, reached);
    }

    /**
    Publisher::publish over shared memory. `peers` are the subscribers that can be connected to; `at` are the
    connections after the reconciliation. A message is refused as too large exactly when it exceeds the
    publisher's limit or that of one of them.
    */
    method Publish(hangups: set<nat>, peers: map<nat, Connection>, data: seq<Byte>, timestamp: nat,
                   choices: seq<Offering>)
      returns (r: PublishResult, ghost met: seq<Meeting>, ghost at: seq<Connection>)
      requires Following(Idle)
      requires forall e :: e in peers ==> NewPeer(peers[e], e) && NoneOf(peers[e], pool.id)
      modifies this, pool, pool.headers
      ensures Following(Idle)
      ensures r == NotPublished(MessageTooLarge, 0) <==>
                |data| > maxSize || |data| >= U32_LIMIT || exists i :: 0 <= i < |at| && |data| > at[i].maxSize
      ensures |data| > maxSize || |data| >= U32_LIMIT ==> Now(Idle) == old(Now(Idle))
      ensures |data| <= maxSize && |data| < U32_LIMIT && at == [] ==> r == NotPublished(ConnectionLost, 0)
      ensures r.sequence == 0 ==> sequence == old(sequence) && published == old(published)
      ensures r.sequence != 0 ==>
                || (r == NotPublished(r.error, old(sequence) + 1) && r.error != Ok
                   && sequence == old(sequence) && published == old(published))
                || (&& sequence == old(sequence) + 1 == r.sequence && published == old(published)[sequence := data]
                    && r.payloadSize == |data| && |met| == |at| && Reports(r, met))
    {
      met, at := [], [];
      if |data| > maxSize || |data| >= U32_LIMIT { return NotPublished(MessageTooLarge, 0), [], []; }
      var e := Update(hangups, peers);
      at := connections;
      if e != Ok { return NotPublished(e, 0), [], at; }
      r, met := Send(data, timestamp, choices);
    }

    /** The part of a publish that comes before the message is looked at. */
    method Update(hangups: set<nat>, peers: map<nat, Connection>) returns (r: ErrorCode)
      requires Following(Idle)
      requires forall e :: e in peers ==> NewPeer(peers[e], e) && NoneOf(peers[e], pool.id)
      modifies this`connections, this`registered, this`nextEndpoint, this`trace, this`reached, this`schedule,
               this`failed, this`seen, this`negotiated, pool, pool.headers
      ensures Following(Idle) && SmallestLimit(maxSize, connections, negotiated)
      ensures r == if connections == [] then ConnectionLost else Ok
    {
      DrainReleases(hangups);
      r := Reconcile(peers);
    }

    method Send(data: seq<Byte>, timestamp: nat, choices: seq<Offering>)
      returns (r: PublishResult, ghost met: seq<Meeting>)
      requires Following(Idle)
      modifies this, pool, pool.headers
      ensures Following(Idle)
      ensures r == NotPublished(MessageTooLarge, 0) <==> |data| > old(negotiated)
      ensures r.sequence == 0 ==> |data| > old(negotiated) && sequence == old(sequence) && published == old(published)
      ensures r.sequence != 0 ==>
                || (r == NotPublished(r.error, old(sequence) + 1) && r.error != Ok
                   && sequence == old(sequence) && published == old(published))
                || (&& sequence == old(sequence) + 1 == r.sequence && published == old(published)[sequence := data]
                    && r.payloadSize == |data| && |met| == |old(connections)| && Reports(r, met))
    {
      ghost var outcomes, h;
      r, outcomes, met, h := PublishCopy(data, timestamp, choices);
    }

    method Reconcile(peers: map<nat, Connection>) returns (r: ErrorCode)
      requires Following(Idle)
      requires forall e :: e in peers ==> NewPeer(peers[e], e) && NoneOf(peers[e], pool.id)
      modifies this`connections, this`registered, this`nextEndpoint, this`trace, this`reached, this`schedule,
               this`failed, this`seen, this`negotiated, pool, pool.headers
      ensures Following(Idle) && SmallestLimit(maxSize, connections, negotiated)
              && r == if connections == [] then ConnectionLost else Ok
    {
      var found := Listing();
      var offers := seq(|found|, k requires 0 <= k < |found| =>
                          if found[k] in peers then Some(peers[found[k]]) else None);
      r := ConnectDiscovered(found, offers);
    }

    /** allocateLoan, after the releases have been drained: on success one more loan is active. */
    method AllocateLoan(size: nat) returns (r: AllocationResult)
      requires Following(Idle)
      modifies this`loans, this`trace, this`reached, pool, pool.headers
      ensures Following(Idle) && Shaped(old(pool.State()))
      ensures size > maxSize ==> r.error == MessageTooLarge && Now(Idle) == old(Now(Idle))
      ensures size <= maxSize ==> (r.error == Ok <==> CanAllocate(old(pool.State()), size))
      ensures size <= maxSize ==> r == Allocate(old(pool.State()), size).1
      ensures r.error == Ok ==> loans == old(loans) + [Loan(r.handle, size)]
      ensures r.error != Ok ==> Now(Idle) == old(Now(Idle))
    {
      ShapedNow(Idle);
      if size > maxSize { return AllocationResult(MessageTooLarge, NO_HANDLE, 0); }
      r := Lend(size);
    }

    method Lend(size: nat) returns (r: AllocationResult)
      requires Following(Idle) && size <= maxSize
      modifies this`loans, this`trace, this`reached, pool, pool.headers
      ensures Following(Idle) && Shaped(old(pool.State()))
      ensures r.error == Ok <==> CanAllocate(old(pool.State()), size)
      ensures r == Allocate(old(pool.State()), size).1
      ensures loans == if r.error == Ok then old(loans) + [Loan(r.handle, size)] else old(loans)
      ensures r.error != Ok ==> pool.State() == old(pool.State())
    {
      At(Idle);
      AllocationRuns(start, trace, reached, size);
      ghost var after := LoanRuns(start, trace, reached, size);
      r := pool.Allocate(size);
      if r.error == Ok { loans := loans + [Loan(r.handle, size)]; }
      trace, reached := trace + [LoanChunk(size)], after;
    }

    /** The application writes to a chunk it has on loan; it may do so at any time. */
    method FillLoan(k: nat, data: seq<Byte>, ghost pc: PublisherPc)
      requires Following(pc) && k < |loans| && |data| <= loans[k].size
      modifies this`trace, this`reached, pool.headers
      ensures Following(pc) && loans[k].handle.chunk < pool.headers.Length
      ensures |data| <= |old(pool.headers[loans[k].handle.chunk]).payload|
      ensures pool.headers[loans[k].handle.chunk].payload
              == Overwrite(old(pool.headers[loans[k].handle.chunk]).payload, data)
    {
      At(pc);
      ghost var after := FillRuns(start, trace, reached, k, data);
      pool.WriteLoan(loans[k].handle, data);
      trace, reached := trace + [Protocol.FillLoan(k, data)], after;
    }

    /** cancelLoanedSample. */
    method CancelLoan(k: nat) returns (e: ErrorCode)
      requires Following(Idle) && k < |loans|
      modifies this`loans, this`trace, this`reached, pool, pool.headers
      ensures Following(Idle) && loans == Drop(old(loans), k) && e == Ok
      ensures FreedAt(pool.State(), old(loans)[k].handle)
    {
      At(Idle);
      ghost var after := CancelRuns(start, trace, reached, k);
      e := pool.Cancel(loans[k].handle);
      loans := Drop(loans, k);
      trace, reached := trace + [Protocol.CancelLoan(k)], after;
    }

    /** publishLoanedSample up to the dispatch. */
    method StartLoan(k: nat, timestamp: nat) returns (e: ErrorCode)
      requires Following(Idle) && k < |loans|
      modifies this`loans, this`published, this`trace, this`reached, pool, pool.headers
      ensures loans == Drop(old(loans), k) && old(|trace|) <= |trace|
      ensures e == if old(loans)[k].size > negotiated then MessageTooLarge else Ok
      ensures e != Ok ==> Following(Idle) && published == old(published) && FreedAt(pool.State(), old(loans)[k].handle)
      ensures e == Ok ==> Following(Dispatching(old(loans)[k].handle, 0, Start, []))
      ensures old(loans)[k].handle.chunk < pool.headers.Length
      ensures old(loans)[k].size <= |old(pool.headers[loans[k].handle.chunk]).payload|
      ensures e == Ok ==>
                var data := old(pool.headers[loans[k].handle.chunk]).payload[..old(loans)[k].size];
                published == old(published)[sequence + 1 := data]
    {
      At(Idle);
      LoanFits(start, trace, reached, k);
      if loans[k].size > negotiated {
        e := MessageTooLarge;
        CancelOversized(k, timestamp);
      } else {
        e := Ok;
        PublishFitting(k, timestamp);
      }
    }

    method CancelOversized(k: nat, timestamp: nat)
      requires Following(Idle) && k < |loans| && loans[k].size > negotiated
      modifies this`loans, this`trace, this`reached, pool, pool.headers
      ensures Following(Idle) && loans == Drop(old(loans), k) && old(|trace|) <= |trace|
      ensures FreedAt(pool.State(), old(loans)[k].handle)
    {
      At(Idle);
      ghost var after := PublishOversizedRuns(start, trace, reached, k, timestamp);
      var _ := pool.Cancel(loans[k].handle);
      loans := Drop(loans, k);
      trace, reached := trace + [PublishLoan(k, timestamp)], after;
    }

    method PublishFitting(k: nat, timestamp: nat)
      requires Following(Idle) && k < |loans| && loans[k].size <= negotiated
      requires loans[k].handle.chunk < pool.headers.Length
      requires loans[k].size <= |pool.headers[loans[k].handle.chunk].payload|
      modifies this`loans, this`published, this`trace, this`reached, pool, pool.headers
      ensures loans == Drop(old(loans), k) && old(|trace|) <= |trace|
      ensures Following(Dispatching(old(loans)[k].handle, 0, Start, []))
      ensures var data := old(pool.headers[loans[k].handle.chunk]).payload[..old(loans)[k].size];
              published == old(published)[sequence + 1 := data]
    {
      At(Idle);
      ghost var after := PublishLoanRuns(start, trace, reached, k, timestamp);
      var loan := loans[k];
      published := published[sequence + 1 := pool.headers[loan.handle.chunk].payload[..loan.size]];
      var _ := pool.PublishLoaned(loan.handle, loan.size, sequence + 1, timestamp, 1);
      loans := Drop(loans, k);
      trace, reached := trace + [PublishLoan(k, timestamp)], after;
    }

    /** publishLoanedSample, once the connections are up to date: the loan ends whatever happens. */
    method PublishLoaned(k: nat, timestamp: nat, choices: seq<Offering>)
      returns (r: PublishResult, ghost outcomes: seq<Outcome>, ghost met: seq<Meeting>)
      requires Following(Idle) && k < |loans|
      modifies this, pool, pool.headers
      ensures Following(Idle) && loans == Drop(old(loans), k)
      ensures old(loans)[k].size > old(negotiated) ==>
                && r == NotPublished(MessageTooLarge, 0) && sequence == old(sequence) && published == old(published)
                && FreedAt(pool.State(), old(loans)[k].handle)
      ensures old(loans)[k].handle.chunk < pool.headers.Length
      ensures old(loans)[k].size <= |old(pool.headers[loans[k].handle.chunk]).payload|
      ensures old(loans)[k].size <= old(negotiated) ==>
                var data := old(pool.headers[loans[k].handle.chunk]).payload[..old(loans)[k].size];
                published == old(published)[sequence := data]
      ensures old(loans)[k].size <= old(negotiated) ==>
                && sequence == old(sequence) + 1 == r.sequence && r.payloadSize == old(loans)[k].size
                && |met| == |old(connections)| && Reports(r, met)
                && AllHappened(start, trace, old(|trace|), old(loans)[k].handle, choices, met)
                && |outcomes| == |old(connections)| && r.error == ErrorOf(outcomes)
                && Summarises(r.(error := Remembered(outcomes)), outcomes)
                && Shaped(pool.State())
                && (r.enqueued > 0 <==> Live(pool.State(), old(loans)[k].handle))
                && (r.enqueued > 0 ==>
                      ViewOf(pool.State(), old(loans)[k].handle)
                        == View(old(loans)[k].handle, sequence, published[sequence]))
    {
      var loan := loans[k];
      var e := StartLoan(k, timestamp);
      if e != Ok { return NotPublished(e, 0), [], []; }
      r, outcomes, met := DispatchSince(loan.handle, loan.size, choices, old(|trace|));
    }
  }
}
