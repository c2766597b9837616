/** Every subscriber step keeps the invariant. */
module SubscriberSteps {
  import opened Basics
  import opened PoolModel
  import opened RingModel
  import opened Protocol
  import opened ProtocolInvariant

  lemma {:induction false} KeepOthersShrinks(items: seq<ChunkHandle>, id: nat)
    ensures multiset(KeepOthers(items, id)) <= multiset(items)
  {
    if items != [] {
      KeepOthersShrinks(items[..|items| - 1], id);
      assert items == items[..|items| - 1] + [items[|items| - 1]];
    }
  }

  lemma KeptBelow(p: Pool, items: seq<ChunkHandle>, kept: seq<ChunkHandle>, n: nat)
    requires n < |items| && QueueRises(p, items) && items[n].poolId == p.id
    requires forall x :: x in kept ==> x in items[..n]
    ensures forall i :: 0 <= i < |kept| && kept[i].poolId == p.id ==> SequenceOf(p, kept[i]) < SequenceOf(p, items[n])
  {
    forall i | 0 <= i < |kept| && kept[i].poolId == p.id
      ensures SequenceOf(p, kept[i]) < SequenceOf(p, items[n])
    {
      assert kept[i] in items[..n];
      var m :| 0 <= m < n && items[..n][m] == kept[i];
      assert items[m] == kept[i];
    }
  }

  /** discardPool keeps the relative order of what it keeps. */
  lemma {:induction false} KeepOthersRises(p: Pool, items: seq<ChunkHandle>, id: nat)
    requires QueueRises(p, items)
    ensures QueueRises(p, KeepOthers(items, id))
  {
    if items != [] {
      var n := |items| - 1;
      KeepOthersRises(p, items[..n], id);
      if items[n].poolId == p.id {
        KeptBelow(p, items, KeepOthers(items[..n], id), n);
      }
    }
  }

  lemma HandlesAppend(vs: seq<View>, ws: seq<View>)
    ensures Handles(vs + ws) == Handles(vs) + Handles(ws)
  {
  }

  lemma DequeueHeld(p: Pool, c: Connection, foreignReads: bool)
    requires Shaped(p)
    ensures Held(DequeueStep(p, c, foreignReads)) <= Held(c)
  {
    if c.ring.items != [] {
      var h := c.ring.items[0];
      HeadFacts(c.ring.items);
      var v := Take(p, c, h, foreignReads);
      if v.Some? {
        HandlesAppend(c.views, [v.value]);
        assert Handles([v.value]) == [h];
      }
    }
  }

  lemma ReleaseViewHeld(p: Pool, c: Connection, step: Step)
    requires Shaped(p) && step.ReleaseView? && SubscriberEnabled(c, step)
    ensures Held(SubscriberNext(p, c, step)) == Held(c)
  {
    DropFacts(Handles(c.views), step.k);
    HandlesDrop(c.views, step.k);
  }

  lemma HandlesDrop(vs: seq<View>, k: nat)
    requires k < |vs|
    ensures Handles(Drop(vs, k)) == Drop(Handles(vs), k)
  {
  }

  lemma CloseAndDrainHeld(p: Pool, c: Connection, step: Step)
    requires Shaped(p) && step.CloseAndDrain?
    ensures Held(SubscriberNext(p, c, step)) == Held(c)
  {
    var c' := SubscriberNext(p, c, step);
    var drained := c'.views[|c.views|..];
    assert c'.views == c.views + drained;
    HandlesAppend(c.views, drained);
    assert Handles(drained) == c.ring.items;
  }

  /** A subscriber step never multiplies handles: it moves them, or loses them. */
  lemma HeldShrinks(p: Pool, c: Connection, step: Step)
    requires Shaped(p) && SubscriberStep(step) && SubscriberEnabled(c, step)
    ensures Held(SubscriberNext(p, c, step)) <= Held(c)
  {
    match step
    case Dequeue(_, foreignReads) => DequeueHeld(p, c, foreignReads);
    case ReleaseView(_, _) => ReleaseViewHeld(p, c, step);
    case Reset(_, deadPool, _) => KeepOthersShrinks(c.ring.items, deadPool);
    case CloseAndDrain(_) => CloseAndDrainHeld(p, c, step);
    case _ =>
  }

  /** What is queued of this pool is published, not above the top, and in the log. */
  ghost predicate QueueLive(p: Pool, c: Connection, top: nat, published: map<nat, seq<Byte>>)
    requires Shaped(p)
  {
    forall k :: 0 <= k < |c.ring.items| && c.ring.items[k].poolId == p.id ==>
                  && Live(p, c.ring.items[k])
                  && SequenceOf(p, c.ring.items[k]) <= top && SequenceOf(p, c.ring.items[k]) in published
  }

  lemma DequeueViews(p: Pool, c: Connection, foreignReads: bool, top: nat, published: map<nat, seq<Byte>>)
    requires Shaped(p) && ViewsOk(p, c) && QueueLive(p, c, top, published)
    ensures ViewsOk(p, DequeueStep(p, c, foreignReads))
  {
  }

  lemma LocalViews(p: Pool, c: Connection, step: Step, top: nat, published: map<nat, seq<Byte>>)
    requires Shaped(p) && SubscriberStep(step) && SubscriberEnabled(c, step)
    requires ViewsOk(p, c) && QueueLive(p, c, top, published)
    ensures ViewsOk(p, SubscriberNext(p, c, step))
  {
    if step.Dequeue? { DequeueViews(p, c, step.foreignReads, top, published); }
  }

  /** What a dequeue takes off the ring and what it adds to the reads. */
  lemma DequeueReads(p: Pool, c: Connection, foreignReads: bool, top: nat, published: map<nat, seq<Byte>>)
    requires Shaped(p) && QueueLive(p, c, top, published) && c.ring.items != []
    ensures var d, h := DequeueStep(p, c, foreignReads), c.ring.items[0];
            && d.ring.items == c.ring.items[1..]
            && (d.readLog == c.readLog
                || (h.poolId == p.id && SequenceOf(p, h) <= top && d.readLog == c.readLog + [SequenceOf(p, h)]))
  {
  }

  lemma DequeueOrder(p: Pool, c: Connection, foreignReads: bool, top: nat, published: map<nat, seq<Byte>>)
    requires Shaped(p) && OrderOk(p, c, top) && QueueLive(p, c, top, published)
    ensures OrderOk(p, DequeueStep(p, c, foreignReads), top)
  {
    if c.ring.items != [] {
      DequeueReads(p, c, foreignReads, top, published);
      ReadNext(p, c.ring.items, c.readLog, top);
    }
  }

  /** The front, if it is this publisher's, lies above what was read and below what is left. */
  lemma ReadNext(p: Pool, items: seq<ChunkHandle>, log: seq<nat>, top: nat)
    requires Ordered(p, items, log, top) && items != []
    ensures Ordered(p, items[1..], log, top)
    ensures items[0].poolId == p.id && SequenceOf(p, items[0]) <= top ==>
              Ordered(p, items[1..], log + [SequenceOf(p, items[0])], top)
  {
    var rest := items[1..];
    forall i | 0 <= i < |rest| ensures rest[i] == items[i + 1] {}
  }

  lemma DiscardOrder(p: Pool, c: Connection, id: nat, top: nat)
    requires OrderOk(p, c, top)
    ensures OrderOk(p, WithRing(c, DiscardPool(c.ring, id)), top)
  {
    KeepOthersRises(p, c.ring.items, id);
    var kept := KeepOthers(c.ring.items, id);
    forall j, k | 0 <= j < |kept| && kept[j].poolId == p.id && 0 <= k < |c.readLog|
      ensures c.readLog[k] < SequenceOf(p, kept[j])
    {
      assert kept[j] in c.ring.items;
    }
  }

  lemma LocalOrder(p: Pool, c: Connection, step: Step, top: nat, published: map<nat, seq<Byte>>)
    requires Shaped(p) && SubscriberStep(step) && SubscriberEnabled(c, step)
    requires OrderOk(p, c, top) && QueueLive(p, c, top, published)
    ensures OrderOk(p, SubscriberNext(p, c, step), top)
  {
    match step
    case Reset(_, deadPool, _) => DiscardOrder(p, c, deadPool, top);
    case Dequeue(_, foreignReads) => DequeueOrder(p, c, foreignReads, top, published);
    case _ =>
  }

  /** The log covers whatever a read returns, tracked or not. */
  lemma LocalReads(p: Pool, c: Connection, step: Step, current: Option<nat>, sequence: nat,
                   published: map<nat, seq<Byte>>)
    requires Shaped(p) && SubscriberStep(step) && SubscriberEnabled(c, step)
    requires LogOk(p, current, sequence, published)
    requires forall k :: 0 <= k < |c.readLog| ==> c.readLog[k] in published
    ensures var c' := SubscriberNext(p, c, step);
            forall k :: 0 <= k < |c'.readLog| ==> c'.readLog[k] in published
  {
    if step.Dequeue? && c.ring.items != [] && c.ring.items[0].chunk < |p.chunks| {
      assert HandleOf(p, c.ring.items[0].chunk).chunk == c.ring.items[0].chunk;
    }
  }

  lemma LocalWake(p: Pool, c: Connection, step: Step)
    requires Shaped(p) && SubscriberStep(step) && SubscriberEnabled(c, step)
    requires step.Reset? && !step.detach ==> step.deadPool != p.id
    requires ValidRing(c.ring) && WakeOk(p, c) && SinceEmptyOk(p, c)
    ensures var c' := SubscriberNext(p, c, step);
            ValidRing(c'.ring) && WakeOk(p, c') && SinceEmptyOk(p, c')
  {
    if step.Reset? {
      var kept := KeepOthers(c.ring.items, step.deadPool);
      forall k | 0 <= k < |kept| && c.wasEmpty ensures kept[k].poolId == p.id {
        assert kept[k] in c.ring.items;
      }
    }
  }

  lemma LocalCovered(p: Pool, c: Connection, c': Connection, ctx: Context)
    requires Covered(p, c, ctx) && Held(c') <= Held(c) && c'.outstanding == c.outstanding
    ensures Covered(p, c', ctx)
  {
    forall h: ChunkHandle | h.poolId == p.id
      ensures Held(c')[h] <= if (h in c'.outstanding && ctx.evicted != Some(h)) || ctx.arriving == Some(h) then 1 else 0
    {
      assert Held(c')[h] <= Held(c)[h];
    }
  }

  /** The publisher's side of a connection is not the subscriber's to change. */
  lemma LocalFixed(p: Pool, c: Connection, step: Step)
    requires Shaped(p) && SubscriberStep(step) && SubscriberEnabled(c, step)
    ensures var c' := SubscriberNext(p, c, step);
            && c'.outstanding == c.outstanding && c'.endpoint == c.endpoint && c'.maxSize == c.maxSize
  {
  }

  lemma HeldIsLive(p: Pool, c: Connection, ctx: Context, h: ChunkHandle)
    requires Shaped(p) && OutstandingOk(p, c) && Covered(p, c, ctx)
    requires ctx.arriving.Some? ==>
               Live(p, ctx.arriving.value) && p.chunks[ctx.arriving.value.chunk].payloadSize <= c.maxSize
    requires h.poolId == p.id && Held(c)[h] >= 1
    ensures h in c.outstanding || ctx.arriving == Some(h)
    ensures Live(p, h) && p.chunks[h.chunk].payloadSize <= c.maxSize
  {
  }

  /** Everything a tracked subscriber has queued of this pool can be read. */
  lemma QueueIsLive(s: System, i: nat)
    requires Inv(s) && i < |s.connections|
    requires ContextOf(s.pc, s.sequence, i, s.connections[i].endpoint).tracked
    ensures QueueLive(s.pool, s.connections[i],
                      ContextOf(s.pc, s.sequence, i, s.connections[i].endpoint).top, s.published)
  {
    var c := s.connections[i];
    var ctx := ContextOf(s.pc, s.sequence, i, c.endpoint);
    assert Obligations(s.connections)[i] == c.outstanding;
    assert Limits(s.connections)[i] == c.maxSize;
    forall k | 0 <= k < |c.ring.items| && c.ring.items[k].poolId == s.pool.id
      ensures Live(s.pool, c.ring.items[k])
      ensures SequenceOf(s.pool, c.ring.items[k]) <= ctx.top
      ensures SequenceOf(s.pool, c.ring.items[k]) in s.published
    {
      var h := c.ring.items[k];
      assert h in multiset(c.ring.items);
      HeldIsLive(s.pool, c, ctx, h);
      SequenceBelowTop(s.pool, s.pc, s.sequence, s.published, i, c, h);
    }
  }

  lemma SequenceBelowTop(p: Pool, pc: PublisherPc, sequence: nat, published: map<nat, seq<Byte>>, i: nat,
                         c: Connection, h: ChunkHandle)
    requires Shaped(p) && LogOk(p, Current(pc), sequence, published) && Live(p, h)
    requires pc.Dispatching? ==> Live(p, pc.handle) && (pc.index <= i ==> pc.handle !in c.outstanding)
    requires h in c.outstanding || ContextOf(pc, sequence, i, c.endpoint).arriving == Some(h)
    ensures SequenceOf(p, h) <= ContextOf(pc, sequence, i, c.endpoint).top
    ensures SequenceOf(p, h) in published
  {
    assert h == HandleOf(p, h.chunk);
    if pc.Dispatching? && pc.handle.chunk == h.chunk { assert h == pc.handle; }
  }

  /** The connection that steps stays well formed. */
  lemma LocalKeeps(s: System, step: Step)
    requires Inv(s) && SubscriberStep(step) && Enabled(s, step)
    ensures var c := s.connections[step.i];
            ConnectionOk(s.pool, SubscriberNext(s.pool, c, step),
                         ContextOf(s.pc, s.sequence, step.i, c.endpoint), s.published)
  {
    var i := step.i;
    var c := s.connections[i];
    var ctx := ContextOf(s.pc, s.sequence, i, c.endpoint);
    LocalFixed(s.pool, c, step);
    LocalWake(s.pool, c, step);
    LocalReads(s.pool, c, step, Current(s.pc), s.sequence, s.published);
    if ctx.tracked {
      QueueIsLive(s, i);
      HeldShrinks(s.pool, c, step);
      LocalCovered(s.pool, c, SubscriberNext(s.pool, c, step), ctx);
      LocalViews(s.pool, c, step, ctx.top, s.published);
      LocalOrder(s.pool, c, step, ctx.top, s.published);
    }
  }

  /** Changing a connection without touching its endpoint, limit or obligations. */
  lemma OthersKeep(s: System, i: nat, c': Connection)
    requires Inv(s) && i < |s.connections|
    requires c'.endpoint == s.connections[i].endpoint && c'.maxSize == s.connections[i].maxSize
    requires c'.outstanding == s.connections[i].outstanding
    requires ConnectionOk(s.pool, c', ContextOf(s.pc, s.sequence, i, c'.endpoint), s.published)
    ensures Inv(Update(s, i, c'))
  {
    var cs' := s.connections[i := c'];
    assert Obligations(cs') == Obligations(s.connections);
    assert Endpoints(cs') == Endpoints(s.connections);
    assert Limits(cs') == Limits(s.connections);
  }

  lemma SubscriberKeeps(s: System, step: Step)
    requires Inv(s) && SubscriberStep(step) && Enabled(s, step)
    ensures Inv(Next(s, step))
  {
    LocalKeeps(s, step);
    LocalFixed(s.pool, s.connections[step.i], step);
    OthersKeep(s, step.i, SubscriberNext(s.pool, s.connections[step.i], step));
  }
}
