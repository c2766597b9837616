/**
What each connection's ring was when a handle was offered to it, and what a publish reports on account of
that. Everything here is said of rings and error codes.
*/
module Meetings {
  import opened Basics
  import opened PoolModel
  import opened RingModel
  import opened Protocol
  import opened ProtocolInvariant
  import opened ProtocolTheorems
  import opened PublishOutcome
  import opened PublisherRun

  /**
  What the environment decides about one offer: `patience` bounds the yields of a blocked one, and
  `late` says that a wait ended at its deadline although there was room by then.
  */
  datatype Offering = Offering(encodes: bool, locks: bool, patience: nat, late: bool, delivered: bool)

  /** The usual choices, where the caller makes none. */
  const SMOOTH: Offering := Offering(true, true, 0, false, true)

  function ChoiceAt(choices: seq<Offering>, j: nat): Offering {
    if j < |choices| then choices[j] else SMOOTH
  }

  /** One connection's turn in a dispatch: no reference could be had, or this ring was met in this way. */
  datatype Meeting = Unreferenced | Met(ring: Ring, attempt: Attempt)

  predicate Full(r: Ring) {
    |r.items| == r.capacity
  }

  /** The ring took the handle. */
  predicate Takes(m: Meeting) {
    && m.Met? && m.attempt.Acts? && !m.ring.closed
    && (Full(m.ring) ==> m.ring.policy == DropOldest) && (m.ring.items == [] ==> m.attempt.delivered)
  }

  /** It took it in the place of its oldest one. */
  predicate Replaces(m: Meeting) {
    Takes(m) && Full(m.ring)
  }

  predicate TurnsAway(m: Meeting) {
    m.Met? && m.attempt.Acts? && !m.ring.closed && Full(m.ring) && m.ring.policy == DropNewest
  }

  predicate RunsOut(m: Meeting) {
    m.Met? && m.attempt.TimesOut?
  }

  /** The ring is closed, or it was empty and the wake frame could not be sent. */
  predicate Lost(m: Meeting) {
    m.Met? && m.attempt.Acts? && (m.ring.closed || (m.ring.items == [] && !m.attempt.delivered))
  }

  /** The error that such a meeting is reported as. */
  ghost predicate Answers(m: Meeting, e: ErrorCode) {
    && (m.Unreferenced? ==> e == InvalidState)
    && (m.Met? && m.attempt.EncodeFails? ==> e == InvalidState)
    && (m.Met? && m.attempt.LockFails? ==> e == SharedMemoryError)
    && (RunsOut(m) ==> e == QueueTimeout)
    && (m.Met? && m.attempt.Acts? && m.ring.closed ==> e == QueueClosed)
    && (m.Met? && m.attempt.Acts? && !m.ring.closed && m.ring.items == [] && !m.attempt.delivered ==>
          e == ConnectionLost)
    && (TurnsAway(m) ==> e == QueueFull)
    && (Takes(m) ==> e == Ok)
  }

  /** How the meeting follows from the choices of the environment and the ring. */
  ghost predicate Chosen(choice: Offering, m: Meeting) {
    m.Met? ==>
      && (m.attempt.EncodeFails? <==> !choice.encodes)
      && (m.attempt.LockFails? <==> choice.encodes && !choice.locks)
      && (m.attempt.Acts? ==> m.attempt.delivered == choice.delivered && !Waits(m.ring))
      && (m.attempt.TimesOut? ==> m.ring.policy == BlockWithTimeout && (Waits(m.ring) || choice.late))
  }

  // ---- meetings take place in the run ----

  /** In state `s` it is connection `j`'s turn, and `step` is the meeting. */
  ghost predicate Occurs(s: System, step: Step, h: ChunkHandle, j: nat, m: Meeting) {
    && s.pc.Dispatching? && s.pc.handle == h && s.pc.index == j < |s.connections|
    && match m
       case Unreferenced => step == AddRef && h.chunk < |s.pool.chunks| && s.pool.chunks[h.chunk].refs == U32_LIMIT - 1
       case Met(ring, attempt) => step == TryEnqueue(attempt) && s.connections[j].ring == ring && ValidRing(ring)
  }

  ghost predicate OccursAt(start: System, run: seq<Step>, n: nat, h: ChunkHandle, j: nat, m: Meeting) {
    n < |run| && exists s :: Reaches(start, run[..n], s) && Occurs(s, run[n], h, j, m)
  }

  /** The meeting is one of the steps of the run from number `from` on. */
  ghost predicate Happened(start: System, run: seq<Step>, from: nat, h: ChunkHandle, j: nat, m: Meeting) {
    forall k {:trigger HappenedSince(start, run, k, h, j, m)} :: k == from ==> HappenedSince(start, run, k, h, j, m)
  }

  /** The same; naming `from` keeps it folded where it is not needed. */
  ghost predicate HappenedSince(start: System, run: seq<Step>, from: nat, h: ChunkHandle, j: nat, m: Meeting) {
    exists n :: from <= n && OccursAt(start, run, n, h, j, m)
  }

  lemma HappensNow(start: System, trace: seq<Step>, s: System, step: Step, from: nat, h: ChunkHandle, j: nat,
                   m: Meeting)
    requires Reaches(start, trace, s) && Occurs(s, step, h, j, m) && from <= |trace|
    ensures Happened(start, trace + [step], from, h, j, m)
  {
    var run := trace + [step];
    assert run[..|trace|] == trace && run[|trace|] == step;
    assert OccursAt(start, run, |trace|, h, j, m);
    assert HappenedSince(start, run, from, h, j, m);
  }

  lemma HappenedLater(start: System, run: seq<Step>, from: nat, run': seq<Step>, from': nat, h: ChunkHandle, j: nat,
                      m: Meeting)
    requires Happened(start, run, from, h, j, m) && run <= run' && from' <= from
    ensures Happened(start, run', from', h, j, m)
  {
    assert HappenedSince(start, run, from, h, j, m);
    var n :| from <= n && OccursAt(start, run, n, h, j, m);
    assert run'[..n] == run[..n] && run'[n] == run[n];
    assert OccursAt(start, run', n, h, j, m);
    assert HappenedSince(start, run', from', h, j, m);
  }

  lemma OfferHappens(start: System, trace: seq<Step>, s: System, attempt: Attempt, from: nat)
    requires Reaches(start, trace, s) && s.pc.Dispatching? && s.pc.index < |s.connections| && from <= |trace|
    ensures Happened(start, trace + [TryEnqueue(attempt)], from, s.pc.handle, s.pc.index,
                     Met(s.connections[s.pc.index].ring, attempt))
  {
    ReachesInv(start, trace, s);
    AtConnection(s, s.pc.index);
    HappensNow(start, trace, s, TryEnqueue(attempt), from, s.pc.handle, s.pc.index,
               Met(s.connections[s.pc.index].ring, attempt));
  }

  /** A reference is refused only at the 32-bit limit; the list of what is owed is never the obstacle. */
  lemma RefusalHappens(start: System, trace: seq<Step>, s: System, from: nat)
    requires Reaches(start, trace, s) && from <= |trace|
    requires s.pc.Dispatching? && s.pc.phase.Start? && s.pc.index < |s.connections|
    ensures |s.connections[s.pc.index].outstanding| < |s.pool.chunks| && Shaped(s.pool)
    ensures AddReference(s.pool, s.pc.handle).1 != Ok ==>
              && AddReference(s.pool, s.pc.handle).1 == InvalidState
              && Happened(start, trace + [AddRef], from, s.pc.handle, s.pc.index, Unreferenced)
  {
    assert Reachable(s);
    DispatchNeverBlocked(s);
    if AddReference(s.pool, s.pc.handle).1 != Ok {
      ReachesInv(start, trace, s);
      HappensNow(start, trace, s, AddRef, from, s.pc.handle, s.pc.index, Unreferenced);
    }
  }

  /** All connections from the first to number `k - 1` have had their turn in the run. */
  ghost predicate AllHappened(start: System, run: seq<Step>, from: nat, h: ChunkHandle, choices: seq<Offering>,
                              ms: seq<Meeting>) {
    forall k {:trigger AllSince(start, run, k, h, choices, ms)} :: k == from ==>
      AllSince(start, run, k, h, choices, ms)
  }

  ghost predicate AllSince(start: System, run: seq<Step>, from: nat, h: ChunkHandle, choices: seq<Offering>,
                           ms: seq<Meeting>) {
    forall j :: 0 <= j < |ms| ==> Happened(start, run, from, h, j, ms[j]) && Chosen(ChoiceAt(choices, j), ms[j])
  }

  lemma NoneHappened(start: System, run: seq<Step>, from: nat, h: ChunkHandle, choices: seq<Offering>)
    ensures AllHappened(start, run, from, h, choices, [])
  {
  }

  lemma AllHappenedNext(start: System, run: seq<Step>, from: nat, run': seq<Step>, from': nat, h: ChunkHandle,
                        choices: seq<Offering>, ms: seq<Meeting>, m: Meeting)
    requires AllHappened(start, run, from, h, choices, ms) && run <= run' && from <= from'
    requires Happened(start, run', from', h, |ms|, m) && Chosen(ChoiceAt(choices, |ms|), m)
    ensures AllHappened(start, run', from, h, choices, ms + [m])
  {
    assert AllSince(start, run, from, h, choices, ms);
    forall j | 0 <= j < |ms| + 1
      ensures Happened(start, run', from, h, j, (ms + [m])[j]) && Chosen(ChoiceAt(choices, j), (ms + [m])[j])
    {
      if j < |ms| {
        HappenedLater(start, run, from, run', from, h, j, ms[j]);
      } else {
        HappenedLater(start, run', from', run', from, h, j, m);
      }
    }
  }

  lemma AllHappenedLater(start: System, run: seq<Step>, from: nat, run': seq<Step>, from': nat, h: ChunkHandle,
                         choices: seq<Offering>, ms: seq<Meeting>)
    requires AllHappened(start, run, from, h, choices, ms) && run <= run' && from' <= from
    ensures AllHappened(start, run', from', h, choices, ms)
  {
    assert AllSince(start, run, from, h, choices, ms);
    forall j | 0 <= j < |ms| ensures Happened(start, run', from', h, j, ms[j]) {
      HappenedLater(start, run, from, run', from', h, j, ms[j]);
    }
  }

  // ---- meetings and outcomes ----

  /** The outcome is the one that the meeting calls for. */
  ghost predicate Calls(m: Meeting, o: Outcome) {
    forall x {:trigger CallsFor(m, x)} :: x == o ==> CallsFor(m, x)
  }

  ghost predicate CallsFor(m: Meeting, o: Outcome) {
    && Proper(o) && Answers(m, CodeOf(o))
    && (o.Delivered? <==> Takes(m)) && (Evicts(o) <==> Replaces(m))
    && (IsNewestDrop(o) <==> TurnsAway(m)) && (IsTimeout(o) <==> RunsOut(m)) && (Breaks(o) <==> Lost(m))
  }

  /** How an offer that never gets to the ring ends. */
  function GivenUp(choice: Offering): Attempt {
    if !choice.encodes then EncodeFails else if !choice.locks then LockFails else TimesOut
  }

  function GivenUpOutcome(choice: Offering): Outcome {
    if !choice.encodes then NotEncoded else Refusal(if !choice.locks then SynchronizationError else TimedOut)
  }

  lemma PlacedCalls(c: Connection, h: ChunkHandle, delivered: bool)
    requires ValidRing(c.ring) && !Waits(c.ring)
    ensures Calls(Met(c.ring, Acts(delivered)), OutcomeOf(Placed(c, h, delivered).1))
  {
    assert CallsFor(Met(c.ring, Acts(delivered)), OutcomeOf(Placed(c, h, delivered).1));
  }

  lemma UnreferencedCalls()
    ensures Calls(Unreferenced, NoReference(InvalidState))
  {
    assert CallsFor(Unreferenced, NoReference(InvalidState));
  }

  lemma GivenUpCalls(ring: Ring, choice: Offering)
    requires choice.encodes && choice.locks ==> ring.policy == BlockWithTimeout && (Waits(ring) || choice.late)
    ensures var m := Met(ring, GivenUp(choice)); Chosen(choice, m) && Calls(m, GivenUpOutcome(choice))
  {
  }

  /** Where an offer leaves the publisher. */
  function After(pc: PublisherPc, o: Outcome, dropped: Option<ChunkHandle>, endpoint: nat): PublisherPc
    requires pc.Dispatching?
  {
    if o.Delivered? then pc.(phase := Enqueued(dropped))
    else pc.(phase := Refused, broken := pc.broken + if Breaks(o) then [endpoint] else [])
  }

  /** An offer to the ring of the connection whose turn it is. */
  lemma PlaceMeets(start: System, trace: seq<Step>, s: System, delivered: bool, from: nat) returns (t: System)
    requires Reaches(start, trace, s) && from <= |trace|
    requires s.pc.Dispatching? && s.pc.phase.Referenced? && s.pc.index < |s.connections|
    requires !Waits(s.connections[s.pc.index].ring)
    ensures ValidRing(s.connections[s.pc.index].ring)
    ensures var i := s.pc.index;
            var (c, x) := Placed(s.connections[i], s.pc.handle, delivered);
            && t == Update(s, i, c).(pc := After(s.pc, OutcomeOf(x), x.dropped, c.endpoint))
            && Obligations(t.connections) == Obligations(s.connections)
            && Endpoints(t.connections) == Endpoints(s.connections) && c.endpoint == s.connections[i].endpoint
            && Calls(Met(s.connections[i].ring, Acts(delivered)), OutcomeOf(x))
            && (OutcomeOf(x).Delivered? ==> (OutcomeOf(x).evicted <==> x.dropped.Some?))
    ensures Reaches(start, trace + [TryEnqueue(Acts(delivered))], t)
    ensures Happened(start, trace + [TryEnqueue(Acts(delivered))], from, s.pc.handle, s.pc.index,
                     Met(s.connections[s.pc.index].ring, Acts(delivered)))
  {
    t := PlaceRuns(start, trace, s, delivered);
    PlacedKeepsLists(s.connections, s.pc.index, s.pc.handle, delivered);
    PlacedCalls(s.connections[s.pc.index], s.pc.handle, delivered);
    assert s.pc.broken + [] == s.pc.broken;
    OfferHappens(start, trace, s, Acts(delivered), from);
  }

  /** An offer that is given up before it gets there. */
  lemma GiveUpMeets(start: System, trace: seq<Step>, s: System, choice: Offering, from: nat) returns (t: System)
    requires Reaches(start, trace, s) && from <= |trace|
    requires s.pc.Dispatching? && s.pc.phase.Referenced? && s.pc.index < |s.connections|
    requires var ring := s.connections[s.pc.index].ring;
             choice.encodes && choice.locks ==> ring.policy == BlockWithTimeout && (Waits(ring) || choice.late)
    ensures t == s.(pc := s.pc.(phase := Refused))
    ensures var m := Met(s.connections[s.pc.index].ring, GivenUp(choice));
            && Chosen(choice, m) && Calls(m, GivenUpOutcome(choice))
            && Happened(start, trace + [TryEnqueue(GivenUp(choice))], from, s.pc.handle, s.pc.index, m)
    ensures Reaches(start, trace + [TryEnqueue(GivenUp(choice))], t)
  {
    GivenUpCalls(s.connections[s.pc.index].ring, choice);
    t := GiveUpRuns(start, trace, s, GivenUp(choice));
    OfferHappens(start, trace, s, GivenUp(choice), from);
  }

  ghost predicate AllCalled(ms: seq<Meeting>, os: seq<Outcome>) {
    |ms| == |os| && forall j :: 0 <= j < |ms| ==> CallsFor(ms[j], os[j])
  }

  lemma AllCalledNext(ms: seq<Meeting>, os: seq<Outcome>, m: Meeting, o: Outcome)
    requires AllCalled(ms, os) && Calls(m, o)
    ensures AllCalled(ms + [m], os + [o])
  {
    assert CallsFor(m, o);
  }

  // ---- what is reported ----

  /** The number of connections whose meeting was of this kind. */
  ghost function Number(ms: seq<Meeting>, p: Meeting -> bool): nat {
    |set j | 0 <= j < |ms| && p(ms[j])|
  }

  lemma OneMore(ms: seq<Meeting>, p: Meeting -> bool)
    requires ms != []
    ensures Number(ms, p) == Number(ms[..|ms| - 1], p) + if p(ms[|ms| - 1]) then 1 else 0
  {
    var k := |ms| - 1;
    var before := set j | 0 <= j < k && p(ms[..k][j]);
    var all := set j | 0 <= j < |ms| && p(ms[j]);
    if p(ms[k]) { assert all == before + {k}; } else { assert all == before; }
  }

  lemma {:induction false} CountIsNumber(ms: seq<Meeting>, p: Meeting -> bool, os: seq<Outcome>, q: Outcome -> bool)
    requires |ms| == |os| && forall j :: 0 <= j < |ms| ==> (p(ms[j]) <==> q(os[j]))
    ensures Count(os, q) == Number(ms, p)
  {
    var all := set j | 0 <= j < |ms| && p(ms[j]);
    if ms == [] {
      assert all == {};
    } else {
      var k := |ms| - 1;
      CountIsNumber(ms[..k], p, os[..k], q);
      OneMore(ms, p);
    }
  }

  /**
  The report of a publish: how many rings took the handle, evicted for it, turned it away or kept it waiting
  too long. It is a success if one ring took it, else a timeout if one ran out, else the first failure.
  */
  ghost predicate Reports(r: PublishResult, ms: seq<Meeting>) {
    forall n {:trigger ReportsAll(r, ms, n)} :: n == |ms| ==> ReportsAll(r, ms, n)
  }

  /** The same, spelt out for all `n` of them. */
  ghost predicate ReportsAll(r: PublishResult, ms: seq<Meeting>, n: nat) {
    && r.enqueued == Number(ms, Takes) && r.droppedOldest == Number(ms, Replaces)
    && r.droppedNewest == Number(ms, TurnsAway) && r.blockTimeouts == Number(ms, RunsOut)
    && ReportsError(r.error, ms)
  }

  ghost predicate ReportsError(e: ErrorCode, ms: seq<Meeting>) {
    && ((exists j :: 0 <= j < |ms| && Takes(ms[j])) ==> e == Ok)
    && ((forall j :: 0 <= j < |ms| ==> !Takes(ms[j])) ==>
          && ((exists j :: 0 <= j < |ms| && RunsOut(ms[j])) ==> e == QueueTimeout)
          && ((forall j :: 0 <= j < |ms| ==> !RunsOut(ms[j])) ==>
                if ms == [] then e == ConnectionLost else Answers(ms[0], e)))
  }

  lemma ErrorReported(ms: seq<Meeting>, os: seq<Outcome>)
    requires AllCalled(ms, os)
    ensures ReportsError(ErrorOf(os), ms)
  {
    if j :| 0 <= j < |ms| && RunsOut(ms[j]) { assert IsTimeout(os[j]); }
    if j :| 0 <= j < |os| && os[j] == Refusal(TimedOut) { assert RunsOut(ms[j]); }
  }

  lemma Reported(r: PublishResult, ms: seq<Meeting>, os: seq<Outcome>)
    requires AllCalled(ms, os) && Summarises(r.(error := Remembered(os)), os) && r.error == ErrorOf(os)
    ensures Reports(r, ms)
  {
    CountIsNumber(ms, Takes, os, IsDelivered);
    CountIsNumber(ms, Replaces, os, Evicts);
    CountIsNumber(ms, TurnsAway, os, IsNewestDrop);
    CountIsNumber(ms, RunsOut, os, IsTimeout);
    ErrorReported(ms, os);
    assert ReportsAll(r, ms, |ms|);
  }

  ghost predicate GivesUp(ids: seq<nat>, ms: seq<Meeting>, e: nat) {
    exists j :: 0 <= j < |ms| && j < |ids| && ids[j] == e && Lost(ms[j])
  }

  /** The endpoints given up are those whose ring was closed or could not be woken. */
  lemma BrokenAreLost(ids: seq<nat>, ms: seq<Meeting>, os: seq<Outcome>)
    requires AllCalled(ms, os) && |os| <= |ids|
    ensures forall e :: e in Broken(ids, os) <==> GivesUp(ids, ms, e)
  {
    BrokenExact(ids, os);
    forall e ensures e in Broken(ids, os) <==> GivesUp(ids, ms, e) {
      if k :| 0 <= k < |os| && ids[k] == e && Breaks(os[k]) { assert Lost(ms[k]); }
      if j :| 0 <= j < |ms| && ids[j] == e && Lost(ms[j]) { assert Breaks(os[j]); }
    }
  }
}
