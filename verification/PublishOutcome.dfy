/** What a publish call reports, as a function of what happened at each connection. */
module PublishOutcome {
  import opened Basics
  import opened RingModel

  /** What became of the handle at one connection. */
  datatype Outcome =
    | Delivered(evicted: bool)
    | NoReference(error: ErrorCode)
    | NotEncoded
    | Refusal(status: EnqueueStatus)

  datatype PublishResult = PublishResult(
    error: ErrorCode,
    sequence: nat,
    payloadSize: nat,
    enqueued: nat,
    droppedNewest: nat,
    droppedOldest: nat,
    blockTimeouts: nat)

  function NotPublished(error: ErrorCode, sequence: nat): PublishResult {
    PublishResult(error, sequence, 0, 0, 0, 0, 0)
  }

  /** The endpoint is given up after this outcome. */
  predicate Breaks(o: Outcome) {
    o == Refusal(Closed) || o == Refusal(NotificationFailed)
  }

  predicate IsDelivered(o: Outcome) {
    o.Delivered?
  }

  predicate IsNewestDrop(o: Outcome) {
    o == Refusal(DroppedNewest)
  }

  predicate IsTimeout(o: Outcome) {
    o == Refusal(TimedOut)
  }

  predicate Evicts(o: Outcome) {
    o.Delivered? && o.evicted
  }

  function CodeOf(o: Outcome): ErrorCode {
    match o
    case Delivered(_) => Ok
    case NoReference(e) => e
    case NotEncoded => InvalidState
    case Refusal(status) =>
      match status
      case Accepted => Ok
      case DroppedNewest => QueueFull
      case TimedOut => QueueTimeout
      case Closed => QueueClosed
      case NotificationFailed => ConnectionLost
      case SynchronizationError => SharedMemoryError
  }

  /** An outcome that dispatch can produce: anything but a delivery has an error to report. */
  predicate Proper(o: Outcome) {
    o.Delivered? || CodeOf(o) != Ok
  }

  function OutcomeOf(x: EnqueueResult): (o: Outcome)
    ensures Proper(o) && !o.NoReference? && o != NotEncoded
    ensures o.Delivered? <==> x.status == Accepted
    ensures Breaks(o) <==> x.status == Closed || x.status == NotificationFailed
  {
    if x.status == Accepted then Delivered(x.dropped.Some?) else Refusal(x.status)
  }

  /** The number of outcomes, of the first `n`, for which `p` holds. */
  function Count(os: seq<Outcome>, p: Outcome -> bool): (n: nat)
    ensures n <= |os|
  {
    if os == [] then 0 else Count(os[..|os| - 1], p) + if p(os[|os| - 1]) then 1 else 0
  }

  lemma CountSnoc(os: seq<Outcome>, o: Outcome, p: Outcome -> bool)
    ensures Count(os + [o], p) == Count(os, p) + if p(o) then 1 else 0
  {
    assert (os + [o])[..|os|] == os;
  }

  lemma {:induction false} CountSome(os: seq<Outcome>, p: Outcome -> bool)
    ensures Count(os, p) > 0 <==> exists k :: 0 <= k < |os| && p(os[k])
  {
    if os != [] { CountSome(os[..|os| - 1], p); }
  }

  /** What remains of the failures so far: a timeout always, else the first. */
  function Remembered(os: seq<Outcome>): ErrorCode {
    if os == [] then Ok
    else
      var before := Remembered(os[..|os| - 1]);
      var o := os[|os| - 1];
      if o == Refusal(TimedOut) then QueueTimeout
      else if before == Ok then CodeOf(o)
      else before
  }

  /** The error a publish reports is decided by its outcomes alone. */
  function ErrorOf(os: seq<Outcome>): ErrorCode {
    if exists k :: 0 <= k < |os| && os[k].Delivered? then Ok
    else if Refusal(TimedOut) in os then QueueTimeout
    else if os == [] then ConnectionLost
    else CodeOf(os[0])
  }

  lemma {:induction false} RememberedIs(os: seq<Outcome>)
    requires forall k :: 0 <= k < |os| ==> Proper(os[k]) && !os[k].Delivered?
    ensures Remembered(os) == if Refusal(TimedOut) in os then QueueTimeout else if os == [] then Ok else CodeOf(os[0])
  {
    if os != [] {
      var front := os[..|os| - 1];
      RememberedIs(front);
      assert os == front + [os[|os| - 1]];
    }
  }

  /** So the running bookkeeping of dispatch reports exactly that error. */
  lemma ReportedError(os: seq<Outcome>)
    requires forall k :: 0 <= k < |os| ==> Proper(os[k])
    ensures (if Count(os, IsDelivered) != 0 then Ok
             else if Remembered(os) == Ok then ConnectionLost else Remembered(os)) == ErrorOf(os)
  {
    CountSome(os, IsDelivered);
    if Count(os, IsDelivered) == 0 { RememberedIs(os); }
  }

  // ---- the running totals ----

  /** The counters and the remembered failure (kept in `error`) describe exactly these outcomes. */
  ghost predicate Summarises(r: PublishResult, os: seq<Outcome>) {
    && r.enqueued == Count(os, IsDelivered)
    && r.droppedNewest == Count(os, IsNewestDrop)
    && r.droppedOldest == Count(os, Evicts)
    && r.blockTimeouts == Count(os, IsTimeout)
    && r.error == Remembered(os)
  }

  /** One round of bookkeeping in dispatchPublished. */
  function Note(r: PublishResult, o: Outcome): PublishResult {
    var first := if r.error == Ok then CodeOf(o) else r.error;
    match o
    case Delivered(evicted) =>
      r.(enqueued := r.enqueued + 1, droppedOldest := r.droppedOldest + if evicted then 1 else 0)
    case NoReference(_) => r.(error := first)
    case NotEncoded => r.(error := first)
    case Refusal(status) =>
      match status
      case DroppedNewest => r.(droppedNewest := r.droppedNewest + 1, error := first)
      case TimedOut => r.(blockTimeouts := r.blockTimeouts + 1, error := QueueTimeout)
      case _ => r.(error := first)
  }

  lemma NoteSummarises(r: PublishResult, os: seq<Outcome>, o: Outcome)
    requires Summarises(r, os)
    ensures Summarises(Note(r, o), os + [o])
  {
    CountSnoc(os, o, IsDelivered);
    CountSnoc(os, o, IsNewestDrop);
    CountSnoc(os, o, Evicts);
    CountSnoc(os, o, IsTimeout);
    assert (os + [o])[..|os|] == os;
  }

  /** The endpoints to be given up, in order. */
  function Broken(ids: seq<nat>, os: seq<Outcome>): seq<nat>
    requires |os| <= |ids|
  {
    if os == [] then []
    else
      var n := |os| - 1;
      Broken(ids, os[..n]) + if Breaks(os[n]) then [ids[n]] else []
  }

  lemma {:induction false} BrokenExact(ids: seq<nat>, os: seq<Outcome>)
    requires |os| <= |ids|
    ensures forall e :: e in Broken(ids, os) <==> exists k :: 0 <= k < |os| && ids[k] == e && Breaks(os[k])
  {
    if os != [] {
      var n := |os| - 1;
      BrokenExact(ids, os[..n]);
      forall e ensures e in Broken(ids, os) <==> exists k :: 0 <= k < |os| && ids[k] == e && Breaks(os[k]) {
        if e in Broken(ids, os[..n]) {
          var k :| 0 <= k < n && ids[k] == e && Breaks(os[..n][k]);
          assert Breaks(os[k]);
        }
        if k :| 0 <= k < |os| && ids[k] == e && Breaks(os[k]) {
          if k < n { assert Breaks(os[..n][k]); }
        }
      }
    }
  }
}
