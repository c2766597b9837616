/**
Linear ownership on both sides of a connection: a LoanedSample owns one loaned chunk, a SampleView
one subscriber reference. Either can be moved, and ends by giving its claim back exactly once.
*/
module Ownership {
  import opened Basics
  import opened PoolModel
  import opened Protocol
  import opened PublisherRun
  import opened Meetings
  import opened PublishOutcome
  import P = Publisher
  import PT = ProtocolTheorems

  // ---- loans ----

  /** What one LoanedSample says it owns. */
  datatype Claim = Claim(owner: P.PublisherImpl?, handle: ChunkHandle, size: nat, error: ErrorCode, active: bool)

  ghost predicate HeldBy(claims: map<LoanedSample, Claim>, h: ChunkHandle) {
    exists s: LoanedSample :: s in claims && claims[s].active && claims[s].handle == h
  }

  /** The active claims and the loans of `p` correspond one to one. */
  ghost predicate Matched(claims: map<LoanedSample, Claim>, loans: seq<Loan>, p: P.PublisherImpl) {
    && (forall s :: s in claims && claims[s].active ==>
                      && claims[s].owner == p && claims[s].error == Ok
                      && Loan(claims[s].handle, claims[s].size) in loans)
    && (forall s, t :: s in claims && t in claims && s != t && claims[s].active && claims[t].active ==>
                         claims[s].handle != claims[t].handle)
    && (forall k :: 0 <= k < |loans| ==> HeldBy(claims, loans[k].handle))
  }

  lemma EndClaim(claims: map<LoanedSample, Claim>, loans: seq<Loan>, p: P.PublisherImpl, s: LoanedSample, c: Claim,
                 k: nat)
    requires Matched(claims, loans, p) && s in claims && claims[s].active && !c.active
    requires k < |loans| && loans[k].handle == claims[s].handle
    requires forall i, j :: 0 <= i < j < |loans| ==> loans[i].handle != loans[j].handle
    ensures Matched(claims[s := c], Drop(loans, k), p)
  {
    DropFacts(loans, k);
    forall j | 0 <= j < |Drop(loans, k)| ensures HeldBy(claims[s := c], Drop(loans, k)[j].handle) {
      var i := if j < k then j else j + 1;
      assert Drop(loans, k)[j] == loans[i] && HeldBy(claims, loans[i].handle);
      var t: LoanedSample :| t in claims && claims[t].active && claims[t].handle == loans[i].handle;
      assert t != s && claims[s := c][t] == claims[t];
    }
  }

  lemma MoveClaim(claims: map<LoanedSample, Claim>, loans: seq<Loan>, p: P.PublisherImpl, from: LoanedSample,
                  to: LoanedSample, c: Claim)
    requires Matched(claims, loans, p) && from in claims && from != to && (to in claims ==> !claims[to].active)
             && !c.active
    ensures Matched(claims[to := claims[from]][from := c], loans, p)
  {
    var claims' := claims[to := claims[from]][from := c];
    forall j | 0 <= j < |loans| ensures HeldBy(claims', loans[j].handle) {
      assert HeldBy(claims, loans[j].handle);
      var t: LoanedSample :| t in claims && claims[t].active && claims[t].handle == loans[j].handle;
      assert claims'[if t == from then to else t] == claims[t];
    }
  }

  lemma IdleClaim(claims: map<LoanedSample, Claim>, loans: seq<Loan>, p: P.PublisherImpl, s: LoanedSample, c: Claim)
    requires Matched(claims, loans, p) && (s in claims ==> !claims[s].active) && !c.active
    ensures Matched(claims[s := c], loans, p)
  {
    forall j | 0 <= j < |loans| ensures HeldBy(claims[s := c], loans[j].handle) {
      assert HeldBy(claims, loans[j].handle);
      var t: LoanedSample :| t in claims && claims[t].active && claims[t].handle == loans[j].handle;
      assert claims[s := c][t] == claims[t];
    }
  }

  lemma NewClaim(claims: map<LoanedSample, Claim>, loans: seq<Loan>, p: P.PublisherImpl, s: LoanedSample, c: Claim)
    requires Matched(claims, loans, p) && s !in claims && c.active && c.owner == p && c.error == Ok
    requires forall k :: 0 <= k < |loans| ==> loans[k].handle != c.handle
    ensures Matched(claims[s := c], loans + [Loan(c.handle, c.size)], p)
  {
    var claims', loans' := claims[s := c], loans + [Loan(c.handle, c.size)];
    assert loans'[|loans|] == Loan(c.handle, c.size);
    forall t | t in claims && claims[t].active
      ensures claims[t].handle != c.handle && Loan(claims[t].handle, claims[t].size) in loans'
    {
      var i :| 0 <= i < |loans| && loans[i] == Loan(claims[t].handle, claims[t].size);
      assert loans'[i] == loans[i];
    }
    forall k | 0 <= k < |loans'| ensures HeldBy(claims', loans'[k].handle) {
      if k < |loans| {
        assert HeldBy(claims, loans[k].handle);
        var t: LoanedSample :| t in claims && claims[t].active && claims[t].handle == loans[k].handle;
        assert claims'[t] == claims[t];
      } else {
        assert claims'[s].active;
      }
    }
  }

  lemma LoansDistinct(start: System, trace: seq<Step>, s: System)
    requires Reaches(start, trace, s)
    ensures forall j, k :: 0 <= j < k < |s.loans| ==> s.loans[j].handle != s.loans[k].handle
  {
    ReachesInv(start, trace, s);
  }

  ghost function Claims(samples: set<LoanedSample>): map<LoanedSample, Claim>
    reads samples
  {
    map s | s in samples :: Claim(s.owner, s.handle, s.size, s.error, s.active)
  }

  ghost predicate Owned(samples: set<LoanedSample>, p: P.PublisherImpl)
    reads samples, p
  {
    Matched(Claims(samples), p.loans, p)
  }

  /** So a chunk is on loan exactly when an active sample holds its handle, and then just one does. */
  lemma LoanedIsOwned(samples: set<LoanedSample>, p: P.PublisherImpl, i: nat)
    requires p.Following(Idle) && Owned(samples, p) && i < p.pool.headers.Length
    ensures Shaped(p.pool.State())
    ensures p.pool.headers[i].state == Loaned <==> HeldBy(Claims(samples), HandleOf(p.pool.State(), i))
    ensures forall s, t :: s in samples && t in samples && s.active && t.active && s.handle.chunk == t.handle.chunk ==>
              s == t
  {
    p.At(Idle);
    ReachesInv(p.start, p.trace, p.reached);
    PT.LoanFacts(p.pool.State(), p.loans, i);
    var claims := Claims(samples);
    if HeldBy(claims, HandleOf(p.pool.State(), i)) {
      var s: LoanedSample :| s in claims && claims[s].active && claims[s].handle == HandleOf(p.pool.State(), i);
      assert Loan(claims[s].handle, claims[s].size) in p.loans;
    }
    forall s, t | s in samples && t in samples && s.active && t.active && s.handle.chunk == t.handle.chunk
      ensures s == t
    {
      assert claims[s].active && claims[t].active;
      assert Loan(s.handle, s.size) in p.loans && Loan(t.handle, t.size) in p.loans;
    }
  }

  method Position(loans: seq<Loan>, h: ChunkHandle) returns (k: nat)
    requires exists j :: 0 <= j < |loans| && loans[j].handle == h
    ensures k < |loans| && loans[k].handle == h
  {
    k := 0;
    while loans[k].handle != h
      invariant k < |loans| && exists j :: k <= j < |loans| && loans[j].handle == h
      decreases |loans| - k
    {
      k := k + 1;
    }
  }

  class LoanedSample {
    var owner: P.PublisherImpl?
    var handle: ChunkHandle
    var size: nat
    var error: ErrorCode
    var active: bool

    constructor (owner: P.PublisherImpl?, handle: ChunkHandle, size: nat, error: ErrorCode, active: bool)
      ensures this.owner == owner && this.handle == handle && this.size == size
      ensures this.error == error && this.active == active
    {
      this.owner, this.handle, this.size, this.error, this.active := owner, handle, size, error, active;
    }

    /** Publisher::loan: a new sample, active exactly when a chunk was allocated for it. */
    static method Borrow(p: P.PublisherImpl, size: nat, ghost samples: set<LoanedSample>) returns (s: LoanedSample)
      requires p.Following(Idle) && Owned(samples, p)
      modifies p, p.pool, p.pool.headers
      ensures p.Following(Idle) && fresh(s) && Owned(samples + {s}, p)
      ensures s.active <==> s.error == Ok
      ensures s.active ==> p.loans == old(p.loans) + [Loan(s.handle, size)]
      ensures !s.active ==> p.loans == old(p.loans)
    {
      var e, h := Obtain(p, size);
      if e == Ok { s := Issue(p, h, size, samples, old(p.loans)); } else { s := Refuse(p, e, samples); }
    }

    static method Obtain(p: P.PublisherImpl, size: nat) returns (e: ErrorCode, h: ChunkHandle)
      requires p.Following(Idle)
      modifies p, p.pool, p.pool.headers
      ensures p.Following(Idle)
      ensures p.loans == if e == Ok then old(p.loans) + [Loan(h, size)] else old(p.loans)
      ensures e == Ok ==> forall k :: 0 <= k < |old(p.loans)| ==> old(p.loans)[k].handle != h
    {
      var r := p.AllocateLoan(size);
      e, h := r.error, r.handle;
      if e == Ok {
        p.At(Idle);
        NewLoanDistinct(p.start, p.trace, p.reached, old(p.loans), h, size);
      }
    }

    static method Issue(p: P.PublisherImpl, h: ChunkHandle, size: nat, ghost samples: set<LoanedSample>,
                        ghost loans: seq<Loan>)
      returns (s: LoanedSample)
      requires Matched(Claims(samples), loans, p) && p.loans == loans + [Loan(h, size)]
      requires forall k :: 0 <= k < |loans| ==> loans[k].handle != h
      ensures fresh(s) && Owned(samples + {s}, p) && s.active && s.error == Ok && s.handle == h
    {
      ghost var claims: map<LoanedSample, Claim> := Claims(samples);
      s := new LoanedSample(p, h, size, Ok, true);
      NewClaim(claims, loans, p, s, Claim(p, h, size, Ok, true));
      assert Claims(samples + {s}) == claims[s := Claim(p, h, size, Ok, true)];
    }

    static method Refuse(ghost p: P.PublisherImpl, e: ErrorCode, ghost samples: set<LoanedSample>)
      returns (s: LoanedSample)
      requires Owned(samples, p)
      ensures fresh(s) && Owned(samples + {s}, p) && !s.active && s.error == e
    {
      ghost var claims: map<LoanedSample, Claim> := Claims(samples);
      s := new LoanedSample(null, NO_HANDLE, 0, e, false);
      IdleClaim(claims, p.loans, p, s, Claim(null, NO_HANDLE, 0, e, false));
      assert Claims(samples + {s}) == claims[s := Claim(null, NO_HANDLE, 0, e, false)];
    }

    /** Move construction: the claim passes to the new object and `other` is left inactive. */
    constructor Move(other: LoanedSample, ghost samples: set<LoanedSample>, ghost p: P.PublisherImpl)
      requires other in samples && Owned(samples, p)
      modifies other
      ensures Owned(samples + {this}, p)
      ensures !other.active && active == old(other.active) && handle == old(other.handle)
    {
      owner, handle, size, error, active := other.owner, other.handle, other.size, other.error, other.active;
      new;
      ghost var claims: map<LoanedSample, Claim> := old(Claims(samples));
      other.Clear();
      MoveClaim(claims, p.loans, p, other, this, Claim(null, NO_HANDLE, 0, InvalidState, false));
      assert Claims(samples + {this})
             == claims[this := claims[other]][other := Claim(null, NO_HANDLE, 0, InvalidState, false)];
    }

    method Clear()
      modifies this
      ensures owner == null && handle == NO_HANDLE && size == 0 && error == InvalidState && !active
    {
      owner, handle, size, error, active := null, NO_HANDLE, 0, InvalidState, false;
    }

    /** cancel, also run by the destructor: an active sample's loan ends, any other is unaffected. */
    method Cancel(ghost samples: set<LoanedSample>, ghost p: P.PublisherImpl)
      requires this in samples && p.Following(Idle) && Owned(samples, p)
      modifies this, p, p.pool, p.pool.headers
      ensures p.Following(Idle) && Owned(samples, p) && !active
      ensures old(active) ==> |p.loans| == |old(p.loans)| - 1
      ensures !old(active) ==> p.Now(Idle) == old(p.Now(Idle))
    {
      if active {
        CancelActive(samples, p);
      } else {
        ghost var claims: map<LoanedSample, Claim> := Claims(samples);
        owner := null;
        IdleClaim(claims, p.loans, p, this, Claim(owner, handle, size, error, active));
        assert Claims(samples) == claims[this := Claim(owner, handle, size, error, active)];
      }
    }

    method CancelActive(ghost samples: set<LoanedSample>, ghost p: P.PublisherImpl)
      requires this in samples && active && p.Following(Idle) && Owned(samples, p)
      modifies this, p, p.pool, p.pool.headers
      ensures p.Following(Idle) && Owned(samples, p) && !active && |p.loans| == |old(p.loans)| - 1
    {
      var k := Find(samples, p);
      var e := Withdraw(owner, k);
      Spend(e, samples, p, old(p.loans), k);
    }

    /** The loan this sample claimed has ended with `e`. */
    method Spend(e: ErrorCode, ghost samples: set<LoanedSample>, ghost p: P.PublisherImpl, ghost loans: seq<Loan>,
                 ghost k: nat)
      requires this in samples && active && Matched(Claims(samples), loans, p)
      requires k < |loans| && loans[k].handle == handle && p.loans == Drop(loans, k)
      requires forall i, j :: 0 <= i < j < |loans| ==> loans[i].handle != loans[j].handle
      modifies this
      ensures Owned(samples, p) && !active && error == e
    {
      ghost var claims: map<LoanedSample, Claim> := Claims(samples);
      error, active, owner := e, false, null;
      EndClaim(claims, loans, p, this, Claim(owner, handle, size, error, active), k);
      assert Claims(samples) == claims[this := Claim(owner, handle, size, error, active)];
    }

    /** publish: whatever the outcome, the claim is spent; an inactive sample publishes nothing. */
    method Publish(timestamp: nat, choices: seq<Offering>, ghost samples: set<LoanedSample>, ghost p: P.PublisherImpl)
      returns (r: PublishResult)
      requires this in samples && p.Following(Idle) && Owned(samples, p)
      modifies this, p, p.pool, p.pool.headers
      ensures p.Following(Idle) && Owned(samples, p) && !active
      ensures old(active) ==> |p.loans| == |old(p.loans)| - 1 && error == r.error
      ensures !old(active) ==> r == NotPublished(InvalidState, 0) && p.Now(Idle) == old(p.Now(Idle))
    {
      if !active { return NotPublished(InvalidState, 0); }
      r := PublishActive(timestamp, choices, samples, p);
    }

    method PublishActive(timestamp: nat, choices: seq<Offering>, ghost samples: set<LoanedSample>,
                         ghost p: P.PublisherImpl)
      returns (r: PublishResult)
      requires this in samples && p.Following(Idle) && Owned(samples, p) && active
      modifies this, p, p.pool, p.pool.headers
      ensures p.Following(Idle) && Owned(samples, p) && !active
      ensures |p.loans| == |old(p.loans)| - 1 && error == r.error
    {
      var k := Find(samples, p);
      r := Send(owner, k, timestamp, choices);
      Spend(r.error, samples, p, old(p.loans), k);
    }

    /** The position of the sample's loan in its publisher's list. */
    method Find(ghost samples: set<LoanedSample>, ghost p: P.PublisherImpl) returns (k: nat)
      requires this in samples && active && p.Following(Idle) && Owned(samples, p)
      ensures owner == p && k < |p.loans| && p.loans[k].handle == handle
      ensures forall i, j :: 0 <= i < j < |p.loans| ==> p.loans[i].handle != p.loans[j].handle
    {
      assert Claims(samples)[this].active;
      p.At(Idle);
      LoansDistinct(p.start, p.trace, p.reached);
      k := Position(owner.loans, handle);
    }

    static method Withdraw(p: P.PublisherImpl, k: nat) returns (e: ErrorCode)
      requires p.Following(Idle) && k < |p.loans|
      modifies p, p.pool, p.pool.headers
      ensures p.Following(Idle) && p.loans == Drop(old(p.loans), k)
    {
      e := p.CancelLoan(k);
    }

    static method Send(p: P.PublisherImpl, k: nat, timestamp: nat, choices: seq<Offering>) returns (r: PublishResult)
      requires p.Following(Idle) && k < |p.loans|
      modifies p, p.pool, p.pool.headers
      ensures p.Following(Idle) && p.loans == Drop(old(p.loans), k)
    {
      ghost var outcomes, met;
      r, outcomes, met := p.PublishLoaned(k, timestamp, choices);
    }

    /** Move assignment: the old claim is cancelled before the new one is taken over. */
    method Assign(other: LoanedSample, ghost samples: set<LoanedSample>, ghost p: P.PublisherImpl)
      requires this in samples && other in samples && p.Following(Idle) && Owned(samples, p)
      modifies this, other, p, p.pool, p.pool.headers
      ensures p.Following(Idle) && Owned(samples, p)
      ensures this != other ==> !other.active && active == old(other.active) && handle == old(other.handle)
      ensures this == other ==> active == old(active) && handle == old(handle) && p.Now(Idle) == old(p.Now(Idle))
    {
      if this != other {
        Cancel(samples, p);
        TakeOver(other, samples, p);
      }
    }

    method TakeOver(other: LoanedSample, ghost samples: set<LoanedSample>, ghost p: P.PublisherImpl)
      requires this in samples && other in samples && this != other && !active && Owned(samples, p)
      modifies this, other
      ensures Owned(samples, p)
      ensures !other.active && active == old(other.active) && handle == old(other.handle)
    {
      ghost var claims: map<LoanedSample, Claim> := Claims(samples);
      owner, handle, size, error, active := other.owner, other.handle, other.size, other.error, other.active;
      other.Clear();
      MoveClaim(claims, p.loans, p, other, this, Claim(null, NO_HANDLE, 0, InvalidState, false));
      assert Claims(samples) == claims[this := claims[other]][other := Claim(null, NO_HANDLE, 0, InvalidState, false)];
    }
  }

  lemma NewLoanDistinct(start: System, trace: seq<Step>, s: System, before: seq<Loan>, h: ChunkHandle, size: nat)
    requires Reaches(start, trace, s) && s.loans == before + [Loan(h, size)]
    ensures forall k :: 0 <= k < |before| ==> before[k].handle != h
  {
    LoansDistinct(start, trace, s);
    forall k | 0 <= k < |before| ensures before[k].handle != h {
      assert s.loans[k] == before[k] && s.loans[|before|].handle == h;
    }
  }

  // ---- views ----

  /** What one SampleView holds; `token` numbers the reference among all those issued. */
  datatype Hold = Hold(context: ReleaseContext?, handle: ChunkHandle, active: bool, token: nat)

  /**
  Where views return their references: `sent` are the release frames written. `issued` logs the
  handle of every view ever made, and `returned` which of them have come back, in `sent` order.
  */
  class ReleaseContext {
    var sent: seq<ChunkHandle>
    ghost var issued: seq<ChunkHandle>
    ghost var returned: seq<nat>

    constructor ()
      ensures sent == [] && issued == [] && returned == []
    {
      sent, issued, returned := [], [], [];
    }
  }

  ghost predicate ViewedBy(holds: map<SampleView, Hold>, token: nat) {
    exists v: SampleView :: v in holds && holds[v].active && holds[v].token == token
  }

  /** The release frames sent are the references returned, each once. */
  ghost predicate SentOk(sent: seq<ChunkHandle>, issued: seq<ChunkHandle>, returned: seq<nat>) {
    && |sent| == |returned| && NoDup(returned)
    && forall k :: 0 <= k < |sent| ==> returned[k] < |issued| && sent[k] == issued[returned[k]]
  }

  /** Every reference issued is held by exactly one active view or has been returned. */
  ghost predicate HoldsOk(holds: map<SampleView, Hold>, issued: seq<ChunkHandle>, returned: seq<nat>,
                          c: ReleaseContext) {
    && (forall v :: v in holds && holds[v].active ==>
                      && holds[v].context == c && holds[v].token < |issued| && holds[v].token !in returned
                      && holds[v].handle == issued[holds[v].token])
    && (forall v, w :: v in holds && w in holds && v != w && holds[v].active && holds[w].active ==>
                         holds[v].token != holds[w].token)
    && (forall t :: 0 <= t < |issued| ==> t in returned || ViewedBy(holds, t))
  }

  ghost function Holds(views: set<SampleView>): map<SampleView, Hold>
    reads views
  {
    map v | v in views :: Hold(v.context, v.handle, v.active, v.token)
  }

  ghost predicate Accounted(views: set<SampleView>, c: ReleaseContext)
    reads views, c
  {
    SentOk(c.sent, c.issued, c.returned) && HoldsOk(Holds(views), c.issued, c.returned, c)
  }

  lemma IssueHold(holds: map<SampleView, Hold>, issued: seq<ChunkHandle>, returned: seq<nat>, c: ReleaseContext,
                  v: SampleView, h: ChunkHandle)
    requires HoldsOk(holds, issued, returned, c) && v !in holds
    requires forall k :: 0 <= k < |returned| ==> returned[k] < |issued|
    ensures HoldsOk(holds[v := Hold(c, h, true, |issued|)], issued + [h], returned, c)
  {
    var holds' := holds[v := Hold(c, h, true, |issued|)];
    forall t | 0 <= t <= |issued| && t !in returned ensures ViewedBy(holds', t) {
      if t < |issued| {
        assert ViewedBy(holds, t);
        var w: SampleView :| w in holds && holds[w].active && holds[w].token == t;
        assert holds'[w] == holds[w];
      } else {
        assert holds'[v].token == t;
      }
    }
  }

  lemma ReturnHold(holds: map<SampleView, Hold>, issued: seq<ChunkHandle>, returned: seq<nat>, c: ReleaseContext,
                   v: SampleView, hold: Hold)
    requires HoldsOk(holds, issued, returned, c) && v in holds && holds[v].active && !hold.active
    ensures HoldsOk(holds[v := hold], issued, returned + [holds[v].token], c)
  {
    var holds', returned' := holds[v := hold], returned + [holds[v].token];
    assert returned'[|returned|] == holds[v].token;
    assert forall t :: t in returned' <==> t in returned || t == holds[v].token;
    forall t | 0 <= t < |issued| && t !in returned' ensures ViewedBy(holds', t) {
      assert ViewedBy(holds, t);
      var w: SampleView :| w in holds && holds[w].active && holds[w].token == t;
      assert holds'[w] == holds[w];
    }
  }

  lemma MoveHold(holds: map<SampleView, Hold>, issued: seq<ChunkHandle>, returned: seq<nat>, c: ReleaseContext,
                 from: SampleView, to: SampleView, hold: Hold)
    requires HoldsOk(holds, issued, returned, c) && from in holds && from != to && (to in holds ==> !holds[to].active)
             && !hold.active
    ensures HoldsOk(holds[to := holds[from]][from := hold], issued, returned, c)
  {
    var holds' := holds[to := holds[from]][from := hold];
    forall t | 0 <= t < |issued| && t !in returned ensures ViewedBy(holds', t) {
      assert ViewedBy(holds, t);
      var w: SampleView :| w in holds && holds[w].active && holds[w].token == t;
      assert holds'[if w == from then to else w] == holds[w];
    }
  }

  lemma IdleHold(holds: map<SampleView, Hold>, issued: seq<ChunkHandle>, returned: seq<nat>, c: ReleaseContext,
                 v: SampleView, hold: Hold)
    requires HoldsOk(holds, issued, returned, c) && v in holds && !holds[v].active && !hold.active
    ensures HoldsOk(holds[v := hold], issued, returned, c)
  {
    forall t | 0 <= t < |issued| && t !in returned ensures ViewedBy(holds[v := hold], t) {
      assert ViewedBy(holds, t);
      var w: SampleView :| w in holds && holds[w].active && holds[w].token == t;
      assert holds[v := hold][w] == holds[w];
    }
  }

  class SampleView {
    var context: ReleaseContext?
    var handle: ChunkHandle
    var active: bool
    ghost var token: nat

    /** A view over a handle just dequeued and read. */
    constructor (c: ReleaseContext, h: ChunkHandle, ghost views: set<SampleView>)
      requires Accounted(views, c)
      modifies c`issued
      ensures Accounted(views + {this}, c) && active && handle == h && c.issued == old(c.issued) + [h]
    {
      context, handle, active, token := c, h, true, |c.issued|;
      new;
      IssueHold(old(Holds(views)), c.issued, c.returned, c, this, h);
      c.issued := c.issued + [h];
      assert Holds(views + {this}) == old(Holds(views))[this := Hold(context, handle, active, token)];
    }

    /** Move construction. */
    constructor Move(other: SampleView, ghost views: set<SampleView>, ghost c: ReleaseContext)
      requires other in views && Accounted(views, c)
      modifies other
      ensures Accounted(views + {this}, c)
      ensures !other.active && active == old(other.active) && handle == old(other.handle)
    {
      context, handle, active, token := other.context, other.handle, other.active, other.token;
      new;
      ghost var holds: map<SampleView, Hold> := old(Holds(views));
      other.context, other.handle, other.active := null, NO_HANDLE, false;
      MoveHold(holds, c.issued, c.returned, c, other, this, Hold(null, NO_HANDLE, false, other.token));
      assert Holds(views + {this}) == holds[this := holds[other]][other := Hold(null, NO_HANDLE, false, other.token)];
    }

    method TakeOver(other: SampleView, ghost views: set<SampleView>, ghost c: ReleaseContext)
      requires this in views && other in views && this != other && !active && Accounted(views, c)
      modifies this, other
      ensures Accounted(views, c)
      ensures !other.active && active == old(other.active) && handle == old(other.handle)
    {
      ghost var holds: map<SampleView, Hold> := Holds(views);
      context, handle, active, token := other.context, other.handle, other.active, other.token;
      other.context, other.handle, other.active := null, NO_HANDLE, false;
      MoveHold(holds, c.issued, c.returned, c, other, this, Hold(null, NO_HANDLE, false, other.token));
      assert Holds(views) == holds[this := holds[other]][other := Hold(null, NO_HANDLE, false, other.token)];
    }

    /** release, also run by the destructor: an active view sends one release frame, any other none. */
    method Release(ghost views: set<SampleView>, ghost c: ReleaseContext)
      requires this in views && Accounted(views, c)
      modifies this, c
      ensures Accounted(views, c) && !active
      ensures c.issued == old(c.issued)
      ensures c.sent == if old(active) then old(c.sent) + [old(handle)] else old(c.sent)
    {
      ghost var holds: map<SampleView, Hold> := Holds(views);
      if active {
        assert holds[this].active;
        ReturnHold(holds, c.issued, c.returned, c, this, Hold(null, handle, false, token));
        context.sent := context.sent + [handle];
        c.returned := c.returned + [token];
        active := false;
      } else {
        IdleHold(holds, c.issued, c.returned, c, this, Hold(null, handle, false, token));
      }
      context := null;
      assert Holds(views) == holds[this := Hold(null, handle, false, token)];
    }

    /** Move assignment. */
    method Assign(other: SampleView, ghost views: set<SampleView>, ghost c: ReleaseContext)
      requires this in views && other in views && Accounted(views, c)
      modifies this, other, c
      ensures Accounted(views, c) && c.issued == old(c.issued)
      ensures this != other ==> !other.active && active == old(other.active) && handle == old(other.handle)
      ensures this != other ==> c.sent == if old(active) then old(c.sent) + [old(handle)] else old(c.sent)
      ensures this == other ==> active == old(active) && c.sent == old(c.sent)
    {
      if this != other {
        Release(views, c);
        TakeOver(other, views, c);
      }
    }
  }
}
