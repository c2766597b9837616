/** Borrowing, cancelling and publishing chunks keeps the invariant. */
module LoanSteps {
  import opened Basics
  import opened PoolModel
  import opened PoolLemmas
  import opened Protocol
  import opened ProtocolInvariant
  import opened ReleaseEffects

  /** No obligation names a chunk that is not published. */
  lemma UnpublishedUnowed(p: Pool, cs: seq<Connection>, i: nat, h: ChunkHandle)
    requires Shaped(p) && i < |p.chunks| && p.chunks[i].state != Published
    requires forall j :: 0 <= j < |cs| ==> OutstandingOk(p, cs[j])
    requires h.chunk == i
    ensures Holders(Obligations(cs), h) == 0
    ensures forall j :: 0 <= j < |cs| ==> h !in cs[j].outstanding
  {
    HoldersNone(Obligations(cs), h);
  }

  /** A change confined to an unpublished chunk is invisible to every connection. */
  lemma QuietConnections(p: Pool, q: Pool, i: nat, cs: seq<Connection>, pc: PublisherPc, sequence: nat,
                         published: map<nat, seq<Byte>>)
    requires Shaped(p) && Shaped(q) && SameExcept(p, q, i) && i < |p.chunks| && p.chunks[i].state != Published
    requires ConnectionsOk(p, cs, pc, sequence, published)
    requires pc.Dispatching? ==> Live(p, pc.handle)
    ensures ConnectionsOk(q, cs, pc, sequence, published)
  {
    forall j | 0 <= j < |cs|
      ensures ConnectionOk(q, cs[j], ContextOf(pc, sequence, j, cs[j].endpoint), published)
    {
      StableKeeps(p, q, cs[j], ContextOf(pc, sequence, j, cs[j].endpoint), published);
    }
  }

  lemma QuietRefs(p: Pool, q: Pool, i: nat, lists: seq<seq<ChunkHandle>>, guard: Guard)
    requires Shaped(p) && Shaped(q) && SameExcept(p, q, i) && RefsOk(p, lists, guard)
    requires i < |q.chunks| && q.chunks[i].state != Published && q.chunks[i].state != Released
    ensures RefsOk(q, lists, guard)
  {
    forall j | 0 <= j < |q.chunks| && j != i
      ensures q.chunks[j] == p.chunks[j] && HandleOf(q, j) == HandleOf(p, j)
    {
    }
  }

  lemma QuietKeeps(s: System, q: Pool, i: nat, loans: seq<Loan>)
    requires Inv(s) && ValidPool(q) && SameExcept(s.pool, q, i) && i < |s.pool.chunks|
    requires s.pool.chunks[i].state != Published
    requires q.chunks[i].state != Published && q.chunks[i].state != Released
    requires LoansOk(q, loans)
    ensures Inv(s.(pool := q, loans := loans))
  {
    QuietRefs(s.pool, q, i, Obligations(s.connections), GuardOf(s.pc));
    QuietConnections(s.pool, q, i, s.connections, s.pc, s.sequence, s.published);
    QuietLog(s.pool, q, i, Current(s.pc), s.sequence, s.published);
  }

  lemma QuietLog(p: Pool, q: Pool, i: nat, current: Option<nat>, sequence: nat, published: map<nat, seq<Byte>>)
    requires Shaped(p) && Shaped(q) && SameExcept(p, q, i) && LogOk(p, current, sequence, published)
    requires i < |q.chunks| && q.chunks[i].state != Published
    ensures LogOk(q, current, sequence, published)
  {
    forall j | 0 <= j < |q.chunks| && q.chunks[j].state == Published
      ensures q.chunks[j] == p.chunks[j] && HandleOf(q, j) == HandleOf(p, j)
    {
    }
  }

  lemma LoanKeeps(s: System, size: nat)
    requires Inv(s)
    ensures Inv(LoanStep(s, size))
  {
    AllocateFacts(s.pool, size);
    var (q, a) := Allocate(s.pool, size);
    if a.error == Ok {
      LoansWith(s.pool, q, s.loans, Loan(a.handle, size));
      QuietKeeps(s, q, a.handle.chunk, s.loans + [Loan(a.handle, size)]);
    }
  }

  lemma LoansWith(p: Pool, q: Pool, loans: seq<Loan>, loan: Loan)
    requires Shaped(p) && Shaped(q) && LoansOk(p, loans) && Matches(q, loan.handle)
    requires SameExcept(p, q, loan.handle.chunk) && p.chunks[loan.handle.chunk].state == Free
    requires q.chunks[loan.handle.chunk].state == Loaned && q.chunks[loan.handle.chunk].payloadSize == loan.size
    ensures LoansOk(q, loans + [loan])
  {
    var more := loans + [loan];
    forall j | 0 <= j < |q.chunks| && q.chunks[j].state == Loaned
      ensures exists k :: 0 <= k < |more| && more[k].handle.chunk == j
    {
      if j == loan.handle.chunk {
        assert more[|loans|].handle.chunk == j;
      } else {
        assert p.chunks[j].state == Loaned;
        var k :| 0 <= k < |loans| && loans[k].handle.chunk == j;
        assert more[k].handle.chunk == j;
      }
    }
  }

  lemma FillKeeps(s: System, k: nat, data: seq<Byte>)
    requires Inv(s) && k < |s.loans|
    ensures Inv(s.(pool := WriteLoan(s.pool, s.loans[k].handle, data)))
  {
    var h := s.loans[k].handle;
    var q := WriteLoan(s.pool, h, data);
    if q != s.pool {
      assert ChunkOk(s.pool, h.chunk);
      SetChunkKeeps(s.pool, h.chunk, q.chunks[h.chunk]);
      forall j | 0 <= j < |q.chunks| ensures q.chunks[j].state == s.pool.chunks[j].state {}
      QuietKeeps(s, q, h.chunk, s.loans);
    }
  }

  /** The other loans survive when loan `k` leaves the Loaned state. */
  lemma LoansWithout(p: Pool, q: Pool, loans: seq<Loan>, k: nat)
    requires Shaped(p) && Shaped(q) && LoansOk(p, loans) && k < |loans|
    requires SameExcept(p, q, loans[k].handle.chunk)
    requires q.chunks[loans[k].handle.chunk].state != Loaned
    ensures LoansOk(q, Drop(loans, k))
  {
    var rest := Drop(loans, k);
    forall j | 0 <= j < |rest| ensures rest[j] == loans[if j < k then j else j + 1] {}
    forall i | 0 <= i < |q.chunks| && q.chunks[i].state == Loaned
      ensures exists j :: 0 <= j < |rest| && rest[j].handle.chunk == i
    {
      var j := OtherLoan(p, q, loans, k, i);
    }
  }

  /** A chunk that is still on loan is on a loan that stays. */
  lemma OtherLoan(p: Pool, q: Pool, loans: seq<Loan>, k: nat, i: nat) returns (m: nat)
    requires Shaped(p) && LoansOk(p, loans) && k < |loans| && SameExcept(p, q, loans[k].handle.chunk)
    requires loans[k].handle.chunk < |q.chunks| && q.chunks[loans[k].handle.chunk].state != Loaned
    requires i < |q.chunks| && q.chunks[i].state == Loaned
    ensures m < |Drop(loans, k)| && Drop(loans, k)[m].handle.chunk == i
  {
    assert p.chunks[i].state == Loaned;
    var j :| 0 <= j < |loans| && loans[j].handle.chunk == i;
    m := if j < k then j else j - 1;
  }

  lemma CancelKeeps(s: System, k: nat)
    requires Inv(s) && k < |s.loans|
    ensures Inv(CancelLoanStep(s, k))
  {
    var h := s.loans[k].handle;
    var q := Cancel(s.pool, h).0;
    assert ChunkOk(s.pool, h.chunk);
    PutBackKeeps(s.pool, h.chunk, q.chunks[h.chunk]);
    LoansWithout(s.pool, q, s.loans, k);
    QuietKeeps(s, q, h.chunk, Drop(s.loans, k));
  }

  // ---- publishing ----

  /** Chunk `i` has just been published as sequence + 1 with the guard as its only reference. */
  ghost predicate JustPublished(s: System, q: Pool, i: nat) {
    && ValidPool(q) && SameExcept(s.pool, q, i) && i < |s.pool.chunks|
    && s.pool.chunks[i].state in {Free, Loaned}
    && q.chunks[i].state == Published && q.chunks[i].refs == 1
    && q.chunks[i].sequence == s.sequence + 1
    && q.chunks[i].payloadSize <= s.negotiated
  }

  lemma PublishedRefs(s: System, q: Pool, i: nat)
    requires Inv(s) && s.pc.Idle? && JustPublished(s, q, i)
    ensures RefsOk(q, Obligations(s.connections), Guard(HandleOf(q, i), 1))
    ensures forall j :: 0 <= j < |s.connections| ==> HandleOf(q, i) !in s.connections[j].outstanding
  {
    var h := HandleOf(q, i);
    AllOutstanding(s.pool, s.connections, s.pc, s.sequence, s.published);
    UnpublishedUnowed(s.pool, s.connections, i, h);
    forall j | 0 <= j < |q.chunks| && j != i
      ensures q.chunks[j] == s.pool.chunks[j] && HandleOf(q, j) == HandleOf(s.pool, j) && HandleOf(q, j) != h
    {
    }
  }

  lemma PublishedLog(s: System, q: Pool, i: nat)
    requires Inv(s) && s.pc.Idle? && JustPublished(s, q, i)
    ensures LogOk(q, Some(i), s.sequence, s.published[s.sequence + 1 := ViewOf(q, HandleOf(q, i)).payload])
  {
    forall j | 0 <= j < |q.chunks| && j != i && q.chunks[j].state == Published
      ensures q.chunks[j] == s.pool.chunks[j] && HandleOf(q, j) == HandleOf(s.pool, j)
    {
    }
  }

  lemma PublishKeepsAll(s: System, q: Pool, i: nat, loans: seq<Loan>)
    requires Inv(s) && s.pc.Idle? && JustPublished(s, q, i) && LoansOk(q, loans)
    ensures Inv(StartDispatch(s, q, HandleOf(q, i), loans))
  {
    var pc := Dispatching(HandleOf(q, i), 0, Start, []);
    var published := s.published[s.sequence + 1 := ViewOf(q, HandleOf(q, i)).payload];
    PublishedRefs(s, q, i);
    PublishedLog(s, q, i);
    QuietConnections(s.pool, q, i, s.connections, s.pc, s.sequence, s.published);
    ConnectionsStart(q, s.connections, s.pc, pc, s.sequence, s.published, published);
  }

  lemma ConnectionsStart(q: Pool, cs: seq<Connection>, pc: PublisherPc, pc': PublisherPc, sequence: nat,
                         published: map<nat, seq<Byte>>, published': map<nat, seq<Byte>>)
    requires Shaped(q) && ConnectionsOk(q, cs, pc, sequence, published)
    requires pc.Idle? && pc'.Dispatching? && pc'.index == 0 && pc'.phase.Start?
    requires published.Keys <= published'.Keys
    ensures ConnectionsOk(q, cs, pc', sequence, published')
  {
    forall j | 0 <= j < |cs|
      ensures ConnectionOk(q, cs[j], ContextOf(pc', sequence, j, cs[j].endpoint), published')
    {
      assert ContextOf(pc', sequence, j, cs[j].endpoint) == ContextOf(pc, sequence, j, cs[j].endpoint);
      assert ConnectionOk(q, cs[j], ContextOf(pc, sequence, j, cs[j].endpoint), published);
      forall k | 0 <= k < |cs[j].readLog| ensures cs[j].readLog[k] in published' {
        assert cs[j].readLog[k] in published.Keys;
      }
    }
  }

  /** A loan within the negotiated size is always accepted for publication. */
  lemma LoanPublishes(s: System, k: nat, timestamp: nat)
    requires Inv(s) && k < |s.loans| && s.loans[k].size <= s.negotiated
    ensures var h := s.loans[k].handle;
            var (q, e) := PublishLoaned(s.pool, h, s.loans[k].size, s.sequence + 1, timestamp, 1);
            && e == Ok && JustPublished(s, q, h.chunk) && HandleOf(q, h.chunk) == h
            && LoansOk(q, Drop(s.loans, k))
  {
    var h := s.loans[k].handle;
    assert ChunkOk(s.pool, h.chunk);
    var q := PublishLoaned(s.pool, h, s.loans[k].size, s.sequence + 1, timestamp, 1).0;
    SetChunkKeeps(s.pool, h.chunk, q.chunks[h.chunk]);
    LoansWithout(s.pool, q, s.loans, k);
  }

  lemma PublishLoanKeeps(s: System, k: nat, timestamp: nat)
    requires Inv(s) && s.pc.Idle? && k < |s.loans|
    ensures Inv(PublishLoanStep(s, k, timestamp))
  {
    var loan := s.loans[k];
    if loan.size > s.negotiated {
      CancelKeeps(s, k);
    } else {
      LoanPublishes(s, k, timestamp);
      var q := PublishLoaned(s.pool, loan.handle, loan.size, s.sequence + 1, timestamp, 1).0;
      PublishKeepsAll(s, q, loan.handle.chunk, Drop(s.loans, k));
    }
  }

  /** A copy publish that gets a chunk always succeeds in publishing it. */
  lemma CopyPublishes(s: System, data: seq<Byte>, timestamp: nat)
    requires Inv(s) && |data| <= s.negotiated && Allocate(s.pool, |data|).1.error == Ok
    ensures var (p, a) := Allocate(s.pool, |data|);
            var (q, e) := WriteAndPublish(p, a.handle, data, s.sequence + 1, timestamp, 1);
            e == Ok && JustPublished(s, q, a.handle.chunk) && HandleOf(q, a.handle.chunk) == a.handle
            && ViewOf(q, a.handle).payload == data
  {
    AllocateFacts(s.pool, |data|);
    var (p, a) := Allocate(s.pool, |data|);
    assert ChunkOk(p, a.handle.chunk);
    PublishKeeps(p, a.handle, data, s.sequence + 1, timestamp, 1);
  }

  lemma PublishCopyKeeps(s: System, data: seq<Byte>, timestamp: nat)
    requires Inv(s) && s.pc.Idle? && |data| <= s.negotiated
    ensures Inv(PublishCopyStep(s, data, timestamp))
  {
    var (p, a) := Allocate(s.pool, |data|);
    if a.error == Ok {
      CopyPublishes(s, data, timestamp);
      AllocateFacts(s.pool, |data|);
      var q := WriteAndPublish(p, a.handle, data, s.sequence + 1, timestamp, 1).0;
      CopyLoans(s.pool, q, a.handle.chunk, s.loans);
      PublishKeepsAll(s, q, a.handle.chunk, s.loans);
    }
  }

  lemma CopyLoans(p: Pool, q: Pool, i: nat, loans: seq<Loan>)
    requires Shaped(p) && Shaped(q) && LoansOk(p, loans) && SameExcept(p, q, i)
    requires i < |p.chunks| && p.chunks[i].state == Free && q.chunks[i].state == Published
    ensures LoansOk(q, loans)
  {
    forall j | 0 <= j < |q.chunks| && q.chunks[j].state == Loaned
      ensures exists k :: 0 <= k < |loans| && loans[k].handle.chunk == j
    {
      assert p.chunks[j].state == Loaned;
    }
  }
}
