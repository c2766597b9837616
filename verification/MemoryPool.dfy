/**
The publisher's pool as it is updated in place: an array of chunk headers, one stack of free
chunks per size class, and the counters. Every method is proved against its operation in
PoolModel, whose run-level properties are in PoolLemmas.
*/
module MemoryPool {
  import opened Basics
  import opened PoolModel

  class Allocator {
    const id: nat
    const offsets: seq<nat>
    const classes: seq<nat>
    const headers: array<Chunk>
    var free: seq<seq<nat>>
    var allocations: nat
    var reclaims: nat

    function State(): Pool
      reads this, headers
    {
      Pool(id, offsets, classes, headers[..], free, allocations, reclaims)
    }

    /**
    A pool over a directory that gives each chunk's class and payload offset. All chunks start
    free, and each class hands out its lowest-numbered chunk first.
    */
    constructor (id: nat, offsets: seq<nat>, classes: seq<nat>, directory: seq<nat>)
      requires id != 0 && |offsets| == |directory|
      requires forall i :: 0 <= i < |directory| ==> directory[i] < |classes|
      requires forall k :: 0 <= k < |classes| ==> classes[k] < U32_LIMIT
      ensures fresh(headers)
      ensures State().id == id && State().offsets == offsets && State().classes == classes
      ensures |State().chunks| == |directory|
      ensures forall i :: 0 <= i < |directory| ==>
                            && headers[i].state == Free && headers[i].generation == 0
                            && headers[i].classIndex == directory[i]
      ensures ValidPool(State())
      ensures forall k, a, b :: 0 <= k < |free| && 0 <= a < b < |free[k]| ==> free[k][a] > free[k][b]
    {
      this.id, this.offsets, this.classes := id, offsets, classes;
      headers := new Chunk[|directory|](i requires 0 <= i < |directory| => NewChunk(classes, directory[i]));
      allocations, reclaims := 0, 0;
      var lists := FreeLists(directory, |classes|);
      free := lists;
      new;
      NewIsValid(State(), directory);
    }

    /** First fit over the size classes, then the top of that class's free stack. */
    method Allocate(size: nat) returns (r: AllocationResult)
      requires Shaped(State())
      modifies this`free, this`allocations, headers
      ensures Shaped(State())
      ensures (State(), r) == PoolModel.Allocate(old(State()), size)
    {
      var k := 0;
      while k < |classes| && classes[k] < size
        invariant k <= |classes|
        invariant forall j :: 0 <= j < k ==> classes[j] < size
      {
        k := k + 1;
      }
      assert k == ClassFor(classes, size);
      if k == |classes| { return AllocationResult(MessageTooLarge, NO_HANDLE, 0); }
      if free[k] == [] { return AllocationResult(PoolExhausted, NO_HANDLE, 0); }
      var i := free[k][|free[k]| - 1];
      if headers[i].state != Free || headers[i].refs != 0 {
        return AllocationResult(InvalidState, NO_HANDLE, 0);
      }
      var generation := (headers[i].generation + 1) % U32_LIMIT;
      if generation == 0 { generation := 1; }
      free := free[k := free[k][..|free[k]| - 1]];
      headers[i] := headers[i].(generation := generation, payloadSize := size % U32_LIMIT,
                                sequence := 0, timestamp := 0, state := Loaned);
      allocations := allocations + 1;
      assert headers[..] == old(headers[..])[i := headers[i]];
      assert State() == TakeFree(old(State()), k, size);
      r := AllocationResult(Ok, ChunkHandle(id, i, generation, offsets[i]), headers[i].capacity);
    }

    predicate HandleMatches(h: ChunkHandle)
      requires Shaped(State()) && h.chunk < headers.Length
      reads this, headers
    {
      h.poolId == id && h.generation == headers[h.chunk].generation && h.offset == offsets[h.chunk]
    }

    /** publishLocked: whether the handle may be published with these arguments. */
    method CheckPublish(h: ChunkHandle, size: nat, sequence: nat, refs: nat) returns (e: ErrorCode)
      requires Shaped(State())
      ensures e == PublishCheck(State(), h, size, sequence, refs)
    {
      if h.chunk >= headers.Length || !HandleMatches(h) { return InvalidChunkHandle; }
      if headers[h.chunk].state != Loaned { return InvalidState; }
      if size != headers[h.chunk].payloadSize || size > headers[h.chunk].capacity || sequence == 0 || refs == 0 {
        return InvalidArgument;
      }
      e := Ok;
    }

    method PublishLoaned(h: ChunkHandle, size: nat, sequence: nat, timestamp: nat, refs: nat) returns (e: ErrorCode)
      requires Shaped(State())
      modifies headers
      ensures Shaped(State())
      ensures (State(), e) == PoolModel.PublishLoaned(old(State()), h, size, sequence, timestamp, refs)
    {
      e := CheckPublish(h, size, sequence, refs);
      if e != Ok { return; }
      headers[h.chunk] := headers[h.chunk].(sequence := sequence, timestamp := timestamp);
      headers[h.chunk] := headers[h.chunk].(refs := refs, state := Published);
      assert headers[..] == old(headers[..])[h.chunk := headers[h.chunk]];
    }

    method WriteAndPublish(h: ChunkHandle, data: seq<Byte>, sequence: nat, timestamp: nat, refs: nat)
      returns (e: ErrorCode)
      requires Shaped(State())
      modifies headers
      ensures Shaped(State())
      ensures (State(), e) == PoolModel.WriteAndPublish(old(State()), h, data, sequence, timestamp, refs)
    {
      e := CheckPublish(h, |data|, sequence, refs);
      if e != Ok { return; }
      headers[h.chunk] := headers[h.chunk].(payload := Overwrite(headers[h.chunk].payload, data));
      headers[h.chunk] := headers[h.chunk].(sequence := sequence, timestamp := timestamp);
      headers[h.chunk] := headers[h.chunk].(refs := refs, state := Published);
      assert headers[..] == old(headers[..])[h.chunk := headers[h.chunk]];
    }

    method AddReference(h: ChunkHandle) returns (e: ErrorCode)
      requires Shaped(State())
      modifies headers
      ensures Shaped(State())
      ensures (State(), e) == PoolModel.AddReference(old(State()), h)
    {
      if h.chunk >= headers.Length || !HandleMatches(h) { return InvalidChunkHandle; }
      if headers[h.chunk].state != Published { return InvalidState; }
      var references := headers[h.chunk].refs;
      if references == 0 || references == U32_LIMIT - 1 { return InvalidState; }
      headers[h.chunk] := headers[h.chunk].(refs := references + 1);
      assert headers[..] == old(headers[..])[h.chunk := headers[h.chunk]];
      e := Ok;
    }

    method Release(h: ChunkHandle) returns (r: ReleaseResult)
      requires Shaped(State())
      modifies headers
      ensures Shaped(State())
      ensures (State(), r) == PoolModel.Release(old(State()), h)
    {
      if h.chunk >= headers.Length || !HandleMatches(h) { return ReleaseResult(InvalidChunkHandle, 0, false); }
      if headers[h.chunk].state != Published { return ReleaseResult(DuplicateRelease, headers[h.chunk].refs, false); }
      var references := headers[h.chunk].refs;
      if references == 0 { return ReleaseResult(DuplicateRelease, 0, false); }
      var remaining := references - 1;
      headers[h.chunk] := headers[h.chunk].(refs := remaining);
      if remaining == 0 {
        headers[h.chunk] := headers[h.chunk].(state := Released);
      }
      assert headers[..] == old(headers[..])[h.chunk := headers[h.chunk]];
      r := ReleaseResult(Ok, remaining, remaining == 0);
    }

    method Reclaim(h: ChunkHandle) returns (e: ErrorCode)
      requires Shaped(State())
      modifies this`free, this`reclaims, headers
      ensures Shaped(State())
      ensures (State(), e) == PoolModel.Reclaim(old(State()), h)
    {
      if h.chunk >= headers.Length || !HandleMatches(h) { return InvalidChunkHandle; }
      if headers[h.chunk].state != Released || headers[h.chunk].refs != 0 { return InvalidState; }
      headers[h.chunk] := headers[h.chunk].(payloadSize := 0, sequence := 0, timestamp := 0, state := Free);
      assert headers[..] == old(headers[..])[h.chunk := headers[h.chunk]];
      PushFree(h.chunk);
      e := Ok;
    }

    method Cancel(h: ChunkHandle) returns (e: ErrorCode)
      requires Shaped(State())
      modifies this`free, this`reclaims, headers
      ensures Shaped(State())
      ensures (State(), e) == PoolModel.Cancel(old(State()), h)
    {
      if h.chunk >= headers.Length || !HandleMatches(h) { return InvalidChunkHandle; }
      if headers[h.chunk].state != Loaned { return InvalidState; }
      headers[h.chunk] := headers[h.chunk].(payloadSize := 0, state := Free);
      assert headers[..] == old(headers[..])[h.chunk := headers[h.chunk]];
      PushFree(h.chunk);
      e := Ok;
    }

    method PushFree(i: nat)
      requires Shaped(State()) && i < headers.Length
      modifies this`free, this`reclaims
      ensures var k := headers[i].classIndex;
              free == old(free)[k := old(free)[k] + [i]] && reclaims == old(reclaims) + 1
    {
      var k := headers[i].classIndex;
      free := free[k := free[k] + [i]];
      reclaims := reclaims + 1;
    }

    /** Publisher::Impl::releaseReference. */
    method ReleaseReference(h: ChunkHandle) returns (e: ErrorCode)
      requires Shaped(State())
      modifies this`free, this`reclaims, headers
      ensures Shaped(State())
      ensures (State(), e) == PoolModel.ReleaseReference(old(State()), h)
    {
      var r := Release(h);
      if r.error != Ok { return r.error; }
      if r.becameReleased { e := Reclaim(h); } else { e := Ok; }
    }

    /** The application writes the chunk it has on loan. */
    method WriteLoan(h: ChunkHandle, data: seq<Byte>)
      requires Shaped(State())
      modifies headers
      ensures Shaped(State())
      ensures State() == PoolModel.WriteLoan(old(State()), h, data)
    {
      if h.chunk < headers.Length && HandleMatches(h) && headers[h.chunk].state == Loaned
         && |data| <= headers[h.chunk].capacity
      {
        headers[h.chunk] := headers[h.chunk].(payload := Overwrite(headers[h.chunk].payload, data));
        assert headers[..] == old(headers[..])[h.chunk := headers[h.chunk]];
      }
    }
  }

  /** A header as create leaves it. */
  function NewChunk(classes: seq<nat>, classIndex: nat): Chunk
    requires classIndex < |classes|
  {
    Chunk(0, Free, 0, classes[classIndex], classIndex, 0, 0, 0, seq(classes[classIndex], k => 0))
  }

  /** Every chunk from `index` on is listed once, under its class, the smallest last. */
  ghost predicate Listed(free: seq<seq<nat>>, directory: seq<nat>, index: nat) {
    && (forall i :: 0 <= i < |directory| ==> directory[i] < |free|)
    && (forall k, j :: 0 <= k < |free| && 0 <= j < |free[k]| ==>
                         index <= free[k][j] < |directory| && directory[free[k][j]] == k)
    && (forall i :: index <= i < |directory| ==> i in free[directory[i]])
    && (forall k, a, b :: 0 <= k < |free| && 0 <= a < b < |free[k]| ==> free[k][a] > free[k][b])
  }

  lemma ListedNext(free: seq<seq<nat>>, directory: seq<nat>, index: nat)
    requires index < |directory| && Listed(free, directory, index + 1)
    ensures var k := directory[index];
            Listed(free[k := free[k] + [index]], directory, index)
  {
    var k := directory[index];
    var now := free[k := free[k] + [index]];
    assert now[k][|free[k]|] == index;
    forall i | index < i < |directory| ensures i in now[directory[i]] {
      assert i in free[directory[i]];
    }
  }

  /** The free lists of a new pool, filled from the last chunk to the first. */
  method FreeLists(directory: seq<nat>, classes: nat) returns (free: seq<seq<nat>>)
    requires forall i :: 0 <= i < |directory| ==> directory[i] < classes
    ensures |free| == classes && Listed(free, directory, 0)
  {
    free := seq(classes, k => []);
    var index: nat := |directory|;
    while index > 0
      invariant index <= |directory| && |free| == classes && Listed(free, directory, index)
    {
      index := index - 1;
      ListedNext(free, directory, index);
      free := free[directory[index] := free[directory[index]] + [index]];
    }
  }

  lemma NewIsValid(p: Pool, directory: seq<nat>)
    requires p.id != 0 && |p.offsets| == |directory| == |p.chunks| && |p.free| == |p.classes|
    requires forall k :: 0 <= k < |p.classes| ==> p.classes[k] < U32_LIMIT
    requires forall i :: 0 <= i < |directory| ==> directory[i] < |p.classes|
    requires forall i :: 0 <= i < |directory| ==> p.chunks[i] == NewChunk(p.classes, directory[i])
    requires Listed(p.free, directory, 0) && p.allocations == p.reclaims == 0
    ensures ValidPool(p)
  {
    NoneBusy(p.chunks);
  }

  lemma {:induction false} NoneBusy(chunks: seq<Chunk>)
    requires forall i :: 0 <= i < |chunks| ==> chunks[i].state == Free
    ensures Busy(chunks) == 0
  {
    if chunks != [] { NoneBusy(chunks[..|chunks| - 1]); }
  }
}
