/**
How a pool segment is laid out: header, size classes, chunk directory, then the chunks, each a
64-byte header followed by its payload, all aligned to 64 bytes and computed with checked
64-bit arithmetic.
*/
module SegmentLayout {
  import opened Basics

  const HEADER_SIZE: nat := 80
  const CLASS_SIZE: nat := 24
  const ENTRY_SIZE: nat := 32
  const ALIGNMENT: nat := 64
  const CHUNK_HEADER_SIZE: nat := 64

  datatype ClassConfig = ClassConfig(size: nat, count: nat)

  datatype SizeClass = SizeClass(capacity: nat, first: nat, count: nat)

  datatype Entry = Entry(header: nat, payload: nat, capacity: nat, classIndex: nat)

  datatype Layout = Layout(
    classes: seq<SizeClass>, directory: seq<Entry>, directoryOffset: nat, storage: nat, segmentSize: nat)

  /** What makeLayout throws. */
  datatype LayoutError = InvalidConfiguration | Overflow

  datatype LayoutResult = Success(layout: Layout) | Failure(error: LayoutError)

  // ---- checked arithmetic on size_t ----

  function CheckedAdd(a: nat, b: nat): (r: Option<nat>)
    requires a < U64_LIMIT && b < U64_LIMIT
    ensures r == if a + b < U64_LIMIT then Some(a + b) else None
  {
    if a > U64_LIMIT - 1 - b then None else Some(a + b)
  }

  function CheckedMultiply(a: nat, b: nat): (r: Option<nat>)
    requires a < U64_LIMIT && b < U64_LIMIT
    ensures r == if a * b < U64_LIMIT then Some(a * b) else None
  {
    MultiplyFits(a, b);
    if a != 0 && b > (U64_LIMIT - 1) / a then None else Some(a * b)
  }

  lemma MultiplyFits(a: nat, b: nat)
    ensures a * b < U64_LIMIT <==> a == 0 || b <= (U64_LIMIT - 1) / a
  {
    if a != 0 {
      var q := (U64_LIMIT - 1) / a;
      assert a * q <= U64_LIMIT - 1 < a * q + a;
      if b <= q { assert a * b <= a * q; } else { assert a * b >= a * (q + 1); }
    }
  }

  /** The least multiple of 64 that is not below `x`. */
  function Align(x: nat): (r: nat)
    ensures x <= r < x + ALIGNMENT && r % ALIGNMENT == 0
  {
    if x % ALIGNMENT == 0 then x else x + (ALIGNMENT - x % ALIGNMENT)
  }

  function CheckedAlign(x: nat): (r: Option<nat>)
    requires x < U64_LIMIT
    ensures r == if Align(x) < U64_LIMIT then Some(Align(x)) else None
  {
    var remainder := x % ALIGNMENT;
    if remainder == 0 then Some(x) else CheckedAdd(x, ALIGNMENT - remainder)
  }

  // ---- what the layout must be ----

  function TotalChunks(config: seq<ClassConfig>): nat {
    if config == [] then 0 else TotalChunks(config[..|config| - 1]) + config[|config| - 1].count
  }

  ghost predicate ValidClass(config: seq<ClassConfig>, k: nat)
    requires k < |config|
  {
    && 0 < config[k].size < U32_LIMIT && 0 < config[k].count
    && (k > 0 ==> config[k - 1].size < config[k].size)
    && TotalChunks(config[..k + 1]) < U32_LIMIT
  }

  ghost predicate ValidConfig(config: seq<ClassConfig>) {
    0 < |config| < U32_LIMIT && forall k :: 0 <= k < |config| ==> ValidClass(config, k)
  }

  function Classes(config: seq<ClassConfig>): (r: seq<SizeClass>)
    ensures |r| == |config|
  {
    if config == [] then []
    else
      var n := |config| - 1;
      Classes(config[..n]) + [SizeClass(config[n].size, TotalChunks(config[..n]), config[n].count)]
  }

  /** One chunk to be placed. */
  datatype Place = Place(capacity: nat, classIndex: nat)

  function Copies(p: Place, n: nat): (r: seq<Place>)
    ensures |r| == n
  {
    seq(n, _ => p)
  }

  /** The chunks in directory order: class by class. */
  function Places(config: seq<ClassConfig>): (r: seq<Place>)
    ensures |r| == TotalChunks(config)
  {
    if config == [] then []
    else
      var n := |config| - 1;
      Places(config[..n]) + Copies(Place(config[n].size, n), config[n].count)
  }

  /** Where the chunk after `places` begins. */
  function EndOf(storage: nat, places: seq<Place>): (r: nat)
    ensures storage <= r
  {
    if places == [] then storage
    else
      var n := |places| - 1;
      EndOf(storage, places[..n]) + CHUNK_HEADER_SIZE + Align(places[n].capacity)
  }

  function EntryAt(at: nat, p: Place): Entry {
    Entry(at, at + CHUNK_HEADER_SIZE, p.capacity, p.classIndex)
  }

  function Directory(storage: nat, places: seq<Place>): (r: seq<Entry>)
    ensures |r| == |places|
  {
    if places == [] then []
    else
      var n := |places| - 1;
      Directory(storage, places[..n]) + [EntryAt(EndOf(storage, places[..n]), places[n])]
  }

  function DirectoryOffset(config: seq<ClassConfig>): nat {
    HEADER_SIZE + |config| * CLASS_SIZE
  }

  function Storage(config: seq<ClassConfig>): nat {
    Align(DirectoryOffset(config) + TotalChunks(config) * ENTRY_SIZE)
  }

  function LayoutOf(config: seq<ClassConfig>): Layout {
    Layout(Classes(config), Directory(Storage(config), Places(config)), DirectoryOffset(config), Storage(config),
           EndOf(Storage(config), Places(config)))
  }

  // ---- makeLayout ----

  method CheckClasses(config: seq<ClassConfig>) returns (r: Option<seq<SizeClass>>, total: nat)
    requires 0 < |config| < U32_LIMIT
    ensures r.Some? <==> ValidConfig(config)
    ensures r.Some? ==> r.value == Classes(config) && total == TotalChunks(config) < U32_LIMIT
  {
    var classes := [];
    total := 0;
    var previous := 0;
    var k := 0;
    while k < |config|
      invariant 0 <= k <= |config|
      invariant forall j :: 0 <= j < k ==> ValidClass(config, j)
      invariant classes == Classes(config[..k]) && total == TotalChunks(config[..k]) < U32_LIMIT
      invariant previous == if k == 0 then 0 else config[k - 1].size
    {
      var item := config[k];
      assert config[..k + 1][..k] == config[..k];
      if item.size == 0 || item.size >= U32_LIMIT || item.count == 0 || item.size <= previous
         || total + item.count >= U32_LIMIT
      {
        assert !ValidClass(config, k);
        return None, 0;
      }
      classes := classes + [SizeClass(item.size, total, item.count)];
      previous := item.size;
      total := total + item.count;
      k := k + 1;
    }
    assert config[..k] == config;
    r := Some(classes);
  }

  /** One chunk: header, payload and the next chunk's start, or an overflow. */
  method PlaceChunk(next: nat, capacity: nat) returns (r: Option<(nat, nat)>)
    requires next < U64_LIMIT && next % ALIGNMENT == 0 && capacity < U32_LIMIT
    ensures r == if next + CHUNK_HEADER_SIZE + Align(capacity) < U64_LIMIT
                 then Some((next, next + CHUNK_HEADER_SIZE + Align(capacity))) else None
  {
    AlignSum(next + CHUNK_HEADER_SIZE, capacity);
    var header := CheckedAlign(next);
    if header.None? { return None; }
    var payload := CheckedAdd(header.value, CHUNK_HEADER_SIZE);
    if payload.None? { return None; }
    var end := CheckedAdd(payload.value, capacity);
    if end.None? { return None; }
    var after := CheckedAlign(end.value);
    if after.None? { return None; }
    r := Some((header.value, after.value));
  }

  lemma AlignSum(a: nat, b: nat)
    requires a % ALIGNMENT == 0
    ensures Align(a + b) == a + Align(b)
    ensures (a + Align(b)) % ALIGNMENT == 0
  {
  }

  /** The chunks of one class, after those of `before`. */
  method PlaceClass(storage: nat, ghost before: seq<Place>, start: nat, size: nat, count: nat, classIndex: nat)
    returns (entries: seq<Entry>, next: Option<nat>)
    requires storage % ALIGNMENT == 0 && start == EndOf(storage, before) < U64_LIMIT && size < U32_LIMIT
    ensures next.Some? ==>
              var all := before + Copies(Place(size, classIndex), count);
              && next.value == EndOf(storage, all) < U64_LIMIT
              && Directory(storage, before) + entries == Directory(storage, all)
    ensures next.None? ==>
              exists n :: 0 <= n <= count && EndOf(storage, before + Copies(Place(size, classIndex), n)) >= U64_LIMIT
  {
    entries := [];
    var at := start;
    ghost var place := Place(size, classIndex);
    ghost var base := Directory(storage, before);
    assert before + Copies(place, 0) == before;
    var n := 0;
    while n < count
      invariant 0 <= n <= count && at == EndOf(storage, before + Copies(place, n)) < U64_LIMIT
      invariant base + entries == Directory(storage, before + Copies(place, n))
    {
      NextPlace(storage, before, place, n, entries);
      var placed := PlaceChunk(at, size);
      if placed.None? {
        assert EndOf(storage, before + Copies(place, n + 1)) >= U64_LIMIT;
        return [], None;
      }
      var entry := Entry(placed.value.0, placed.value.0 + CHUNK_HEADER_SIZE, size, classIndex);
      entries := entries + [entry];
      at := placed.value.1;
      n := n + 1;
    }
    next := Some(at);
  }

  /** The chunks of all classes. */
  method PlaceAll(config: seq<ClassConfig>, storage: nat) returns (directory: seq<Entry>, next: Option<nat>)
    requires ValidConfig(config) && storage < U64_LIMIT && storage % ALIGNMENT == 0
    ensures next.Some? <==> EndOf(storage, Places(config)) < U64_LIMIT
    ensures next.Some? ==>
              next.value == EndOf(storage, Places(config)) && directory == Directory(storage, Places(config))
  {
    directory := [];
    var at := storage;
    var k := 0;
    while k < |config|
      invariant 0 <= k <= |config| && at < U64_LIMIT
      invariant at == EndOf(storage, Places(config[..k])) && directory == Directory(storage, Places(config[..k]))
    {
      assert ValidClass(config, k);
      assert config[..k + 1][..k] == config[..k];
      var entries, after := PlaceClass(storage, Places(config[..k]), at, config[k].size, config[k].count, k);
      if after.None? {
        ghost var n :| 0 <= n <= config[k].count
                       && EndOf(storage, Places(config[..k]) + Copies(Place(config[k].size, k), n)) >= U64_LIMIT;
        Overflows(storage, config, k, n);
        return [], None;
      }
      directory := directory + entries;
      at := after.value;
      k := k + 1;
    }
    assert config[..k] == config;
    next := Some(at);
  }

  lemma {:induction false} EndAligned(storage: nat, places: seq<Place>)
    requires storage % ALIGNMENT == 0
    ensures EndOf(storage, places) % ALIGNMENT == 0
  {
    if places != [] {
      var n := |places| - 1;
      EndAligned(storage, places[..n]);
      AlignSum(EndOf(storage, places[..n]) + CHUNK_HEADER_SIZE, places[n].capacity);
    }
  }

  lemma NextPlace(storage: nat, before: seq<Place>, place: Place, n: nat, entries: seq<Entry>)
    requires storage % ALIGNMENT == 0
    requires Directory(storage, before) + entries == Directory(storage, before + Copies(place, n))
    ensures var at := EndOf(storage, before + Copies(place, n));
            && at % ALIGNMENT == 0
            && EndOf(storage, before + Copies(place, n + 1)) == at + CHUNK_HEADER_SIZE + Align(place.capacity)
            && Directory(storage, before + Copies(place, n + 1))
               == Directory(storage, before) + (entries + [EntryAt(at, place)])
  {
    OneMore(storage, before, place, n);
    EndAligned(storage, before + Copies(place, n));
    JoinOne(Directory(storage, before), entries, EntryAt(EndOf(storage, before + Copies(place, n)), place));
  }

  lemma OneMore(storage: nat, before: seq<Place>, place: Place, count: nat)
    ensures EndOf(storage, before + Copies(place, count + 1))
         == EndOf(storage, before + Copies(place, count)) + CHUNK_HEADER_SIZE + Align(place.capacity)
    ensures Directory(storage, before + Copies(place, count + 1))
         == Directory(storage, before + Copies(place, count))
            + [EntryAt(EndOf(storage, before + Copies(place, count)), place)]
  {
    var all := before + Copies(place, count + 1);
    assert all[..|all| - 1] == before + Copies(place, count);
  }

  lemma {:induction false} EndGrows(storage: nat, places: seq<Place>, n: nat)
    requires n <= |places|
    ensures EndOf(storage, places[..n]) <= EndOf(storage, places)
  {
    if n == |places| {
      assert places[..n] == places;
    } else {
      var front := places[..|places| - 1];
      EndGrows(storage, front, n);
      assert front[..n] == places[..n];
    }
  }

  lemma {:induction false} PlacesPrefix(config: seq<ClassConfig>, k: nat)
    requires k <= |config|
    ensures Places(config[..k]) <= Places(config)
  {
    if k == |config| {
      assert config[..k] == config;
    } else {
      var front := config[..|config| - 1];
      PlacesPrefix(front, k);
      assert front[..k] == config[..k];
    }
  }

  /** A chunk that does not fit means that the whole layout does not. */
  lemma ClassGrows(storage: nat, config: seq<ClassConfig>, k: nat, count: nat)
    requires k < |config| && count <= config[k].count
    ensures EndOf(storage, Places(config[..k]) + Copies(Place(config[k].size, k), count))
         <= EndOf(storage, Places(config[..k + 1]))
  {
    var some := Places(config[..k]) + Copies(Place(config[k].size, k), count);
    var all := Places(config[..k + 1]);
    assert config[..k + 1][..k] == config[..k];
    assert all[..|some|] == some;
    EndGrows(storage, all, |some|);
  }

  lemma Overflows(storage: nat, config: seq<ClassConfig>, k: nat, count: nat)
    requires k < |config| && count <= config[k].count
    requires EndOf(storage, Places(config[..k]) + Copies(Place(config[k].size, k), count)) >= U64_LIMIT
    ensures EndOf(storage, Places(config)) >= U64_LIMIT
  {
    ClassGrows(storage, config, k, count);
    var all := Places(config[..k + 1]);
    PlacesPrefix(config, k + 1);
    assert Places(config)[..|all|] == all;
    EndGrows(storage, Places(config), |all|);
  }

  method MakeLayout(config: seq<ClassConfig>) returns (r: LayoutResult)
    ensures r.Success? <==> ValidConfig(config) && LayoutOf(config).segmentSize < U64_LIMIT
    ensures r.Success? ==> r.layout == LayoutOf(config)
    ensures r == Failure(InvalidConfiguration) <==> !ValidConfig(config)
  {
    if config == [] || |config| >= U32_LIMIT { return Failure(InvalidConfiguration); }
    var classes, total := CheckClasses(config);
    if classes.None? { return Failure(InvalidConfiguration); }
    var offsets := Metadata(|config|, total);
    if offsets.None? { return Failure(Overflow); }
    var (directoryOffset, storage) := offsets.value;
    var directory, next := PlaceAll(config, storage);
    if next.None? { return Failure(Overflow); }
    r := Success(Layout(classes.value, directory, directoryOffset, storage, next.value));
  }

  /** Where the directory and the chunks begin; with 32-bit counts this cannot overflow. */
  method Metadata(classCount: nat, chunkCount: nat) returns (r: Option<(nat, nat)>)
    requires classCount < U32_LIMIT && chunkCount < U32_LIMIT
    ensures var at := HEADER_SIZE + classCount * CLASS_SIZE;
            r == Some((at, Align(at + chunkCount * ENTRY_SIZE))) && r.value.1 < U64_LIMIT
  {
    var classBytes := CheckedMultiply(classCount, CLASS_SIZE);
    var directoryBytes := CheckedMultiply(chunkCount, ENTRY_SIZE);
    if classBytes.None? || directoryBytes.None? { return None; }
    var directoryOffset := CheckedAdd(HEADER_SIZE, classBytes.value);
    if directoryOffset.None? { return None; }
    var end := CheckedAdd(directoryOffset.value, directoryBytes.value);
    if end.None? { return None; }
    var storage := CheckedAlign(end.value);
    if storage.None? { return None; }
    r := Some((directoryOffset.value, storage.value));
  }

  // ---- what a layout guarantees ----

  /** Chunk `j` occupies the bytes from its header to the end of its payload. */
  function ChunkEnd(e: Entry): nat {
    e.payload + e.capacity
  }

  /** Aligned, in order, disjoint, and between `storage` and `limit`. */
  ghost predicate WellPlaced(directory: seq<Entry>, storage: nat, limit: nat) {
    && (forall j :: 0 <= j < |directory| ==>
                      && directory[j].header % ALIGNMENT == 0
                      && directory[j].payload == directory[j].header + CHUNK_HEADER_SIZE
                      && storage <= directory[j].header && ChunkEnd(directory[j]) <= limit)
    && (forall i, j :: 0 <= i < j < |directory| ==> ChunkEnd(directory[i]) <= directory[j].header)
  }

  lemma {:induction false} DirectoryPlaced(storage: nat, places: seq<Place>)
    requires storage % ALIGNMENT == 0
    ensures WellPlaced(Directory(storage, places), storage, EndOf(storage, places))
  {
    if places != [] {
      var n := |places| - 1;
      DirectoryPlaced(storage, places[..n]);
      EndAligned(storage, places[..n]);
    }
  }

  lemma {:induction false} DirectoryAt(storage: nat, places: seq<Place>, j: nat)
    requires j < |places|
    ensures Directory(storage, places)[j].capacity == places[j].capacity
    ensures Directory(storage, places)[j].classIndex == places[j].classIndex
  {
    var n := |places| - 1;
    if j < n { DirectoryAt(storage, places[..n], j); }
  }

  lemma {:induction false} PlacesAt(config: seq<ClassConfig>, j: nat)
    requires j < TotalChunks(config)
    ensures var p := Places(config)[j];
            p.classIndex < |config| && p.capacity == config[p.classIndex].size
  {
    var n := |config| - 1;
    if j < TotalChunks(config[..n]) { PlacesAt(config[..n], j); }
  }

  /**
  Every accepted configuration gives chunks that are 64-aligned, disjoint, after all the metadata
  and inside the segment, each with the capacity of its class.
  */
  lemma LayoutSound(config: seq<ClassConfig>)
    ensures var l := LayoutOf(config);
            && WellPlaced(l.directory, l.storage, l.segmentSize)
            && |l.directory| == TotalChunks(config)
            && l.directoryOffset == HEADER_SIZE + |l.classes| * CLASS_SIZE
            && l.directoryOffset + |l.directory| * ENTRY_SIZE <= l.storage <= l.segmentSize
            && l.storage % ALIGNMENT == 0 && l.segmentSize % ALIGNMENT == 0
            && forall j :: 0 <= j < |l.directory| ==>
                             && l.directory[j].classIndex < |config|
                             && l.directory[j].capacity == config[l.directory[j].classIndex].size
  {
    var l := LayoutOf(config);
    var places := Places(config);
    DirectoryPlaced(Storage(config), places);
    EndAligned(Storage(config), places);
    forall j | 0 <= j < |l.directory|
      ensures l.directory[j].classIndex < |config|
      ensures l.directory[j].capacity == config[l.directory[j].classIndex].size
    {
      DirectoryAt(Storage(config), places, j);
      PlacesAt(config, j);
    }
  }
}
