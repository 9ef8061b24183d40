/** Chunked model upload: reassembly of a bundle from chunks arriving in any order. */
module Upload {
  import opened Basics

  type Bytes = seq<int>

  datatype Buffer = Buffer(total: int, crc: int, chunks: map<int, Bytes>)

  const EMPTY := Buffer(0, 0, map[])

  datatype Outcome = Progress | Complete(blob: Bytes) | Rejected(fault: FaultCode)

  datatype Chunk = Chunk(index: int, total: int, data: Bytes, crc: int)

  const WORD: int := 0x1_0000_0000

  /** Chunks 0 .. n - 1 in a row. */
  function Joined(chunks: map<int, Bytes>, n: nat): Bytes
    requires forall i :: 0 <= i < n ==> i in chunks
  {
    if n == 0 then [] else Joined(chunks, n - 1) + chunks[n - 1]
  }

  predicate Headed(b: Buffer, c: Chunk) {
    && c.total > 0 && 0 <= c.index < c.total
    && (b.total == 0 || (b.total == c.total && b.crc == c.crc))
  }

  /** Every key is an index below the total. */
  predicate Bounded(b: Buffer) {
    && 0 <= b.total
    && (b.total == 0 ==> b.chunks == map[])
    && (forall i :: i in b.chunks ==> 0 <= i < b.total)
  }

  function Added(b: Buffer, c: Chunk): Buffer {
    Buffer(if b.total == 0 then c.total else b.total, if b.total == 0 then c.crc else b.crc, b.chunks[c.index := c.data])
  }

  function AddChunk(b: Buffer, c: Chunk, crc: Bytes -> int): (Buffer, Outcome)
    requires Bounded(b)
  {
    if !Headed(b, c) then (b, Rejected(CommandInvalid))
    else
      var added := Added(b, c);
      if |added.chunks| < added.total then (added, Progress)
      else
        FullMeansAll(added);
        var blob := Joined(added.chunks, added.total);
        (EMPTY, if crc(blob) % WORD != added.crc % WORD then Rejected(ModelCorrupt) else Complete(blob))
  }

  // --- A full count means every index -----------------------------------------------------

  function Below(n: nat): (s: set<int>)
    ensures |s| == n && forall i :: i in s <==> 0 <= i < n
  {
    if n == 0 then {} else Below(n - 1) + {n - 1}
  }

  /** As many keys as indices: no index is missing. */
  lemma FullMeansAll(b: Buffer)
    requires Bounded(b)
    ensures |b.chunks| <= b.total
    ensures |b.chunks| >= b.total ==> forall i :: 0 <= i < b.total ==> i in b.chunks
  {
    CountBelow(b.chunks.Keys, b.total);
  }

  lemma {:induction false} CountBelow(keys: set<int>, n: nat)
    requires keys <= Below(n)
    ensures |keys| <= n
    ensures |keys| >= n ==> keys == Below(n)
  {
    if n == 0 {
      assert keys == {};
    } else {
      var rest := keys - {n - 1};
      CountBelow(rest, n - 1);
      assert keys == if n - 1 in keys then rest + {n - 1} else rest;
    }
  }

  lemma AddKeepsBounds(b: Buffer, c: Chunk, crc: Bytes -> int)
    requires Bounded(b)
    ensures Bounded(AddChunk(b, c, crc).0)
  {
  }

  // --- A bundle in chunks -----------------------------------------------------------------

  /** The bundle a list of chunk payloads makes. */
  function Bundle(parts: seq<Bytes>): Bytes {
    if parts == [] then [] else Bundle(parts[..|parts| - 1]) + Last(parts)
  }

  /** A chunk of this bundle under this header. */
  predicate Belongs(c: Chunk, parts: seq<Bytes>, crc: int) {
    c.total == |parts| && c.crc == crc && 0 <= c.index < |parts| && c.data == parts[c.index]
  }

  /** The buffer has the named chunks of the bundle and nothing else. */
  predicate Holds(b: Buffer, seen: set<int>, parts: seq<Bytes>, crc: int) {
    if seen == {} then b == EMPTY
    else
      && b.total == |parts| && b.crc == crc && b.chunks.Keys == seen
      && forall i :: i in seen ==> 0 <= i < |parts| && b.chunks[i] == parts[i]
  }

  lemma {:induction false} JoinedIsBundle(chunks: map<int, Bytes>, parts: seq<Bytes>)
    requires forall i :: 0 <= i < |parts| ==> i in chunks && chunks[i] == parts[i]
    ensures Joined(chunks, |parts|) == Bundle(parts)
  {
    if parts != [] {
      JoinedIsBundle(chunks, parts[..|parts| - 1]);
    }
  }

  /** The declared checksum of the bundle, up to the bits that are compared. */
  predicate Declares(header: int, parts: seq<Bytes>, crc: Bytes -> int) {
    header % WORD == crc(Bundle(parts)) % WORD
  }

  lemma StoredChunk(b: Buffer, seen: set<int>, c: Chunk, parts: seq<Bytes>, header: int)
    requires Bounded(b) && Holds(b, seen, parts, header) && Belongs(c, parts, header)
    ensures var added := Added(b, c);
      && Headed(b, c) && Bounded(added) && Holds(added, seen + {c.index}, parts, header)
      && (|added.chunks| >= added.total <==> seen + {c.index} == Below(|parts|))
  {
    var added := Added(b, c);
    assert added.chunks.Keys == seen + {c.index};
    CountOfKeys(added, |parts|);
  }

  lemma CountOfKeys(b: Buffer, n: nat)
    requires Bounded(b) && b.total == n
    ensures |b.chunks| >= n <==> b.chunks.Keys == Below(n)
  {
    assert |b.chunks| == |b.chunks.Keys|;
    CountBelow(b.chunks.Keys, n);
  }

  /** A chunk of the bundle is stored; the one that covers the last index resets the buffer and completes
      with the original bytes if they have the declared checksum, and is refused as corrupt if not. */
  lemma ChunkFits(b: Buffer, seen: set<int>, c: Chunk, parts: seq<Bytes>, header: int, crc: Bytes -> int)
    requires Bounded(b) && Holds(b, seen, parts, header) && Belongs(c, parts, header)
    ensures var (after, outcome) := AddChunk(b, c, crc);
      if seen + {c.index} == Below(|parts|)
      then after == EMPTY
        && outcome == if Declares(header, parts, crc) then Complete(Bundle(parts)) else Rejected(ModelCorrupt)
      else Holds(after, seen + {c.index}, parts, header) && outcome == Progress
  {
    var added := Added(b, c);
    StoredChunk(b, seen, c, parts, header);
    if seen + {c.index} == Below(|parts|) {
      FullMeansAll(added);
      JoinedIsBundle(added.chunks, parts);
    }
  }

  // --- Deliveries -------------------------------------------------------------------------

  predicate BadIndex(c: Chunk) {
    c.total <= 0 || c.index < 0 || c.index >= c.total
  }

  predicate OtherHeader(c: Chunk, parts: seq<Bytes>, header: int) {
    c.total != |parts| || c.crc != header
  }

  /** The indices of the bundle delivered so far. */
  function Seen(deliveries: seq<Chunk>, parts: seq<Bytes>, header: int): set<int> {
    if deliveries == [] then {}
    else
      var c := Last(deliveries);
      Seen(deliveries[..|deliveries| - 1], parts, header) + (if Belongs(c, parts, header) then {c.index} else {})
  }

  /** Chunks of the bundle in any order and any number of times, with chunks of bad index anywhere between
      and, once the upload has begun, chunks of other uploads. */
  predicate Traffic(deliveries: seq<Chunk>, parts: seq<Bytes>, header: int) {
    deliveries == [] ||
    var front, c := deliveries[..|deliveries| - 1], Last(deliveries);
    && Traffic(front, parts, header)
    && (Belongs(c, parts, header) || BadIndex(c) || (Seen(front, parts, header) != {} && OtherHeader(c, parts, header)))
  }

  function After(deliveries: seq<Chunk>, crc: Bytes -> int): (b: Buffer)
    ensures Bounded(b)
  {
    if deliveries == [] then EMPTY
    else
      AddKeepsBounds(After(deliveries[..|deliveries| - 1], crc), Last(deliveries), crc);
      AddChunk(After(deliveries[..|deliveries| - 1], crc), Last(deliveries), crc).0
  }

  /** Anything that does not belong is rejected and leaves the buffer as it was. */
  lemma StrangerRejected(b: Buffer, seen: set<int>, c: Chunk, parts: seq<Bytes>, header: int, crc: Bytes -> int)
    requires Bounded(b) && Holds(b, seen, parts, header) && parts != []
    requires BadIndex(c) || (seen != {} && OtherHeader(c, parts, header))
    ensures AddChunk(b, c, crc) == (b, Rejected(CommandInvalid))
  {
  }

  /** Until every index has been covered the buffer holds exactly the chunks delivered; the delivery that
      covers the last one, and no other, completes, with the bundle's original bytes. */
  lemma {:induction false} Reassembles(deliveries: seq<Chunk>, parts: seq<Bytes>, header: int, crc: Bytes -> int)
    requires parts != [] && Declares(header, parts, crc) && Traffic(deliveries, parts, header)
    requires deliveries != [] ==> Seen(deliveries[..|deliveries| - 1], parts, header) != Below(|parts|)
    ensures Seen(deliveries, parts, header) == Below(|parts|) ==>
      && deliveries != []
      && AddChunk(After(deliveries[..|deliveries| - 1], crc), Last(deliveries), crc) == (EMPTY, Complete(Bundle(parts)))
    ensures Seen(deliveries, parts, header) != Below(|parts|) ==>
      && Holds(After(deliveries, crc), Seen(deliveries, parts, header), parts, header)
      && (deliveries != [] ==> !AddChunk(After(deliveries[..|deliveries| - 1], crc), Last(deliveries), crc).1.Complete?)
  {
    if deliveries == [] {
      assert 0 in Below(|parts|);
    } else {
      var front, c := deliveries[..|deliveries| - 1], Last(deliveries);
      if front != [] {
        SeenGrows(front, parts, header);
      }
      Reassembles(front, parts, header, crc);
      if Belongs(c, parts, header) {
        ChunkFits(After(front, crc), Seen(front, parts, header), c, parts, header, crc);
      } else {
        StrangerRejected(After(front, crc), Seen(front, parts, header), c, parts, header, crc);
        assert Seen(deliveries, parts, header) == Seen(front, parts, header);
      }
    }
  }

  /** Once covered, an index stays covered. */
  lemma SeenGrows(deliveries: seq<Chunk>, parts: seq<Bytes>, header: int)
    requires deliveries != [] && Seen(deliveries, parts, header) != Below(|parts|)
    ensures Seen(deliveries[..|deliveries| - 1], parts, header) != Below(|parts|)
  {
  }

  // --- The buffer -------------------------------------------------------------------------

  class ModelUploadState {
    var totalChunks: int
    var expectedCrc: int
    var chunks: map<int, Bytes>

    constructor ()
      ensures State() == EMPTY
    {
      totalChunks, expectedCrc, chunks := 0, 0, map[];
    }

    ghost function State(): Buffer
      reads this
    {
      Buffer(totalChunks, expectedCrc, chunks)
    }

    method Add(index: int, total: int, data: Bytes, expected: int, crc: Bytes -> int) returns (outcome: Outcome)
      requires Bounded(State())
      modifies this
      ensures Bounded(State())
      ensures (State(), outcome) == AddChunk(old(State()), Chunk(index, total, data, expected), crc)
    {
      if total <= 0 || index < 0 || index >= total {
        return Rejected(CommandInvalid);
      }
      if totalChunks == 0 {
        totalChunks, expectedCrc := total, expected;
      } else if totalChunks != total || expectedCrc != expected {
        return Rejected(CommandInvalid);
      }
      chunks := chunks[index := data];
      if |chunks| < totalChunks {
        return Progress;
      }
      FullMeansAll(State());
      var blob := Assemble();
      var declared := expectedCrc;
      totalChunks, expectedCrc, chunks := 0, 0, map[];
      return if crc(blob) % WORD != declared % WORD then Rejected(ModelCorrupt) else Complete(blob);
    }

    method Assemble() returns (blob: Bytes)
      requires 0 <= totalChunks && forall i :: 0 <= i < totalChunks ==> i in chunks
      ensures blob == Joined(chunks, totalChunks)
    {
      blob := [];
      for i := 0 to totalChunks
        invariant blob == Joined(chunks, i)
      {
        blob := blob + chunks[i];
      }
    }
  }
}
