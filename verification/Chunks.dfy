/** Chunk records and the planner that cuts an object into them (internal/chunk/chunk.go). */
module Chunks {
  import opened Counting

  const MAX_INT64 := 0x7FFF_FFFF_FFFF_FFFF

  datatype State = Pending | Active | Completed | Written | RetryWait | Failed

  /** One byte range of the object. Times are readings of an abstract clock, in nanoseconds. */
  datatype Chunk = Chunk(
    index: nat,
    start: nat,
    length: nat,
    state: State,
    attempts: nat,
    workerSlot: int,
    startTime: int,
    retryAfter: int,
    hedged: bool)

  /** What the planner promises: a gapless run of non-empty ranges that starts at 0 and ends at `size`. */
  ghost predicate Layout(chunks: seq<Chunk>, size: nat) {
    && (forall i :: 0 <= i < |chunks| ==> chunks[i].index == i && 0 < chunks[i].length)
    && (forall i, j :: 0 <= i && j == i + 1 < |chunks| ==> chunks[j].start == chunks[i].start + chunks[i].length)
    && (|chunks| == 0 ==> size == 0)
    && (|chunks| > 0 ==>
          && chunks[0].start == 0
          && chunks[|chunks| - 1].start + chunks[|chunks| - 1].length == size)
  }

  /** The byte offset at which chunk i starts; for i == |chunks| the end of the object. */
  function Boundary(chunks: seq<Chunk>, size: nat, i: nat): nat
    requires i <= |chunks|
  {
    if i < |chunks| then chunks[i].start else size
  }

  function ChunkCount(objectSize: int, splitSize: int): (n: nat)
    requires splitSize >= 1
    ensures objectSize <= 0 <==> n == 0
    ensures 0 < objectSize ==> (n - 1) * splitSize < objectSize <= n * splitSize
  {
    if objectSize <= 0 then 0
    else
      CeilDiv(objectSize, splitSize);
      (objectSize + splitSize - 1) / splitSize
  }

  lemma CeilDiv(a: int, d: int)
    requires 0 < a && 1 <= d
    ensures var n := (a + d - 1) / d; 1 <= n && (n - 1) * d < a <= n * d
  {
    var n := (a + d - 1) / d;
    assert a + d - 1 == n * d + (a + d - 1) % d;
    if n <= 0 {
      MulMono(n, 0, d);
    }
  }

  lemma MulMono(x: int, y: int, d: int)
    requires x <= y && 0 <= d
    ensures x * d <= y * d
  {
    assert (y - x) * d >= 0;
  }

  function Planned(i: nat, objectSize: nat, splitSize: nat): Chunk
    requires i * splitSize < objectSize
  {
    var start := i * splitSize;
    Chunk(i, start, if start + splitSize > objectSize then objectSize - start else splitSize,
          Pending, 0, -1, 0, 0, false)
  }

  lemma IndexInRange(i: nat, objectSize: int, splitSize: int)
    requires splitSize >= 1 && i < ChunkCount(objectSize, splitSize)
    ensures i * splitSize < objectSize
  {
    MulMono(i, ChunkCount(objectSize, splitSize) - 1, splitSize);
  }

  /** The layout `Plan` computes, as a value. */
  function PlanOf(objectSize: int, splitSize: int): (chunks: seq<Chunk>)
    requires splitSize >= 1
    ensures |chunks| == ChunkCount(objectSize, splitSize)
  {
    seq(ChunkCount(objectSize, splitSize), i requires 0 <= i < ChunkCount(objectSize, splitSize) =>
      IndexInRange(i, objectSize, splitSize);
      Planned(i, objectSize, splitSize))
  }

  class Planner {
    const splitSize: int

    constructor (splitSize: int)
      ensures this.splitSize == splitSize
    {
      this.splitSize := splitSize;
    }

    method Plan(objectSize: int) returns (chunks: array<Chunk>)
      requires splitSize >= 1
      ensures fresh(chunks) && chunks[..] == PlanOf(objectSize, splitSize)
    {
      if objectSize <= 0 {
        chunks := new Chunk[0];
        return;
      }
      var n := (objectSize + splitSize - 1) / splitSize;
      CeilDiv(objectSize, splitSize);
      chunks := new Chunk[n](_ => Chunk(0, 0, 0, Pending, 0, 0, 0, 0, false));
      var i := 0;
      while i < n
        invariant 0 <= i <= n
        invariant chunks[..i] == PlanOf(objectSize, splitSize)[..i]
      {
        IndexInRange(i, objectSize, splitSize);
        var start := i * splitSize;
        var length := splitSize;
        if start + length > objectSize {
          length := objectSize - start;
        }
        chunks[i] := Chunk(i, start, length, Pending, 0, -1, 0, 0, false);
        i := i + 1;
      }
    }
  }

  lemma BoundaryStep(chunks: seq<Chunk>, size: nat, i: nat)
    requires Layout(chunks, size) && i < |chunks|
    ensures Boundary(chunks, size, i + 1) == chunks[i].start + chunks[i].length
  {
    if i + 1 < |chunks| { assert chunks[i + 1].start == chunks[i].start + chunks[i].length; }
  }

  lemma PlannedChunk(objectSize: nat, splitSize: int, i: nat)
    requires splitSize >= 1 && i < ChunkCount(objectSize, splitSize)
    ensures var c, n := PlanOf(objectSize, splitSize)[i], ChunkCount(objectSize, splitSize);
            && c.index == i && c.start == i * splitSize
            && 0 < c.length <= splitSize
            && (i + 1 < n ==> c.length == splitSize && c.start + c.length == (i + 1) * splitSize)
            && (i + 1 == n ==> c.start + c.length == objectSize)
            && c.state == Pending && c.attempts == 0 && !c.hedged
  {
    IndexInRange(i, objectSize, splitSize);
    assert (i + 1) * splitSize == i * splitSize + splitSize;
    if i + 1 < ChunkCount(objectSize, splitSize) {
      IndexInRange(i + 1, objectSize, splitSize);
    }
  }

  /** Every plan is a layout; all chunks but the last are exactly splitSize long. */
  lemma PlanIsLayout(objectSize: nat, splitSize: int)
    requires splitSize >= 1
    ensures Layout(PlanOf(objectSize, splitSize), objectSize)
    ensures forall i :: 0 <= i < ChunkCount(objectSize, splitSize) ==>
              var c := PlanOf(objectSize, splitSize)[i];
              && c.length <= splitSize
              && (i + 1 < ChunkCount(objectSize, splitSize) ==> c.length == splitSize)
              && c.state == Pending && c.attempts == 0 && !c.hedged
  {
    var n := ChunkCount(objectSize, splitSize);
    hide Planned;
    forall i: nat | i < n
      ensures var c := PlanOf(objectSize, splitSize)[i];
              && c.index == i && c.start == i * splitSize && 0 < c.length <= splitSize
              && (i + 1 < n ==> c.length == splitSize && c.start + c.length == (i + 1) * splitSize)
              && (i + 1 == n ==> c.start + c.length == objectSize)
              && c.state == Pending && c.attempts == 0 && !c.hedged
    {
      PlannedChunk(objectSize, splitSize, i);
    }
  }

  function TotalLength(chunks: seq<Chunk>): nat {
    if chunks == [] then 0 else TotalLength(chunks[..|chunks| - 1]) + chunks[|chunks| - 1].length
  }

  /** The lengths of a layout's first k chunks add up to the k-th boundary, so all of them to the size. */
  lemma {:induction false} LengthsAddUp(chunks: seq<Chunk>, size: nat, k: nat)
    requires Layout(chunks, size) && k <= |chunks|
    ensures TotalLength(chunks[..k]) == Boundary(chunks, size, k)
  {
    if k > 0 {
      assert chunks[..k][..k - 1] == chunks[..k - 1];
      LengthsAddUp(chunks, size, k - 1);
      BoundaryStep(chunks, size, k - 1);
    }
  }

  lemma {:induction false} BoundariesGrow(chunks: seq<Chunk>, size: nat, i: nat, j: nat)
    requires Layout(chunks, size) && i <= j <= |chunks|
    ensures Boundary(chunks, size, i) + (j - i) <= Boundary(chunks, size, j)
    decreases j - i
  {
    if i < j {
      BoundaryStep(chunks, size, i);
      BoundariesGrow(chunks, size, i + 1, j);
    }
  }

  ghost predicate Covers(c: Chunk, offset: nat) {
    c.start <= offset < c.start + c.length
  }

  /** Byte `offset` lies in chunk offset / splitSize and in no other. */
  lemma EveryByteInOneChunk(objectSize: nat, splitSize: int, offset: nat, i: nat)
    requires splitSize >= 1 && offset < objectSize
    requires i < ChunkCount(objectSize, splitSize)
    ensures Covers(PlanOf(objectSize, splitSize)[i], offset) <==> i == offset / splitSize
    ensures 0 <= offset / splitSize < ChunkCount(objectSize, splitSize)
  {
    var q := offset / splitSize;
    assert offset == q * splitSize + offset % splitSize;
    var n := ChunkCount(objectSize, splitSize);
    if q >= n { MulMono(n, q, splitSize); }
    IndexInRange(i, objectSize, splitSize);
    if i < q { MulMono(i + 1, q, splitSize); assert (i + 1) * splitSize == i * splitSize + splitSize; }
    if q < i { MulMono(q + 1, i, splitSize); assert (q + 1) * splitSize == q * splitSize + splitSize; }
  }

  lemma IndexBelowOffset(i: nat, splitSize: int)
    requires splitSize >= 1
    ensures i <= i * splitSize
  {
    assert i * (splitSize - 1) >= 0;
    assert i * splitSize == i * (splitSize - 1) + i;
  }

  /** With no overflow in objectSize + splitSize - 1, every value the loop of `Plan` computes fits an int64. */
  lemma PlanFitsInt64(objectSize: nat, splitSize: int, i: nat)
    requires splitSize >= 1 && objectSize + splitSize - 1 <= MAX_INT64
    requires i < ChunkCount(objectSize, splitSize)
    ensures var c := PlanOf(objectSize, splitSize)[i];
            && c.start + splitSize <= MAX_INT64
            && c.start + c.length <= objectSize
            && i < MAX_INT64
  {
    IndexInRange(i, objectSize, splitSize);
    IndexBelowOffset(i, splitSize);
  }

  /** The indices of the chunks in a given state. */
  function InState(chunks: seq<Chunk>, st: State): set<nat> {
    set i: nat | i < |chunks| && chunks[i].state == st
  }

  /** Replacing one chunk moves at most that one index in or out of a state. */
  lemma InStateUpdate(chunks: seq<Chunk>, i: nat, c: Chunk, st: State)
    requires i < |chunks|
    ensures InState(chunks[i := c], st) ==
            if c.state == st then InState(chunks, st) + {i} else InState(chunks, st) - {i}
  {
  }

  lemma InStateBounded(chunks: seq<Chunk>, st: State)
    ensures |InState(chunks, st)| <= |chunks|
    ensures |InState(chunks, st)| == |chunks| ==> forall i :: 0 <= i < |chunks| ==> chunks[i].state == st
  {
    var all := Below(|chunks|);
    SubsetSize(InState(chunks, st), all);
    if |InState(chunks, st)| == |chunks| {
      forall i | 0 <= i < |chunks| ensures chunks[i].state == st { assert i in all; }
    }
  }
}
