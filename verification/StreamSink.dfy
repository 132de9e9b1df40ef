/** The ordered stream sink (internal/sink/stream.go): its critical sections on values, and the object. */
module Streaming {
  import opened Chunks

  newtype byte = x: int | 0 <= x < 256

  datatype ChunkData = ChunkData(chunk: Chunk, data: seq<byte>)

  datatype Sink = Sink(
    bufferSize: int,
    reserved: int,
    nextIndex: nat,
    completed: map<nat, ChunkData>,   // submitted and not yet taken by the writer
    writtenCount: nat,
    fatal: bool,
    closed: bool)

  const EMPTY_BUFFER: map<nat, ChunkData> := map[]

  function NewSink(bufferSize: int): Sink {
    Sink(bufferSize, 0, 0, EMPTY_BUFFER, 0, false, false)
  }

  function Reserve(s: Sink, length: int): (r: (Sink, bool))
    ensures r.1 ==> r.0.reserved <= s.bufferSize
  {
    if s.reserved + length > s.bufferSize then (s, false) else (s.(reserved := s.reserved + length), true)
  }

  function Submit(s: Sink, c: Chunk, data: seq<byte>): (Sink, bool) {
    if s.fatal || |data| != c.length then (s, false)
    else (s.(completed := s.completed[c.index := ChunkData(c, data)]), true)
  }

  function Close(s: Sink): Sink {
    s.(closed := true)
  }

  /** What the writer does after a critical section. */
  datatype WriterMove =
    | Wait                     // on the condition variable
    | Reenter                  // round the outer loop
    | Write(cd: ChunkData)     // the lock is released during the write
    | Return(ok: bool)

  /** One turn of the inner loop: take the next chunk, or stop when there is none. */
  function Drain(s: Sink): (Sink, WriterMove) {
    if s.nextIndex in s.completed then
      var cd := s.completed[s.nextIndex];
      (s.(completed := s.completed - {s.nextIndex}, reserved := s.reserved - cd.chunk.length, nextIndex := s.nextIndex + 1),
       Write(cd))
    else if !s.closed then (s, Reenter)
    else if s.completed == map[] then (s, Return(true))
    else (s.(fatal := true), Return(false))     // a gap: closed with unflushed chunks
  }

  /** The head of the outer loop. */
  function Enter(s: Sink, ctxDone: bool): (Sink, WriterMove) {
    if s.nextIndex !in s.completed && !s.fatal && !s.closed then (s, if ctxDone then Return(false) else Wait)
    else if s.fatal then (s, Return(false))
    else Drain(s)
  }

  /** Back from the wait: the context is checked before anything else. */
  function Wake(s: Sink, ctxDone: bool): (Sink, WriterMove) {
    if ctxDone then (s, Return(false)) else Enter(s, ctxDone)
  }

  function WriteDone(s: Sink): (Sink, WriterMove) {
    Drain(s.(writtenCount := s.writtenCount + 1))
  }

  function WriteFailed(s: Sink): (Sink, WriterMove) {
    (s.(fatal := true), Return(false))
  }

  class StreamSink {
    const bufferSize: int
    var reserved: int
    var nextIndex: nat
    var completed: map<nat, ChunkData>
    var writtenCount: nat
    var fatal: bool
    var closed: bool

    ghost function View(): Sink
      reads this
    {
      Sink(bufferSize, reserved, nextIndex, completed, writtenCount, fatal, closed)
    }

    constructor (bufferSize: int)
      ensures View() == NewSink(bufferSize)
    {
      this.bufferSize := bufferSize;
      reserved, nextIndex, completed, writtenCount, fatal, closed := 0, 0, map[], 0, false, false;
    }

    method ReserveBytes(length: int) returns (ok: bool)
      modifies this
      ensures (View(), ok) == Reserve(old(View()), length)
    {
      if reserved + length > bufferSize { return false; }
      reserved := reserved + length;
      return true;
    }

    method SubmitChunk(c: Chunk, data: seq<byte>) returns (ok: bool)
      modifies this
      ensures (View(), ok) == Submit(old(View()), c, data)
    {
      if fatal { return false; }
      if |data| != c.length { return false; }
      completed := completed[c.index := ChunkData(c, data)];
      return true;
    }

    method CloseSink()
      modifies this
      ensures View() == Close(old(View()))
    {
      closed := true;
    }

    method DrainOne() returns (m: WriterMove)
      modifies this
      ensures (View(), m) == Drain(old(View()))
    {
      if nextIndex in completed {
        var cd := completed[nextIndex];
        completed := completed - {nextIndex};
        reserved := reserved - cd.chunk.length;
        nextIndex := nextIndex + 1;
        return Write(cd);
      }
      if closed {
        if completed != map[] {
          fatal := true;
          return Return(false);
        }
        return Return(true);
      }
      return Reenter;
    }

    method EnterLoop(ctxDone: bool) returns (m: WriterMove)
      modifies this
      ensures (View(), m) == Enter(old(View()), ctxDone)
    {
      if nextIndex !in completed && !fatal && !closed {
        return if ctxDone then Return(false) else Wait;
      }
      if fatal { return Return(false); }
      m := DrainOne();
    }

    method WakeUp(ctxDone: bool) returns (m: WriterMove)
      modifies this
      ensures (View(), m) == Wake(old(View()), ctxDone)
    {
      if ctxDone { return Return(false); }
      m := EnterLoop(ctxDone);
    }

    method AfterWrite(ok: bool) returns (m: WriterMove)
      modifies this
      ensures (View(), m) == if ok then WriteDone(old(View())) else WriteFailed(old(View()))
    {
      if !ok {
        fatal := true;
        return Return(false);
      }
      writtenCount := writtenCount + 1;
      m := DrainOne();
    }
  }
}
