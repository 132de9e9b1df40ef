/** The ordered stream sink under any calls (internal/sink/stream.go): what callers other than the worker pool, and its one
    writer, can rely on. */
module SinkCalls {
  import opened Basics
  import opened Chunks
  import opened Streaming

  datatype Call =
    | Reserving(length: int)
    | Submitting(c: Chunk, data: seq<byte>)
    | Closing
    | Entering(ctxDone: bool)      // the writer at the head of its loop
    | Waking(ctxDone: bool)        // ... back from the wait
    | Wrote(ok: bool)            // ... back from w.Write

  datatype Phase = Ready | Asleep | Busy(cd: ChunkData) | Gone(ok: bool)

  /** The sink, where its writer is, and what has happened so far. */
  datatype Use = Use(
    sink: Sink,
    writer: Phase,
    granted: int,                  // lengths of the reservations granted
    accepted: seq<ChunkData>,      // submissions accepted
    taken: seq<ChunkData>,         // chunks given to w.Write
    writes: nat,                   // writes that succeeded
    broken: bool)                  // a write has failed, or the writer has found a gap after Close

  function New(bufferSize: int): Use {
    Use(NewSink(bufferSize), Ready, 0, [], [], 0, false)
  }

  predicate Enabled(u: Use, call: Call) {
    match call
    case Entering(_) => u.writer.Ready?
    case Waking(_) => u.writer.Asleep?
    case Wrote(_) => u.writer.Busy?
    case _ => true
  }

  /** The writer goes on as its critical section says. */
  function GoOn(u: Use, r: (Sink, WriterMove)): Use {
    match r.1
    case Wait => u.(sink := r.0, writer := Asleep)
    case Reenter => u.(sink := r.0, writer := Ready)
    case Write(cd) => u.(sink := r.0, writer := Busy(cd), taken := u.taken + [cd])
    case Return(ok) => u.(sink := r.0, writer := Gone(ok))
  }

  /** The sink is closed, the next chunk is missing, and others are buffered. */
  predicate Gap(s: Sink) {
    s.closed && s.nextIndex !in s.completed && s.completed != map[]
  }

  function Apply(u: Use, call: Call): Use
    requires Enabled(u, call)
  {
    match call
    case Reserving(length) =>
      var (s, ok) := Reserve(u.sink, length);
      u.(sink := s, granted := u.granted + if ok then length else 0)
    case Submitting(c, data) =>
      var (s, ok) := Submit(u.sink, c, data);
      u.(sink := s, accepted := if ok then u.accepted + [ChunkData(c, data)] else u.accepted)
    case Closing => u.(sink := Close(u.sink))
    case Entering(ctxDone) => GoOn(u.(broken := u.broken || Gap(u.sink)), Enter(u.sink, ctxDone))
    case Waking(ctxDone) => GoOn(u.(broken := u.broken || (!ctxDone && Gap(u.sink))), Wake(u.sink, ctxDone))
    case Wrote(ok) =>
      if ok then GoOn(u.(broken := u.broken || Gap(u.sink), writes := u.writes + 1), WriteDone(u.sink))
      else GoOn(u.(broken := true), WriteFailed(u.sink))
  }

  predicate Legal(u: Use, calls: seq<Call>)
    decreases |calls|
  {
    calls == [] || (Enabled(u, calls[0]) && Legal(Apply(u, calls[0]), calls[1..]))
  }

  function Exec(u: Use, calls: seq<Call>): Use
    requires Legal(u, calls)
    decreases |calls|
  {
    if calls == [] then u else Exec(Apply(u, calls[0]), calls[1..])
  }

  /** The last accepted submission of chunk i. */
  function Latest(accepted: seq<ChunkData>, i: nat): Option<ChunkData> {
    if accepted == [] then None
    else if accepted[|accepted| - 1].chunk.index == i then Some(accepted[|accepted| - 1])
    else Latest(accepted[..|accepted| - 1], i)
  }

  function Lengths(taken: seq<ChunkData>): int {
    if taken == [] then 0 else Lengths(taken[..|taken| - 1]) + taken[|taken| - 1].chunk.length
  }

  lemma LatestSnoc(accepted: seq<ChunkData>, cd: ChunkData, i: nat)
    ensures Latest(accepted + [cd], i) == if cd.chunk.index == i then Some(cd) else Latest(accepted, i)
  {
    assert (accepted + [cd])[..|accepted|] == accepted;
  }

  lemma LengthsSnoc(taken: seq<ChunkData>, cd: ChunkData)
    ensures Lengths(taken + [cd]) == Lengths(taken) + cd.chunk.length
  {
    assert (taken + [cd])[..|taken|] == taken;
  }

  lemma {:induction false} LatestIn(accepted: seq<ChunkData>, i: nat)
    ensures Latest(accepted, i).Some? ==> Latest(accepted, i).value in accepted && Latest(accepted, i).value.chunk.index == i
    ensures Latest(accepted, i).None? ==> forall cd :: cd in accepted ==> cd.chunk.index != i
  {
    if accepted != [] {
      LatestIn(accepted[..|accepted| - 1], i);
      assert forall cd :: cd in accepted ==> cd in accepted[..|accepted| - 1] || cd == accepted[|accepted| - 1];
    }
  }

  /** What is buffered is the last copy submitted; what was accepted is buffered or has gone to the writer; the writer has
      been given the chunks in index order, each once. */
  ghost predicate Sound(u: Use) {
    && |u.taken| == u.sink.nextIndex
    && (forall k :: 0 <= k < |u.taken| ==> u.taken[k].chunk.index == k && u.taken[k] in u.accepted)
    && (forall i :: i in u.sink.completed ==> Latest(u.accepted, i) == Some(u.sink.completed[i]))
    && (forall cd :: cd in u.accepted ==> |cd.data| == cd.chunk.length && (cd.chunk.index < |u.taken| || cd.chunk.index in u.sink.completed))
    && u.sink.reserved == u.granted - Lengths(u.taken) && u.sink.writtenCount == u.writes
    && u.sink.fatal == u.broken && (u.broken ==> u.writer == Gone(false))
    && (u.writer.Busy? ==> u.taken != [] && u.writer.cd == u.taken[|u.taken| - 1])
  }

  lemma SubmitSound(u: Use, c: Chunk, data: seq<byte>)
    requires Sound(u)
    ensures Sound(Apply(u, Submitting(c, data)))
  {
    var v := Apply(u, Submitting(c, data));
    if v.accepted != u.accepted {
      forall i: nat ensures Latest(v.accepted, i) == if c.index == i then Some(ChunkData(c, data)) else Latest(u.accepted, i) {
        LatestSnoc(u.accepted, ChunkData(c, data), i);
      }
    }
    hide Latest;
  }

  lemma GoOnSound(u: Use, v: Use)
    requires Sound(u) && !u.sink.fatal
    requires v == GoOn(u.(broken := Gap(u.sink), writer := v.writer), Drain(u.sink))
    ensures Sound(v)
  {
    if u.sink.nextIndex in u.sink.completed {
      var cd := u.sink.completed[u.sink.nextIndex];
      LatestIn(u.accepted, u.sink.nextIndex);
      LengthsSnoc(u.taken, cd);
    }
    hide Latest, Lengths;
  }

  /** The writer stops or goes to sleep, and the buffer stays as it is. */
  lemma RestSound(u: Use, v: Use)
    requires Sound(u) && v == u.(writer := v.writer) && !v.writer.Busy? && (u.broken ==> v.writer == Gone(false))
    ensures Sound(v)
  {
    hide Latest, Lengths;
  }

  lemma EnterSound(u: Use, ctxDone: bool)
    requires Sound(u) && !u.sink.fatal
    ensures Sound(GoOn(u.(broken := u.broken || Gap(u.sink)), Enter(u.sink, ctxDone)))
  {
    var v := GoOn(u.(broken := u.broken || Gap(u.sink)), Enter(u.sink, ctxDone));
    SoundFlags(u);
    hide Sound;
    if u.sink.nextIndex !in u.sink.completed && !u.sink.closed { RestSound(u, v); } else { GoOnSound(u, v); }
  }

  lemma WrittenSound(u: Use, ok: bool)
    requires Sound(u) && u.writer.Busy?
    ensures Sound(Apply(u, Wrote(ok)))
  {
    var v := Apply(u, Wrote(ok));
    var w := u.(writes := u.writes + 1, sink := u.sink.(writtenCount := u.sink.writtenCount + 1));
    hide Latest, Lengths;
    if ok {
      assert Sound(w);
      hide Sound;
      SoundFlags(u);
      GoOnSound(w, v);
    }
  }

  lemma WriterSound(u: Use, call: Call)
    requires Sound(u) && Enabled(u, call) && (call.Entering? || call.Waking? || call.Wrote?)
    ensures Sound(Apply(u, call))
  {
    SoundFlags(u);
    hide Sound, Gap;
    match call
    case Entering(ctxDone) => EnterSound(u, ctxDone);
    case Waking(ctxDone) => if ctxDone { RestSound(u, Apply(u, call)); } else { EnterSound(u, false); }
    case Wrote(ok) => WrittenSound(u, ok);
  }

  lemma SoundFlags(u: Use)
    requires Sound(u)
    ensures u.sink.fatal == u.broken && (u.broken ==> u.writer == Gone(false)) && |u.taken| == u.sink.nextIndex
    ensures u.sink.reserved == u.granted - Lengths(u.taken)
  {
  }

  lemma StepSound(u: Use, call: Call)
    requires Sound(u) && Enabled(u, call)
    ensures Sound(Apply(u, call)) && Apply(u, call).sink.bufferSize == u.sink.bufferSize
  {
    match call
    case Submitting(c, data) => SubmitSound(u, c, data);
    case Reserving(_) => hide Latest, Lengths;
    case Closing => hide Latest, Lengths;
    case _ => WriterSound(u, call); hide Sound;
  }

  lemma {:induction false} RunSound(u: Use, calls: seq<Call>)
    requires Sound(u) && Legal(u, calls)
    ensures Sound(Exec(u, calls)) && Exec(u, calls).sink.bufferSize == u.sink.bufferSize
    decreases |calls|
  {
    hide Sound, Apply, Enabled;
    if calls != [] {
      StepSound(u, calls[0]);
      RunSound(Apply(u, calls[0]), calls[1..]);
    }
  }

  /** The writer finds the next chunk, or waits for it, or is done, or has found a gap. */
  ghost predicate Continues(u: Use, v: Use, ctxDone: bool, waits: bool) {
    match Latest(u.accepted, |u.taken|)
    case Some(cd) => v.writer == Busy(cd) && v.taken == u.taken + [cd] && !v.broken
    case None =>
      && v.taken == u.taken
      && if !u.sink.closed then
           v.writer == (if !waits then Ready else if ctxDone then Gone(false) else Asleep) && !v.broken
         else
           v.writer == Gone(u.sink.completed == map[]) && v.broken == (u.sink.completed != map[])
  }

  /** What one more call comes to, in terms of the calls before it. */
  ghost predicate Answered(u: Use, call: Call, v: Use, bufferSize: int) {
    match call
    case Reserving(length) =>
      v.granted == u.granted + if u.granted - Lengths(u.taken) + length <= bufferSize then length else 0
    case Submitting(c, data) =>
      v.accepted == u.accepted + if !u.broken && |data| == c.length then [ChunkData(c, data)] else []
    case Closing => v.sink.closed
    case Entering(ctxDone) => Continues(u, v, ctxDone, true)
    case Waking(ctxDone) =>
      if ctxDone then v.writer == Gone(false) && v.taken == u.taken && v.broken == u.broken else Continues(u, v, false, true)
    case Wrote(ok) =>
      if ok then v.writes == u.writes + 1 && Continues(u, v, false, false)
      else v.writer == Gone(false) && v.broken && v.taken == u.taken && v.writes == u.writes
  }

  lemma NextAvailable(u: Use)
    requires Sound(u)
    ensures |u.taken| in u.sink.completed <==> Latest(u.accepted, |u.taken|).Some?
    ensures |u.taken| in u.sink.completed ==> Latest(u.accepted, |u.taken|) == Some(u.sink.completed[|u.taken|])
  {
    LatestIn(u.accepted, |u.taken|);
  }

  lemma CallAnswered(u: Use, call: Call)
    requires Sound(u) && Enabled(u, call)
    ensures Answered(u, call, Apply(u, call), u.sink.bufferSize)
  {
    NextAvailable(u);
    SoundFlags(u);
    hide Latest, Lengths, Sound;
  }

  /** Whoever calls it, in whatever state: a sink with a fatal error gives nothing to write and accepts nothing. */
  lemma FatalSink(s: Sink, ctxDone: bool, c: Chunk, data: seq<byte>)
    requires s.fatal
    ensures Enter(s, ctxDone) == Wake(s, ctxDone) == (s, Return(false)) && Submit(s, c, data) == (s, false)
  {
  }

  /** The sink's promises. After any calls of any callers: the writer has been given chunks 0, 1, 2 and so on, each once,
      each as a caller submitted it and in its declared length; nothing accepted is lost; a reservation is granted exactly
      if it fits beside those not yet given to the writer; a submission is accepted exactly if its length is the declared
      one and neither a write has failed nor a gap was found; and the writer takes the last copy of the next chunk if there
      is one, else waits, stops for the context, finishes, or reports a gap. */
  lemma SinkPromises(bufferSize: int, calls: seq<Call>, call: Call)
    requires Legal(New(bufferSize), calls) && Enabled(Exec(New(bufferSize), calls), call)
    ensures var u := Exec(New(bufferSize), calls);
            && (forall k :: 0 <= k < |u.taken| ==>
                  u.taken[k].chunk.index == k && u.taken[k] in u.accepted && |u.taken[k].data| == u.taken[k].chunk.length)
            && (forall cd :: cd in u.accepted ==> cd.chunk.index < |u.taken| || cd.chunk.index in u.sink.completed)
            && (forall i :: i in u.sink.completed ==> Latest(u.accepted, i) == Some(u.sink.completed[i]))
            && Answered(u, call, Apply(u, call), bufferSize)
  {
    RunSound(New(bufferSize), calls);
    hide Exec, Legal, Apply, Enabled, Latest, Lengths, Answered;
    CallAnswered(Exec(New(bufferSize), calls), call);
  }
}
