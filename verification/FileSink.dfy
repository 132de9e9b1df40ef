/** The positional file sink (internal/sink/file.go) over an abstract file. */
module Positional {
  import opened Basics
  import opened Chunks
  import opened Streaming
  import Sidecar

  /** pwrite: bytes past the old end are preceded by zeros. */
  function WriteAt(f: seq<byte>, off: nat, data: seq<byte>): (g: seq<byte>)
    ensures |g| == if data == [] then |f| else Max(|f|, off + |data|)
  {
    if data == [] then f
    else
      seq(Max(|f|, off + |data|), x requires 0 <= x =>
        if off <= x < off + |data| then data[x - off] else if x < |f| then f[x] else 0)
  }

  /** Byte o of the object is in place in the file. */
  predicate RightByte(f: seq<byte>, base: nat, src: seq<byte>, o: nat)
    requires o < |src|
  {
    base + o < |f| && f[base + o] == src[o]
  }

  predicate RightRange(f: seq<byte>, base: nat, src: seq<byte>, lo: nat, hi: nat)
    requires hi <= |src|
  {
    forall o: nat :: lo <= o < hi ==> RightByte(f, base, src, o)
  }

  /** Beyond the segment [base, base + size) the file is as it was, or zero where it did not reach. */
  ghost predicate OutsideSame(f: seq<byte>, f0: seq<byte>, base: nat, size: nat) {
    && |f0| <= |f| <= Max(|f0|, base + size)
    && forall x: nat :: x < |f| && !(base <= x < base + size) ==> f[x] == if x < |f0| then f0[x] else 0
  }

  lemma WrittenByte(f: seq<byte>, off: nat, data: seq<byte>, x: nat, k: nat)
    requires k < |data| && x == off + k
    ensures x < |WriteAt(f, off, data)| && WriteAt(f, off, data)[x] == data[k]
  {
  }

  lemma SliceAt(src: seq<byte>, lo: nat, hi: nat, k: nat)
    requires lo <= hi <= |src| && k < hi - lo
    ensures src[lo..hi][k] == src[lo + k]
  {
  }

  lemma DataPlaces(f: seq<byte>, base: nat, src: seq<byte>, lo: nat, data: seq<byte>, k: nat)
    requires k < |data| && lo + k < |src| && data[k] == src[lo + k]
    ensures RightByte(WriteAt(f, base + lo, data), base, src, lo + k)
  {
    hide WriteAt;
    WrittenByte(f, base + lo, data, base + (lo + k), k);
  }

  /** The bytes written are in place. */
  lemma WritePlaces(f: seq<byte>, base: nat, src: seq<byte>, lo: nat, hi: nat, o: nat)
    requires lo <= o < hi <= |src|
    ensures RightByte(WriteAt(f, base + lo, src[lo..hi]), base, src, o)
  {
    hide WriteAt, RightByte;
    SliceAt(src, lo, hi, o - lo);
    DataPlaces(f, base, src, lo, src[lo..hi], o - lo);
  }

  /** A byte in place stays in place. */
  lemma WriteKeepsPlace(f: seq<byte>, base: nat, src: seq<byte>, lo: nat, hi: nat, o: nat)
    requires lo <= hi <= |src| && o < |src| && RightByte(f, base, src, o)
    ensures RightByte(WriteAt(f, base + lo, src[lo..hi]), base, src, o)
  {
    if lo <= o < hi { WritePlaces(f, base, src, lo, hi, o); }
  }

  /** Nothing outside the segment is touched. */
  lemma WriteStaysInside(f: seq<byte>, f0: seq<byte>, base: nat, src: seq<byte>, lo: nat, hi: nat)
    requires lo <= hi <= |src| && OutsideSame(f, f0, base, |src|)
    ensures OutsideSame(WriteAt(f, base + lo, src[lo..hi]), f0, base, |src|)
  {
  }

  /** Writing source bytes where they belong puts them in place, disturbs none already in place, and touches nothing
      outside the segment. */
  lemma WritingSource(f: seq<byte>, base: nat, src: seq<byte>, lo: nat, hi: nat)
    requires lo <= hi <= |src|
    ensures var g := WriteAt(f, base + lo, src[lo..hi]);
            && RightRange(g, base, src, lo, hi)
            && (forall o: nat :: o < |src| && RightByte(f, base, src, o) ==> RightByte(g, base, src, o))
            && (forall f0 :: OutsideSame(f, f0, base, |src|) ==> OutsideSame(g, f0, base, |src|))
  {
    var g := WriteAt(f, base + lo, src[lo..hi]);
    hide WriteAt, RightByte, OutsideSame;
    forall o: nat | lo <= o < hi ensures RightByte(g, base, src, o) { WritePlaces(f, base, src, lo, hi, o); }
    forall o: nat | o < |src| && RightByte(f, base, src, o) ensures RightByte(g, base, src, o) {
      WriteKeepsPlace(f, base, src, lo, hi, o);
    }
    forall f0 | OutsideSame(f, f0, base, |src|) ensures OutsideSame(g, f0, base, |src|) {
      WriteStaysInside(f, f0, base, src, lo, hi);
    }
  }

  /** A file whose segment is in place throughout contains the object there. */
  lemma SegmentIsSource(f: seq<byte>, base: nat, src: seq<byte>)
    requires RightRange(f, base, src, 0, |src|)
    ensures src != [] ==> base + |src| <= |f| && f[base..base + |src|] == src
  {
    if src != [] {
      assert RightByte(f, base, src, |src| - 1);
      forall o: nat | o < |src| ensures f[base..base + |src|][o] == src[o] { assert RightByte(f, base, src, o); }
    }
  }

  function Zeros(n: nat): seq<byte> { seq(n, _ => 0) }

  /** On a new file this is the object behind `base` zero bytes: the file is the object exactly when base is 0. */
  lemma NewFile(f: seq<byte>, base: nat, src: seq<byte>)
    requires src != [] && RightRange(f, base, src, 0, |src|) && OutsideSame(f, [], base, |src|)
    ensures f == Zeros(base) + src
    ensures f == src <==> base == 0
  {
    SegmentIsSource(f, base, src);
  }

  class FileSink {
    var content: seq<byte>
    const baseOff: nat
    const sidecar: Sidecar.Manager

    constructor (content: seq<byte>, baseOff: nat, sidecar: Sidecar.Manager)
      ensures this.content == content && this.baseOff == baseOff && this.sidecar == sidecar
    {
      this.content, this.baseOff, this.sidecar := content, baseOff, sidecar;
    }

    /** `part` bytes reach the file when the write fails. */
    method WriteChunk(c: Chunk, data: seq<byte>, writeOK: bool, part: nat, tmpOK: bool, renameOK: bool) returns (ok: bool)
      requires part <= |data|
      requires sidecar.state.Some? ==> Sidecar.ValidState(sidecar.state.value)
      modifies this, sidecar, sidecar.disk
      ensures content == WriteAt(old(content), baseOff + c.start, if writeOK then data else data[..part])
      ensures ok ==> writeOK && |data| == c.length
      ensures !(writeOK && |data| == c.length) ==> sidecar.state == old(sidecar.state) && sidecar.disk.files == old(sidecar.disk.files)
      ensures writeOK && |data| == c.length && old(sidecar.state).None? ==>
                ok && sidecar.state == None && sidecar.disk.files == old(sidecar.disk.files)
      ensures writeOK && |data| == c.length && old(sidecar.state).Some? ==>
                var marked := Sidecar.Mark(old(sidecar.state).value, 0, c.index);
                && ok == (marked.Some? && tmpOK && renameOK)
                && sidecar.state == (if marked.Some? then marked else old(sidecar.state))
                && sidecar.disk.files.sidecar == if ok then Some(Sidecar.Whole(marked.value)) else old(sidecar.disk.files.sidecar)
    {
      var off := baseOff + c.start;
      if !writeOK {
        content := WriteAt(content, off, data[..part]);
        return false;
      }
      content := WriteAt(content, off, data);
      if |data| != c.length { return false; }
      ok := sidecar.MarkComplete(0, c.index, tmpOK, renameOK);
    }

    /** The sidecar goes only after the data is synced and the file closed; that it was absent is no error. */
    method Finalize(syncOK: bool, closeOK: bool, removeOK: bool) returns (ok: bool)
      modifies sidecar.disk
      ensures ok == (syncOK && closeOK && (removeOK || old(sidecar.disk.files.sidecar).None?))
      ensures sidecar.disk.files.sidecar == if syncOK && closeOK && removeOK then None else old(sidecar.disk.files.sidecar)
    {
      if !syncOK || !closeOK { return false; }
      var removal := sidecar.Remove(removeOK);
      return removal != Sidecar.Stuck;
    }
  }
}
