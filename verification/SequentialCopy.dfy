/** The sequential fallback (`downloadSequential` in internal/job/runner.go): `io.Copy` from the response body to the
    output, which ends at the end of the body or at the first error of either side. */
module SequentialCopy {
  import opened Basics
  import opened Streaming

  /** What the body yields: pieces, and then its end or an error. */
  datatype Body = Body(pieces: seq<seq<byte>>, ended: bool)

  /** The output accepts only the first `kept` bytes of one piece. */
  datatype Fault = Fault(piece: nat, kept: nat)

  function Joined(pieces: seq<seq<byte>>): seq<byte> {
    if pieces == [] then [] else Joined(pieces[..|pieces| - 1]) + pieces[|pieces| - 1]
  }

  /** A body that ends without an error is the whole object; one that breaks off is the beginning of it. */
  ghost predicate BodyOf(b: Body, src: seq<byte>) {
    Joined(b.pieces) <= src && (b.ended ==> Joined(b.pieces) == src)
  }

  predicate Hits(fault: Option<Fault>, i: nat) {
    fault.Some? && fault.value.piece == i
  }

  /** What reaches the output, and whether the copy succeeds. */
  function Copied(b: Body, fault: Option<Fault>): (r: (seq<byte>, bool)) {
    if fault.Some? && fault.value.piece < |b.pieces| then
      var p := b.pieces[fault.value.piece];
      (Joined(b.pieces[..fault.value.piece]) + p[..Min(fault.value.kept, |p|)], false)
    else (Joined(b.pieces), b.ended)
  }

  lemma {:induction false} JoinedPrefix(pieces: seq<seq<byte>>, k: nat)
    requires k <= |pieces|
    ensures Joined(pieces[..k]) <= Joined(pieces)
    decreases |pieces| - k
  {
    if k == |pieces| {
      assert pieces[..k] == pieces;
    } else {
      JoinedPrefix(pieces, k + 1);
      OnePiece(pieces, k);
    }
  }

  lemma OnePiece(pieces: seq<seq<byte>>, k: nat)
    requires k < |pieces|
    ensures Joined(pieces[..k + 1]) == Joined(pieces[..k]) + pieces[k]
  {
    assert pieces[..k + 1][..k] == pieces[..k];
  }

  /** The copy loop. */
  method Copy(b: Body, fault: Option<Fault>) returns (out: seq<byte>, ok: bool)
    ensures (out, ok) == Copied(b, fault)
  {
    out := [];
    var i := 0;
    while i < |b.pieces|
      invariant 0 <= i <= |b.pieces|
      invariant out == Joined(b.pieces[..i])
      invariant fault.Some? ==> i <= fault.value.piece || |b.pieces| <= fault.value.piece
    {
      var p := b.pieces[i];
      if Hits(fault, i) {
        return out + p[..Min(fault.value.kept, |p|)], false;
      }
      OnePiece(b.pieces, i);
      out := out + p;
      i := i + 1;
    }
    assert b.pieces[..|b.pieces|] == b.pieces;
    return out, b.ended;
  }

  /** How many bytes are copied: all of the pieces before the fault and the part of one that was kept. */
  function Kept(b: Body, fault: Option<Fault>, i: nat): nat
    requires i <= |b.pieces|
  {
    if i == 0 then 0
    else
      var size := |b.pieces[i - 1]|;
      Kept(b, fault, i - 1) +
      if fault.None? || i - 1 < fault.value.piece then size
      else if i - 1 == fault.value.piece then Min(fault.value.kept, size)
      else 0
  }

  lemma {:induction false} JoinedLength(b: Body, fault: Option<Fault>, i: nat)
    requires i <= |b.pieces| && (fault.Some? ==> i <= fault.value.piece)
    ensures |Joined(b.pieces[..i])| == Kept(b, fault, i)
  {
    if i > 0 {
      JoinedLength(b, fault, i - 1);
      OnePiece(b.pieces, i - 1);
    }
  }

  lemma {:induction false} NothingAfter(b: Body, fault: Option<Fault>, i: nat)
    requires fault.Some? && fault.value.piece < i <= |b.pieces|
    ensures Kept(b, fault, i) == Kept(b, fault, fault.value.piece + 1)
  {
    if i > fault.value.piece + 1 { NothingAfter(b, fault, i - 1); }
  }

  /** What is copied is the beginning of the object, of exactly the length the two sides let through; the copy succeeds
      exactly when the body ends without an error and the output accepts all of it, and then it is the whole object. */
  lemma CopyIsPrefix(b: Body, fault: Option<Fault>, src: seq<byte>)
    requires BodyOf(b, src)
    ensures Copied(b, fault).0 <= src && |Copied(b, fault).0| == Kept(b, fault, |b.pieces|)
    ensures Copied(b, fault).1 ==> Copied(b, fault).0 == src
    ensures Copied(b, fault).1 <==> b.ended && (fault.None? || fault.value.piece >= |b.pieces|)
  {
    if fault.Some? && fault.value.piece < |b.pieces| {
      var k, p := fault.value.piece, b.pieces[fault.value.piece];
      JoinedPrefix(b.pieces, k + 1);
      OnePiece(b.pieces, k);
      assert Joined(b.pieces[..k]) + p[..Min(fault.value.kept, |p|)] <= Joined(b.pieces[..k]) + p;
      JoinedLength(b, fault, k);
      NothingAfter(b, fault, |b.pieces|);
    } else {
      assert b.pieces[..|b.pieces|] == b.pieces;
      JoinedLength(b, fault, |b.pieces|);
    }
  }
}
