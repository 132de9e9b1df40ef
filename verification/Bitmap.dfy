/** The packed completion bitmap (`EncodeBitmap`, `DecodeBitmap` in internal/sidecar/sidecar.go). The base64 text
    around the bytes is not modelled: it is empty exactly when there are no bytes. */
module Bitmap {
  import opened Basics

  predicate Bit(b: bv8, j: nat)
    requires j < 8
  {
    b & (1 << j) != 0
  }

  /** Bit i of the byte string, least significant first. */
  predicate BitOf(data: seq<bv8>, i: nat)
    requires i < 8 * |data|
  {
    Bit(data[i / 8], i % 8)
  }

  /** Setting one bit leaves the others alone. */
  lemma SetBit(b: bv8, k: nat, j: nat)
    requires k < 8 && j < 8
    ensures Bit(b | (1 << k), j) <==> j == k || Bit(b, j)
  {
    assert k in {0, 1, 2, 3, 4, 5, 6, 7} && j in {0, 1, 2, 3, 4, 5, 6, 7};
  }

  /** A byte is determined by its bits. */
  lemma SameBits(a: bv8, b: bv8)
    requires forall j: nat :: j < 8 ==> (Bit(a, j) <==> Bit(b, j))
    ensures a == b
  {
    assert Bit(a, 0) <==> Bit(b, 0);
    assert Bit(a, 1) <==> Bit(b, 1);
    assert Bit(a, 2) <==> Bit(b, 2);
    assert Bit(a, 3) <==> Bit(b, 3);
    assert Bit(a, 4) <==> Bit(b, 4);
    assert Bit(a, 5) <==> Bit(b, 5);
    assert Bit(a, 6) <==> Bit(b, 6);
    assert Bit(a, 7) <==> Bit(b, 7);
  }

  /** The data packs the flags: bit for bit, with clear padding. */
  ghost predicate Packs(data: seq<bv8>, flags: seq<bool>) {
    && |data| == (|flags| + 7) / 8
    && forall i: nat :: i < 8 * |data| ==> (BitOf(data, i) <==> i < |flags| && flags[i])
  }

  lemma PackingUnique(a: seq<bv8>, b: seq<bv8>, flags: seq<bool>)
    requires Packs(a, flags) && Packs(b, flags)
    ensures a == b
  {
    forall k: nat | k < |a| ensures a[k] == b[k] {
      forall j: nat | j < 8 ensures Bit(a[k], j) <==> Bit(b[k], j) {
        assert BitOf(a, 8 * k + j) <==> BitOf(b, 8 * k + j);
      }
      SameBits(a[k], b[k]);
    }
  }

  /** Byte k of the packing, its low j bits. */
  function PackByte(flags: seq<bool>, k: nat, j: nat): bv8
    requires j <= 8
  {
    if j == 0 then 0
    else PackByte(flags, k, j - 1) | if 8 * k + j - 1 < |flags| && flags[8 * k + j - 1] then 1 << (j - 1) else 0
  }

  function Encoded(flags: seq<bool>): (data: seq<bv8>) {
    seq((|flags| + 7) / 8, k requires k >= 0 => PackByte(flags, k, 8))
  }

  lemma {:induction false} PackedBits(flags: seq<bool>, k: nat, j: nat, b: nat)
    requires j <= 8 && b < 8
    ensures Bit(PackByte(flags, k, j), b) <==> b < j && 8 * k + b < |flags| && flags[8 * k + b]
  {
    if j == 0 {
      NoBits(b);
    } else {
      PackedBits(flags, k, j - 1, b);
      SetBit(PackByte(flags, k, j - 1), j - 1, b);
      assert PackByte(flags, k, j - 1) | 0 == PackByte(flags, k, j - 1);
    }
  }

  lemma NoBits(b: nat)
    requires b < 8
    ensures !Bit(0, b)
  {
    assert b in {0, 1, 2, 3, 4, 5, 6, 7};
  }

  lemma EncodedPacks(flags: seq<bool>)
    ensures Packs(Encoded(flags), flags)
  {
    var data := Encoded(flags);
    forall i: nat | i < 8 * |data| ensures BitOf(data, i) <==> i < |flags| && flags[i] {
      PackedBits(flags, i / 8, 8, i % 8);
    }
  }

  method EncodeBitmap(flags: seq<bool>) returns (data: seq<bv8>)
    ensures data == Encoded(flags)
  {
    var nBytes := (|flags| + 7) / 8;
    var bytes := new bv8[nBytes](_ => 0);
    var i := 0;
    while i < |flags|
      invariant 0 <= i <= |flags|
      invariant forall b: nat :: b < 8 * nBytes ==> (BitOf(bytes[..], b) <==> b < i && flags[b])
    {
      if flags[i] {
        ghost var before := bytes[..];
        bytes[i / 8] := bytes[i / 8] | (1 << (i % 8));
        forall b: nat | b < 8 * nBytes
          ensures BitOf(bytes[..], b) <==> b < i + 1 && flags[b]
        {
          assert BitOf(before, b) <==> b < i && flags[b];
          if b / 8 == i / 8 {
            SetBit(before[i / 8], i % 8, b % 8);
            assert b % 8 == i % 8 ==> b == i;
          }
        }
      }
      i := i + 1;
    }
    EncodedPacks(flags);
    PackingUnique(bytes[..], Encoded(flags), flags);
    return bytes[..];
  }

  /** The flags a byte string stands for, extended to at least `minSize`. */
  function Decoded(data: seq<bv8>, minSize: nat): (flags: seq<bool>)
    ensures |flags| == Max(8 * |data|, minSize)
  {
    seq(Max(8 * |data|, minSize), i requires 0 <= i => i < 8 * |data| && BitOf(data, i))
  }

  method DecodeBitmap(data: seq<bv8>, minSize: nat) returns (flags: seq<bool>)
    ensures flags == Decoded(data, minSize)
  {
    if |data| == 0 {
      return seq(minSize, _ => false);
    }
    var bitmap := new bool[8 * |data|](_ => false);
    var i := 0;
    while i < |data|
      invariant 0 <= i <= |data|
      invariant forall b: nat :: b < 8 * i ==> bitmap[b] == BitOf(data, b)
      invariant forall b: nat :: 8 * i <= b < 8 * |data| ==> !bitmap[b]
    {
      var bit := 0;
      while bit < 8
        invariant 0 <= bit <= 8
        invariant forall b: nat :: b < 8 * i + bit ==> bitmap[b] == BitOf(data, b)
        invariant forall b: nat :: 8 * i + bit <= b < 8 * |data| ==> !bitmap[b]
      {
        assert (8 * i + bit) / 8 == i && (8 * i + bit) % 8 == bit;
        if data[i] & (1 << bit) != 0 {
          bitmap[8 * i + bit] := true;
        }
        bit := bit + 1;
      }
      i := i + 1;
    }
    flags := bitmap[..];
    if |flags| < minSize {
      flags := flags + seq(minSize - |flags|, _ => false);
    }
  }

  /** Decoding what was encoded gives the flags back, padded with false to a whole number of bytes. */
  lemma DecodeEncoded(data: seq<bv8>, flags: seq<bool>, minSize: nat)
    requires Packs(data, flags)
    ensures |Decoded(data, minSize)| == Max(8 * ((|flags| + 7) / 8), minSize)
    ensures forall i :: 0 <= i < |Decoded(data, minSize)| ==> Decoded(data, minSize)[i] == (i < |flags| && flags[i])
  {
  }

  /** Encoding what was decoded gives the bytes back. */
  lemma EncodeDecoded(data: seq<bv8>)
    ensures Packs(data, Decoded(data, 0))
  {
  }

  /** The indices a byte string marks. */
  function Marked(data: seq<bv8>): set<nat> {
    set i: nat | i < 8 * |data| && BitOf(data, i)
  }

  /** Decode, set one flag, encode again: as sets, insertion of one index. */
  lemma MarkInserts(data: seq<bv8>, minSize: nat, idx: nat, data': seq<bv8>)
    requires idx < |Decoded(data, minSize)| && Packs(data', Decoded(data, minSize)[idx := true])
    ensures Marked(data') == Marked(data) + {idx}
    ensures |data'| == (Max(8 * |data|, minSize) + 7) / 8
  {
    var flags := Decoded(data, minSize);
    forall i: nat ensures i in Marked(data') <==> i in Marked(data) + {idx} {
      if i < |flags| {
        assert BitOf(data', i) <==> flags[idx := true][i];
      }
    }
  }
}
