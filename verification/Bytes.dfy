/** Bytes, little-endian words, exclusive or and flag-word bits: the arithmetic that
    every codec and cipher of the server is built on. */
module Bytes {
  type Byte = x: int | 0 <= x < 256

  const TWO_31 := 0x8000_0000
  const TWO_32 := 0x1_0000_0000
  const TWO_63 := 0x8000_0000_0000_0000
  const TWO_64 := 0x1_0000_0000_0000_0000

  type Uint32 = x: int | 0 <= x < TWO_32
  type Uint64 = x: int | 0 <= x < TWO_64
  type Int32 = x: int | -TWO_31 <= x < TWO_31
  type Int64 = x: int | -TWO_63 <= x < TWO_63

  /** Go's conversions between signed and unsigned words of one width. */
  function ToUint32(v: Int32): Uint32 { if v < 0 then v + TWO_32 else v }

  function ToInt32(v: Uint32): Int32 { if v < TWO_31 then v else v - TWO_32 }

  function ToUint64(v: Int64): Uint64 { if v < 0 then v + TWO_64 else v }

  function ToInt64(v: Uint64): Int64 { if v < TWO_63 then v else v - TWO_64 }

  function Zeros(n: nat): (z: seq<Byte>)
    ensures |z| == n
  {
    seq(n, _ => 0)
  }

  /** The low-order bytes of a word, least significant first. */
  function LE24(v: nat): (bs: seq<Byte>)
    ensures |bs| == 3
  {
    [v % 256, v / 256 % 256, v / 256 / 256 % 256]
  }

  function LE32(v: nat): (bs: seq<Byte>)
    ensures |bs| == 4
  {
    [v % 256, v / 256 % 256, v / 256 / 256 % 256, v / 256 / 256 / 256 % 256]
  }

  function LE64(v: nat): (bs: seq<Byte>)
    ensures |bs| == 8
  {
    LE32(v % TWO_32) + LE32(v / TWO_32)
  }

  /** The number a little-endian byte string stands for. */
  function FromLE24(bs: seq<Byte>): (v: nat)
    requires |bs| == 3
    ensures v <= 0xFF_FFFF
  {
    var n: seq<int> := bs;
    n[0] + 256 * n[1] + 0x1_0000 * n[2]
  }

  function FromLE32(bs: seq<Byte>): (v: Uint32)
    requires |bs| == 4
  {
    var n: seq<int> := bs;
    n[0] + 256 * n[1] + 0x1_0000 * n[2] + 0x100_0000 * n[3]
  }

  function FromLE64(bs: seq<Byte>): (v: Uint64)
    requires |bs| == 8
  {
    FromLE32(bs[..4]) + TWO_32 * FromLE32(bs[4..])
  }

  lemma LE24RoundTrip(v: nat)
    requires v <= 0xFF_FFFF
    ensures FromLE24(LE24(v)) == v
  {
  }

  lemma LE32RoundTrip(v: Uint32)
    ensures FromLE32(LE32(v)) == v
  {
  }

  lemma LE64RoundTrip(v: Uint64)
    ensures FromLE64(LE64(v)) == v
  {
    LE32RoundTrip(v % TWO_32);
    LE32RoundTrip(v / TWO_32);
    var bs := LE64(v);
    assert bs[..4] == LE32(v % TWO_32) && bs[4..] == LE32(v / TWO_32);
  }

  /** Exclusive or of the n low-order bits. */
  function XorBits(a: nat, b: nat, n: nat): nat
    decreases n
  {
    if n == 0 then 0 else (if a % 2 == b % 2 then 0 else 1) + 2 * XorBits(a / 2, b / 2, n - 1)
  }

  function Pow2(n: nat): nat { if n == 0 then 1 else 2 * Pow2(n - 1) }

  lemma {:induction false} XorBitsLaws(a: nat, b: nat, n: nat)
    requires a < Pow2(n) && b < Pow2(n)
    ensures XorBits(a, b, n) < Pow2(n)
    ensures XorBits(XorBits(a, b, n), b, n) == a
    ensures XorBits(a, b, n) == XorBits(b, a, n)
    decreases n
  {
    if n > 0 {
      XorBitsLaws(a / 2, b / 2, n - 1);
      var x := XorBits(a, b, n);
      assert x / 2 == XorBits(a / 2, b / 2, n - 1);
    }
  }

  lemma Pow2Of8()
    ensures Pow2(8) == 256
  {
    assert Pow2(4) == 16;
  }

  function Xor(a: Byte, b: Byte): Byte
  {
    Pow2Of8(); XorBitsLaws(a, b, 8); XorBits(a, b, 8)
  }

  lemma XorCancels(a: Byte, b: Byte)
    ensures Xor(Xor(a, b), b) == a
    ensures Xor(a, b) == Xor(b, a)
  {
    Pow2Of8();
    XorBitsLaws(a, b, 8);
  }

  /** Exclusive or of two equally long byte strings. */
  function XorSeq(a: seq<Byte>, b: seq<Byte>): (r: seq<Byte>)
    requires |a| == |b|
    ensures |r| == |a|
  {
    seq(|a|, i requires 0 <= i < |a| => Xor(a[i], b[i]))
  }

  lemma XorSeqCancels(a: seq<Byte>, b: seq<Byte>)
    requires |a| == |b|
    ensures XorSeq(XorSeq(a, b), b) == a
  {
    forall i | 0 <= i < |a| ensures XorSeq(XorSeq(a, b), b)[i] == a[i] {
      XorCancels(a[i], b[i]);
    }
  }

  /** `w & (1 << k) != 0`. */
  predicate TestBit(w: nat, k: nat)
    decreases k
  {
    if k == 0 then w % 2 == 1 else TestBit(w / 2, k - 1)
  }

  /** `w | (1 << k)`. */
  function SetBit(w: nat, k: nat): (r: nat)
    decreases k
  {
    if k == 0 then (if w % 2 == 1 then w else w + 1) else w % 2 + 2 * SetBit(w / 2, k - 1)
  }

  lemma {:induction false} SetBitTests(w: nat, k: nat, j: nat)
    ensures TestBit(SetBit(w, k), j) <==> j == k || TestBit(w, j)
    decreases k
  {
    var r := SetBit(w, k);
    if k == 0 {
      assert r / 2 == w / 2;
    } else {
      assert r % 2 == w % 2 && r / 2 == SetBit(w / 2, k - 1);
      if j > 0 {
        SetBitTests(w / 2, k - 1, j - 1);
      }
    }
  }

  lemma {:induction false} SetBitBound(w: nat, k: nat, n: nat)
    requires k < n && w < Pow2(n)
    ensures SetBit(w, k) < Pow2(n)
    decreases k
  {
    if k > 0 {
      SetBitBound(w / 2, k - 1, n - 1);
    } else {
      assert Pow2(n) % 2 == 0;
    }
  }

  lemma {:induction false} ZeroHasNoBits(k: nat)
    ensures !TestBit(0, k)
  {
    if k > 0 {
      ZeroHasNoBits(k - 1);
    }
  }

  /** Two words of n bits that agree on every bit are equal. */
  lemma {:induction false} BitsDetermine(a: nat, b: nat, n: nat)
    requires a < Pow2(n) && b < Pow2(n)
    requires forall j: nat :: j < n ==> (TestBit(a, j) <==> TestBit(b, j))
    ensures a == b
    decreases n
  {
    if n > 0 {
      assert TestBit(a, 0) <==> TestBit(b, 0);
      forall j: nat | j < n - 1 ensures TestBit(a / 2, j) <==> TestBit(b / 2, j) {
        assert TestBit(a, j + 1) <==> TestBit(b, j + 1);
      }
      BitsDetermine(a / 2, b / 2, n - 1);
    }
  }

  lemma Pow2Of32()
    ensures Pow2(32) == TWO_32
  {
    assert Pow2(8) == 256 by { Pow2Of8(); }
    assert Pow2(16) == 256 * Pow2(8);
    assert Pow2(24) == 256 * Pow2(16);
    assert Pow2(32) == 256 * Pow2(24);
  }
}
