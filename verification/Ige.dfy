/** AES in infinite garble extension mode, crypto/aes.go, over any 16-byte block permutation. */
module Ige {
  import opened Bytes

  type Block = b: seq<Byte> | |b| == 16 witness Zeros(16)

  datatype Cipher = Cipher(encrypt: Block -> Block, decrypt: Block -> Block)

  /** The only law asked of the block cipher. */
  ghost predicate Permutation(c: Cipher)
  {
    forall b: Block :: c.decrypt(c.encrypt(b)) == b && c.encrypt(c.decrypt(b)) == b
  }

  datatype Chain = Chain(cipher: Block, plain: Block)
  datatype Run = Run(out: seq<Byte>, chain: Chain)

  function Encrypted(c: Cipher, v: Chain, b: Block): Block
  {
    XorSeq(c.encrypt(XorSeq(b, v.cipher)), v.plain)
  }

  function Decrypted(c: Cipher, v: Chain, b: Block): Block
  {
    XorSeq(c.decrypt(XorSeq(b, v.plain)), v.cipher)
  }

  function Output(c: Cipher, v: Chain, b: Block, decrypt: bool): Block
  {
    if decrypt then Decrypted(c, v, b) else Encrypted(c, v, b)
  }

  function Next(c: Cipher, v: Chain, b: Block, decrypt: bool): Chain
  {
    if decrypt then Chain(b, Decrypted(c, v, b)) else Chain(Encrypted(c, v, b), b)
  }

  /** The mode over whole blocks: output, and the chaining state after it. */
  function Crypt(c: Cipher, v: Chain, src: seq<Byte>, decrypt: bool): (r: Run)
    requires |src| % 16 == 0
    ensures |r.out| == |src|
    decreases |src|
  {
    if src == [] then Run([], v)
    else
      var b: Block := src[..16];
      var rest := Crypt(c, Next(c, v, b, decrypt), src[16..], decrypt);
      Run(Output(c, v, b, decrypt) + rest.out, rest.chain)
  }

  lemma BlockUndone(c: Cipher, v: Chain, b: Block)
    requires Permutation(c)
    ensures Decrypted(c, v, Encrypted(c, v, b)) == b && Encrypted(c, v, Decrypted(c, v, b)) == b
  {
    XorSeqCancels(b, v.cipher);
    XorSeqCancels(b, v.plain);
    XorSeqCancels(c.encrypt(XorSeq(b, v.cipher)), v.plain);
    XorSeqCancels(c.decrypt(XorSeq(b, v.plain)), v.cipher);
  }

  /** Each direction undoes the other, and both end in the same chaining state. */
  lemma {:induction false} CryptUndone(c: Cipher, v: Chain, src: seq<Byte>, decrypt: bool)
    requires Permutation(c) && |src| % 16 == 0
    ensures Crypt(c, v, Crypt(c, v, src, decrypt).out, !decrypt) == Run(src, Crypt(c, v, src, decrypt).chain)
    decreases |src|
  {
    if src != [] {
      var b: Block := src[..16];
      BlockUndone(c, v, b);
      var out := Crypt(c, v, src, decrypt).out;
      var o := Output(c, v, b, decrypt);
      assert out[..16] == o && out[16..] == Crypt(c, Next(c, v, b, decrypt), src[16..], decrypt).out;
      assert Next(c, v, o, !decrypt) == Next(c, v, b, decrypt);
      CryptUndone(c, Next(c, v, b, decrypt), src[16..], decrypt);
      assert src == b + src[16..];
    }
  }

  /** Splitting the input between two calls changes nothing. */
  lemma {:induction false} CryptSplit(c: Cipher, v: Chain, a: seq<Byte>, b: seq<Byte>, decrypt: bool)
    requires |a| % 16 == 0 && |b| % 16 == 0
    ensures var first := Crypt(c, v, a, decrypt);
            var second := Crypt(c, first.chain, b, decrypt);
            Crypt(c, v, a + b, decrypt) == Run(first.out + second.out, second.chain)
    decreases |a|
  {
    if a == [] {
      assert a + b == b;
      assert Crypt(c, v, a, decrypt).out + Crypt(c, v, b, decrypt).out == Crypt(c, v, b, decrypt).out;
    } else {
      var h: Block := a[..16];
      var n := Next(c, v, h, decrypt);
      assert (a + b)[..16] == h && (a + b)[16..] == a[16..] + b;
      CryptSplit(c, n, a[16..], b, decrypt);
      var o := Output(c, v, h, decrypt);
      var first := Crypt(c, n, a[16..], decrypt);
      var second := Crypt(c, first.chain, b, decrypt);
      assert o + (first.out + second.out) == (o + first.out) + second.out;
    }
  }

  lemma Middle(a: seq<Byte>, b: Block, c: seq<Byte>)
    ensures (a + b + c)[|a|..|a| + 16] == b
    ensures (a + b + c)[..|a| + 16] == a + b && (a + b + c)[|a| + 16..] == c
  {
  }

  lemma OneByte(before: seq<Byte>, x: Block, at: nat, i: nat)
    requires at + 16 <= |before| && i < 16
    ensures (before[..at] + x[..i] + before[at + i..])[at + i := x[i]] ==
            before[..at] + x[..i + 1] + before[at + i + 1..]
  {
  }

  /** dst[at..at + 16] := a xor b. */
  method XorBlock(dst: array<Byte>, at: nat, a: Block, b: Block)
    requires at + 16 <= dst.Length
    modifies dst
    ensures dst[..] == old(dst[..at]) + XorSeq(a, b) + old(dst[at + 16..])
  {
    ghost var x, before := XorSeq(a, b), dst[..];
    for i := 0 to 16
      invariant dst[..] == before[..at] + x[..i] + before[at + i..]
    {
      ghost var was := dst[..];
      dst[at + i] := Xor(a[i], b[i]);
      assert dst[..] == was[at + i := x[i]];
      OneByte(before, x, at, i);
    }
    assert x[..16] == x;
  }

  lemma OneMore(c: Cipher, v: Chain, src: seq<Byte>, i: nat, decrypt: bool)
    requires i % 16 == 0 && i + 16 <= |src|
    ensures var done := Crypt(c, v, src[..i], decrypt);
            var b: Block := src[i..i + 16];
            Crypt(c, v, src[..i + 16], decrypt) ==
            Run(done.out + Output(c, done.chain, b, decrypt), Next(c, done.chain, b, decrypt))
  {
    var b: Block := src[i..i + 16];
    assert src[..i + 16] == src[..i] + b;
    CryptSplit(c, v, src[..i], b, decrypt);
    assert b[..16] == b && b[16..] == [];
    var o := Output(c, Crypt(c, v, src[..i], decrypt).chain, b, decrypt);
    assert o + [] == o;
  }

  /** One turn of the block loop, in terms of the buffers before and after it. */
  lemma StepDone(c: Cipher, start: Chain, v: Chain, input: seq<Byte>, read: seq<Byte>, before: seq<Byte>,
                 after: seq<Byte>, i: nat, decrypt: bool)
    requires i % 16 == 0 && i + 16 <= |input| == |read| <= |before| && read[i..] == input[i..]
    requires Run(before[..i], v) == Crypt(c, start, input[..i], decrypt)
    requires after == before[..i] + Output(c, v, read[i..i + 16], decrypt) + before[i + 16..]
    ensures Run(after[..i + 16], Next(c, v, read[i..i + 16], decrypt)) == Crypt(c, start, input[..i + 16], decrypt)
    ensures read[i + 16..] == input[i + 16..] && after[i + 16..] == before[i + 16..]
    ensures after[|input|..] == before[|input|..]
  {
    assert read[i..i + 16] == read[i..][..16] == input[i..][..16] == input[i..i + 16];
    assert read[i + 16..] == read[i..][16..] && input[i + 16..] == input[i..][16..];
    OneMore(c, start, input, i, decrypt);
  }

  class Mode {
    const block: Cipher
    const decrypt: bool
    var chain: Chain

    constructor (block: Cipher, iv: seq<Byte>, decrypt: bool)
      requires |iv| == 32
      ensures this.block == block && this.decrypt == decrypt && chain == Chain(iv[..16], iv[16..])
    {
      this.block, this.decrypt, this.chain := block, decrypt, Chain(iv[..16], iv[16..]);
    }

    /** One block, already copied out of the source, into dst[at..at + 16]. */
    method CryptOne(dst: array<Byte>, at: nat, srcBlock: Block)
      requires at + 16 <= dst.Length
      modifies this, dst
      ensures dst[..] == old(dst[..at]) + Output(block, old(chain), srcBlock, decrypt) + old(dst[at + 16..])
      ensures chain == Next(block, old(chain), srcBlock, decrypt)
    {
      ghost var before := dst[..];
      if decrypt {
        var tmp := block.decrypt(XorSeq(srcBlock, chain.plain));
        XorBlock(dst, at, tmp, chain.cipher);
        Middle(before[..at], Output(block, chain, srcBlock, decrypt), before[at + 16..]);
        chain := Chain(srcBlock, dst[..][at..at + 16]);
      } else {
        var tmp := block.encrypt(XorSeq(srcBlock, chain.cipher));
        XorBlock(dst, at, tmp, chain.plain);
        Middle(before[..at], Output(block, chain, srcBlock, decrypt), before[at + 16..]);
        chain := Chain(dst[..][at..at + 16], srcBlock);
      }
    }

    /** The block loop; dst may be src itself. */
    method CryptBlocks(dst: array<Byte>, src: array<Byte>)
      requires src.Length % 16 == 0 && src.Length <= dst.Length
      modifies this, dst
      ensures Run(dst[..src.Length], chain) == Crypt(block, old(chain), old(src[..]), decrypt)
      ensures dst[src.Length..] == old(dst[src.Length..])
    {
      ghost var input, start := src[..], chain;
      var i := 0;
      while i < src.Length
        invariant i <= src.Length && i % 16 == 0
        invariant src[i..] == input[i..] && dst[src.Length..] == old(dst[src.Length..])
        invariant Run(dst[..i], chain) == Crypt(block, start, input[..i], decrypt)
      {
        ghost var before, read, v := dst[..], src[..], chain;
        var srcBlock: Block := src[i..i + 16];
        CryptOne(dst, i, srcBlock);
        StepDone(block, start, v, input, read, before, dst[..], i, decrypt);
        assert src != dst ==> src[..] == read;
        i := i + 16;
      }
      assert input[..i] == input;
    }
  }
}
