/** The encrypted message envelope, mtproto/message.go. Hash, key derivation and block cipher stay
    abstract; the layout, the padding and the order of the checks are the source's. */
module Envelope {
  import opened Bytes
  import opened Ige

  type AuthKey = seq<Byte>
  type MsgKey = b: seq<Byte> | |b| == 16 witness Zeros(16)
  type IvBytes = b: seq<Byte> | |b| == 32 witness Zeros(32)

  datatype Primitives = Primitives(
    msgKey: (AuthKey, seq<Byte>, bool) -> MsgKey,
    aesKey: (AuthKey, MsgKey, bool) -> seq<Byte>,
    aesIv: (AuthKey, MsgKey, bool) -> IvBytes,
    cipher: seq<Byte> -> Cipher)

  ghost predicate Lawful(p: Primitives)
  {
    forall k :: Permutation(p.cipher(k))
  }

  datatype Inner = Inner(salt: Int64, session: Int64, msgId: Int64, seqNo: Int32, data: seq<Byte>)
  datatype Message = Message(authKeyId: Uint64, msgKey: MsgKey, encrypted: seq<Byte>)

  datatype Error = RandomFailed | InvalidLength | MsgKeyMismatch | UnexpectedEOF
  datatype Result<T> = Ok(value: T) | Err(error: Error)

  /** Go's int32(len(data)). */
  function Truncated(n: nat): Int32
  {
    ToInt32(n % TWO_32)
  }

  function Header(m: Inner): (h: seq<Byte>)
    ensures |h| == 32
  {
    LE64(ToUint64(m.salt)) + LE64(ToUint64(m.session)) + LE64(ToUint64(m.msgId)) + LE32(ToUint32(m.seqNo)) +
    LE32(ToUint32(Truncated(|m.data|)))
  }

  /** The padding the layout asks for: the least of at least 12 bytes that fills the last block. */
  function Padding(length: nat): (p: nat)
    ensures 12 <= p <= 27 && (length + p) % 16 == 0
  {
    var fill := (16 - length % 16) % 16;
    if fill < 12 then fill + 16 else fill
  }

  /** The source computes it by rounding up, and caps it at 1024, which is never reached. */
  method ComputePadding(currentLen: nat) returns (p: nat)
    ensures p == Padding(currentLen)
  {
    var alignmentPadding := (16 - currentLen % 16) % 16;
    var totalPadding := alignmentPadding;
    if totalPadding < 12 {
      var additional := 12 - totalPadding;
      additional := (additional + 15) / 16 * 16;
      totalPadding := totalPadding + additional;
    }
    assert totalPadding <= 1024;
    p := totalPadding;
  }

  function Plain(m: Inner, pad: seq<Byte>): seq<Byte>
  {
    Header(m) + m.data + pad
  }

  method Serialize(m: Inner, random: seq<Byte>) returns (r: Result<seq<Byte>>)
    ensures r == if |random| < Padding(32 + |m.data|) then Err(RandomFailed)
                 else Ok(Plain(m, random[..Padding(32 + |m.data|)]))
  {
    var buf := LE64(ToUint64(m.salt));
    buf := buf + LE64(ToUint64(m.session));
    buf := buf + LE64(ToUint64(m.msgId));
    buf := buf + LE32(ToUint32(m.seqNo));
    buf := buf + LE32(ToUint32(Truncated(|m.data|)));
    buf := buf + m.data;
    var padding := ComputePadding(|buf|);
    if |random| < padding {
      return Err(RandomFailed);
    }
    r := Ok(buf + random[..padding]);
  }

  // ---- Encryption and decryption ------------------------------------------------------------

  function Iv(iv: IvBytes): Chain
  {
    Chain(iv[..16], iv[16..])
  }

  function Sealed(p: Primitives, key: AuthKey, id: Uint64, fromClient: bool, plain: seq<Byte>): Message
    requires |plain| % 16 == 0
  {
    var msgKey := p.msgKey(key, plain, fromClient);
    Message(id, msgKey,
            Crypt(p.cipher(p.aesKey(key, msgKey, fromClient)), Iv(p.aesIv(key, msgKey, fromClient)), plain, false).out)
  }

  function Parsed(plain: seq<Byte>): Result<Inner>
  {
    if |plain| < 32 then Err(UnexpectedEOF)
    else
      var length := ToInt32(FromLE32(plain[28..32]));
      if length < 0 then Err(InvalidLength)
      else if |plain| < 32 + length then Err(UnexpectedEOF)
      else Ok(Inner(ToInt64(FromLE64(plain[..8])), ToInt64(FromLE64(plain[8..16])), ToInt64(FromLE64(plain[16..24])),
                    ToInt32(FromLE32(plain[24..28])), plain[32..32 + length]))
  }

  function Opened(p: Primitives, key: AuthKey, fromClient: bool, m: Message): Result<Inner>
  {
    if m.encrypted == [] || |m.encrypted| % 16 != 0 then Err(InvalidLength)
    else
      var plain := Crypt(p.cipher(p.aesKey(key, m.msgKey, fromClient)), Iv(p.aesIv(key, m.msgKey, fromClient)),
                         m.encrypted, true).out;
      if p.msgKey(key, plain, fromClient) != m.msgKey then Err(MsgKeyMismatch) else Parsed(plain)
  }

  method CryptWhole(c: Cipher, iv: IvBytes, src: seq<Byte>, decrypt: bool) returns (out: seq<Byte>)
    requires |src| % 16 == 0
    ensures out == Crypt(c, Iv(iv), src, decrypt).out
  {
    var mode := new Mode(c, iv, decrypt);
    var from := new Byte[|src|](i requires 0 <= i < |src| => src[i]);
    assert from[..] == src;
    var into := new Byte[|src|](i => 0);
    mode.CryptBlocks(into, from);
    out := into[..];
  }

  method Encrypt(p: Primitives, key: AuthKey, id: Uint64, fromClient: bool, m: Inner, random: seq<Byte>)
    returns (r: Result<Message>)
    ensures r.Ok? <==> |random| >= Padding(32 + |m.data|)
    ensures r.Ok? ==> r.value == Sealed(p, key, id, fromClient, Plain(m, random[..Padding(32 + |m.data|)]))
    ensures r.Ok? ==> r.value.encrypted != [] && |r.value.encrypted| % 16 == 0
  {
    var plain := Serialize(m, random);
    if plain.Err? {
      return Err(plain.error);
    }
    var msgKey := p.msgKey(key, plain.value, fromClient);
    var cipher := p.cipher(p.aesKey(key, msgKey, fromClient));
    var out := CryptWhole(cipher, p.aesIv(key, msgKey, fromClient), plain.value, false);
    r := Ok(Message(id, msgKey, out));
  }

  /** One field after another from the decrypted bytes. */
  method Take(rest: seq<Byte>, n: nat) returns (r: Result<seq<Byte>>, after: seq<Byte>)
    ensures r == if n <= |rest| then Ok(rest[..n]) else Err(UnexpectedEOF)
    ensures after == if n <= |rest| then rest[n..] else rest
  {
    if n > |rest| {
      return Err(UnexpectedEOF), rest;
    }
    r, after := Ok(rest[..n]), rest[n..];
  }

  /** Cut off the front piece by piece, or all at once. */
  lemma HeaderSlices(plain: seq<Byte>)
    requires |plain| >= 32
    ensures plain[8..][..8] == plain[8..16] && plain[8..][8..] == plain[16..]
    ensures plain[16..][..8] == plain[16..24] && plain[16..][8..] == plain[24..]
    ensures plain[24..][..4] == plain[24..28] && plain[24..][4..] == plain[28..]
    ensures plain[28..][..4] == plain[28..32] && plain[28..][4..] == plain[32..]
    ensures forall n :: 0 <= n <= |plain| - 32 ==> plain[32..][..n] == plain[32..32 + n]
  {
  }

  method Parse(plain: seq<Byte>) returns (r: Result<Inner>)
    ensures r == Parsed(plain)
  {
    var salt, a := Take(plain, 8);
    if salt.Err? { return Err(salt.error); }
    var session, b := Take(a, 8);
    if session.Err? { return Err(session.error); }
    var msgId, c := Take(b, 8);
    if msgId.Err? { return Err(msgId.error); }
    var seqNo, d := Take(c, 4);
    if seqNo.Err? { return Err(seqNo.error); }
    var size, e := Take(d, 4);
    if size.Err? { return Err(size.error); }
    HeaderSlices(plain);
    var length := ToInt32(FromLE32(size.value));
    if length < 0 {
      return Err(InvalidLength);
    }
    var data, _ := Take(e, length);
    if data.Err? {
      return Err(data.error);
    }
    r := Ok(Inner(ToInt64(FromLE64(salt.value)), ToInt64(FromLE64(session.value)), ToInt64(FromLE64(msgId.value)),
                  ToInt32(FromLE32(seqNo.value)), data.value));
  }

  method Decrypt(p: Primitives, key: AuthKey, fromClient: bool, m: Message) returns (r: Result<Inner>)
    ensures r == Opened(p, key, fromClient, m)
  {
    if |m.encrypted| == 0 || |m.encrypted| % 16 != 0 {
      return Err(InvalidLength);
    }
    var plain := CryptWhole(p.cipher(p.aesKey(key, m.msgKey, fromClient)), p.aesIv(key, m.msgKey, fromClient),
                            m.encrypted, true);
    if p.msgKey(key, plain, fromClient) != m.msgKey {
      return Err(MsgKeyMismatch);
    }
    r := Parse(plain);
  }

  // ---- Round trip ------------------------------------------------------------------------------

  /** The fields stand where Parse looks for them. */
  predicate Laid(plain: seq<Byte>, m: Inner, pad: seq<Byte>)
  {
    && |plain| == 32 + |m.data| + |pad|
    && FromLE64(plain[..8]) == ToUint64(m.salt) && FromLE64(plain[8..16]) == ToUint64(m.session)
    && FromLE64(plain[16..24]) == ToUint64(m.msgId) && FromLE32(plain[24..28]) == ToUint32(m.seqNo)
    && FromLE32(plain[28..32]) == ToUint32(Truncated(|m.data|))
    && plain[32..] == m.data + pad
  }

  lemma HeaderFields(m: Inner, pad: seq<Byte>)
    ensures Laid(Plain(m, pad), m, pad)
  {
    var plain := Plain(m, pad);
    LE64RoundTrip(ToUint64(m.salt));
    LE64RoundTrip(ToUint64(m.session));
    LE64RoundTrip(ToUint64(m.msgId));
    LE32RoundTrip(ToUint32(m.seqNo));
    LE32RoundTrip(ToUint32(Truncated(|m.data|)));
    assert plain[..8] == LE64(ToUint64(m.salt)) && plain[8..16] == LE64(ToUint64(m.session));
    assert plain[16..24] == LE64(ToUint64(m.msgId)) && plain[24..28] == LE32(ToUint32(m.seqNo));
    assert plain[28..32] == LE32(ToUint32(Truncated(|m.data|)));
  }

  lemma TruncatedExactly(n: nat)
    ensures Truncated(n) == n <==> n < TWO_31
  {
  }

  lemma LaidParses(plain: seq<Byte>, m: Inner, pad: seq<Byte>)
    requires Laid(plain, m, pad)
    ensures Parsed(plain) == Ok(m) <==> |m.data| < TWO_31
  {
    var length := Truncated(|m.data|);
    TruncatedExactly(|m.data|);
    if 0 <= length && 32 + length <= |plain| {
      assert plain[32..32 + length] == (m.data + pad)[..length];
      assert length == |m.data| ==> (m.data + pad)[..length] == m.data;
    }
  }

  /** Decrypting what Encrypt produced gives the message back exactly when the length fits an int32. */
  lemma EnvelopeRoundTrip(p: Primitives, key: AuthKey, id: Uint64, fromClient: bool, m: Inner, pad: seq<Byte>)
    requires Lawful(p) && |pad| == Padding(32 + |m.data|)
    ensures Opened(p, key, fromClient, Sealed(p, key, id, fromClient, Plain(m, pad))) == Ok(m) <==> |m.data| < TWO_31
  {
    var plain := Plain(m, pad);
    var msgKey := p.msgKey(key, plain, fromClient);
    CryptUndone(p.cipher(p.aesKey(key, msgKey, fromClient)), Iv(p.aesIv(key, msgKey, fromClient)), plain, false);
    HeaderFields(m, pad);
    LaidParses(plain, m, pad);
  }
}
