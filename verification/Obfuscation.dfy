/** Obfuscated transport, transport/obfuscated2.go and transport/negotiator.go: what the two ends
    derive from one 64-byte header, and how a server tells it from the plain protocols. AES in
    counter mode is a keystream by position, SHA-256 a function. */
module Obfuscation {
  import opened Bytes
  import opened Common
  import opened Stream

  datatype Primitives = Primitives(
    keystream: (seq<Byte>, seq<Byte>, nat) -> Byte,
    hash: (seq<Byte>, seq<Byte>) -> seq<Byte>)

  /** One direction: key, counter block and how many bytes have gone through. */
  datatype Direction = Direction(key: seq<Byte>, iv: seq<Byte>, position: nat)
  datatype Streams = Streams(encrypt: Direction, decrypt: Direction, tag: Uint32)

  // ---- Keystream ----------------------------------------------------------------------------

  function Keystream(p: Primitives, d: Direction, n: nat): (r: seq<Byte>)
    ensures |r| == n
  {
    seq<Byte>(n, i requires 0 <= i < n => p.keystream(d.key, d.iv, d.position + i))
  }

  function Keyed(p: Primitives, d: Direction, data: seq<Byte>): (r: seq<Byte>)
    ensures |r| == |data|
  {
    XorSeq(data, Keystream(p, d, |data|))
  }

  function Past(d: Direction, n: nat): Direction
  {
    d.(position := d.position + n)
  }

  lemma KeyedCancels(p: Primitives, d: Direction, data: seq<Byte>)
    ensures Keyed(p, d, Keyed(p, d, data)) == data
  {
    XorSeqCancels(data, Keystream(p, d, |data|));
  }

  lemma KeyedSplit(p: Primitives, d: Direction, a: seq<Byte>, b: seq<Byte>)
    ensures Keyed(p, d, a + b) == Keyed(p, d, a) + Keyed(p, Past(d, |a|), b)
  {
  }

  function Flatten(chunks: seq<seq<Byte>>): seq<Byte>
  {
    if chunks == [] then [] else chunks[0] + Flatten(chunks[1..])
  }

  /** Chunk by chunk, as Read and Write do it. */
  function KeyedChunks(p: Primitives, d: Direction, chunks: seq<seq<Byte>>): (r: seq<seq<Byte>>)
    decreases |chunks|
  {
    if chunks == [] then [] else [Keyed(p, d, chunks[0])] + KeyedChunks(p, Past(d, |chunks[0]|), chunks[1..])
  }

  lemma {:induction false} ChunkingIrrelevant(p: Primitives, d: Direction, chunks: seq<seq<Byte>>)
    ensures Flatten(KeyedChunks(p, d, chunks)) == Keyed(p, d, Flatten(chunks))
    decreases |chunks|
  {
    if chunks == [] {
      assert Keyed(p, d, Flatten(chunks)) == [];
    } else {
      ChunkingIrrelevant(p, Past(d, |chunks[0]|), chunks[1..]);
      KeyedSplit(p, d, chunks[0], Flatten(chunks[1..]));
      assert KeyedChunks(p, d, chunks)[1..] == KeyedChunks(p, Past(d, |chunks[0]|), chunks[1..]);
    }
  }

  /** The pieces read so far are the front of what the pieces written put on the wire. */
  predicate Arrived(p: Primitives, d: Direction, written: seq<seq<Byte>>, read: seq<seq<Byte>>)
  {
    Flatten(read) <= Flatten(KeyedChunks(p, d, written))
  }

  /** Whatever pieces are written and whatever pieces the wire is read in, the reader gets the bytes
      that were written, as far as they have arrived. */
  lemma ReadsWhatWasWritten(p: Primitives, d: Direction, written: seq<seq<Byte>>, read: seq<seq<Byte>>)
    requires Arrived(p, d, written, read)
    ensures |Flatten(read)| <= |Flatten(written)|
    ensures Flatten(KeyedChunks(p, d, read)) == Flatten(written)[..|Flatten(read)|]
  {
    ChunkingIrrelevant(p, d, written);
    ChunkingIrrelevant(p, d, read);
    var n, plain := |Flatten(read)|, Flatten(written);
    KeyedSplit(p, d, plain[..n], plain[n..]);
    assert plain == plain[..n] + plain[n..];
    assert Flatten(read) == Keyed(p, d, plain)[..n] == Keyed(p, d, plain[..n]);
    KeyedCancels(p, d, plain[..n]);
  }

  // ---- Headers ------------------------------------------------------------------------------

  const DISALLOWED: seq<Uint32> :=
    [0x44414548, 0x54534f50, 0x20544547, 0x4954504f, 0xEEEE_EEEE, 0xDDDD_DDDD, 0x02010316, 0]

  function FirstWord(h: seq<Byte>): Uint32
    requires |h| >= 4
  {
    FromLE32(h[..4])
  }

  /** A header that could be taken for another protocol. */
  predicate Disallowed(h: seq<Byte>)
  {
    || |h| < 4
    || FirstWord(h) in DISALLOWED
    || h[0] == 0xEF
    || (|h| >= 8 && h[4] == 0 && h[5] == 0 && h[6] == 0 && h[7] == 0)
  }

  method IsDisallowedHeader(h: seq<Byte>) returns (b: bool)
    ensures b <==> Disallowed(h)
  {
    if |h| < 4 {
      return true;
    }
    var v := FromLE32(h[..4]);
    for i := 0 to |DISALLOWED|
      invariant v !in DISALLOWED[..i]
    {
      if v == DISALLOWED[i] {
        return true;
      }
    }
    assert DISALLOWED[..|DISALLOWED|] == DISALLOWED;
    if h[0] == 0xEF {
      return true;
    }
    if |h| >= 8 {
      if h[4] == 0 && h[5] == 0 && h[6] == 0 && h[7] == 0 {
        return true;
      }
    }
    b := false;
  }

  function Reversed(s: seq<Byte>): (r: seq<Byte>)
    ensures |r| == |s|
  {
    seq(|s|, i requires 0 <= i < |s| => s[|s| - 1 - i])
  }

  method ReverseBytes(data: seq<Byte>) returns (out: array<Byte>)
    ensures out[..] == Reversed(data)
  {
    out := new Byte[|data|](_ => 0);
    for i := 0 to |data|
      invariant forall k :: 0 <= k < i ==> out[k] == data[|data| - 1 - k]
    {
      out[i] := data[|data| - 1 - i];
    }
  }

  function WithSecret(p: Primitives, key: seq<Byte>, secret: seq<Byte>): seq<Byte>
  {
    if secret == [] then key else p.hash(key, secret)
  }

  /** The direction a header's own bytes give, at position 0. */
  function Derived(p: Primitives, h: seq<Byte>, secret: seq<Byte>): Direction
    requires |h| == 64
  {
    Direction(WithSecret(p, h[8..40], secret), h[40..56], 0)
  }

  /** The header sent, and the streams kept, for one accepted random draw. */
  function Client(p: Primitives, tag: Uint32, secret: seq<Byte>, draw: seq<Byte>): (seq<Byte>, Streams)
    requires |draw| == 64
  {
    var init := draw[..56] + LE32(tag) + draw[60..];
    var out := Derived(p, init, secret);
    (init[..56] + Keyed(p, out, init)[56..], Streams(Past(out, 64), Derived(p, Reversed(init), secret), tag))
  }

  function Server(p: Primitives, header: seq<Byte>, secret: seq<Byte>): Option<Streams>
  {
    if |header| != 64 || Disallowed(header) then None
    else
      var own := Derived(p, header, secret);
      Some(Streams(Derived(p, Reversed(header), secret), Past(own, 64), FromLE32(Keyed(p, own, header)[56..60])))
  }

  lemma HeaderKeepsKeys(p: Primitives, secret: seq<Byte>, a: seq<Byte>, b: seq<Byte>)
    requires |a| == |b| == 64 && a[..56] == b[..56]
    ensures Derived(p, a, secret) == Derived(p, b, secret)
    ensures Derived(p, Reversed(a), secret) == Derived(p, Reversed(b), secret)
    ensures Disallowed(a) <==> Disallowed(b)
  {
    assert forall i :: 0 <= i < 56 ==> a[i] == a[..56][i] && b[i] == b[..56][i];
    assert a[8..40] == b[8..40] && a[40..56] == b[40..56] && a[..4] == b[..4];
    assert Reversed(a)[8..40] == Reversed(b)[8..40] && Reversed(a)[40..56] == Reversed(b)[40..56];
  }

  /** For every draw the client accepts, the server derives the mirrored directions at the same
      positions and reads the tag back. */
  lemma EndsAgree(p: Primitives, tag: Uint32, secret: seq<Byte>, draw: seq<Byte>)
    requires |draw| == 64 && !Disallowed(draw)
    ensures var (header, c) := Client(p, tag, secret, draw);
            |header| == 64 && header[..56] == draw[..56] &&
            Server(p, header, secret) == Some(Streams(c.decrypt, c.encrypt, tag))
  {
    var (header, c) := Client(p, tag, secret, draw);
    var init := draw[..56] + LE32(tag) + draw[60..];
    assert init[..56] == draw[..56] && header[..56] == draw[..56];
    HeaderKeepsKeys(p, secret, draw, header);
    HeaderKeepsKeys(p, secret, init, header);
    var d := Derived(p, init, secret);
    TagSurvives(p, d, init, header, tag);
  }

  /** The two ends of one accepted draw understand each other in both directions: whatever either end
      writes after the header, in any pieces, the other reads in any pieces. */
  lemma EndsTalk(p: Primitives, tag: Uint32, secret: seq<Byte>, draw: seq<Byte>, written: seq<seq<Byte>>,
                 read: seq<seq<Byte>>)
    requires |draw| == 64 && !Disallowed(draw)
    ensures var (header, c) := Client(p, tag, secret, draw);
            var server := Server(p, header, secret);
            && server.Some?
            && (Arrived(p, c.encrypt, written, read) ==>
                  |Flatten(read)| <= |Flatten(written)| &&
                  Flatten(KeyedChunks(p, server.value.decrypt, read)) == Flatten(written)[..|Flatten(read)|])
            && (Arrived(p, server.value.encrypt, written, read) ==>
                  |Flatten(read)| <= |Flatten(written)| &&
                  Flatten(KeyedChunks(p, c.decrypt, read)) == Flatten(written)[..|Flatten(read)|])
  {
    var (header, c) := Client(p, tag, secret, draw);
    EndsAgree(p, tag, secret, draw);
    if Arrived(p, c.encrypt, written, read) {
      ReadsWhatWasWritten(p, c.encrypt, written, read);
    }
    if Arrived(p, c.decrypt, written, read) {
      ReadsWhatWasWritten(p, c.decrypt, written, read);
    }
  }

  lemma TagSurvives(p: Primitives, d: Direction, init: seq<Byte>, header: seq<Byte>, tag: Uint32)
    requires |init| == |header| == 64 && init[56..60] == LE32(tag) && header[56..] == Keyed(p, d, init)[56..]
    ensures FromLE32(Keyed(p, d, header)[56..60]) == tag
  {
    forall i | 56 <= i < 60
      ensures Keyed(p, d, header)[i] == init[i]
    {
      assert header[i] == header[56..][i - 56] == Keyed(p, d, init)[56..][i - 56] == Keyed(p, d, init)[i];
      XorCancels(init[i], Keystream(p, d, 64)[i]);
    }
    assert Keyed(p, d, header)[56..60] == init[56..60];
    LE32RoundTrip(tag);
  }

  // ---- Both ends as they run --------------------------------------------------------------------

  /** A cipher.Stream: XORKeyStream moves it on. */
  class Ctr {
    const p: Primitives
    const key: seq<Byte>
    const iv: seq<Byte>
    var position: nat

    ghost function State(): Direction
      reads this
    {
      Direction(key, iv, position)
    }

    constructor (p: Primitives, key: seq<Byte>, iv: seq<Byte>)
      ensures this.p == p && State() == Direction(key, iv, 0)
    {
      this.p, this.key, this.iv, this.position := p, key, iv, 0;
    }

    method XorKeyStream(data: seq<Byte>) returns (out: seq<Byte>)
      modifies this
      ensures out == Keyed(p, old(State()), data) && State() == Past(old(State()), |data|)
    {
      out := Keyed(p, Direction(key, iv, position), data);
      position := position + |data|;
    }
  }

  datatype Ends = Ends(encrypt: Ctr, decrypt: Ctr, tag: Uint32)

  /** The first acceptable 64-byte draw from the random supply, or none when the supply fails first. */
  method DrawInit(random: seq<Byte>) returns (draw: Option<seq<Byte>>)
    ensures draw.Some? ==> |draw.value| == 64 && !Disallowed(draw.value)
    ensures draw.Some? ==> exists k :: 0 <= k && 64 * k + 64 <= |random| && draw.value == random[64 * k..64 * k + 64] &&
                                       forall j :: 0 <= j < k ==> Disallowed(random[64 * j..64 * j + 64])
    ensures draw.None? ==> forall j :: 0 <= j && 64 * j + 64 <= |random| ==> Disallowed(random[64 * j..64 * j + 64])
  {
    var k := 0;
    while 64 * k + 64 <= |random|
      invariant forall j :: 0 <= j < k ==> 64 * j + 64 <= |random| && Disallowed(random[64 * j..64 * j + 64])
      decreases |random| - 64 * k
    {
      var init := random[64 * k..64 * k + 64];
      var bad := IsDisallowedHeader(init);
      if !bad {
        return Some(init);
      }
      k := k + 1;
    }
    draw := None;
  }

  method NewClientObfuscated(p: Primitives, tag: Uint32, secret: seq<Byte>, draw: seq<Byte>)
    returns (header: seq<Byte>, ends: Ends)
    requires |draw| == 64
    ensures fresh(ends.encrypt) && fresh(ends.decrypt) && ends.encrypt != ends.decrypt
    ensures ends.encrypt.p == p && ends.decrypt.p == p
    ensures (header, Streams(ends.encrypt.State(), ends.decrypt.State(), ends.tag)) == Client(p, tag, secret, draw)
  {
    var init := draw[..56] + LE32(tag) + draw[60..];
    var back := ReverseBytes(init);
    var encrypt := new Ctr(p, WithSecret(p, init[8..40], secret), init[40..56]);
    var decrypt := new Ctr(p, WithSecret(p, back[8..40], secret), back[40..56]);
    assert back[8..40] == Reversed(init)[8..40] && back[40..56] == Reversed(init)[40..56];
    var encrypted := encrypt.XorKeyStream(init);
    header := init[..56] + encrypted[56..];
    ends := Ends(encrypt, decrypt, tag);
  }

  method NewServerObfuscated(p: Primitives, header: seq<Byte>, secret: seq<Byte>) returns (ends: Option<Ends>)
    ensures ends.None? <==> Server(p, header, secret).None?
    ensures ends.Some? ==>
              && fresh(ends.value.encrypt) && fresh(ends.value.decrypt) && ends.value.encrypt != ends.value.decrypt
              && ends.value.encrypt.p == p && ends.value.decrypt.p == p
              && Server(p, header, secret) ==
                 Some(Streams(ends.value.encrypt.State(), ends.value.decrypt.State(), ends.value.tag))
  {
    if |header| != 64 {
      return None;
    }
    var bad := IsDisallowedHeader(header);
    if bad {
      return None;
    }
    var back := ReverseBytes(header);
    var encrypt := new Ctr(p, WithSecret(p, back[8..40], secret), back[40..56]);
    var decrypt := new Ctr(p, WithSecret(p, header[8..40], secret), header[40..56]);
    assert back[8..40] == Reversed(header)[8..40] && back[40..56] == Reversed(header)[40..56];
    var plain := decrypt.XorKeyStream(header);
    ends := Some(Ends(encrypt, decrypt, FromLE32(plain[56..60])));
  }

  /** Reads and writes through the two directions, in pieces of any size. */
  class ObfuscatedStream {
    const source: Source
    const sink: Sink
    const e: Ctr
    const d: Ctr

    constructor (source: Source, sink: Sink, e: Ctr, d: Ctr)
      requires e != d
      ensures this.source == source && this.sink == sink && this.e == e && this.d == d
    {
      this.source, this.sink, this.e, this.d := source, sink, e, d;
    }

    method Read(n: nat) returns (got: seq<Byte>)
      modifies source, d
      ensures |got| <= n && |got| <= |old(source.data)| && source.data == old(source.data)[|got|..]
      ensures got == Keyed(d.p, old(d.State()), old(source.data)[..|got|]) && d.State() == Past(old(d.State()), |got|)
    {
      var raw := source.Read(n);
      assert raw == old(source.data)[..|raw|];
      got := raw;
      if |raw| > 0 {
        got := d.XorKeyStream(raw);
      }
    }

    method Write(p: seq<Byte>) returns (ok: bool)
      modifies sink, e
      ensures ok <==> |p| <= old(sink.room)
      ensures ok ==> sink.data == old(sink.data) + Keyed(e.p, old(e.State()), p)
      ensures sink.data == old(sink.data) + Keyed(e.p, old(e.State()), p)[..Least(|p|, old(sink.room))]
      ensures e.State() == Past(old(e.State()), |p|)
    {
      var buf := e.XorKeyStream(p);
      ok := sink.Write(buf);
    }
  }

  // ---- Negotiation -------------------------------------------------------------------------------

  datatype Codec = Abridged | Intermediate | PaddedIntermediate | Full

  function Tag(c: Codec): Uint32
  {
    match c
    case Abridged => 0xEFEF_EFEF
    case Intermediate => 0xEEEE_EEEE
    case PaddedIntermediate => 0xDDDD_DDDD
    case Full => 0
  }

  function CodecFromTag(tag: Uint32): (c: Option<Codec>)
    ensures c.Some? ==> Tag(c.value) == tag && !c.value.Full?
    ensures forall k: Codec :: !k.Full? && Tag(k) == tag ==> c == Some(k)
  {
    if tag == 0xEEEE_EEEE then Some(Intermediate)
    else if tag == 0xDDDD_DDDD then Some(PaddedIntermediate)
    else if tag == 0xEFEF_EFEF then Some(Abridged)
    else None
  }

  predicate PlausibleFullLength(length: Uint32)
  {
    12 <= length <= 0x100_0000
  }

  datatype Config = Config(allow: bool, required: bool, secret: seq<Byte>)
  /** The codec chosen, how much of the input belongs to the negotiation, and the streams if any. */
  datatype Outcome = Failed | Plain(codec: Codec, consumed: nat) | Obfuscated(codec: Codec, streams: Streams)

  function AcceptObfuscated(p: Primitives, cfg: Config, input: seq<Byte>): Outcome
  {
    if |input| < 64 then Failed
    else
      var streams := Server(p, input[..64], cfg.secret);
      if streams.None? then Failed
      else
        var codec := CodecFromTag(streams.value.tag);
        if codec.None? then Failed else Obfuscated(codec.value, streams.value)
  }

  function Negotiate(p: Primitives, cfg: Config, input: seq<Byte>): Outcome
  {
    if cfg.required then AcceptObfuscated(p, cfg, input)
    else if |input| < 4 then Failed
    else if input[0] == 0xEF then Plain(Abridged, 1)
    else if FirstWord(input) == Tag(Intermediate) then Plain(Intermediate, 4)
    else if FirstWord(input) == Tag(PaddedIntermediate) then Plain(PaddedIntermediate, 4)
    else if PlausibleFullLength(FirstWord(input)) then Plain(Full, 0)
    else if cfg.allow then AcceptObfuscated(p, cfg, input)
    else Failed
  }

  /** A client's header is recognized, with mirrored streams and the client's codec, always when
      obfuscation is required, and when it is merely allowed exactly if the header does not start
      like the length of a full-protocol frame. */
  lemma NegotiationAgrees(p: Primitives, cfg: Config, codec: Codec, draw: seq<Byte>, rest: seq<Byte>)
    requires |draw| == 64 && !Disallowed(draw) && !codec.Full? && (cfg.allow || cfg.required)
    ensures var (header, c) := Client(p, Tag(codec), cfg.secret, draw);
            Negotiate(p, cfg, header + rest) == Obfuscated(codec, Streams(c.decrypt, c.encrypt, Tag(codec))) <==>
            cfg.required || !PlausibleFullLength(FirstWord(draw))
  {
    var (header, c) := Client(p, Tag(codec), cfg.secret, draw);
    EndsAgree(p, Tag(codec), cfg.secret, draw);
    var input := header + rest;
    assert input[..64] == header;
    assert input[..4] == header[..56][..4] == draw[..56][..4] == draw[..4];
    assert input[0] == input[..4][0] == draw[..4][0];
  }

  /** What a client of a plain protocol sends first. */
  function PlainHeader(c: Codec): seq<Byte>
  {
    match c
    case Abridged => [0xEF]
    case Intermediate => [0xEE, 0xEE, 0xEE, 0xEE]
    case PaddedIntermediate => [0xDD, 0xDD, 0xDD, 0xDD]
    case Full => []
  }

  /** A plain client is understood exactly when four bytes arrive at all; the full protocol, which
      announces nothing, exactly when its first frame has a plausible length that no other protocol
      claims. */
  lemma PlainAgrees(p: Primitives, cfg: Config, codec: Codec, rest: seq<Byte>)
    requires !cfg.required
    ensures var input := PlainHeader(codec) + rest;
            Negotiate(p, cfg, input) == Plain(codec, |PlainHeader(codec)|) <==>
            |input| >= 4 && (codec.Full? ==> input[0] != 0xEF && PlausibleFullLength(FirstWord(input)))
  {
    var input := PlainHeader(codec) + rest;
    if !codec.Abridged? && !codec.Full? {
      assert input[..4] == PlainHeader(codec);
    }
  }

  /** The server's side on its buffered input: what it only looked at, it leaves there. */
  method NegotiateInput(p: Primitives, cfg: Config, r: Source) returns (o: Outcome)
    modifies r
    ensures o == Negotiate(p, cfg, old(r.data))
    ensures o.Plain? ==> o.consumed <= |old(r.data)| && r.data == old(r.data)[o.consumed..]
    ensures o.Obfuscated? ==> |old(r.data)| >= 64 && r.data == old(r.data)[64..]
  {
    if cfg.required {
      o := AcceptInput(p, cfg, r);
      return;
    }
    if |r.data| < 4 {
      return Failed;
    }
    var peek := r.data[..4];
    if peek[0] == 0xEF {
      r.data := r.data[1..];
      return Plain(Abridged, 1);
    }
    var sig := FromLE32(peek);
    if sig == Tag(Intermediate) {
      r.data := r.data[4..];
      return Plain(Intermediate, 4);
    }
    if sig == Tag(PaddedIntermediate) {
      r.data := r.data[4..];
      return Plain(PaddedIntermediate, 4);
    }
    if PlausibleFullLength(sig) {
      return Plain(Full, 0);
    }
    if cfg.allow {
      o := AcceptInput(p, cfg, r);
      return;
    }
    o := Failed;
  }

  method AcceptInput(p: Primitives, cfg: Config, r: Source) returns (o: Outcome)
    modifies r
    ensures o == AcceptObfuscated(p, cfg, old(r.data))
    ensures o.Obfuscated? ==> |old(r.data)| >= 64 && r.data == old(r.data)[64..]
  {
    if |r.data| < 64 {
      return Failed;
    }
    var init := r.data[..64];
    r.data := r.data[64..];
    var ends := NewServerObfuscated(p, init, cfg.secret);
    if ends.None? {
      return Failed;
    }
    var codec := CodecFromTag(ends.value.tag);
    if codec.None? {
      return Failed;
    }
    var e, d := ends.value.encrypt, ends.value.decrypt;
    o := Obfuscated(codec.value, Streams(Direction(e.key, e.iv, e.position), Direction(d.key, d.iv, d.position),
                                         ends.value.tag));
  }

  /** A draw that starts like the frame length 12: the client keeps it, the server takes the
      connection for the full protocol. */
  lemma MisreadAsFull(p: Primitives, codec: Codec, rest: seq<Byte>) returns (draw: seq<Byte>)
    requires !codec.Full?
    ensures |draw| == 64 && !Disallowed(draw)
    ensures Negotiate(p, Config(true, false, []), Client(p, Tag(codec), [], draw).0 + rest) == Plain(Full, 0)
  {
    draw := [12, 0, 0, 0] + seq(60, _ => 1);
    assert draw[..4] == [12, 0, 0, 0] && FirstWord(draw) == 12;
    var header := Client(p, Tag(codec), [], draw).0;
    var input := header + rest;
    assert input[..4] == draw[..4];
    assert input[0] == input[..4][0] == 12;
  }
}
