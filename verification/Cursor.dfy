/** The cursor calls of mtproto/cursor.go on values: the byte-string format, what each read takes from
    the input and charges to the budget, and the proofs that reading undoes writing. */
module Cursor {
  import opened Bytes
  import opened Faults
  import Budget

  const MAX_TL_BYTES := 0xFF_FFFF
  const MAX_VECTOR_ELEMENTS := 0x10_0000
  const MAX_OBJECT_DEPTH := 128
  const MAX_OBJECT_NODES := 0x4_0000
  const BOOL_TRUE: Uint32 := 0x997275b5
  const BOOL_FALSE: Uint32 := 0xbc799737
  const VECTOR_ID: Uint32 := 0x1cb5c415

  // ---- The TL byte-string format ------------------------------------------------------------

  function Padding(header: nat, n: nat): (p: nat)
    ensures p < 4 && (header + n + p) % 4 == 0
  {
    (4 - (header + n) % 4) % 4
  }

  function TextHeader(n: nat): (h: seq<Byte>)
    requires n <= MAX_TL_BYTES
    ensures |h| == if n < 254 then 1 else 4
  {
    if n < 254 then [n] else [254] + LE24(n)
  }

  /** Length prefix, contents, zero padding to a multiple of four bytes. */
  function Text(v: seq<Byte>): (bs: seq<Byte>)
    requires |v| <= MAX_TL_BYTES
    ensures |bs| % 4 == 0 && |v| < |bs| <= |v| + 7
  {
    var h := TextHeader(|v|);
    h + v + Zeros(Padding(|h|, |v|))
  }

  // ---- Decoder calls on values --------------------------------------------------------------

  type Limits = Budget.Limits

  /** Unread input and the budget counters. */
  datatype DecState = DecState(rest: seq<Byte>, bytes: nat, elems: nat, nodes: nat, depth: nat)

  /** Every call leaves the cursor somewhere, whether it succeeds or fails. */
  datatype Step<+T> = Ok(value: T, st: DecState) | Err(error: Error, st: DecState)

  predicate Within(l: Limits, s: DecState)
  {
    s.bytes <= l.maxBytes && s.elems <= l.maxElems && s.nodes <= l.maxNodes && s.depth <= l.maxDepth
  }

  function Take(l: Limits, s: DecState, n: nat): Step<seq<Byte>>
  {
    if n > |s.rest| then Err(UnexpectedEOF, s)
    else if s.bytes + n > l.maxBytes then Err(BytesLimit, s)
    else Ok(s.rest[..n], s.(rest := s.rest[n..], bytes := s.bytes + n))
  }

  function ReadUint32(l: Limits, s: DecState): Step<Uint32>
  {
    var r := Take(l, s, 4);
    if r.Err? then Err(r.error, r.st) else Ok(FromLE32(r.value), r.st)
  }

  function ReadUint64(l: Limits, s: DecState): Step<Uint64>
  {
    var r := Take(l, s, 8);
    if r.Err? then Err(r.error, r.st) else Ok(FromLE64(r.value), r.st)
  }

  function ReadBool(l: Limits, s: DecState): Step<bool>
  {
    var r := ReadUint32(l, s);
    if r.Err? then Err(r.error, r.st)
    else if r.value == BOOL_TRUE then Ok(true, r.st)
    else if r.value == BOOL_FALSE then Ok(false, r.st)
    else Err(InvalidBool, r.st)
  }

  /** The declared body and its padding are checked against input and budget before being taken. */
  function TextBody(l: Limits, s: DecState, n: nat, header: nat): Step<seq<Byte>>
  {
    var r := Take(l, s, n + Padding(header, n));
    if r.Err? then r else Ok(r.value[..n], r.st)
  }

  function ReadText(l: Limits, s: DecState): Step<seq<Byte>>
  {
    var first := Take(l, s, 1);
    if first.Err? then Err(first.error, first.st)
    else if first.value[0] == 255 then Err(InvalidLength, first.st)
    else if first.value[0] == 254 then
      var len := Take(l, first.st, 3);
      if len.Err? then Err(len.error, len.st) else TextBody(l, len.st, FromLE24(len.value), 4)
    else TextBody(l, first.st, first.value[0], 1)
  }

  function EnterObject(l: Limits, s: DecState): Step<()>
  {
    if s.nodes >= l.maxNodes then Err(NodeLimit, s)
    else if s.depth >= l.maxDepth then Err(DepthLimit, s)
    else Ok((), s.(nodes := s.nodes + 1, depth := s.depth + 1))
  }

  /** The bytes a cursor may still read: unread input capped by the remaining budget. */
  function Available(l: Limits, s: DecState): nat
  {
    var remaining := if l.maxBytes < s.bytes then 0 else l.maxBytes - s.bytes;
    if remaining < |s.rest| then remaining else |s.rest|
  }

  predicate TooMany(count: nat, available: nat, min: nat)
  {
    min > 0 && count > available / min
  }

  function ReadVectorCount(l: Limits, s: DecState, maxElements: nat, minElementBytes: nat): Step<nat>
  {
    var id := ReadUint32(l, s);
    if id.Err? then Err(id.error, id.st)
    else if id.value != VECTOR_ID then Err(BadVector, id.st)
    else
      var n := ReadUint32(l, id.st);
      if n.Err? then Err(n.error, n.st)
      else
        var count := ToInt32(n.value);
        if count < 0 || count > maxElements then Err(VectorTooLong, n.st)
        else if n.st.elems + count > l.maxElems then Err(VectorCountLimit, n.st)
        else
          var st := n.st.(elems := n.st.elems + count);
          if TooMany(count, Available(l, st), minElementBytes) then Err(UnexpectedEOF, st) else Ok(count, st)
  }

  // ---- What a call may do to the cursor, whatever the input ---------------------------------

  /** t is a later position of the same cursor: input was taken from the front, every byte taken
      was charged, and the other counters did not go back. */
  predicate Advances(s: DecState, t: DecState)
  {
    && |t.rest| <= |s.rest| && t.rest == s.rest[|s.rest| - |t.rest|..]
    && t.bytes + |t.rest| == s.bytes + |s.rest|
    && s.elems <= t.elems && s.nodes <= t.nodes
  }

  lemma AdvancesChain(s: DecState, t: DecState, u: DecState)
    requires Advances(s, t) && Advances(t, u)
    ensures Advances(s, u)
  {
  }

  lemma TakeAdvances(l: Limits, s: DecState, n: nat)
    ensures Advances(s, Take(l, s, n).st) && Take(l, s, n).st.depth == s.depth
    ensures Within(l, s) ==> Within(l, Take(l, s, n).st)
  {
  }

  lemma TextBodyAdvances(l: Limits, s: DecState, t: DecState, n: nat, header: nat)
    requires Advances(s, t)
    ensures Advances(s, TextBody(l, t, n, header).st) && TextBody(l, t, n, header).st.depth == t.depth
    ensures Within(l, t) ==> Within(l, TextBody(l, t, n, header).st)
  {
    var m := n + Padding(header, n);
    TakeAdvances(l, t, m);
    AdvancesChain(s, t, Take(l, t, m).st);
  }

  lemma ReadTextAdvances(l: Limits, s: DecState)
    ensures Advances(s, ReadText(l, s).st) && ReadText(l, s).st.depth == s.depth
    ensures Within(l, s) ==> Within(l, ReadText(l, s).st)
    ensures ReadText(l, s).Ok? ==> |ReadText(l, s).value| <= MAX_TL_BYTES
  {
    TakeAdvances(l, s, 1);
    var first := Take(l, s, 1);
    if first.Ok? {
      if first.value[0] == 254 {
        TakeAdvances(l, first.st, 3);
        var len := Take(l, first.st, 3);
        AdvancesChain(s, first.st, len.st);
        if len.Ok? {
          TextBodyAdvances(l, s, len.st, FromLE24(len.value), 4);
        }
      } else if first.value[0] < 254 {
        TextBodyAdvances(l, s, first.st, first.value[0], 1);
      }
    }
  }

  lemma ReadVectorCountAdvances(l: Limits, s: DecState, maxElements: nat, minElementBytes: nat)
    ensures var r := ReadVectorCount(l, s, maxElements, minElementBytes);
            && Advances(s, r.st) && r.st.depth == s.depth
            && (Within(l, s) ==> Within(l, r.st))
            && (r.Ok? ==> r.value <= maxElements && r.st.elems == s.elems + r.value && r.st.nodes == s.nodes)
  {
  }

  // ---- Reading back what was written --------------------------------------------------------

  predicate StartsWith(s: DecState, bs: seq<Byte>)
  {
    |bs| <= |s.rest| && s.rest[..|bs|] == bs
  }

  function Skip(s: DecState, n: nat): DecState
    requires n <= |s.rest|
  {
    s.(rest := s.rest[n..], bytes := s.bytes + n)
  }

  lemma ReadUint32Back(l: Limits, s: DecState, v: Uint32)
    requires StartsWith(s, LE32(v))
    ensures ReadUint32(l, s) == if s.bytes + 4 <= l.maxBytes then Ok(v, Skip(s, 4)) else Err(BytesLimit, s)
  {
    LE32RoundTrip(v);
  }

  lemma ReadUint64Back(l: Limits, s: DecState, v: Uint64)
    requires StartsWith(s, LE64(v))
    ensures ReadUint64(l, s) == if s.bytes + 8 <= l.maxBytes then Ok(v, Skip(s, 8)) else Err(BytesLimit, s)
  {
    LE64RoundTrip(v);
  }

  lemma TextBodyBack(l: Limits, s: DecState, h: nat, v: seq<Byte>)
    requires h + |v| + Padding(h, |v|) <= |s.rest| && s.rest[h..h + |v|] == v
    ensures var t := Skip(s, h);
            var total := |v| + Padding(h, |v|);
            TextBody(l, t, |v|, h) ==
              if t.bytes + total <= l.maxBytes then Ok(v, Skip(s, h + total)) else Err(BytesLimit, t)
  {
    var t := Skip(s, h);
    assert t.rest[..|v| + Padding(h, |v|)][..|v|] == s.rest[h..h + |v|];
    assert t.rest[|v| + Padding(h, |v|)..] == s.rest[h + |v| + Padding(h, |v|)..];
  }

  /** The decoder undoes the byte-string writer for every length the writer accepts, and fails
      exactly when the budget cannot hold the field. */
  lemma ReadTextBack(l: Limits, s: DecState, v: seq<Byte>)
    requires |v| <= MAX_TL_BYTES && StartsWith(s, Text(v))
    ensures if s.bytes + |Text(v)| <= l.maxBytes
            then ReadText(l, s) == Ok(v, Skip(s, |Text(v)|)) else ReadText(l, s).Err?
  {
    var h := |TextHeader(|v|)|;
    var bs := Text(v);
    assert s.rest[..1] == [bs[0]];
    TextMiddle(v);
    SliceOfPrefix(s.rest, |bs|, h, h + |v|);
    TextBodyBack(l, s, h, v);
    if |v| >= 254 && s.bytes + 1 <= l.maxBytes {
      LongLengthBack(l, s, v);
      LE24RoundTrip(|v|);
    }
  }

  lemma TextMiddle(v: seq<Byte>)
    requires |v| <= MAX_TL_BYTES
    ensures var h := |TextHeader(|v|)|; h + |v| <= |Text(v)| && Text(v)[h..h + |v|] == v
  {
  }

  lemma SliceOfPrefix(s: seq<Byte>, n: nat, a: nat, b: nat)
    requires a <= b <= n <= |s|
    ensures s[..n][a..b] == s[a..b]
  {
  }

  lemma LongLengthBack(l: Limits, s: DecState, v: seq<Byte>)
    requires 254 <= |v| <= MAX_TL_BYTES && StartsWith(s, Text(v)) && s.bytes + 1 <= l.maxBytes
    ensures var r := Take(l, Skip(s, 1), 3);
            if s.bytes + 4 <= l.maxBytes then r == Ok(LE24(|v|), Skip(s, 4)) else r.Err?
  {
    var tail := v + Zeros(Padding(4, |v|));
    assert Text(v) == [254] + LE24(|v|) + tail;
    TakeMiddle(l, s, [254], LE24(|v|), tail);
  }

  lemma TakeMiddle(l: Limits, s: DecState, a: seq<Byte>, m: seq<Byte>, b: seq<Byte>)
    requires StartsWith(s, a + m + b)
    ensures var t := Skip(s, |a|);
            Take(l, t, |m|) == if t.bytes + |m| <= l.maxBytes then Ok(m, Skip(s, |a| + |m|)) else Err(BytesLimit, t)
  {
    var t := Skip(s, |a|);
    assert t.rest[..|m|] == s.rest[..|a + m + b|][|a|..|a| + |m|] == m;
    assert t.rest[|m|..] == s.rest[|a| + |m|..];
  }
}
