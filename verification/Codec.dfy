/** The decoders that internal/generator/cursor_codec.go emits, as an interpreter over the schema. */
module Codec {
  import opened Bytes
  import opened Faults
  import opened Cursor
  import opened Schema

  // ---- Emitted size constants ---------------------------------------------------------------

  function FixedElementBytes(t: Ty): nat
  {
    match t
    case Int => 4
    case Nat => 4
    case Bool => 4
    case Long => 8
    case Double => 8
    case Int128 => 16
    case Int256 => 32
    case _ => 0
  }

  function MinimumElementBytes(t: Ty): nat
  {
    if FixedElementBytes(t) > 0 then FixedElementBytes(t)
    else if t.Vector? then 8
    else if t.Bare? then 0
    else 4
  }

  // ---- The emitted decoder ------------------------------------------------------------------

  /** The constructor table: the first constructor with this ID available at the layer. */
  function Lookup(s: Schema, layer: int, id: Uint32, from: nat): (c: nat)
    requires from <= |s.ctors|
    ensures from <= c <= |s.ctors|
    ensures c < |s.ctors| ==> s.ctors[c].id == id && SupportsLayer(s, s.ctors[c], layer)
    ensures forall k :: from <= k < c && s.ctors[k].id == id ==> !SupportsLayer(s, s.ctors[k], layer)
    decreases |s.ctors| - from
  {
    if from == |s.ctors| || (s.ctors[from].id == id && SupportsLayer(s, s.ctors[from], layer)) then from
    else Lookup(s, layer, id, from + 1)
  }

  /** Some parameter depends on this bit of the word. */
  predicate Known(ps: seq<Param>, name: string, bit: nat)
  {
    exists i :: 0 <= i < |ps| && (ps[i].Cond? || ps[i].True?) && ps[i].word == name && ps[i].bit == bit
  }

  predicate KnownFlags(ps: seq<Param>, name: string, w: nat)
  {
    forall bit :: 0 <= bit < 32 && TestBit(w, bit) ==> Known(ps, name, bit)
  }

  /** A flag word counts as zero until it has been read. */
  function WordRead(words: map<string, Uint32>, name: string): Uint32
  {
    if name in words then words[name] else 0
  }

  function Leave(st: DecState): DecState
    requires st.depth > 0
  {
    st.(depth := st.depth - 1)
  }

  /** Built-in types read straight from the cursor. */
  function DecodeBuiltin(l: Limits, t: Ty, st: DecState): (r: Step<Value>)
    requires !t.Vector? && !t.Bare? && !t.Boxed?
  {
    if t.Int? || t.Nat? then
      var r := ReadUint32(l, st);
      if r.Err? then Err(r.error, r.st) else Ok(if t.Int? then IntV(ToInt32(r.value)) else NatV(r.value), r.st)
    else if t.Long? || t.Double? then
      var r := ReadUint64(l, st);
      if r.Err? then Err(r.error, r.st) else Ok(if t.Long? then LongV(ToInt64(r.value)) else DoubleV(r.value), r.st)
    else if t.Int128? || t.Int256? then
      var r := Take(l, st, if t.Int128? then 16 else 32);
      if r.Err? then Err(r.error, r.st) else Ok(WideV(r.value), r.st)
    else if t.Bool? then
      var r := ReadBool(l, st);
      if r.Err? then Err(r.error, r.st) else Ok(BoolV(r.value), r.st)
    else
      var r := ReadText(l, st);
      if r.Err? then Err(r.error, r.st) else Ok(TextV(r.value), r.st)
  }

  function Decode(s: Schema, layer: int, l: Limits, t: Ty, st: DecState): (r: Step<Value>)
    requires st.depth <= l.maxDepth
    ensures r.st.depth == st.depth
    decreases l.maxDepth - st.depth, 1
  {
    match t
    case Vector(e) =>
      var enter := EnterObject(l, st);
      if enter.Err? then Err(enter.error, enter.st)
      else
        var r := DecodeCounted(s, layer, l, e, enter.st);
        if r.Err? then Err(r.error, Leave(r.st)) else Ok(VecV(r.value), Leave(r.st))
    case Bare(c) => DecodeBody(s, layer, l, c, st)
    case Boxed(f) =>
      var c := DecodeCtor(s, layer, l, f, st);
      if c.Err? then Err(c.error, c.st) else DecodeBody(s, layer, l, c.value, c.st)
    case _ =>
      ReadTextDepth(l, st);
      DecodeBuiltin(l, t, st)
  }

  lemma ReadTextDepth(l: Limits, st: DecState)
    ensures ReadText(l, st).st.depth == st.depth
  {
    ReadTextAdvances(l, st);
  }

  /** A family with one constructor expects that one; a larger family looks the ID up. */
  function DecodeCtor(s: Schema, layer: int, l: Limits, f: nat, st: DecState): (r: Step<nat>)
    ensures r.st.depth == st.depth
  {
    var id := ReadUint32(l, st);
    if id.Err? then Err(id.error, id.st)
    else if f >= |s.families| then Err(NotInFamily, id.st)
    else if |s.families[f]| == 1 then
      var c := s.families[f][0];
      if c >= |s.ctors| || s.ctors[c].id != id.value then Err(WrongConstructor, id.st) else Ok(c, id.st)
    else
      var c := Lookup(s, layer, id.value, 0);
      if c == |s.ctors| then Err(UnknownConstructor, id.st)
      else if c !in s.families[f] then Err(NotInFamily, id.st)
      else Ok(c, id.st)
  }

  function DecodeCounted(s: Schema, layer: int, l: Limits, e: Ty, st: DecState): (r: Step<seq<Value>>)
    requires st.depth <= l.maxDepth
    ensures r.st.depth == st.depth
    decreases l.maxDepth - st.depth, 3
  {
    var count := ReadVectorCount(l, st, MAX_VECTOR_ELEMENTS, MinimumElementBytes(e));
    if count.Err? then Err(count.error, count.st) else DecodeElems(s, layer, l, e, count.value, count.st)
  }

  function DecodeElems(s: Schema, layer: int, l: Limits, e: Ty, n: nat, st: DecState): (r: Step<seq<Value>>)
    requires st.depth <= l.maxDepth
    ensures r.st.depth == st.depth
    decreases l.maxDepth - st.depth, 2, n
  {
    if n == 0 then Ok([], st)
    else
      var head := Decode(s, layer, l, e, st);
      if head.Err? then Err(head.error, head.st)
      else
        var tail := DecodeElems(s, layer, l, e, n - 1, head.st);
        if tail.Err? then tail else Ok([head.value] + tail.value, tail.st)
  }

  function DecodeBody(s: Schema, layer: int, l: Limits, c: nat, st: DecState): (r: Step<Value>)
    requires st.depth <= l.maxDepth
    ensures r.st.depth == st.depth
    decreases l.maxDepth - st.depth, 0
  {
    if c >= |s.ctors| || !SupportsLayer(s, s.ctors[c], layer) then Err(UnavailableAtLayer, st)
    else
      var enter := EnterObject(l, st);
      if enter.Err? then Err(enter.error, enter.st)
      else
        var r := DecodeFields(s, layer, l, s.ctors[c].params, 0, map[], enter.st);
        if r.Err? then Err(r.error, Leave(r.st)) else Ok(ObjV(c, r.value), Leave(r.st))
  }

  /** The parameters from i on, given the flag words read so far. */
  function DecodeFields(s: Schema, layer: int, l: Limits, ps: seq<Param>, i: nat, words: map<string, Uint32>,
                        st: DecState): (r: Step<seq<Field>>)
    requires i <= |ps| && st.depth <= l.maxDepth
    ensures r.st.depth == st.depth
    decreases l.maxDepth - st.depth, 3, |ps| - i
  {
    if i == |ps| then Ok([], st)
    else
      var head := DecodeField(s, layer, l, ps, i, words, st);
      if head.Err? then Err(head.error, head.st)
      else
        var (f, words') := head.value;
        var tail := DecodeFields(s, layer, l, ps, i + 1, words', head.st);
        if tail.Err? then tail else Ok([f] + tail.value, tail.st)
  }

  function DecodeField(s: Schema, layer: int, l: Limits, ps: seq<Param>, i: nat, words: map<string, Uint32>,
                       st: DecState): (r: Step<(Field, map<string, Uint32>)>)
    requires i < |ps| && st.depth <= l.maxDepth
    ensures r.st.depth == st.depth
    decreases l.maxDepth - st.depth, 2, 1
  {
    match ps[i]
    case FlagWord(name) =>
      var w := ReadUint32(l, st);
      if w.Err? then Err(w.error, w.st)
      else if s.layered && !KnownFlags(ps, name, w.value) then Err(UnknownFlags, w.st)
      else Ok((if name == "flags" then Hidden else Word(w.value), words[name := w.value]), w.st)
    case Plain(t) => DecodePresent(s, layer, l, t, words, st)
    case Cond(name, bit, t) =>
      if TestBit(WordRead(words, name), bit) then DecodePresent(s, layer, l, t, words, st) else Ok((Absent, words), st)
    case True(name, bit) => Ok((Flag(TestBit(WordRead(words, name), bit)), words), st)
  }

  function DecodePresent(s: Schema, layer: int, l: Limits, t: Ty, words: map<string, Uint32>, st: DecState)
    : (r: Step<(Field, map<string, Uint32>)>)
    requires st.depth <= l.maxDepth
    ensures r.st.depth == st.depth
    decreases l.maxDepth - st.depth, 2, 0
  {
    var r := Decode(s, layer, l, t, st);
    if r.Err? then Err(r.error, r.st) else Ok((Present(r.value), words), r.st)
  }
}
