/** The budgeted buffer decoder of mtproto/cursor.go and the deserializers that
    internal/generator/cursor_codec.go emits against it. */
module Decoding {
  import opened Bytes
  import opened Faults
  import opened Cursor
  import opened Schema
  import opened Codec
  import Budget

  datatype Got<+T> = Value(v: T) | Fault(error: Error)

  /** The call did to the cursor, and returned, what the specification says. */
  predicate Matches<T(==)>(r: Got<T>, st: DecState, spec: Step<T>)
  {
    st == spec.st && r == if spec.Ok? then Value(spec.value) else Fault(spec.error)
  }

  class Decoder {
    const data: seq<Byte>
    const layer: int
    const budget: Budget.DecodeBudget
    var offset: nat

    ghost predicate Valid()
      reads this, budget
    {
      offset <= |data| && budget.Valid()
    }

    ghost function State(): DecState
      requires Valid()
      reads this, budget
    {
      DecState(data[offset..], budget.bytes, budget.elems, budget.nodes, budget.depth)
    }

    constructor (data: seq<Byte>, layer: int, budget: Budget.DecodeBudget)
      requires budget.Valid()
      ensures Valid() && this.data == data && this.layer == layer && this.budget == budget && offset == 0
    {
      this.data, this.layer, this.budget, offset := data, layer, budget, 0;
    }

    method TakeSpan(n: nat) returns (r: Got<seq<Byte>>)
      requires Valid()
      modifies this, budget`bytes
      ensures Valid() && Matches(r, State(), Take(budget.limits, old(State()), n))
    {
      if n > |data| - offset {
        return Fault(UnexpectedEOF);
      }
      var a := budget.TryConsume(n);
      if a.Refused? {
        return Fault(BytesLimit);
      }
      assert data[offset..][..n] == data[offset..offset + n];
      assert data[offset..][n..] == data[offset + n..];
      r := Value(data[offset..offset + n]);
      offset := offset + n;
    }

    method Uint32() returns (r: Got<Uint32>)
      requires Valid()
      modifies this, budget`bytes
      ensures Valid() && Matches(r, State(), ReadUint32(budget.limits, old(State())))
    {
      var p := TakeSpan(4);
      if p.Fault? {
        return Fault(p.error);
      }
      r := Value(FromLE32(p.v));
    }

    /** A declared body is checked against input and budget as a whole before it is taken. */
    method BodySpan(n: nat, header: nat) returns (r: Got<seq<Byte>>)
      requires Valid()
      modifies this, budget`bytes
      ensures Valid() && Matches(r, State(), TextBody(budget.limits, old(State()), n, header))
    {
      var padding := (4 - (header + n) % 4) % 4;
      if n + padding > |data| - offset {
        return Fault(UnexpectedEOF);
      }
      if n + padding > budget.limits.maxBytes - budget.bytes {
        return Fault(BytesLimit);
      }
      var p := TakeSpan(n + padding);
      if p.Fault? {
        return p;
      }
      r := Value(p.v[..n]);
    }

    method ByteSpan() returns (r: Got<seq<Byte>>)
      requires Valid()
      modifies this, budget`bytes
      ensures Valid() && Matches(r, State(), ReadText(budget.limits, old(State())))
    {
      var prefix := TakeSpan(1);
      if prefix.Fault? {
        return prefix;
      }
      var first := prefix.v[0];
      if first == 255 {
        return Fault(InvalidLength);
      }
      if first == 254 {
        var p := TakeSpan(3);
        if p.Fault? {
          return p;
        }
        r := BodySpan(FromLE24(p.v), 4);
      } else {
        r := BodySpan(first, 1);
      }
    }

    method VectorCount(maxElements: nat, minElementBytes: nat) returns (r: Got<nat>)
      requires Valid()
      modifies this, budget`bytes, budget`elems
      ensures Valid() && Matches(r, State(), ReadVectorCount(budget.limits, old(State()), maxElements, minElementBytes))
    {
      var id := Uint32();
      if id.Fault? {
        return Fault(id.error);
      }
      if id.v != VECTOR_ID {
        return Fault(BadVector);
      }
      var n := Uint32();
      if n.Fault? {
        return Fault(n.error);
      }
      var count := ToInt32(n.v);
      if count < 0 || count > maxElements {
        return Fault(VectorTooLong);
      }
      var a := budget.TryElements(count);
      if a.Refused? {
        return Fault(VectorCountLimit);
      }
      var remaining := budget.limits.maxBytes - budget.bytes;
      var available := if remaining < |data| - offset then remaining else |data| - offset;
      if minElementBytes > 0 && count > available / minElementBytes {
        return Fault(UnexpectedEOF);
      }
      r := Value(count);
    }

    method Enter() returns (r: Got<()>)
      requires Valid()
      modifies budget`nodes, budget`depth
      ensures Valid() && Matches(r, State(), EnterObject(budget.limits, old(State())))
    {
      var a := budget.TryEnter();
      if a.Refused? {
        return Fault(a.error);
      }
      r := Value(());
    }
  }

  // ---- Emitted deserializers ----------------------------------------------------------------

  method Deserialize(s: Schema, d: Decoder, t: Ty) returns (r: Got<Value>)
    requires d.Valid()
    modifies d, d.budget`bytes, d.budget`elems, d.budget`nodes, d.budget`depth
    ensures d.Valid() && Matches(r, d.State(), Decode(s, d.layer, d.budget.limits, t, old(d.State())))
    decreases d.budget.limits.maxDepth - d.budget.depth, 2
  {
    match t
    case Vector(e) => r := DeserializeVector(s, d, e);
    case Bare(c) => r := DeserializeBody(s, d, c);
    case Boxed(f) =>
      var c := FamilyConstructor(s, d, f);
      if c.Fault? {
        return Fault(c.error);
      }
      r := DeserializeBody(s, d, c.v);
    case _ => r := DeserializeBuiltin(d, t);
  }

  method DeserializeBuiltin(d: Decoder, t: Ty) returns (r: Got<Value>)
    requires !t.Vector? && !t.Bare? && !t.Boxed? && d.Valid()
    modifies d, d.budget`bytes
    ensures d.Valid() && Matches(r, d.State(), DecodeBuiltin(d.budget.limits, t, old(d.State())))
  {
    if t.Int? || t.Nat? || t.Bool? {
      var w := d.Uint32();
      if w.Fault? {
        return Fault(w.error);
      }
      if t.Bool? && w.v != BOOL_TRUE && w.v != BOOL_FALSE {
        return Fault(InvalidBool);
      }
      r := Value(if t.Int? then IntV(ToInt32(w.v)) else if t.Nat? then NatV(w.v) else BoolV(w.v == BOOL_TRUE));
    } else if t.String? || t.Raw? {
      var p := d.ByteSpan();
      if p.Fault? {
        return Fault(p.error);
      }
      r := Value(TextV(p.v));
    } else {
      var p := d.TakeSpan(if t.Int128? then 16 else if t.Int256? then 32 else 8);
      if p.Fault? {
        return Fault(p.error);
      }
      r := Value(if t.Long? then LongV(ToInt64(FromLE64(p.v)))
                 else if t.Double? then DoubleV(FromLE64(p.v))
                 else WideV(p.v));
    }
  }

  method FamilyConstructor(s: Schema, d: Decoder, f: nat) returns (r: Got<nat>)
    requires d.Valid()
    modifies d, d.budget`bytes
    ensures d.Valid() && Matches(r, d.State(), DecodeCtor(s, d.layer, d.budget.limits, f, old(d.State())))
  {
    var id := d.Uint32();
    if id.Fault? {
      return Fault(id.error);
    }
    if f >= |s.families| {
      return Fault(NotInFamily);
    }
    if |s.families[f]| == 1 {
      var c := s.families[f][0];
      if c >= |s.ctors| || s.ctors[c].id != id.v {
        return Fault(WrongConstructor);
      }
      return Value(c);
    }
    var c := Lookup(s, d.layer, id.v, 0);
    if c == |s.ctors| {
      return Fault(UnknownConstructor);
    }
    if c !in s.families[f] {
      return Fault(NotInFamily);
    }
    r := Value(c);
  }

  /** What was read so far, in front of what is still to come. */
  function Prepend<T>(done: seq<T>, rest: Step<seq<T>>): Step<seq<T>>
  {
    if rest.Ok? then Ok(done + rest.value, rest.st) else rest
  }

  lemma PrependLaws<T>(done: seq<T>, x: T, rest: Step<seq<T>>)
    ensures Prepend([], rest) == rest
    ensures Prepend(done, Prepend([x], rest)) == Prepend(done + [x], rest)
    ensures rest.Ok? && rest.value == [] ==> Prepend(done, rest) == Ok(done, rest.st)
  {
    if rest.Ok? {
      assert [] + rest.value == rest.value && done + [] == done;
      assert done + ([x] + rest.value) == done + [x] + rest.value;
    }
  }

  /** With these items read, n elements from st on complete the whole. */
  predicate Completes(s: Schema, layer: int, l: Limits, e: Ty, all: Step<seq<Value>>, items: seq<Value>, n: nat,
                      st: DecState)
    requires st.depth <= l.maxDepth
  {
    all == Prepend(items, DecodeElems(s, layer, l, e, n, st))
  }

  lemma ElemsBegin(s: Schema, layer: int, l: Limits, e: Ty, n: nat, st: DecState)
    requires st.depth <= l.maxDepth
    ensures Completes(s, layer, l, e, DecodeElems(s, layer, l, e, n, st), [], n, st)
  {
    PrependLaws([], Nil, DecodeElems(s, layer, l, e, n, st));
  }

  lemma ElemsStep(s: Schema, layer: int, l: Limits, e: Ty, all: Step<seq<Value>>, items: seq<Value>, n: nat,
                  st: DecState)
    requires n > 0 && st.depth <= l.maxDepth && Completes(s, layer, l, e, all, items, n, st)
    ensures var h := Decode(s, layer, l, e, st);
            if h.Err? then all == Err(h.error, h.st)
            else Completes(s, layer, l, e, all, items + [h.value], n - 1, h.st)
  {
    var h := Decode(s, layer, l, e, st);
    if h.Ok? {
      PrependLaws(items, h.value, DecodeElems(s, layer, l, e, n - 1, h.st));
    }
  }

  lemma ElemsEnd(s: Schema, layer: int, l: Limits, e: Ty, all: Step<seq<Value>>, items: seq<Value>, st: DecState)
    requires st.depth <= l.maxDepth && Completes(s, layer, l, e, all, items, 0, st)
    ensures all == Ok(items, st)
  {
    PrependLaws(items, Nil, DecodeElems(s, layer, l, e, 0, st));
  }

  method DeserializeVector(s: Schema, d: Decoder, e: Ty) returns (r: Got<Value>)
    requires d.Valid()
    modifies d, d.budget`bytes, d.budget`elems, d.budget`nodes, d.budget`depth
    ensures d.Valid() && Matches(r, d.State(), Decode(s, d.layer, d.budget.limits, Vector(e), old(d.State())))
    decreases d.budget.limits.maxDepth - d.budget.depth, 1
  {
    var enter := d.Enter();
    if enter.Fault? {
      return Fault(enter.error);
    }
    var items := DeserializeElements(s, d, e);
    d.budget.LeaveNode();
    r := if items.Fault? then Fault(items.error) else Value(VecV(items.v));
  }

  method DeserializeElements(s: Schema, d: Decoder, e: Ty) returns (r: Got<seq<Value>>)
    requires d.Valid()
    modifies d, d.budget`bytes, d.budget`elems, d.budget`nodes, d.budget`depth
    ensures d.Valid() && Matches(r, d.State(), DecodeCounted(s, d.layer, d.budget.limits, e, old(d.State())))
    decreases d.budget.limits.maxDepth - d.budget.depth, 4
  {
    var count := d.VectorCount(MAX_VECTOR_ELEMENTS, MinimumElementBytes(e));
    if count.Fault? {
      return Fault(count.error);
    }
    r := ElementLoop(s, d, e, count.v);
  }

  /** One element, with n still to come. */
  method NextElement(s: Schema, d: Decoder, e: Ty, ghost all: Step<seq<Value>>, items: seq<Value>, ghost n: nat)
    returns (r: Got<Value>)
    requires d.Valid() && n > 0 && Completes(s, d.layer, d.budget.limits, e, all, items, n, d.State())
    modifies d, d.budget`bytes, d.budget`elems, d.budget`nodes, d.budget`depth
    ensures d.Valid() && d.State().depth == old(d.State().depth)
    ensures r.Fault? ==> all == Err(r.error, d.State())
    ensures r.Value? ==> Completes(s, d.layer, d.budget.limits, e, all, items + [r.v], n - 1, d.State())
    decreases d.budget.limits.maxDepth - d.budget.depth, 3, 0
  {
    ElemsStep(s, d.layer, d.budget.limits, e, all, items, n, d.State());
    r := Deserialize(s, d, e);
  }

  method ElementLoop(s: Schema, d: Decoder, e: Ty, count: nat) returns (r: Got<seq<Value>>)
    requires d.Valid()
    modifies d, d.budget`bytes, d.budget`elems, d.budget`nodes, d.budget`depth
    ensures d.Valid() && Matches(r, d.State(), DecodeElems(s, d.layer, d.budget.limits, e, count, old(d.State())))
    decreases d.budget.limits.maxDepth - d.budget.depth, 3
  {
    ghost var start := d.State();
    ghost var all := DecodeElems(s, d.layer, d.budget.limits, e, count, start);
    var items: seq<Value> := [];
    ElemsBegin(s, d.layer, d.budget.limits, e, count, start);
    var i := 0;
    while i < count
      invariant i <= count && d.Valid() && d.State().depth == start.depth
      invariant Completes(s, d.layer, d.budget.limits, e, all, items, count - i, d.State())
    {
      var item := NextElement(s, d, e, all, items, count - i);
      if item.Fault? {
        return Fault(item.error);
      }
      items := items + [item.v];
      i := i + 1;
    }
    ElemsEnd(s, d.layer, d.budget.limits, e, all, items, d.State());
    r := Value(items);
  }

  method DeserializeBody(s: Schema, d: Decoder, c: nat) returns (r: Got<Value>)
    requires d.Valid()
    modifies d, d.budget`bytes, d.budget`elems, d.budget`nodes, d.budget`depth
    ensures d.Valid() && Matches(r, d.State(), DecodeBody(s, d.layer, d.budget.limits, c, old(d.State())))
    decreases d.budget.limits.maxDepth - d.budget.depth, 0
  {
    if c >= |s.ctors| || !SupportsLayer(s, s.ctors[c], d.layer) {
      return Fault(UnavailableAtLayer);
    }
    var enter := d.Enter();
    if enter.Fault? {
      return Fault(enter.error);
    }
    var fields := DeserializeFields(s, d, s.ctors[c].params);
    d.budget.LeaveNode();
    r := if fields.Fault? then Fault(fields.error) else Value(ObjV(c, fields.v));
  }

  method DeserializeFields(s: Schema, d: Decoder, ps: seq<Param>) returns (r: Got<seq<Field>>)
    requires d.Valid()
    modifies d, d.budget`bytes, d.budget`elems, d.budget`nodes, d.budget`depth
    ensures d.Valid() && Matches(r, d.State(), DecodeFields(s, d.layer, d.budget.limits, ps, 0, map[], old(d.State())))
    decreases d.budget.limits.maxDepth - d.budget.depth, 4
  {
    ghost var start := d.State();
    ghost var all := DecodeFields(s, d.layer, d.budget.limits, ps, 0, map[], start);
    var fields: seq<Field> := [];
    PrependLaws(fields, Absent, all);
    var words: map<string, Uint32> := map[];
    var i := 0;
    while i < |ps|
      invariant i <= |ps| && d.Valid() && d.State().depth == start.depth
      invariant all == Prepend(fields, DecodeFields(s, d.layer, d.budget.limits, ps, i, words, d.State()))
    {
      ghost var rest := DecodeFields(s, d.layer, d.budget.limits, ps, i, words, d.State());
      var f := DeserializeField(s, d, ps, i, words);
      if f.Fault? {
        return Fault(f.error);
      }
      ghost var tail := DecodeFields(s, d.layer, d.budget.limits, ps, i + 1, f.v.1, d.State());
      assert rest == Prepend([f.v.0], tail);
      PrependLaws(fields, f.v.0, tail);
      fields, words := fields + [f.v.0], f.v.1;
      i := i + 1;
    }
    PrependLaws(fields, Absent, DecodeFields(s, d.layer, d.budget.limits, ps, |ps|, words, d.State()));
    r := Value(fields);
  }

  method DeserializeField(s: Schema, d: Decoder, ps: seq<Param>, i: nat, words: map<string, Uint32>)
    returns (r: Got<(Field, map<string, Uint32>)>)
    requires i < |ps| && d.Valid()
    modifies d, d.budget`bytes, d.budget`elems, d.budget`nodes, d.budget`depth
    ensures d.Valid() && Matches(r, d.State(), DecodeField(s, d.layer, d.budget.limits, ps, i, words, old(d.State())))
    decreases d.budget.limits.maxDepth - d.budget.depth, 3
  {
    match ps[i]
    case FlagWord(name) =>
      var w := d.Uint32();
      if w.Fault? {
        return Fault(w.error);
      }
      if s.layered && !KnownFlags(ps, name, w.v) {
        return Fault(UnknownFlags);
      }
      r := Value((if name == "flags" then Hidden else Word(w.v), words[name := w.v]));
    case True(name, bit) => r := Value((Flag(TestBit(WordRead(words, name), bit)), words));
    case Cond(name, bit, ty) =>
      if !TestBit(WordRead(words, name), bit) {
        return Value((Absent, words));
      }
      var v := Deserialize(s, d, ty);
      r := if v.Fault? then Fault(v.error) else Value((Present(v.v), words));
    case Plain(ty) =>
      var v := Deserialize(s, d, ty);
      r := if v.Fault? then Fault(v.error) else Value((Present(v.v), words));
  }
}
