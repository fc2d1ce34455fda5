/** The bounded append encoder of mtproto/cursor.go and the serializers that
    internal/generator/cursor_codec.go emits against it. */
module Encoding {
  import opened Bytes
  import opened Faults
  import opened Cursor
  import opened Schema
  import Budget

  datatype Outcome = Done | Failed(error: Error)

  /** What an encoder has written so far, and where it stands among nested objects. */
  datatype EncState = EncState(data: seq<Byte>, depth: nat, nodes: nat)

  predicate Room(limit: nat, st: EncState, o: Out)
  {
    && o.ok && |st.data| + |o.bytes| <= limit
    && st.depth + o.height <= MAX_OBJECT_DEPTH && st.nodes + o.nodes <= MAX_OBJECT_NODES
  }

  function Wrote(st: EncState, o: Out): EncState
  {
    EncState(st.data + o.bytes, st.depth, st.nodes + o.nodes)
  }

  lemma RoomThen(limit: nat, st: EncState, a: Out, b: Out)
    requires st.depth <= MAX_OBJECT_DEPTH
    ensures Room(limit, st, Then(a, b)) <==> Room(limit, st, a) && Room(limit, Wrote(st, a), b)
    ensures Wrote(Wrote(st, a), b) == Wrote(st, Then(a, b))
  {
    assert st.data + (a.bytes + b.bytes) == st.data + a.bytes + b.bytes;
  }

  /** From st on, rest completes what was begun at start as whole. */
  predicate Remains(limit: nat, start: EncState, whole: Out, st: EncState, rest: Out)
  {
    (Room(limit, start, whole) <==> Room(limit, st, rest)) && Wrote(st, rest) == Wrote(start, whole)
  }

  lemma RemainsStep(limit: nat, start: EncState, whole: Out, st: EncState, a: Out, b: Out)
    requires st.depth <= MAX_OBJECT_DEPTH && Remains(limit, start, whole, st, Then(a, b))
    ensures if Room(limit, st, a) then Remains(limit, start, whole, Wrote(st, a), b) else !Room(limit, start, whole)
  {
    RoomThen(limit, st, a, b);
  }

  method BytesHeader(length: nat) returns (header: seq<Byte>)
    requires length <= MAX_TL_BYTES
    ensures header == TextHeader(length)
  {
    header := if length < 254 then [length] else [254, length % 256, length / 256 % 256, length / 256 / 256 % 256];
  }

  class Encoder {
    var data: seq<Byte>
    var capacity: nat
    var depth: nat
    var nodes: nat
    const limit: nat
    const layer: int

    ghost predicate Valid()
      reads this
    {
      |data| <= capacity <= limit && depth <= MAX_OBJECT_DEPTH && nodes <= MAX_OBJECT_NODES
    }

    ghost function State(): EncState
      reads this
    {
      EncState(data, depth, nodes)
    }

    constructor (layer: int, maxBytes: nat)
      ensures Valid() && State() == EncState([], 0, 0) && this.layer == layer
      ensures limit == if maxBytes == 0 then Budget.DEFAULT_MAX_BYTES else maxBytes
    {
      this.layer := layer;
      limit := if maxBytes == 0 then Budget.DEFAULT_MAX_BYTES else maxBytes;
      data, capacity, depth, nodes := [], 0, 0, 0;
    }

    /** Room for n more bytes, growing by doubling up to the limit. */
    method Reserve(n: int) returns (r: Outcome)
      requires Valid()
      modifies this`capacity
      ensures Valid()
      ensures r == if n < 0 || |data| + n > limit then Failed(EncodedLimit) else Done
      ensures r.Done? ==> |data| + n <= capacity
      ensures r.Failed? ==> capacity == old(capacity)
    {
      if n < 0 || n > limit - |data| {
        return Failed(EncodedLimit);
      }
      if n <= capacity - |data| {
        return Done;
      }
      var grown := Max(64, capacity * 2);
      grown := Max(grown, |data| + n);
      capacity := if limit < grown then limit else grown;
      r := Done;
    }

    method Write(p: seq<Byte>) returns (r: Outcome)
      requires Valid()
      modifies this`capacity, this`data
      ensures Valid()
      ensures r == if |old(data)| + |p| > limit then Failed(EncodedLimit) else Done
      ensures data == if r.Done? then old(data) + p else old(data)
    {
      r := Reserve(|p|);
      if r.Done? {
        data := data + p;
      }
    }

    /** Header, contents and padding are reserved together, so a byte string is written whole
        or not at all. */
    method WriteText(v: seq<Byte>) returns (r: Outcome)
      requires Valid()
      modifies this`capacity, this`data
      ensures Valid()
      ensures r.Done? <==> |v| <= MAX_TL_BYTES && |old(data)| + |Text(v)| <= limit
      ensures data == if r.Done? then old(data) + Text(v) else old(data)
    {
      if |v| > MAX_TL_BYTES {
        return Failed(TextTooLong);
      }
      var header := BytesHeader(|v|);
      var padding := Padding(|header|, |v|);
      r := Reserve(|header| + |v| + padding);
      if r.Failed? {
        return;
      }
      r := Write(header);
      if r.Done? {
        r := Write(v);
      }
      if r.Done? {
        r := Write(Zeros(padding));
      }
    }

    method EnterObject() returns (r: Outcome)
      requires Valid()
      modifies this`depth, this`nodes
      ensures Valid()
      ensures r.Done? <==> old(depth) < MAX_OBJECT_DEPTH && old(nodes) < MAX_OBJECT_NODES
      ensures depth == (if r.Done? then old(depth) + 1 else old(depth))
      ensures nodes == (if r.Done? then old(nodes) + 1 else old(nodes))
    {
      if depth >= MAX_OBJECT_DEPTH {
        return Failed(DepthLimit);
      }
      if nodes >= MAX_OBJECT_NODES {
        return Failed(NodeLimit);
      }
      depth, nodes := depth + 1, nodes + 1;
      r := Done;
    }

    method LeaveObject()
      requires Valid() && depth > 0
      modifies this`depth
      ensures Valid() && depth == old(depth) - 1
    {
      depth := depth - 1;
    }

    method WriteVectorHeader(count: nat) returns (r: Outcome)
      requires Valid()
      modifies this`capacity, this`data
      ensures Valid() && old(data) <= data
      ensures r.Done? <==> count < TWO_31 && |old(data)| + 8 <= limit
      ensures r.Done? ==> data == old(data) + (LE32(VECTOR_ID) + LE32(count))
    {
      if count >= TWO_31 {
        return Failed(VectorTooLong);
      }
      r := Write(LE32(VECTOR_ID));
      if r.Done? {
        r := Write(LE32(count));
      }
    }
  }

  // ---- Emitted serializers ------------------------------------------------------------------

  /** The emitted setup code for one flag word: or together the bits of the fields that are there. */
  method ComputeFlags(ps: seq<Param>, fs: seq<Field>, name: string) returns (w: nat)
    requires |ps| == |fs| && BitsOk(ps)
    ensures w == WordOf(ps, fs, name) && w < TWO_32
  {
    Pow2Of32();
    w := 0;
    forall bit: nat ensures !TestBit(0, bit) { ZeroHasNoBits(bit); }
    for i := 0 to |ps|
      invariant w < Pow2(32)
      invariant forall bit: nat :: TestBit(w, bit) <==> exists k :: 0 <= k < i && Sets(ps[k], fs[k], name, bit)
    {
      if (ps[i].Cond? || ps[i].True?) && Sets(ps[i], fs[i], name, ps[i].bit) {
        forall bit: nat ensures TestBit(SetBit(w, ps[i].bit), bit) <==> bit == ps[i].bit || TestBit(w, bit) {
          SetBitTests(w, ps[i].bit, bit);
        }
        SetBitBound(w, ps[i].bit, 32);
        w := SetBit(w, ps[i].bit);
      }
    }
    FlagWordFaithful(ps, fs, name);
    BitsDetermine(w, WordOf(ps, fs, name), 32);
  }

  /** A serializer call: it succeeds exactly when the value can be written and fits, appends
      exactly the wire format, counts exactly the nodes, and restores the depth either way. */
  predicate Serialized(limit: nat, before: EncState, after: EncState, r: Outcome, o: Out)
  {
    && after.depth == before.depth && before.data <= after.data
    && (r.Done? <==> Room(limit, before, o))
    && (r.Done? ==> after == Wrote(before, o))
  }

  method Serialize(s: Schema, e: Encoder, t: Ty, v: Value) returns (r: Outcome)
    requires SchemaBitsOk(s) && Typed(s, t, v) && e.Valid()
    modifies e
    ensures e.Valid() && Serialized(e.limit, old(e.State()), e.State(), r, Emit(s, e.layer, t, v))
    decreases v, 3
  {
    match t
    case Vector(elem) => r := SerializeVector(s, e, elem, v);
    case Bare(_) => r := SerializeObject(s, e, v, false);
    case Boxed(_) => r := SerializeObject(s, e, v, true);
    case _ => r := SerializeBuiltin(s, e, t, v);
  }

  method SerializeBuiltin(s: Schema, e: Encoder, t: Ty, v: Value) returns (r: Outcome)
    requires !t.Vector? && !t.Bare? && !t.Boxed? && Typed(s, t, v) && e.Valid()
    modifies e
    ensures e.Valid() && Serialized(e.limit, old(e.State()), e.State(), r, EmitBuiltin(s, t, v))
  {
    match t
    case Int => r := e.Write(LE32(ToUint32(v.i)));
    case Long => r := e.Write(LE64(ToUint64(v.l)));
    case Nat => r := e.Write(LE32(v.n));
    case Double => r := e.Write(LE64(v.bits));
    case Int128 => r := e.Write(v.wide);
    case Int256 => r := e.Write(v.wide);
    case Bool => r := e.Write(LE32(if v.b then BOOL_TRUE else BOOL_FALSE));
    case String => r := e.WriteText(v.text);
    case Raw => r := e.WriteText(if v.TextV? then v.text else []);
  }

  method SerializeVector(s: Schema, e: Encoder, elem: Ty, v: Value) returns (r: Outcome)
    requires SchemaBitsOk(s) && Typed(s, Vector(elem), v) && e.Valid()
    modifies e
    ensures e.Valid() && Serialized(e.limit, old(e.State()), e.State(), r, Emit(s, e.layer, Vector(elem), v))
    decreases v, 2
  {
    r := e.EnterObject();
    if r.Failed? {
      return;
    }
    if v.Nil? {
      r := e.WriteVectorHeader(0);
    } else {
      r := SerializeElements(s, e, elem, v.elems);
    }
    e.LeaveObject();
  }

  method SerializeElements(s: Schema, e: Encoder, elem: Ty, es: seq<Value>) returns (r: Outcome)
    requires SchemaBitsOk(s) && AllTyped(s, elem, es) && e.Valid()
    modifies e
    ensures e.Valid()
    ensures Serialized(e.limit, old(e.State()), e.State(), r, Then(VectorHead(es), EmitElems(s, e.layer, elem, es, 0)))
    decreases es
  {
    ghost var start := e.State();
    ghost var whole := Then(VectorHead(es), EmitElems(s, e.layer, elem, es, 0));
    RemainsStep(e.limit, start, whole, start, VectorHead(es), EmitElems(s, e.layer, elem, es, 0));
    r := e.WriteVectorHeader(|es|);
    var i := 0;
    while r.Done? && i < |es|
      invariant i <= |es| && e.Valid() && e.depth == start.depth && start.data <= e.data
      invariant r.Failed? ==> !Room(e.limit, start, whole)
      invariant r.Done? ==> Remains(e.limit, start, whole, e.State(), EmitElems(s, e.layer, elem, es, i))
      decreases |es| - i
    {
      RemainsStep(e.limit, start, whole, e.State(), Emit(s, e.layer, elem, es[i]),
                  EmitElems(s, e.layer, elem, es, i + 1));
      r := Serialize(s, e, elem, es[i]);
      i := i + 1;
    }
  }

  /** serializeTL and serializeTLBare: enter, the constructor ID if boxed, then the body. */
  method SerializeObject(s: Schema, e: Encoder, v: Value, boxed: bool) returns (r: Outcome)
    requires SchemaBitsOk(s) && (v.Nil? || (v.ObjV? && ObjTyped(s, v))) && e.Valid()
    modifies e
    ensures e.Valid()
    ensures Serialized(e.limit, old(e.State()), e.State(), r,
                       if v.Nil? then Impossible
                       else if boxed then EmitBoxed(s, e.layer, v) else Node(EmitObj(s, e.layer, v)))
    decreases v, 2
  {
    if v.Nil? {
      return Failed(NilObject);
    }
    var c := s.ctors[v.ctor];
    if !SupportsLayer(s, c, e.layer) {
      return Failed(UnavailableAtLayer);
    }
    r := e.EnterObject();
    if r.Failed? {
      return;
    }
    RoomThen(e.limit, e.State(), Leaf(LE32(c.id)), EmitObj(s, e.layer, v));
    if boxed {
      r := e.Write(LE32(c.id));
    }
    if r.Done? {
      r := SerializeFields(s, e, c.params, v.fields);
    }
    e.LeaveObject();
  }

  /** serializeTLBody: compute the flag words, then write the parameters in order. */
  method SerializeFields(s: Schema, e: Encoder, ps: seq<Param>, fs: seq<Field>) returns (r: Outcome)
    requires SchemaBitsOk(s) && BitsOk(ps) && FieldsTyped(s, ps, fs) && e.Valid()
    modifies e
    ensures e.Valid() && Serialized(e.limit, old(e.State()), e.State(), r, EmitFields(s, e.layer, ps, fs, 0))
    decreases fs
  {
    ghost var start := e.State();
    ghost var whole := EmitFields(s, e.layer, ps, fs, 0);
    r := Done;
    var i := 0;
    while r.Done? && i < |ps|
      invariant i <= |ps| && e.Valid() && e.depth == start.depth && start.data <= e.data
      invariant r.Failed? ==> !Room(e.limit, start, whole)
      invariant r.Done? ==> Remains(e.limit, start, whole, e.State(), EmitFields(s, e.layer, ps, fs, i))
      decreases |ps| - i
    {
      var w := 0;
      if !ps[i].Plain? {
        w := ComputeFlags(ps, fs, if ps[i].FlagWord? then ps[i].name else ps[i].word);
      }
      assert w == WordFor(ps, fs, ps[i]);
      RemainsStep(e.limit, start, whole, e.State(), EmitField(s, e.layer, ps[i], fs[i], w),
                  EmitFields(s, e.layer, ps, fs, i + 1));
      r := SerializeField(s, e, ps[i], fs[i], w);
      i := i + 1;
    }
  }

  method SerializeField(s: Schema, e: Encoder, p: Param, f: Field, w: nat) returns (r: Outcome)
    requires SchemaBitsOk(s) && FieldTyped(s, p, f) && e.Valid()
    modifies e
    ensures e.Valid() && Serialized(e.limit, old(e.State()), e.State(), r, EmitField(s, e.layer, p, f, w))
    decreases f
  {
    match p
    case FlagWord(_) => r := e.Write(LE32(w));
    case Plain(t) => r := Serialize(s, e, t, f.v);
    case Cond(_, bit, t) =>
      if !TestBit(w, bit) {
        r := Done;
      } else if f.Present? {
        r := Serialize(s, e, t, f.v);
      } else if t.Raw? {
        r := e.WriteText([]);
      } else if t.Vector? {
        r := e.EnterObject();
        if r.Done? {
          r := e.WriteVectorHeader(0);
          e.LeaveObject();
        }
      } else {
        r := Failed(NilObject);
      }
    case True(_, _) => r := Done;
  }
}
