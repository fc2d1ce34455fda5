/** TL schemas and in-memory values as the code generator sees them, and an independent
    description of the wire format: what bytes a value stands for and what they cost. */
module Schema {
  import opened Bytes
  import opened Cursor

  datatype Ty =
    | Int | Long | Nat | Double | Int128 | Int256 | Bool | String | Raw
    | Vector(elem: Ty)
    | Bare(ctor: nat)
    | Boxed(family: nat)

  /** A constructor parameter. A flag word is a `flags...:#` parameter; `Cond` is
      `word.bit?ty`; `True` is `word.bit?true`, which has no bytes of its own. */
  datatype Param =
    | FlagWord(name: string)
    | Plain(ty: Ty)
    | Cond(word: string, bit: nat, ty: Ty)
    | True(word: string, bit: nat)

  datatype Interval = Interval(minLayer: nat, maxLayer: nat)

  datatype Ctor = Ctor(id: Uint32, intervals: seq<Interval>, params: seq<Param>)

  datatype Schema = Schema(layered: bool, baseLayer: int, ctors: seq<Ctor>, families: seq<seq<nat>>)

  /** A Go value of a generated type. Integers keep their machine range; a double is its bit
      pattern; `Nil` is a nil reference, interface or slice. */
  datatype Value =
    | IntV(i: Int32) | LongV(l: Int64) | NatV(n: Uint32) | DoubleV(bits: Uint64) | WideV(wide: seq<Byte>)
    | BoolV(b: bool) | TextV(text: seq<Byte>) | VecV(elems: seq<Value>) | ObjV(ctor: nat, fields: seq<Field>)
    | Nil

  /** One struct field per parameter: `Hidden` for the word named "flags", which has no field;
      `Word` for every other flag word; `Absent` for a nil optional. */
  datatype Field = Hidden | Word(w: Uint32) | Absent | Present(v: Value) | Flag(b: bool)

  predicate Covers(v: Interval, layer: int)
  {
    (v.minLayer == 0 || layer >= v.minLayer) && (v.maxLayer == 0 || layer <= v.maxLayer)
  }

  /** Layer zero stands for the schema's oldest layer. */
  predicate SupportsLayer(s: Schema, c: Ctor, layer: int)
  {
    var effective := if layer == 0 then s.baseLayer else layer;
    s.layered ==> c.intervals == [] || exists i :: 0 <= i < |c.intervals| && Covers(c.intervals[i], effective)
  }

  // ---- Schemas the generator accepts --------------------------------------------------------

  predicate InRange(s: Schema, t: Ty)
  {
    match t
    case Vector(e) => InRange(s, e)
    case Bare(c) => c < |s.ctors|
    case Boxed(f) => f < |s.families|
    case _ => true
  }

  predicate ParamOk(s: Schema, ps: seq<Param>, i: nat)
    requires i < |ps|
  {
    match ps[i]
    case FlagWord(_) => true
    case Plain(t) => InRange(s, t)
    case Cond(w, b, t) => InRange(s, t) && b < 32
    case True(w, b) => b < 32
  }

  predicate DeclaredBefore(ps: seq<Param>, i: nat, word: string)
    requires i <= |ps|
  {
    exists k :: 0 <= k < i && ps[k] == FlagWord(word)
  }

  predicate FollowsItsWord(ps: seq<Param>, i: nat)
    requires i < |ps|
  {
    ps[i].Cond? || ps[i].True? ==> DeclaredBefore(ps, i, ps[i].word)
  }

  /** Every conditional parameter comes after its flag word. */
  predicate WordsFirst(ps: seq<Param>)
  {
    forall i :: 0 <= i < |ps| ==> FollowsItsWord(ps, i)
  }

  /** References resolve, flag bits fit a word, and a constructor ID names one constructor
      among those available together at a layer. */
  predicate WellFormed(s: Schema, layer: int)
  {
    && (forall c :: 0 <= c < |s.ctors| ==>
          forall i :: 0 <= i < |s.ctors[c].params| ==> ParamOk(s, s.ctors[c].params, i))
    && (forall f, k :: 0 <= f < |s.families| && 0 <= k < |s.families[f]| ==> s.families[f][k] < |s.ctors|)
    && (forall c, d :: 0 <= c < d < |s.ctors| && s.ctors[c].id == s.ctors[d].id ==>
          !SupportsLayer(s, s.ctors[c], layer) || !SupportsLayer(s, s.ctors[d], layer))
  }

  // ---- Typing -------------------------------------------------------------------------------

  /** v is a value the Go type generated for t can hold. */
  predicate Typed(s: Schema, t: Ty, v: Value)
    decreases v
  {
    match t
    case Int => v.IntV?
    case Long => v.LongV?
    case Nat => v.NatV?
    case Double => v.DoubleV?
    case Int128 => v.WideV? && |v.wide| == 16
    case Int256 => v.WideV? && |v.wide| == 32
    case Bool => v.BoolV?
    case String => v.TextV?
    case Raw => v.TextV? || v.Nil?
    case Vector(e) => v.Nil? || (v.VecV? && forall i :: 0 <= i < |v.elems| ==> Typed(s, e, v.elems[i]))
    case Bare(c) => v.Nil? || (v.ObjV? && v.ctor == c && ObjTyped(s, v))
    case Boxed(f) => v.Nil? || (v.ObjV? && f < |s.families| && v.ctor in s.families[f] && ObjTyped(s, v))
  }

  predicate AllTyped(s: Schema, e: Ty, es: seq<Value>)
  {
    forall i :: 0 <= i < |es| ==> Typed(s, e, es[i])
  }

  predicate ObjTyped(s: Schema, v: Value)
    requires v.ObjV?
    decreases v, 0
  {
    && v.ctor < |s.ctors|
    && |v.fields| == |s.ctors[v.ctor].params|
    && forall i :: 0 <= i < |v.fields| ==> FieldTyped(s, s.ctors[v.ctor].params[i], v.fields[i])
  }

  predicate FieldsTyped(s: Schema, ps: seq<Param>, fs: seq<Field>)
  {
    |fs| == |ps| && forall i :: 0 <= i < |fs| ==> FieldTyped(s, ps[i], fs[i])
  }

  predicate FieldTyped(s: Schema, p: Param, f: Field)
    decreases f
  {
    match p
    case FlagWord(name) => if name == "flags" then f.Hidden? else f.Word?
    case Plain(t) => f.Present? && Typed(s, t, f.v)
    case Cond(_, _, t) => f.Absent? || (f.Present? && !f.v.Nil? && Typed(s, t, f.v))
    case True(_, _) => f.Flag?
  }

  // ---- Flag words ---------------------------------------------------------------------------

  /** The field makes the emitted setup code set bit `bit` of word `name`. */
  predicate Sets(p: Param, f: Field, name: string, bit: nat)
  {
    || (p.Cond? && p.word == name && p.bit == bit && !f.Absent?)
    || (p.True? && p.word == name && p.bit == bit && f == Flag(true))
  }

  predicate BitsOk(ps: seq<Param>)
  {
    forall i :: 0 <= i < |ps| && (ps[i].Cond? || ps[i].True?) ==> ps[i].bit < 32
  }

  /** The word `name` as computed from the parameters from i on. */
  function WordFrom(ps: seq<Param>, fs: seq<Field>, name: string, i: nat): (w: nat)
    requires |ps| == |fs| && i <= |ps|
    decreases |ps| - i
  {
    if i == |ps| then 0
    else
      var rest := WordFrom(ps, fs, name, i + 1);
      if (ps[i].Cond? || ps[i].True?) && Sets(ps[i], fs[i], name, ps[i].bit) then SetBit(rest, ps[i].bit) else rest
  }

  function WordOf(ps: seq<Param>, fs: seq<Field>, name: string): nat
    requires |ps| == |fs|
  {
    WordFrom(ps, fs, name, 0)
  }

  /** The word a parameter declares or depends on. */
  function WordFor(ps: seq<Param>, fs: seq<Field>, p: Param): nat
    requires |ps| == |fs|
  {
    match p
    case FlagWord(name) => WordOf(ps, fs, name)
    case Cond(word, _, _) => WordOf(ps, fs, word)
    case True(word, _) => WordOf(ps, fs, word)
    case Plain(_) => 0
  }

  lemma {:induction false} WordFromBits(ps: seq<Param>, fs: seq<Field>, name: string, i: nat, bit: nat)
    requires |ps| == |fs| && i <= |ps|
    ensures TestBit(WordFrom(ps, fs, name, i), bit) <==> exists k :: i <= k < |ps| && Sets(ps[k], fs[k], name, bit)
    decreases |ps| - i
  {
    if i == |ps| {
      ZeroHasNoBits(bit);
    } else {
      WordFromBits(ps, fs, name, i + 1, bit);
      if ps[i].Cond? || ps[i].True? {
        SetBitTests(WordFrom(ps, fs, name, i + 1), ps[i].bit, bit);
      }
    }
  }

  lemma {:induction false} WordFromBound(ps: seq<Param>, fs: seq<Field>, name: string, i: nat)
    requires |ps| == |fs| && i <= |ps| && BitsOk(ps)
    ensures WordFrom(ps, fs, name, i) < TWO_32
    decreases |ps| - i
  {
    Pow2Of32();
    if i < |ps| {
      WordFromBound(ps, fs, name, i + 1);
      if ps[i].Cond? || ps[i].True? {
        SetBitBound(WordFrom(ps, fs, name, i + 1), ps[i].bit, 32);
      }
    }
  }

  /** A flag word records presence faithfully: its bit is set exactly when some field
      conditional on that bit is there. */
  lemma FlagWordFaithful(ps: seq<Param>, fs: seq<Field>, name: string)
    requires |ps| == |fs| && BitsOk(ps)
    ensures WordOf(ps, fs, name) < TWO_32
    ensures forall bit: nat :: TestBit(WordOf(ps, fs, name), bit) <==>
                               exists k :: 0 <= k < |ps| && Sets(ps[k], fs[k], name, bit)
  {
    WordFromBound(ps, fs, name, 0);
    forall bit: nat ensures TestBit(WordOf(ps, fs, name), bit) <==>
                            exists k :: 0 <= k < |ps| && Sets(ps[k], fs[k], name, bit) {
      WordFromBits(ps, fs, name, 0, bit);
    }
  }

  // ---- The wire format ----------------------------------------------------------------------

  /** What writing a value amounts to: whether it can be written at all, its bytes, the objects
      and vectors entered, how deeply they nest, and its vector elements (in all, and in the
      largest vector). */
  datatype Out = Out(ok: bool, bytes: seq<Byte>, nodes: nat, height: nat, elems: nat, widest: nat)

  function Max(a: nat, b: nat): nat { if a < b then b else a }

  function Then(a: Out, b: Out): Out
  {
    Out(a.ok && b.ok, a.bytes + b.bytes, a.nodes + b.nodes, Max(a.height, b.height), a.elems + b.elems,
        Max(a.widest, b.widest))
  }

  function Leaf(bs: seq<Byte>): Out { Out(true, bs, 0, 0, 0, 0) }

  const Nothing := Leaf([])
  const Impossible := Out(false, [], 0, 0, 0, 0)

  /** One object or vector around its contents. */
  function Node(o: Out): Out { o.(nodes := o.nodes + 1, height := o.height + 1) }

  function TextOut(v: seq<Byte>): Out { if |v| <= MAX_TL_BYTES then Leaf(Text(v)) else Impossible }

  /** A nil slice has no elements. */
  function Elements(v: Value): seq<Value> { if v.VecV? then v.elems else [] }

  function Contents(v: Value): seq<Byte> { if v.TextV? then v.text else [] }

  function Emit(s: Schema, layer: int, t: Ty, v: Value): (o: Out)
    requires Typed(s, t, v)
    decreases v, 2
  {
    match t
    case Vector(e) => if v.Nil? then Node(VectorHead([])) else
      Node(Then(VectorHead(v.elems), EmitElems(s, layer, e, v.elems, 0)))
    case Bare(_) => if v.Nil? then Impossible else Node(EmitObj(s, layer, v))
    case Boxed(_) => if v.Nil? then Impossible else EmitBoxed(s, layer, v)
    case _ => EmitBuiltin(s, t, v)
  }

  function EmitBuiltin(s: Schema, t: Ty, v: Value): Out
    requires !t.Vector? && !t.Bare? && !t.Boxed? && Typed(s, t, v)
  {
    match t
    case Int => Leaf(LE32(ToUint32(v.i)))
    case Long => Leaf(LE64(ToUint64(v.l)))
    case Nat => Leaf(LE32(v.n))
    case Double => Leaf(LE64(v.bits))
    case Int128 => Leaf(v.wide)
    case Int256 => Leaf(v.wide)
    case Bool => Leaf(LE32(if v.b then BOOL_TRUE else BOOL_FALSE))
    case String => TextOut(v.text)
    case Raw => TextOut(Contents(v))
  }

  /** A boxed object starts with its constructor ID. */
  function EmitBoxed(s: Schema, layer: int, v: Value): Out
    requires v.ObjV? && ObjTyped(s, v)
    decreases v, 1, 1
  {
    Node(Then(Leaf(LE32(s.ctors[v.ctor].id)), EmitObj(s, layer, v)))
  }

  function VectorHead(es: seq<Value>): Out
  {
    Out(|es| < TWO_31, LE32(VECTOR_ID) + LE32(|es|), 0, 0, |es|, |es|)
  }

  function EmitElems(s: Schema, layer: int, e: Ty, es: seq<Value>, i: nat): Out
    requires i <= |es| && AllTyped(s, e, es)
    decreases es, |es| - i
  {
    if i == |es| then Nothing else Then(Emit(s, layer, e, es[i]), EmitElems(s, layer, e, es, i + 1))
  }

  function EmitObj(s: Schema, layer: int, v: Value): Out
    requires v.ObjV? && ObjTyped(s, v)
    decreases v, 1, 0
  {
    var c := s.ctors[v.ctor];
    var o := EmitFields(s, layer, c.params, v.fields, 0);
    o.(ok := o.ok && SupportsLayer(s, c, layer))
  }

  function EmitFields(s: Schema, layer: int, ps: seq<Param>, fs: seq<Field>, i: nat): Out
    requires i <= |fs| && FieldsTyped(s, ps, fs)
    decreases fs, |fs| - i
  {
    if i == |fs| then Nothing
    else Then(EmitField(s, layer, ps[i], fs[i], WordFor(ps, fs, ps[i])), EmitFields(s, layer, ps, fs, i + 1))
  }

  /** What parameter p puts on the wire, w being the flag word it declares or depends on. */
  function EmitField(s: Schema, layer: int, p: Param, f: Field, w: nat): Out
    requires FieldTyped(s, p, f)
    decreases f
  {
    match p
    case FlagWord(_) => Leaf(LE32(w))
    case Plain(t) => Emit(s, layer, t, f.v)
    case Cond(_, bit, t) =>
      if !TestBit(w, bit) then Nothing else if f.Absent? then EmitNil(t) else Emit(s, layer, t, f.v)
    case True(_, _) => Nothing
  }

  /** An absent field whose flag bit another field set: a nil slice is written empty, anything
      else cannot be written. */
  function EmitNil(t: Ty): Out
  {
    match t
    case Raw => TextOut([])
    case Vector(_) => Node(VectorHead([]))
    case _ => Impossible
  }

  // ---- Normal forms -------------------------------------------------------------------------

  /** The value a peer sees: nil slices are empty, kept flag words are the computed ones. */
  function Norm(s: Schema, t: Ty, v: Value): (r: Value)
    requires Typed(s, t, v)
    decreases v, 2
  {
    match t
    case Raw => TextV(Contents(v))
    case Vector(e) => if v.Nil? then VecV([]) else VecV(NormElems(s, e, v.elems, 0))
    case Bare(_) => if v.Nil? then Nil else NormObj(s, v)
    case Boxed(_) => if v.Nil? then Nil else NormObj(s, v)
    case _ => v
  }

  function NormElems(s: Schema, e: Ty, es: seq<Value>, i: nat): (r: seq<Value>)
    requires i <= |es| && AllTyped(s, e, es)
    ensures |r| == |es| - i
    decreases es, |es| - i
  {
    if i == |es| then [] else [Norm(s, e, es[i])] + NormElems(s, e, es, i + 1)
  }

  function NormObj(s: Schema, v: Value): Value
    requires v.ObjV? && ObjTyped(s, v)
    decreases v, 1
  {
    ObjV(v.ctor, NormFields(s, s.ctors[v.ctor].params, v.fields, 0))
  }

  function NormFields(s: Schema, ps: seq<Param>, fs: seq<Field>, i: nat): (r: seq<Field>)
    requires i <= |fs| && FieldsTyped(s, ps, fs)
    ensures |r| == |fs| - i
    decreases fs, |fs| - i
  {
    if i == |fs| then []
    else [NormField(s, ps[i], fs[i], WordFor(ps, fs, ps[i]))] + NormFields(s, ps, fs, i + 1)
  }

  function NormField(s: Schema, p: Param, f: Field, w: nat): Field
    requires FieldTyped(s, p, f)
    decreases f
  {
    match p
    case FlagWord(name) => if name == "flags" then Hidden else Word(w % TWO_32)
    case Plain(t) => Present(Norm(s, t, f.v))
    case Cond(_, bit, t) =>
      if !TestBit(w, bit) then Absent
      else if f.Absent? then Present(if t.Raw? then TextV([]) else VecV([]))
      else Present(Norm(s, t, f.v))
    case True(_, bit) => Flag(TestBit(w, bit))
  }

  // ---- Values the wire format keeps as they are ---------------------------------------------

  /** No nil slice is required anywhere, kept flag words hold the computed word, and fields that
      share a flag bit are all there or all absent. */
  predicate Faithful(s: Schema, t: Ty, v: Value)
    requires Typed(s, t, v)
    decreases v, 1
  {
    match t
    case Raw => v.TextV?
    case Vector(e) => v.VecV? && forall i :: 0 <= i < |v.elems| ==> Faithful(s, e, v.elems[i])
    case Bare(_) => v.Nil? || ObjFaithful(s, v)
    case Boxed(_) => v.Nil? || ObjFaithful(s, v)
    case _ => true
  }

  predicate ObjFaithful(s: Schema, v: Value)
    requires v.ObjV? && ObjTyped(s, v)
    decreases v, 0
  {
    var ps := s.ctors[v.ctor].params;
    && BitsShared(ps, v.fields)
    && (forall i :: 0 <= i < |ps| && ps[i].FlagWord? && v.fields[i].Word? ==>
          v.fields[i].w == WordOf(ps, v.fields, ps[i].name))
    && (forall i :: 0 <= i < |ps| ==> FieldFaithful(s, ps[i], v.fields[i]))
  }

  predicate BitsShared(ps: seq<Param>, fs: seq<Field>)
    requires |ps| == |fs|
  {
    forall i, j :: 0 <= i < |ps| && 0 <= j < |ps| && (ps[i].Cond? || ps[i].True?) && (ps[j].Cond? || ps[j].True?)
                   && ps[i].word == ps[j].word && ps[i].bit == ps[j].bit
      ==> Sets(ps[i], fs[i], ps[i].word, ps[i].bit) == Sets(ps[j], fs[j], ps[j].word, ps[j].bit)
  }

  predicate FieldFaithful(s: Schema, p: Param, f: Field)
    requires FieldTyped(s, p, f)
    decreases f
  {
    match p
    case Plain(t) => Faithful(s, t, f.v)
    case Cond(_, _, t) => f.Present? ==> Faithful(s, t, f.v)
    case _ => true
  }

  /** Exactly the faithful values are their own normal form. */
  lemma {:induction false} NormKeepsFaithful(s: Schema, t: Ty, v: Value)
    requires SchemaBitsOk(s) && Typed(s, t, v)
    ensures Norm(s, t, v) == v <==> Faithful(s, t, v)
    decreases v, 1
  {
    match t
    case Vector(e) =>
      if v.VecV? {
        NormElemsKeep(s, e, v.elems, 0);
      }
    case Bare(_) => if v.ObjV? { NormObjKeeps(s, v); }
    case Boxed(_) => if v.ObjV? { NormObjKeeps(s, v); }
    case _ =>
  }

  predicate SchemaBitsOk(s: Schema)
  {
    forall c :: 0 <= c < |s.ctors| ==> BitsOk(s.ctors[c].params)
  }

  lemma {:induction false} NormElemsKeep(s: Schema, e: Ty, es: seq<Value>, i: nat)
    requires SchemaBitsOk(s) && i <= |es| && AllTyped(s, e, es)
    ensures NormElems(s, e, es, i) == es[i..] <==> forall k :: i <= k < |es| ==> Faithful(s, e, es[k])
    decreases es, |es| - i
  {
    if i < |es| {
      NormKeepsFaithful(s, e, es[i]);
      NormElemsKeep(s, e, es, i + 1);
      assert es[i..] == [es[i]] + es[i + 1..];
    }
  }

  lemma {:induction false} NormObjKeeps(s: Schema, v: Value)
    requires SchemaBitsOk(s) && v.ObjV? && ObjTyped(s, v)
    ensures NormObj(s, v) == v <==> ObjFaithful(s, v)
    decreases v, 0
  {
    var ps, fs := s.ctors[v.ctor].params, v.fields;
    NormFieldsKeep(s, ps, fs, 0);
    assert NormFields(s, ps, fs, 0) == fs[0..] == fs <==> forall i :: 0 <= i < |ps| ==> FieldKept(s, ps, fs, i);
    KeptMeansFaithful(s, ps, fs);
  }

  lemma {:induction false} NormFieldsKeep(s: Schema, ps: seq<Param>, fs: seq<Field>, i: nat)
    requires SchemaBitsOk(s) && BitsOk(ps) && i <= |fs| && FieldsTyped(s, ps, fs)
    ensures NormFields(s, ps, fs, i) == fs[i..] <==> forall k :: i <= k < |ps| ==> FieldKept(s, ps, fs, k)
    decreases fs, |fs| - i
  {
    if i < |fs| {
      NormFieldKeeps(s, ps, fs, i);
      NormFieldsKeep(s, ps, fs, i + 1);
      assert fs[i..] == [fs[i]] + fs[i + 1..];
    }
  }

  lemma KeptMeansFaithful(s: Schema, ps: seq<Param>, fs: seq<Field>)
    requires FieldsTyped(s, ps, fs)
    ensures (forall i :: 0 <= i < |ps| ==> FieldKept(s, ps, fs, i)) <==>
            && BitsShared(ps, fs)
            && (forall i :: 0 <= i < |ps| && ps[i].FlagWord? && fs[i].Word? ==> fs[i].w == WordOf(ps, fs, ps[i].name))
            && (forall i :: 0 <= i < |ps| ==> FieldFaithful(s, ps[i], fs[i]))
  {
    KeptMeansShared(s, ps, fs);
    if forall i :: 0 <= i < |ps| ==> FieldKept(s, ps, fs, i) {
      forall i | 0 <= i < |ps|
        ensures FieldFaithful(s, ps[i], fs[i])
        ensures ps[i].FlagWord? && fs[i].Word? ==> fs[i].w == WordOf(ps, fs, ps[i].name)
        ensures ps[i].Cond? || ps[i].True? ==>
          (Sets(ps[i], fs[i], ps[i].word, ps[i].bit) <==> TestBit(WordOf(ps, fs, ps[i].word), ps[i].bit))
      {
        assert FieldKept(s, ps, fs, i);
      }
    }
  }

  /** The field is what the peer will see. */
  predicate FieldKept(s: Schema, ps: seq<Param>, fs: seq<Field>, i: nat)
    requires |ps| == |fs| && i < |fs| && FieldTyped(s, ps[i], fs[i])
  {
    && FieldFaithful(s, ps[i], fs[i])
    && (ps[i].FlagWord? && fs[i].Word? ==> fs[i].w == WordOf(ps, fs, ps[i].name))
    && (ps[i].Cond? || ps[i].True? ==>
          (Sets(ps[i], fs[i], ps[i].word, ps[i].bit) <==> TestBit(WordOf(ps, fs, ps[i].word), ps[i].bit)))
  }

  lemma {:induction false} NormFieldKeeps(s: Schema, ps: seq<Param>, fs: seq<Field>, i: nat)
    requires SchemaBitsOk(s) && BitsOk(ps) && |ps| == |fs| && i < |fs| && FieldTyped(s, ps[i], fs[i])
    ensures NormField(s, ps[i], fs[i], WordFor(ps, fs, ps[i])) == fs[i] <==> FieldKept(s, ps, fs, i)
    decreases fs[i]
  {
    match ps[i]
    case FlagWord(name) => FlagWordFaithful(ps, fs, name);
    case Plain(t) => NormKeepsFaithful(s, t, fs[i].v);
    case Cond(name, bit, t) =>
      WordFromBits(ps, fs, name, 0, bit);
      if fs[i].Present? {
        assert Sets(ps[i], fs[i], name, bit);
        NormKeepsFaithful(s, t, fs[i].v);
      }
    case True(name, bit) => WordFromBits(ps, fs, name, 0, bit);
  }

  lemma KeptMeansShared(s: Schema, ps: seq<Param>, fs: seq<Field>)
    requires FieldsTyped(s, ps, fs)
    ensures BitsShared(ps, fs) <==>
            forall i :: 0 <= i < |ps| && (ps[i].Cond? || ps[i].True?) ==>
              (Sets(ps[i], fs[i], ps[i].word, ps[i].bit) <==> TestBit(WordOf(ps, fs, ps[i].word), ps[i].bit))
  {
    forall i | 0 <= i < |ps| && (ps[i].Cond? || ps[i].True?)
      ensures TestBit(WordOf(ps, fs, ps[i].word), ps[i].bit) <==>
              exists k :: 0 <= k < |ps| && Sets(ps[k], fs[k], ps[i].word, ps[i].bit)
    {
      WordFromBits(ps, fs, ps[i].word, 0, ps[i].bit);
    }
  }
}
