/** What the emitted decoders accept, on every input and every schema: only well-typed values, each
    paid for in full; and exactly when such a value can be written and read again at that price. */
module Sound {
  import opened Bytes
  import opened Cursor
  import opened Schema
  import opened Codec
  import opened RoundTrip

  // ---- What a value costs without the nils its flag words would add ----------------------------

  /** Emit, save that an absent field costs nothing even where another field set its flag bit. */
  function Paid(s: Schema, layer: int, t: Ty, v: Value): (o: Out)
    requires Typed(s, t, v)
    decreases v, 2
  {
    match t
    case Vector(e) => if v.Nil? then Node(VectorHead([])) else
      Node(Then(VectorHead(v.elems), PaidElems(s, layer, e, v.elems, 0)))
    case Bare(_) => if v.Nil? then Impossible else Node(PaidObj(s, layer, v))
    case Boxed(_) => if v.Nil? then Impossible else PaidBoxed(s, layer, v)
    case _ => EmitBuiltin(s, t, v)
  }

  function PaidBoxed(s: Schema, layer: int, v: Value): Out
    requires v.ObjV? && ObjTyped(s, v)
    decreases v, 1, 1
  {
    Node(Then(Leaf(LE32(s.ctors[v.ctor].id)), PaidObj(s, layer, v)))
  }

  function PaidElems(s: Schema, layer: int, e: Ty, es: seq<Value>, i: nat): Out
    requires i <= |es| && AllTyped(s, e, es)
    decreases es, |es| - i
  {
    if i == |es| then Nothing else Then(Paid(s, layer, e, es[i]), PaidElems(s, layer, e, es, i + 1))
  }

  function PaidObj(s: Schema, layer: int, v: Value): Out
    requires v.ObjV? && ObjTyped(s, v)
    decreases v, 1, 0
  {
    var c := s.ctors[v.ctor];
    var o := PaidFields(s, layer, c.params, v.fields, 0);
    o.(ok := o.ok && SupportsLayer(s, c, layer))
  }

  function PaidFields(s: Schema, layer: int, ps: seq<Param>, fs: seq<Field>, i: nat): Out
    requires i <= |fs| && FieldsTyped(s, ps, fs)
    decreases fs, |fs| - i
  {
    if i == |fs| then Nothing
    else Then(PaidField(s, layer, ps[i], fs[i], WordFor(ps, fs, ps[i])), PaidFields(s, layer, ps, fs, i + 1))
  }

  function PaidField(s: Schema, layer: int, p: Param, f: Field, w: nat): Out
    requires FieldTyped(s, p, f)
    decreases f
  {
    match p
    case FlagWord(_) => Leaf(LE32(w))
    case Plain(t) => Paid(s, layer, t, f.v)
    case Cond(_, _, t) => if f.Absent? then Nothing else Paid(s, layer, t, f.v)
    case True(_, _) => Nothing
  }

  /** No absent field shares its flag bit with a present one, here or deeper down. */
  predicate Even(s: Schema, t: Ty, v: Value)
    requires Typed(s, t, v)
    decreases v, 1
  {
    match t
    case Vector(e) => v.VecV? ==> forall i :: 0 <= i < |v.elems| ==> Even(s, e, v.elems[i])
    case Bare(_) => v.ObjV? ==> ObjEven(s, v)
    case Boxed(_) => v.ObjV? ==> ObjEven(s, v)
    case _ => true
  }

  predicate ObjEven(s: Schema, v: Value)
    requires v.ObjV? && ObjTyped(s, v)
    decreases v, 0
  {
    var ps := s.ctors[v.ctor].params;
    forall i :: 0 <= i < |ps| ==> BitEven(ps, v.fields, i) && FieldEven(s, ps[i], v.fields[i])
  }

  predicate BitEven(ps: seq<Param>, fs: seq<Field>, i: nat)
    requires |ps| == |fs| && i < |ps|
  {
    ps[i].Cond? && fs[i].Absent? ==> !TestBit(WordOf(ps, fs, ps[i].word), ps[i].bit)
  }

  predicate FieldEven(s: Schema, p: Param, f: Field)
    requires FieldTyped(s, p, f)
    decreases f
  {
    match p
    case Plain(t) => Even(s, t, f.v)
    case Cond(_, _, t) => f.Present? ==> Even(s, t, f.v)
    case _ => true
  }

  /** o is exactly what was paid for, or it cannot be written, or it takes more bytes. */
  predicate Compares(even: bool, emitted: Out, paid: Out)
  {
    if even then emitted == paid else emitted.ok ==> |emitted.bytes| > |paid.bytes|
  }

  lemma ComparesThen(x: bool, a: Out, p: Out, y: bool, b: Out, q: Out)
    requires Compares(x, a, p) && Compares(y, b, q)
    ensures Compares(x && y, Then(a, b), Then(p, q))
  {
  }

  /** A value is written for exactly what it costs when it is even; otherwise it cannot be written or
      takes more bytes. */
  lemma {:induction false} EvenCostsNoMore(s: Schema, layer: int, t: Ty, v: Value)
    requires Typed(s, t, v)
    ensures Compares(Even(s, t, v), Emit(s, layer, t, v), Paid(s, layer, t, v))
    decreases v, 2
  {
    match t
    case Vector(e) =>
      if v.VecV? {
        ElemsEven(s, layer, e, v.elems, 0);
        ComparesThen(true, VectorHead(v.elems), VectorHead(v.elems), AllEven(s, e, v.elems, 0),
                     EmitElems(s, layer, e, v.elems, 0), PaidElems(s, layer, e, v.elems, 0));
      }
    case Bare(_) => if v.ObjV? { ObjEvenCosts(s, layer, v); }
    case Boxed(_) => if v.ObjV? { ObjEvenCosts(s, layer, v); }
    case _ =>
  }

  predicate AllEven(s: Schema, e: Ty, es: seq<Value>, i: nat)
    requires AllTyped(s, e, es)
  {
    forall k :: i <= k < |es| ==> Even(s, e, es[k])
  }

  lemma {:induction false} ElemsEven(s: Schema, layer: int, e: Ty, es: seq<Value>, i: nat)
    requires i <= |es| && AllTyped(s, e, es)
    ensures Compares(AllEven(s, e, es, i), EmitElems(s, layer, e, es, i), PaidElems(s, layer, e, es, i))
    decreases es, |es| - i
  {
    if i < |es| {
      EvenCostsNoMore(s, layer, e, es[i]);
      ElemsEven(s, layer, e, es, i + 1);
      ComparesThen(Even(s, e, es[i]), Emit(s, layer, e, es[i]), Paid(s, layer, e, es[i]), AllEven(s, e, es, i + 1),
                   EmitElems(s, layer, e, es, i + 1), PaidElems(s, layer, e, es, i + 1));
    }
  }

  lemma {:induction false} ObjEvenCosts(s: Schema, layer: int, v: Value)
    requires v.ObjV? && ObjTyped(s, v)
    ensures Compares(ObjEven(s, v), EmitObj(s, layer, v), PaidObj(s, layer, v))
    decreases v, 1
  {
    FieldsEven(s, layer, s.ctors[v.ctor].params, v.fields, 0);
  }

  predicate EvenFrom(s: Schema, ps: seq<Param>, fs: seq<Field>, i: nat)
    requires FieldsTyped(s, ps, fs)
  {
    forall k :: i <= k < |ps| ==> BitEven(ps, fs, k) && FieldEven(s, ps[k], fs[k])
  }

  lemma {:induction false} FieldsEven(s: Schema, layer: int, ps: seq<Param>, fs: seq<Field>, i: nat)
    requires i <= |fs| && FieldsTyped(s, ps, fs)
    ensures Compares(EvenFrom(s, ps, fs, i), EmitFields(s, layer, ps, fs, i), PaidFields(s, layer, ps, fs, i))
    decreases fs, |fs| - i
  {
    if i < |fs| {
      var w := WordFor(ps, fs, ps[i]);
      if ps[i].Cond? && fs[i].Present? {
        assert Sets(ps[i], fs[i], ps[i].word, ps[i].bit);
        WordFromBits(ps, fs, ps[i].word, 0, ps[i].bit);
      }
      OneFieldEven(s, layer, ps[i], fs[i], w);
      FieldsEven(s, layer, ps, fs, i + 1);
      ComparesThen(BitEven(ps, fs, i) && FieldEven(s, ps[i], fs[i]), EmitField(s, layer, ps[i], fs[i], w),
                   PaidField(s, layer, ps[i], fs[i], w), EvenFrom(s, ps, fs, i + 1),
                   EmitFields(s, layer, ps, fs, i + 1), PaidFields(s, layer, ps, fs, i + 1));
    }
  }

  lemma {:induction false} OneFieldEven(s: Schema, layer: int, p: Param, f: Field, w: nat)
    requires FieldTyped(s, p, f) && (p.Cond? && f.Present? ==> TestBit(w, p.bit))
    ensures Compares((p.Cond? && f.Absent? ==> !TestBit(w, p.bit)) && FieldEven(s, p, f),
                     EmitField(s, layer, p, f, w), PaidField(s, layer, p, f, w))
    decreases f
  {
    match p
    case Plain(t) => EvenCostsNoMore(s, layer, t, f.v);
    case Cond(_, _, t) => if f.Present? { EvenCostsNoMore(s, layer, t, f.v); }
    case _ =>
  }

  // ---- Every decoded value is well typed and paid for ------------------------------------------

  /** Reading from st to t was charged for everything in o. */
  predicate Charged(l: Limits, st: DecState, t: DecState, o: Out)
  {
    && o.ok && Advances(st, t) && Within(l, t) && t.depth == st.depth
    && t.nodes == st.nodes + o.nodes && t.elems == st.elems + o.elems
    && |o.bytes| <= |st.rest| - |t.rest|
    && st.depth + o.height <= l.maxDepth && o.widest <= MAX_VECTOR_ELEMENTS
  }

  lemma ChargedThen(l: Limits, st: DecState, t: DecState, u: DecState, a: Out, b: Out)
    requires Charged(l, st, t, a) && Charged(l, t, u, b)
    ensures Charged(l, st, u, Then(a, b))
  {
    AdvancesChain(st, t, u);
  }

  /** No byte string is shorter on the wire than the canonical form. */
  lemma TextCharged(l: Limits, st: DecState)
    requires Within(l, st) && ReadText(l, st).Ok?
    ensures Charged(l, st, ReadText(l, st).st, TextOut(ReadText(l, st).value))
  {
    ReadTextAdvances(l, st);
  }

  lemma BuiltinSound(s: Schema, l: Limits, t: Ty, st: DecState)
    requires !t.Vector? && !t.Bare? && !t.Boxed? && Within(l, st)
    ensures var r := DecodeBuiltin(l, t, st);
            r.Ok? ==> Typed(s, t, r.value) && Charged(l, st, r.st, EmitBuiltin(s, t, r.value))
  {
    match t
    case String => if ReadText(l, st).Ok? { TextCharged(l, st); }
    case Raw => if ReadText(l, st).Ok? { TextCharged(l, st); }
    case _ =>
  }

  lemma {:induction false} DecodeSound(s: Schema, layer: int, l: Limits, t: Ty, st: DecState)
    requires WellFormed(s, layer) && InRange(s, t) && Within(l, st)
    ensures var r := Decode(s, layer, l, t, st);
            r.Ok? ==> Typed(s, t, r.value) && Charged(l, st, r.st, Paid(s, layer, t, r.value))
    decreases l.maxDepth - st.depth, 1
  {
    match t
    case Vector(e) => VectorSound(s, layer, l, e, st);
    case Bare(c) => BodySound(s, layer, l, c, st);
    case Boxed(f) => BoxedSound(s, layer, l, f, st);
    case _ => BuiltinSound(s, l, t, st);
  }

  lemma {:induction false} VectorSound(s: Schema, layer: int, l: Limits, e: Ty, st: DecState)
    requires WellFormed(s, layer) && InRange(s, e) && Within(l, st)
    ensures var r := Decode(s, layer, l, Vector(e), st);
            r.Ok? ==> Typed(s, Vector(e), r.value) && Charged(l, st, r.st, Paid(s, layer, Vector(e), r.value))
    decreases l.maxDepth - st.depth, 0
  {
    var enter := EnterObject(l, st);
    if enter.Ok? {
      CountedSound(s, layer, l, e, enter.st);
    }
  }

  lemma {:induction false} BoxedSound(s: Schema, layer: int, l: Limits, f: nat, st: DecState)
    requires WellFormed(s, layer) && Within(l, st)
    ensures var r := Decode(s, layer, l, Boxed(f), st);
            r.Ok? ==> Typed(s, Boxed(f), r.value) && Charged(l, st, r.st, Paid(s, layer, Boxed(f), r.value))
    decreases l.maxDepth - st.depth, 0, 1
  {
    CtorSound(s, layer, l, f, st);
    var c := DecodeCtor(s, layer, l, f, st);
    if c.Ok? {
      BodySound(s, layer, l, c.value, c.st);
      var r := DecodeBody(s, layer, l, c.value, c.st);
      if r.Ok? {
        ChargedThen(l, st, c.st, r.st, Leaf(LE32(s.ctors[c.value].id)), Node(PaidObj(s, layer, r.value)));
      }
    }
  }

  lemma CtorSound(s: Schema, layer: int, l: Limits, f: nat, st: DecState)
    requires Within(l, st)
    ensures var c := DecodeCtor(s, layer, l, f, st);
            c.Ok? ==> && f < |s.families| && c.value in s.families[f] && c.value < |s.ctors|
                      && Charged(l, st, c.st, Leaf(LE32(s.ctors[c.value].id)))
  {
  }

  lemma {:induction false} CountedSound(s: Schema, layer: int, l: Limits, e: Ty, st: DecState)
    requires WellFormed(s, layer) && InRange(s, e) && Within(l, st)
    ensures var r := DecodeCounted(s, layer, l, e, st);
            r.Ok? ==> && AllTyped(s, e, r.value)
                      && Charged(l, st, r.st, Then(VectorHead(r.value), PaidElems(s, layer, e, r.value, 0)))
    decreases l.maxDepth - st.depth, 3
  {
    var min := MinimumElementBytes(e);
    ReadVectorCountAdvances(l, st, MAX_VECTOR_ELEMENTS, min);
    var count := ReadVectorCount(l, st, MAX_VECTOR_ELEMENTS, min);
    if count.Ok? {
      var r := DecodeElems(s, layer, l, e, count.value, count.st);
      if r.Ok? {
        ElemsCount(s, layer, l, e, count.value, count.st);
        ElemsTyped(s, layer, l, e, count.value, count.st);
        ElemsSound(s, layer, l, e, r.value, 0, count.st);
        HeadCharged(l, st, MinimumElementBytes(e), r.value);
        ChargedThen(l, st, count.st, r.st, VectorHead(r.value), PaidElems(s, layer, e, r.value, 0));
      }
    }
  }

  lemma HeadCharged(l: Limits, st: DecState, min: nat, es: seq<Value>)
    requires Within(l, st)
    requires var r := ReadVectorCount(l, st, MAX_VECTOR_ELEMENTS, min); r.Ok? && r.value == |es|
    ensures Charged(l, st, ReadVectorCount(l, st, MAX_VECTOR_ELEMENTS, min).st, VectorHead(es))
  {
    ReadVectorCountAdvances(l, st, MAX_VECTOR_ELEMENTS, min);
  }

  lemma ConsTyped(s: Schema, e: Ty, v: Value, es: seq<Value>)
    requires Typed(s, e, v) && AllTyped(s, e, es)
    ensures AllTyped(s, e, [v] + es)
  {
  }

  lemma {:induction false} ElemsTyped(s: Schema, layer: int, l: Limits, e: Ty, n: nat, st: DecState)
    requires WellFormed(s, layer) && InRange(s, e) && Within(l, st)
    ensures var r := DecodeElems(s, layer, l, e, n, st);
            r.Ok? ==> AllTyped(s, e, r.value)
    decreases l.maxDepth - st.depth, 2, n
  {
    if n > 0 {
      DecodeSound(s, layer, l, e, st);
      var head := Decode(s, layer, l, e, st);
      if head.Ok? {
        ElemsTyped(s, layer, l, e, n - 1, head.st);
        var tail := DecodeElems(s, layer, l, e, n - 1, head.st);
        if tail.Ok? {
          ConsTyped(s, e, head.value, tail.value);
        }
      }
    }
  }

  /** Walking the elements a decode produced, from element i on. */
  lemma {:induction false} ElemsSound(s: Schema, layer: int, l: Limits, e: Ty, es: seq<Value>, i: nat, st: DecState)
    requires WellFormed(s, layer) && InRange(s, e) && Within(l, st) && i <= |es|
    requires AllTyped(s, e, es)
    requires DecodeElems(s, layer, l, e, |es| - i, st).Ok? && DecodeElems(s, layer, l, e, |es| - i, st).value == es[i..]
    ensures Charged(l, st, DecodeElems(s, layer, l, e, |es| - i, st).st, PaidElems(s, layer, e, es, i))
    decreases l.maxDepth - st.depth, 2, |es| - i
  {
    if i < |es| {
      DecodeSound(s, layer, l, e, st);
      var head := Decode(s, layer, l, e, st);
      var tail := DecodeElems(s, layer, l, e, |es| - i - 1, head.st);
      assert es[i..] == [head.value] + tail.value;
      assert head.value == es[i..][0] == es[i];
      assert tail.value == es[i..][1..] == es[i + 1..];
      ElemsSound(s, layer, l, e, es, i + 1, head.st);
      ChargedThen(l, st, head.st, tail.st, Paid(s, layer, e, es[i]), PaidElems(s, layer, e, es, i + 1));
    }
  }

  lemma ChargedNode(l: Limits, st: DecState, t: DecState, o: Out)
    requires Within(l, st) && EnterObject(l, st).Ok? && Charged(l, EnterObject(l, st).st, t, o)
    ensures Charged(l, st, Leave(t), Node(o))
  {
  }

  lemma {:induction false} BodySound(s: Schema, layer: int, l: Limits, c: nat, st: DecState)
    requires WellFormed(s, layer) && Within(l, st)
    ensures var r := DecodeBody(s, layer, l, c, st);
            r.Ok? ==> && r.value.ObjV? && r.value.ctor == c && ObjTyped(s, r.value)
                      && Charged(l, st, r.st, Node(PaidObj(s, layer, r.value)))
    decreases l.maxDepth - st.depth, 0, 0
  {
    var enter := EnterObject(l, st);
    if c < |s.ctors| && enter.Ok? {
      var ps := s.ctors[c].params;
      var r := DecodeFields(s, layer, l, ps, 0, map[], enter.st);
      if r.Ok? {
        FieldsDecodeTyped(s, layer, l, c, 0, map[], enter.st);
        FieldsSound(s, layer, l, c, r.value, 0, map[], enter.st);
        if SupportsLayer(s, s.ctors[c], layer) {
          assert ObjTyped(s, ObjV(c, r.value));
          assert PaidObj(s, layer, ObjV(c, r.value)) == PaidFields(s, layer, ps, r.value, 0);
          ChargedNode(l, st, r.st, PaidFields(s, layer, ps, r.value, 0));
        }
      }
    }
  }

  /** The fields from parameter i on are well typed. */
  predicate TypedFrom(s: Schema, ps: seq<Param>, fs: seq<Field>, i: nat)
  {
    i + |fs| == |ps| && forall k :: i <= k < |ps| ==> FieldTyped(s, ps[k], fs[k - i])
  }

  lemma ConsTypedFrom(s: Schema, ps: seq<Param>, i: nat, f: Field, fs: seq<Field>)
    requires i < |ps| && FieldTyped(s, ps[i], f) && TypedFrom(s, ps, fs, i + 1)
    ensures TypedFrom(s, ps, [f] + fs, i)
  {
    forall k | i <= k < |ps| ensures FieldTyped(s, ps[k], ([f] + fs)[k - i]) {
      assert ([f] + fs)[k - i] == if k == i then f else fs[k - (i + 1)];
    }
  }

  lemma {:induction false} FieldsDecodeTyped(s: Schema, layer: int, l: Limits, c: nat, i: nat,
                                             words: map<string, Uint32>, st: DecState)
    requires WellFormed(s, layer) && c < |s.ctors| && i <= |s.ctors[c].params| && Within(l, st)
    ensures var r := DecodeFields(s, layer, l, s.ctors[c].params, i, words, st);
            r.Ok? ==> TypedFrom(s, s.ctors[c].params, r.value, i)
    decreases l.maxDepth - st.depth, 3, |s.ctors[c].params| - i
  {
    var ps := s.ctors[c].params;
    if i < |ps| {
      var head := DecodeField(s, layer, l, ps, i, words, st);
      FieldSound(s, layer, l, c, i, words, st, 0);
      if head.Ok? {
        FieldsDecodeTyped(s, layer, l, c, i + 1, head.value.1, head.st);
        var tail := DecodeFields(s, layer, l, ps, i + 1, head.value.1, head.st);
        if tail.Ok? {
          ConsTypedFrom(s, ps, i, head.value.0, tail.value);
        }
      }
    }
  }

  lemma WordSound(s: Schema, layer: int, l: Limits, ps: seq<Param>, i: nat, words: map<string, Uint32>, st: DecState,
                  w: nat)
    requires i < |ps| && ps[i].FlagWord? && Within(l, st)
    ensures var r := DecodeField(s, layer, l, ps, i, words, st);
            r.Ok? ==> FieldTyped(s, ps[i], r.value.0) && Charged(l, st, r.st, Leaf(LE32(w)))
  {
    TakeAdvances(l, st, 4);
  }

  lemma {:induction false} PresentSound(s: Schema, layer: int, l: Limits, t: Ty, words: map<string, Uint32>,
                                        st: DecState)
    requires WellFormed(s, layer) && InRange(s, t) && Within(l, st)
    ensures var r := DecodePresent(s, layer, l, t, words, st);
            r.Ok? ==> && r.value.0.Present? && Typed(s, t, r.value.0.v)
                      && Charged(l, st, r.st, Paid(s, layer, t, r.value.0.v))
    decreases l.maxDepth - st.depth, 2, 0
  {
    DecodeSound(s, layer, l, t, st);
  }

  /** One field: well typed and paid for, whatever word it will be written under. */
  lemma {:induction false} FieldSound(s: Schema, layer: int, l: Limits, c: nat, i: nat, words: map<string, Uint32>,
                                      st: DecState, w: nat)
    requires WellFormed(s, layer) && c < |s.ctors| && i < |s.ctors[c].params| && Within(l, st)
    ensures var p := s.ctors[c].params[i];
            var r := DecodeField(s, layer, l, s.ctors[c].params, i, words, st);
            r.Ok? ==> FieldTyped(s, p, r.value.0) && Charged(l, st, r.st, PaidField(s, layer, p, r.value.0, w))
    decreases l.maxDepth - st.depth, 2, 1
  {
    var ps := s.ctors[c].params;
    assert ParamOk(s, ps, i);
    match ps[i]
    case FlagWord(name) => WordSound(s, layer, l, ps, i, words, st, w);
    case Plain(t) => PresentSound(s, layer, l, t, words, st);
    case Cond(name, bit, t) => PresentSound(s, layer, l, t, words, st);
    case True(name, bit) =>
  }

  /** Walking the fields a decode produced, from parameter i on. */
  lemma {:induction false} FieldsSound(s: Schema, layer: int, l: Limits, c: nat, fs: seq<Field>, i: nat,
                                       words: map<string, Uint32>, st: DecState)
    requires WellFormed(s, layer) && c < |s.ctors| && |fs| == |s.ctors[c].params| && i <= |fs| && Within(l, st)
    requires FieldsTyped(s, s.ctors[c].params, fs)
    requires var r := DecodeFields(s, layer, l, s.ctors[c].params, i, words, st); r.Ok? && r.value == fs[i..]
    ensures Charged(l, st, DecodeFields(s, layer, l, s.ctors[c].params, i, words, st).st,
                    PaidFields(s, layer, s.ctors[c].params, fs, i))
    decreases l.maxDepth - st.depth, 3, |fs| - i
  {
    var ps := s.ctors[c].params;
    if i < |fs| {
      var head := DecodeField(s, layer, l, ps, i, words, st);
      var tail := DecodeFields(s, layer, l, ps, i + 1, head.value.1, head.st);
      assert fs[i..] == [head.value.0] + tail.value;
      assert head.value.0 == fs[i..][0] == fs[i];
      assert tail.value == fs[i..][1..] == fs[i + 1..];
      var w := WordFor(ps, fs, ps[i]);
      FieldSound(s, layer, l, c, i, words, st, w);
      FieldsSound(s, layer, l, c, fs, i + 1, head.value.1, head.st);
      ChargedThen(l, st, head.st, tail.st, PaidField(s, layer, ps[i], fs[i], w), PaidFields(s, layer, ps, fs, i + 1));
    }
  }

  // ---- The theorem --------------------------------------------------------------------------

  lemma ChargedFits(l: Limits, st: DecState, t: DecState, o: Out)
    requires Charged(l, st, t, o)
    ensures Fits(l, st, o)
  {
  }

  /** The cursor after reading o in front of a suffix. */
  function Rest(st: DecState, o: Out, suffix: seq<Byte>): DecState
  {
    DecState(suffix, st.bytes + |o.bytes|, st.elems + o.elems, st.nodes + o.nodes, st.depth)
  }

  lemma PlacedReadAgain(s: Schema, layer: int, l: Limits, t: Ty, v: Value, st: DecState, suffix: seq<Byte>)
    requires WellFormed(s, layer) && InRange(s, t) && Within(l, st) && Typed(s, t, v) && Emit(s, layer, t, v).ok
    requires Placed(s, t, v)
    ensures var o := Emit(s, layer, t, v);
            Decode(s, layer, l, t, st.(rest := o.bytes + suffix)) == Ok(Norm(s, t, v), Rest(st, o, suffix)) <==>
            Fits(l, st, o)
  {
    var o := Emit(s, layer, t, v);
    var again := st.(rest := o.bytes + suffix);
    DecodeUndoesEmit(s, layer, l, t, v, again);
    assert again.rest[|o.bytes|..] == suffix;
  }

  /** The round trip under any budget: it needs room, and no conditional field before its word. */
  lemma ReadAgain(s: Schema, layer: int, l: Limits, t: Ty, v: Value, st: DecState, suffix: seq<Byte>)
    requires WellFormed(s, layer) && InRange(s, t) && Within(l, st) && Typed(s, t, v) && Emit(s, layer, t, v).ok
    ensures var o := Emit(s, layer, t, v);
            Decode(s, layer, l, t, st.(rest := o.bytes + suffix)) == Ok(Norm(s, t, v), Rest(st, o, suffix)) <==>
            Placed(s, t, v) && Fits(l, st, o)
  {
    if Placed(s, t, v) {
      PlacedReadAgain(s, layer, l, t, v, st, suffix);
    } else {
      MisplacedNeverDecodes(s, layer, l, t, v, st.(rest := Emit(s, layer, t, v).bytes + suffix));
    }
  }

  /** Whatever decodes is well typed and was charged what it costs. Writing it and reading that back
      gives its normal form if and only if it can be written, has no conditional field before its flag
      word, and the budget holds it; this happens at exactly the price paid if and only if no
      conditional field precedes its word and no absent field shares a bit with a present one. */
  lemma DecodedIsStable(s: Schema, layer: int, l: Limits, t: Ty, v: Value, st: DecState, st': DecState,
                        suffix: seq<Byte>)
    requires WellFormed(s, layer) && InRange(s, t) && Within(l, st)
    requires Decode(s, layer, l, t, st) == Ok(v, st')
    ensures Typed(s, t, v) && Charged(l, st, st', Paid(s, layer, t, v))
    ensures var o := Emit(s, layer, t, v);
            var again := Decode(s, layer, l, t, st.(rest := o.bytes + suffix));
            && (o.ok && again == Ok(Norm(s, t, v), Rest(st, o, suffix)) <==>
                  o.ok && Placed(s, t, v) && Fits(l, st, o))
            && (o == Paid(s, layer, t, v) && again == Ok(Norm(s, t, v), Rest(st, o, suffix)) <==>
                  Even(s, t, v) && Placed(s, t, v))
  {
    DecodeSound(s, layer, l, t, st);
    EvenCostsNoMore(s, layer, t, v);
    if Emit(s, layer, t, v).ok {
      ReadAgain(s, layer, l, t, v, st, suffix);
    }
    ChargedFits(l, st, st', Paid(s, layer, t, v));
  }

  // ---- Schemas on which every decoded value is stable ------------------------------------------

  predicate UniqueWords(ps: seq<Param>)
  {
    forall i, j :: 0 <= i < j < |ps| && ps[i].FlagWord? && ps[j].FlagWord? ==> ps[i].name != ps[j].name
  }

  /** Every constructor declares each flag word once, before the parameters that depend on it. */
  predicate Orderly(s: Schema, layer: int)
  {
    && WellFormed(s, layer)
    && forall c :: 0 <= c < |s.ctors| ==> WordsFirst(s.ctors[c].params) && UniqueWords(s.ctors[c].params)
  }

  /** Even, and on a layered schema, where unknown flag bits are refused, its own normal form. */
  predicate Tidy(s: Schema, t: Ty, v: Value)
    requires Typed(s, t, v)
  {
    Even(s, t, v) && (s.layered ==> Faithful(s, t, v))
  }

  predicate AllTidy(s: Schema, e: Ty, es: seq<Value>)
    requires AllTyped(s, e, es)
  {
    forall k :: 0 <= k < |es| ==> Tidy(s, e, es[k])
  }

  /** Field f of parameter p is what the flag words say, and tidy inside. */
  predicate Follows(s: Schema, ps: seq<Param>, p: Param, f: Field, words: map<string, Uint32>)
  {
    && FieldTyped(s, p, f)
    && match p
       case FlagWord(name) =>
         name in words && (f.Word? ==> f.w == words[name]) && (s.layered ==> KnownFlags(ps, name, words[name]))
       case Plain(t) => Tidy(s, t, f.v)
       case Cond(word, bit, t) =>
         && word in words && (f.Present? <==> TestBit(words[word], bit))
         && (f.Present? ==> Tidy(s, t, f.v))
       case True(word, bit) => word in words && (f == Flag(true) <==> TestBit(words[word], bit))
  }

  predicate FollowsFrom(s: Schema, ps: seq<Param>, fs: seq<Field>, i: nat, words: map<string, Uint32>)
  {
    i + |fs| == |ps| && forall k :: i <= k < |ps| ==> Follows(s, ps, ps[k], fs[k - i], words)
  }

  /** The words read are those declared so far. */
  ghost predicate Heard(ps: seq<Param>, i: nat, words: map<string, Uint32>)
    requires i <= |ps|
  {
    forall name :: name in words <==> DeclaredBefore(ps, i, name)
  }

  predicate Extends(words: map<string, Uint32>, more: map<string, Uint32>)
  {
    forall name :: name in words ==> name in more && more[name] == words[name]
  }

  lemma {:induction false} OrderlyTidy(s: Schema, layer: int, l: Limits, t: Ty, st: DecState)
    requires Orderly(s, layer) && InRange(s, t) && Within(l, st)
    ensures var r := Decode(s, layer, l, t, st); r.Ok? ==> Typed(s, t, r.value) && Tidy(s, t, r.value)
    decreases l.maxDepth - st.depth, 1
  {
    DecodeSound(s, layer, l, t, st);
    match t
    case Vector(e) =>
      var enter := EnterObject(l, st);
      if enter.Ok? {
        CountedTidy(s, layer, l, e, enter.st);
      }
    case Bare(c) => BodyTidy(s, layer, l, c, st);
    case Boxed(f) =>
      CtorSound(s, layer, l, f, st);
      var c := DecodeCtor(s, layer, l, f, st);
      if c.Ok? {
        BodyTidy(s, layer, l, c.value, c.st);
      }
    case _ =>
  }

  lemma {:induction false} CountedTidy(s: Schema, layer: int, l: Limits, e: Ty, st: DecState)
    requires Orderly(s, layer) && InRange(s, e) && Within(l, st)
    ensures var r := DecodeCounted(s, layer, l, e, st);
            r.Ok? ==> AllTyped(s, e, r.value) && AllTidy(s, e, r.value)
    decreases l.maxDepth - st.depth, 3
  {
    var min := MinimumElementBytes(e);
    ReadVectorCountAdvances(l, st, MAX_VECTOR_ELEMENTS, min);
    var count := ReadVectorCount(l, st, MAX_VECTOR_ELEMENTS, min);
    if count.Ok? {
      ElemsTidy(s, layer, l, e, count.value, count.st);
    }
  }

  lemma ElemsSplit(s: Schema, layer: int, l: Limits, e: Ty, n: nat, st: DecState)
    requires WellFormed(s, layer) && InRange(s, e) && Within(l, st) && n > 0
    requires DecodeElems(s, layer, l, e, n, st).Ok?
    ensures var head := Decode(s, layer, l, e, st);
            && head.Ok? && Within(l, head.st) && head.st.depth == st.depth
            && var tail := DecodeElems(s, layer, l, e, n - 1, head.st);
               tail.Ok? && DecodeElems(s, layer, l, e, n, st).value == [head.value] + tail.value
  {
    DecodeSound(s, layer, l, e, st);
  }

  lemma {:induction false} ElemsTidy(s: Schema, layer: int, l: Limits, e: Ty, n: nat, st: DecState)
    requires Orderly(s, layer) && InRange(s, e) && Within(l, st)
    ensures var r := DecodeElems(s, layer, l, e, n, st);
            r.Ok? ==> AllTyped(s, e, r.value) && AllTidy(s, e, r.value)
    decreases l.maxDepth - st.depth, 2, n
  {
    if n > 0 {
      var r := DecodeElems(s, layer, l, e, n, st);
      if r.Ok? {
        ElemsSplit(s, layer, l, e, n, st);
        OrderlyTidy(s, layer, l, e, st);
        var head := Decode(s, layer, l, e, st);
        ElemsTidy(s, layer, l, e, n - 1, head.st);
        ConsTidy(s, e, head.value, DecodeElems(s, layer, l, e, n - 1, head.st).value);
      }
    }
  }

  lemma ConsTidy(s: Schema, e: Ty, v: Value, es: seq<Value>)
    requires Typed(s, e, v) && Tidy(s, e, v) && AllTyped(s, e, es) && AllTidy(s, e, es)
    ensures AllTyped(s, e, [v] + es) && AllTidy(s, e, [v] + es)
  {
    forall k | 0 <= k < |[v] + es| ensures Typed(s, e, ([v] + es)[k]) && Tidy(s, e, ([v] + es)[k]) {
      assert ([v] + es)[k] == if k == 0 then v else es[k - 1];
    }
  }

  lemma {:induction false} BodyTidy(s: Schema, layer: int, l: Limits, c: nat, st: DecState)
    requires Orderly(s, layer) && Within(l, st)
    ensures var r := DecodeBody(s, layer, l, c, st);
            r.Ok? ==> && r.value.ObjV? && ObjTyped(s, r.value) && ObjEven(s, r.value)
                      && (s.layered ==> ObjFaithful(s, r.value))
    decreases l.maxDepth - st.depth, 0
  {
    BodySound(s, layer, l, c, st);
    var enter := EnterObject(l, st);
    if c < |s.ctors| && enter.Ok? {
      var r := DecodeFields(s, layer, l, s.ctors[c].params, 0, map[], enter.st);
      if r.Ok? {
        var last := FieldsShape(s, layer, l, c, 0, map[], enter.st);
        BitsOkOf(s, layer);
        ShapeMeansTidy(s, ObjV(c, r.value), last);
      }
    }
  }

  /** All fields follow one set of flag words: the words as finally read. */
  lemma {:induction false} FieldsShape(s: Schema, layer: int, l: Limits, c: nat, i: nat, words: map<string, Uint32>,
                                       st: DecState) returns (last: map<string, Uint32>)
    requires Orderly(s, layer) && c < |s.ctors| && i <= |s.ctors[c].params| && Within(l, st)
    requires Heard(s.ctors[c].params, i, words)
    ensures var r := DecodeFields(s, layer, l, s.ctors[c].params, i, words, st);
            r.Ok? ==> FollowsFrom(s, s.ctors[c].params, r.value, i, last)
    ensures Extends(words, last)
    decreases l.maxDepth - st.depth, 3, |s.ctors[c].params| - i
  {
    var ps := s.ctors[c].params;
    if i == |ps| || DecodeField(s, layer, l, ps, i, words, st).Err? {
      return words;
    }
    FieldSound(s, layer, l, c, i, words, st, 0);
    FieldShape(s, layer, l, c, i, words, st);
    WordsGrow(s, layer, l, c, i, words, st);
    var head := DecodeField(s, layer, l, ps, i, words, st);
    last := FieldsShape(s, layer, l, c, i + 1, head.value.1, head.st);
    FollowsLater(s, ps, ps[i], head.value.0, head.value.1, last);
    var tail := DecodeFields(s, layer, l, ps, i + 1, head.value.1, head.st);
    if tail.Ok? {
      ConsFollows(s, ps, i, head.value.0, tail.value, last);
    }
  }

  lemma FollowsLater(s: Schema, ps: seq<Param>, p: Param, f: Field, words: map<string, Uint32>,
                     more: map<string, Uint32>)
    requires Follows(s, ps, p, f, words) && Extends(words, more)
    ensures Follows(s, ps, p, f, more)
  {
  }

  lemma ConsFollows(s: Schema, ps: seq<Param>, i: nat, f: Field, fs: seq<Field>, words: map<string, Uint32>)
    requires i < |ps| && Follows(s, ps, ps[i], f, words) && FollowsFrom(s, ps, fs, i + 1, words)
    ensures FollowsFrom(s, ps, [f] + fs, i, words)
  {
    forall k | i <= k < |ps| ensures Follows(s, ps, ps[k], ([f] + fs)[k - i], words) {
      assert ([f] + fs)[k - i] == if k == i then f else fs[k - (i + 1)];
    }
  }

  /** A flag word is new when it is read, and stays as read. */
  lemma WordsGrow(s: Schema, layer: int, l: Limits, c: nat, i: nat, words: map<string, Uint32>, st: DecState)
    requires Orderly(s, layer) && c < |s.ctors| && i < |s.ctors[c].params| && st.depth <= l.maxDepth
    requires Heard(s.ctors[c].params, i, words)
    requires DecodeField(s, layer, l, s.ctors[c].params, i, words, st).Ok?
    ensures var next := DecodeField(s, layer, l, s.ctors[c].params, i, words, st).value.1;
            && Heard(s.ctors[c].params, i + 1, next)
            && Extends(words, next)
  {
    var ps := s.ctors[c].params;
    assert UniqueWords(ps);
    forall name ensures DeclaredBefore(ps, i + 1, name) <==> DeclaredBefore(ps, i, name) || ps[i] == FlagWord(name) {
    }
    match ps[i]
    case FlagWord(name) => assert !DeclaredBefore(ps, i, name);
    case _ =>
  }

  /** One field follows the words known once it has been read. */
  lemma {:induction false} FieldShape(s: Schema, layer: int, l: Limits, c: nat, i: nat, words: map<string, Uint32>,
                                      st: DecState)
    requires Orderly(s, layer) && c < |s.ctors| && i < |s.ctors[c].params| && Within(l, st)
    requires Heard(s.ctors[c].params, i, words)
    requires DecodeField(s, layer, l, s.ctors[c].params, i, words, st).Ok?
    ensures var r := DecodeField(s, layer, l, s.ctors[c].params, i, words, st);
            Follows(s, s.ctors[c].params, s.ctors[c].params[i], r.value.0, r.value.1)
    decreases l.maxDepth - st.depth, 2, 1
  {
    var ps := s.ctors[c].params;
    assert ParamOk(s, ps, i);
    assert FollowsItsWord(ps, i);
    match ps[i]
    case FlagWord(name) =>
    case Plain(t) => OrderlyTidy(s, layer, l, t, st);
    case Cond(name, bit, t) => OrderlyTidy(s, layer, l, t, st);
    case True(name, bit) =>
  }

  /** A word without unknown bits is the word computed from the fields that follow it. */
  lemma WordRecomputed(s: Schema, ps: seq<Param>, fs: seq<Field>, words: map<string, Uint32>, name: string)
    requires BitsOk(ps) && FollowsFrom(s, ps, fs, 0, words) && name in words && KnownFlags(ps, name, words[name])
    ensures words[name] == WordOf(ps, fs, name)
  {
    FlagWordFaithful(ps, fs, name);
    Pow2Of32();
    forall bit: nat | bit < 32
      ensures TestBit(words[name], bit) <==> TestBit(WordOf(ps, fs, name), bit)
    {
      if k :| 0 <= k < |ps| && Sets(ps[k], fs[k], name, bit) {
        assert Follows(s, ps, ps[k], fs[k], words);
      }
      if TestBit(words[name], bit) {
        var k :| 0 <= k < |ps| && (ps[k].Cond? || ps[k].True?) && ps[k].word == name && ps[k].bit == bit;
        assert Follows(s, ps, ps[k], fs[k], words);
        assert Sets(ps[k], fs[k], name, bit);
      }
    }
    BitsDetermine(words[name], WordOf(ps, fs, name), 32);
  }

  lemma SharedFrom(s: Schema, ps: seq<Param>, fs: seq<Field>, words: map<string, Uint32>)
    requires FollowsFrom(s, ps, fs, 0, words)
    ensures FieldsTyped(s, ps, fs) && BitsShared(ps, fs)
  {
    assert forall k :: 0 <= k < |ps| ==> Follows(s, ps, ps[k], fs[k], words);
  }

  lemma ShapeMeansTidy(s: Schema, v: Value, words: map<string, Uint32>)
    requires SchemaBitsOk(s) && v.ObjV? && v.ctor < |s.ctors|
    requires FollowsFrom(s, s.ctors[v.ctor].params, v.fields, 0, words)
    ensures ObjTyped(s, v) && ObjEven(s, v) && (s.layered ==> ObjFaithful(s, v))
  {
    var ps, fs := s.ctors[v.ctor].params, v.fields;
    SharedFrom(s, ps, fs, words);
    KeptMeansShared(s, ps, fs);
    forall i | 0 <= i < |ps|
      ensures BitEven(ps, fs, i) && FieldEven(s, ps[i], fs[i])
      ensures s.layered ==> FieldFaithful(s, ps[i], fs[i])
      ensures s.layered && ps[i].FlagWord? && fs[i].Word? ==> fs[i].w == WordOf(ps, fs, ps[i].name)
    {
      assert Follows(s, ps, ps[i], fs[i], words);
      if s.layered && ps[i].FlagWord? {
        WordRecomputed(s, ps, fs, words, ps[i].name);
      }
    }
  }

  /** With flag words declared once and first, whatever decodes can be written at the price paid and
      decodes again under the same budget; on a layered schema to the very same value. */
  lemma OrderlyIsStable(s: Schema, layer: int, l: Limits, t: Ty, v: Value, st: DecState, st': DecState,
                        suffix: seq<Byte>)
    requires Orderly(s, layer) && InRange(s, t) && Within(l, st)
    requires Decode(s, layer, l, t, st) == Ok(v, st')
    ensures Typed(s, t, v)
    ensures var o := Emit(s, layer, t, v);
            && Charged(l, st, st', o)
            && Decode(s, layer, l, t, st.(rest := o.bytes + suffix)) == Ok(Norm(s, t, v), Rest(st, o, suffix))
    ensures s.layered ==> Norm(s, t, v) == v
  {
    DecodedIsStable(s, layer, l, t, v, st, st', suffix);
    OrderlyTidy(s, layer, l, t, st);
    WordsFirstPlaces(s, t, v);
    BitsOkOf(s, layer);
    NormKeepsFaithful(s, t, v);
  }
}
