/** The emitted decoders undo the wire format, under every budget. */
module RoundTrip {
  import opened Bytes
  import opened Cursor
  import opened Schema
  import opened Codec

  /** The budget can hold what o costs. */
  predicate Fits(l: Limits, st: DecState, o: Out)
  {
    && st.bytes + |o.bytes| <= l.maxBytes && st.nodes + o.nodes <= l.maxNodes
    && st.depth + o.height <= l.maxDepth && st.elems + o.elems <= l.maxElems
    && o.widest <= MAX_VECTOR_ELEMENTS
  }

  /** The cursor after reading o. */
  function After(st: DecState, o: Out): DecState
    requires |o.bytes| <= |st.rest|
  {
    Skip(st, |o.bytes|).(nodes := st.nodes + o.nodes, elems := st.elems + o.elems)
  }

  /** Reading o's bytes gives v and leaves the rest, or fails exactly when o exceeds the budget. */
  predicate Reads<T(==)>(l: Limits, st: DecState, o: Out, r: Step<T>, v: T)
    requires |o.bytes| <= |st.rest|
  {
    if Fits(l, st, o) then r == Ok(v, After(st, o)) else r.Err?
  }

  lemma SplitStart(st: DecState, a: seq<Byte>, b: seq<Byte>)
    requires StartsWith(st, a + b)
    ensures StartsWith(st, a) && st.rest[|a|..][..|b|] == b
    ensures st.rest[|a|..][|b|..] == st.rest[|a + b|..]
  {
    assert st.rest[..|a|] == (a + b)[..|a|] == a;
    assert st.rest[|a|..][..|b|] == (a + b)[|a|..] == b;
  }

  lemma ThenSplits(l: Limits, st: DecState, a: Out, b: Out)
    requires Within(l, st) && StartsWith(st, a.bytes + b.bytes)
    ensures StartsWith(st, a.bytes) && StartsWith(After(st, a), b.bytes)
    ensures Fits(l, st, Then(a, b)) <==> Fits(l, st, a) && Fits(l, After(st, a), b)
    ensures After(After(st, a), b) == After(st, Then(a, b))
    ensures Fits(l, st, a) ==> Within(l, After(st, a))
  {
    SplitStart(st, a.bytes, b.bytes);
  }

  // ---- Sizes --------------------------------------------------------------------------------

  /** minimumElementBytes never exceeds what an element really takes. */
  lemma MinimumIsMinimum(s: Schema, layer: int, t: Ty, v: Value)
    requires Typed(s, t, v) && Emit(s, layer, t, v).ok
    ensures |Emit(s, layer, t, v).bytes| >= MinimumElementBytes(t)
    ensures FixedElementBytes(t) > 0 ==> |Emit(s, layer, t, v).bytes| == FixedElementBytes(t)
  {
  }

  lemma {:induction false} ElementsTakeMinimum(s: Schema, layer: int, e: Ty, es: seq<Value>, i: nat)
    requires i <= |es| && AllTyped(s, e, es)
    requires EmitElems(s, layer, e, es, i).ok
    ensures |EmitElems(s, layer, e, es, i).bytes| >= (|es| - i) * MinimumElementBytes(e)
    decreases |es| - i
  {
    if i < |es| {
      MinimumIsMinimum(s, layer, e, es[i]);
      ElementsTakeMinimum(s, layer, e, es, i + 1);
      assert (|es| - i) * MinimumElementBytes(e) == (|es| - (i + 1)) * MinimumElementBytes(e) + MinimumElementBytes(e);
    }
  }

  lemma TooManyFor(count: nat, available: nat, min: nat)
    requires min > 0 && count > available / min
    ensures count * min > available
  {
    assert count * min >= (available / min + 1) * min;
  }

  /** The header of a vector whose elements follow: the pre-check on the element count rejects
      nothing that the byte budget could hold. */
  lemma VectorCountBack(l: Limits, st: DecState, es: seq<Value>, tail: Out, min: nat)
    requires Within(l, st) && |es| < TWO_31
    requires StartsWith(st, VectorHead(es).bytes + tail.bytes)
    requires |tail.bytes| >= |es| * min
    ensures var r := ReadVectorCount(l, st, MAX_VECTOR_ELEMENTS, min);
            if Fits(l, st, VectorHead(es))
            then r == Ok(|es|, After(st, VectorHead(es))) || (r.Err? && !Fits(l, After(st, VectorHead(es)), tail))
            else r.Err?
  {
    var head := VectorHead(es);
    ThenSplits(l, st, head, tail);
    var id := LE32(VECTOR_ID);
    SplitStart(st, id, LE32(|es|));
    ReadUint32Back(l, st, VECTOR_ID);
    if st.bytes + 4 <= l.maxBytes {
      ReadUint32Back(l, Skip(st, 4), |es|);
      var r := ReadVectorCount(l, st, MAX_VECTOR_ELEMENTS, min);
      if r.Err? && Fits(l, st, head) {
        TooManyFor(|es|, Available(l, After(st, head)), min);
      }
    }
  }

  // ---- The round trip -----------------------------------------------------------------------

  /** A conditional parameter written before its flag word is absent, along with everything
      that shares its bit: the emitted decoder takes an unread flag word for zero. */
  predicate Ordered(ps: seq<Param>, fs: seq<Field>, i: nat)
    requires |ps| == |fs| && i < |ps|
  {
    ps[i].Cond? || ps[i].True? ==>
      DeclaredBefore(ps, i, ps[i].word) || !TestBit(WordOf(ps, fs, ps[i].word), ps[i].bit)
  }

  predicate Placed(s: Schema, t: Ty, v: Value)
    requires Typed(s, t, v)
    decreases v, 1
  {
    match t
    case Vector(e) => v.VecV? ==> forall i :: 0 <= i < |v.elems| ==> Placed(s, e, v.elems[i])
    case Bare(_) => v.ObjV? ==> ObjPlaced(s, v)
    case Boxed(_) => v.ObjV? ==> ObjPlaced(s, v)
    case _ => true
  }

  predicate AllPlaced(s: Schema, e: Ty, es: seq<Value>)
    requires AllTyped(s, e, es)
  {
    forall k :: 0 <= k < |es| ==> Placed(s, e, es[k])
  }

  predicate ObjPlaced(s: Schema, v: Value)
    requires v.ObjV? && ObjTyped(s, v)
    decreases v, 0
  {
    var ps := s.ctors[v.ctor].params;
    forall i :: 0 <= i < |ps| ==> Ordered(ps, v.fields, i) && FieldPlaced(s, ps[i], v.fields[i])
  }

  predicate FieldPlaced(s: Schema, p: Param, f: Field)
    requires FieldTyped(s, p, f)
    decreases f
  {
    match p
    case Plain(t) => Placed(s, t, f.v)
    case Cond(_, _, t) => f.Present? ==> Placed(s, t, f.v)
    case _ => true
  }

  /** Decoding the encoding of v gives the normal form of v, leaves the bytes after it and
      charges exactly v's bytes, nodes and elements; it fails exactly when the budget is short. */
  lemma {:induction false} DecodeUndoesEmit(s: Schema, layer: int, l: Limits, t: Ty, v: Value, st: DecState)
    requires WellFormed(s, layer) && Typed(s, t, v) && InRange(s, t) && Placed(s, t, v)
    requires Emit(s, layer, t, v).ok
    requires Within(l, st) && StartsWith(st, Emit(s, layer, t, v).bytes)
    ensures Reads(l, st, Emit(s, layer, t, v), Decode(s, layer, l, t, st), Norm(s, t, v))
    decreases v, 2
  {
    match t
    case Vector(e) => VectorUndoes(s, layer, l, e, v, st);
    case Bare(c) => BodyUndoes(s, layer, l, v, st);
    case Boxed(f) => BoxedUndoes(s, layer, l, f, v, st);
    case _ => BuiltinUndoes(s, l, t, v, st);
  }

  lemma BuiltinUndoes(s: Schema, l: Limits, t: Ty, v: Value, st: DecState)
    requires !t.Vector? && !t.Bare? && !t.Boxed? && Typed(s, t, v)
    requires EmitBuiltin(s, t, v).ok
    requires Within(l, st) && StartsWith(st, EmitBuiltin(s, t, v).bytes)
    ensures Reads(l, st, EmitBuiltin(s, t, v), DecodeBuiltin(l, t, st), if t.Raw? then TextV(Contents(v)) else v)
  {
    match t
    case Int => ReadUint32Back(l, st, ToUint32(v.i));
    case Long => ReadUint64Back(l, st, ToUint64(v.l));
    case Nat => ReadUint32Back(l, st, v.n);
    case Double => ReadUint64Back(l, st, v.bits);
    case Int128 =>
    case Int256 =>
    case Bool => ReadUint32Back(l, st, if v.b then BOOL_TRUE else BOOL_FALSE);
    case String => ReadTextBack(l, st, v.text);
    case Raw => ReadTextBack(l, st, Contents(v));
  }

  lemma {:induction false} VectorUndoes(s: Schema, layer: int, l: Limits, e: Ty, v: Value, st: DecState)
    requires WellFormed(s, layer) && Typed(s, Vector(e), v) && InRange(s, e) && Placed(s, Vector(e), v)
    requires Emit(s, layer, Vector(e), v).ok
    requires Within(l, st) && StartsWith(st, Emit(s, layer, Vector(e), v).bytes)
    ensures Reads(l, st, Emit(s, layer, Vector(e), v), Decode(s, layer, l, Vector(e), st), Norm(s, Vector(e), v))
    decreases v, 1
  {
    if v.Nil? {
      NilUndoes(s, layer, l, Vector(e), st);
    } else {
      var enter := EnterObject(l, st);
      if enter.Ok? {
        CountedUndoes(s, layer, l, e, v.elems, enter.st);
      }
    }
  }

  lemma {:induction false} CountedUndoes(s: Schema, layer: int, l: Limits, e: Ty, es: seq<Value>, st: DecState)
    requires WellFormed(s, layer) && InRange(s, e)
    requires AllTyped(s, e, es) && AllPlaced(s, e, es)
    requires Then(VectorHead(es), EmitElems(s, layer, e, es, 0)).ok
    requires Within(l, st) && StartsWith(st, Then(VectorHead(es), EmitElems(s, layer, e, es, 0)).bytes)
    ensures Reads(l, st, Then(VectorHead(es), EmitElems(s, layer, e, es, 0)),
                  DecodeCounted(s, layer, l, e, st), NormElems(s, e, es, 0))
    decreases es, |es| + 1
  {
    var head, tail := VectorHead(es), EmitElems(s, layer, e, es, 0);
    ThenSplits(l, st, head, tail);
    ElementsTakeMinimum(s, layer, e, es, 0);
    VectorCountBack(l, st, es, tail, MinimumElementBytes(e));
    if Fits(l, st, head) {
      ElemsUndo(s, layer, l, e, es, 0, After(st, head));
    }
  }

  /** One element and then the others, as DecodeElems puts them together. */
  function Cons(head: Step<Value>, tail: Step<seq<Value>>): Step<seq<Value>>
  {
    if head.Err? then Err(head.error, head.st) else if tail.Err? then tail else Ok([head.value] + tail.value, tail.st)
  }

  lemma ConsReads(l: Limits, st: DecState, a: Out, b: Out, head: Step<Value>, tail: Step<seq<Value>>, x: Value,
                  xs: seq<Value>)
    requires Within(l, st) && StartsWith(st, a.bytes + b.bytes) && StartsWith(st, a.bytes)
    requires StartsWith(After(st, a), b.bytes)
    requires Reads(l, st, a, head, x) && (Fits(l, st, a) ==> Reads(l, After(st, a), b, tail, xs))
    ensures Reads(l, st, Then(a, b), Cons(head, tail), [x] + xs)
  {
    ThenSplits(l, st, a, b);
  }

  lemma {:induction false} ElemsCombine(s: Schema, layer: int, l: Limits, e: Ty, es: seq<Value>, i: nat, st: DecState)
    requires i < |es| && AllTyped(s, e, es)
    requires Within(l, st) && StartsWith(st, EmitElems(s, layer, e, es, i).bytes)
    requires var a, b := Emit(s, layer, e, es[i]), EmitElems(s, layer, e, es, i + 1);
             && StartsWith(st, a.bytes) && StartsWith(After(st, a), b.bytes)
             && Reads(l, st, a, Decode(s, layer, l, e, st), Norm(s, e, es[i]))
             && (Fits(l, st, a) ==> Within(l, After(st, a)) &&
                                    Reads(l, After(st, a), b, DecodeElems(s, layer, l, e, |es| - (i + 1), After(st, a)),
                                          NormElems(s, e, es, i + 1)))
    ensures Reads(l, st, EmitElems(s, layer, e, es, i), DecodeElems(s, layer, l, e, |es| - i, st),
                  NormElems(s, e, es, i))
  {
    var head := Decode(s, layer, l, e, st);
    var tail := DecodeElems(s, layer, l, e, |es| - (i + 1), head.st);
    assert DecodeElems(s, layer, l, e, |es| - i, st) == Cons(head, tail);
    ConsReads(l, st, Emit(s, layer, e, es[i]), EmitElems(s, layer, e, es, i + 1), head, tail, Norm(s, e, es[i]),
              NormElems(s, e, es, i + 1));
  }

  lemma {:induction false} ElemsUndo(s: Schema, layer: int, l: Limits, e: Ty, es: seq<Value>, i: nat, st: DecState)
    requires WellFormed(s, layer) && InRange(s, e)
    requires i <= |es| && AllTyped(s, e, es) && AllPlaced(s, e, es)
    requires EmitElems(s, layer, e, es, i).ok
    requires Within(l, st) && StartsWith(st, EmitElems(s, layer, e, es, i).bytes)
    ensures Reads(l, st, EmitElems(s, layer, e, es, i), DecodeElems(s, layer, l, e, |es| - i, st),
                  NormElems(s, e, es, i))
    decreases es, |es| - i
  {
    if i == |es| {
      NoElems(s, layer, l, e, es, st);
    } else {
      var a, b := Emit(s, layer, e, es[i]), EmitElems(s, layer, e, es, i + 1);
      assert EmitElems(s, layer, e, es, i) == Then(a, b);
      ThenSplits(l, st, a, b);
      assert Typed(s, e, es[i]) && Placed(s, e, es[i]);
      DecodeUndoesEmit(s, layer, l, e, es[i], st);
      if Fits(l, st, a) {
        ElemsUndo(s, layer, l, e, es, i + 1, After(st, a));
        ElemsCombine(s, layer, l, e, es, i, st);
      } else {
        ElemsCombine(s, layer, l, e, es, i, st);
      }
    }
  }

  lemma NoElems(s: Schema, layer: int, l: Limits, e: Ty, es: seq<Value>, st: DecState)
    requires AllTyped(s, e, es) && Within(l, st)
    ensures |EmitElems(s, layer, e, es, |es|).bytes| <= |st.rest|
    ensures Reads(l, st, EmitElems(s, layer, e, es, |es|), DecodeElems(s, layer, l, e, |es| - |es|, st),
                  NormElems(s, e, es, |es|))
  {
  }

  lemma {:induction false} BodyUndoes(s: Schema, layer: int, l: Limits, v: Value, st: DecState)
    requires WellFormed(s, layer) && v.ObjV? && ObjTyped(s, v) && ObjPlaced(s, v)
    requires EmitObj(s, layer, v).ok
    requires Within(l, st) && StartsWith(st, EmitObj(s, layer, v).bytes)
    ensures Reads(l, st, Node(EmitObj(s, layer, v)), DecodeBody(s, layer, l, v.ctor, st), NormObj(s, v))
    decreases v, 0
  {
    var ps := s.ctors[v.ctor].params;
    var enter := EnterObject(l, st);
    if enter.Ok? {
      FieldsUndo(s, layer, l, v.ctor, v.fields, 0, map[], enter.st);
    }
  }

  lemma {:induction false} BoxedUndoes(s: Schema, layer: int, l: Limits, f: nat, v: Value, st: DecState)
    requires WellFormed(s, layer) && v.ObjV? && ObjTyped(s, v) && ObjPlaced(s, v)
    requires f < |s.families| && v.ctor in s.families[f]
    requires EmitBoxed(s, layer, v).ok
    requires Within(l, st) && StartsWith(st, EmitBoxed(s, layer, v).bytes)
    ensures Reads(l, st, EmitBoxed(s, layer, v), Decode(s, layer, l, Boxed(f), st), NormObj(s, v))
    decreases v, 1
  {
    var id := s.ctors[v.ctor].id;
    var a, b := Leaf(LE32(id)), EmitObj(s, layer, v);
    ThenSplits(l, st, a, b);
    ReadUint32Back(l, st, id);
    if Fits(l, st, a) {
      BodyUndoes(s, layer, l, v, After(st, a));
      var c := Lookup(s, layer, id, 0);
      assert c == v.ctor;
    }
  }

  /** The words read so far are the words that were written. */
  ghost predicate WordsAgree(ps: seq<Param>, fs: seq<Field>, i: nat, words: map<string, Uint32>)
    requires |ps| == |fs| && i <= |ps|
  {
    && (forall name :: name in words <==> DeclaredBefore(ps, i, name))
    && (forall name :: name in words ==> words[name] == WordOf(ps, fs, name))
  }

  /** Reading on past parameter i. */
  lemma WordsAgreeNext(ps: seq<Param>, fs: seq<Field>, i: nat, words: map<string, Uint32>)
    requires |ps| == |fs| && i < |ps| && WordsAgree(ps, fs, i, words)
    ensures !ps[i].FlagWord? ==> WordsAgree(ps, fs, i + 1, words)
    ensures ps[i].FlagWord? && WordOf(ps, fs, ps[i].name) < TWO_32 ==>
            WordsAgree(ps, fs, i + 1, words[ps[i].name := WordOf(ps, fs, ps[i].name)])
    ensures (ps[i].Cond? || ps[i].True?) && Ordered(ps, fs, i) ==>
            (TestBit(WordRead(words, ps[i].word), ps[i].bit) <==> TestBit(WordOf(ps, fs, ps[i].word), ps[i].bit))
  {
    forall name ensures DeclaredBefore(ps, i + 1, name) <==> DeclaredBefore(ps, i, name) || ps[i] == FlagWord(name) {
    }
    if ps[i].Cond? || ps[i].True? {
      ZeroHasNoBits(ps[i].bit);
    }
  }

  lemma {:induction false} FieldsUndo(s: Schema, layer: int, l: Limits, c: nat, fs: seq<Field>, i: nat,
                                      words: map<string, Uint32>, st: DecState)
    requires WellFormed(s, layer) && c < |s.ctors| && |fs| == |s.ctors[c].params| && i <= |fs|
    requires FieldsTyped(s, s.ctors[c].params, fs)
    requires forall k :: 0 <= k < |fs| ==>
               Ordered(s.ctors[c].params, fs, k) && FieldPlaced(s, s.ctors[c].params[k], fs[k])
    requires WordsAgree(s.ctors[c].params, fs, i, words)
    requires EmitFields(s, layer, s.ctors[c].params, fs, i).ok
    requires Within(l, st) && StartsWith(st, EmitFields(s, layer, s.ctors[c].params, fs, i).bytes)
    ensures Reads(l, st, EmitFields(s, layer, s.ctors[c].params, fs, i),
                  DecodeFields(s, layer, l, s.ctors[c].params, i, words, st),
                  NormFields(s, s.ctors[c].params, fs, i))
    decreases fs, |fs| - i
  {
    var ps := s.ctors[c].params;
    if i < |fs| {
      var w := WordFor(ps, fs, ps[i]);
      var a, b := EmitField(s, layer, ps[i], fs[i], w), EmitFields(s, layer, ps, fs, i + 1);
      ThenSplits(l, st, a, b);
      FieldStep(s, layer, l, c, fs, i, words, st);
      if Fits(l, st, a) {
        var head := DecodeField(s, layer, l, ps, i, words, st);
        FieldsUndo(s, layer, l, c, fs, i + 1, head.value.1, After(st, a));
      }
    }
  }

  lemma {:induction false} FieldStep(s: Schema, layer: int, l: Limits, c: nat, fs: seq<Field>, i: nat,
                                     words: map<string, Uint32>, st: DecState)
    requires WellFormed(s, layer) && c < |s.ctors| && |fs| == |s.ctors[c].params| && i < |fs|
    requires FieldTyped(s, s.ctors[c].params[i], fs[i])
    requires Ordered(s.ctors[c].params, fs, i) && FieldPlaced(s, s.ctors[c].params[i], fs[i])
    requires WordsAgree(s.ctors[c].params, fs, i, words)
    requires var ps := s.ctors[c].params; EmitField(s, layer, ps[i], fs[i], WordFor(ps, fs, ps[i])).ok
    requires var ps := s.ctors[c].params;
             Within(l, st) && StartsWith(st, EmitField(s, layer, ps[i], fs[i], WordFor(ps, fs, ps[i])).bytes)
    ensures var ps := s.ctors[c].params;
            var w := WordFor(ps, fs, ps[i]);
            var o := EmitField(s, layer, ps[i], fs[i], w);
            var r := DecodeField(s, layer, l, ps, i, words, st);
            if Fits(l, st, o)
            then r.Ok? && r.value.0 == NormField(s, ps[i], fs[i], w) && r.st == After(st, o) &&
                 WordsAgree(ps, fs, i + 1, r.value.1)
            else r.Err?
    decreases fs[i], 1
  {
    var ps := s.ctors[c].params;
    assert ParamOk(s, ps, i);
    WordsAgreeNext(ps, fs, i, words);
    if ps[i].FlagWord? {
      FlagWordUndoes(s, layer, l, c, fs, i, words, st);
    } else {
      FieldUndoes(s, layer, l, ps, fs[i], i, WordFor(ps, fs, ps[i]), words, st);
    }
  }

  lemma FlagWordUndoes(s: Schema, layer: int, l: Limits, c: nat, fs: seq<Field>, i: nat,
                       words: map<string, Uint32>, st: DecState)
    requires WellFormed(s, layer) && c < |s.ctors| && |fs| == |s.ctors[c].params| && i < |fs|
    requires s.ctors[c].params[i].FlagWord? && WordsAgree(s.ctors[c].params, fs, i, words)
    requires Within(l, st)
    requires var ps := s.ctors[c].params; StartsWith(st, LE32(WordOf(ps, fs, ps[i].name)))
    ensures var ps := s.ctors[c].params;
            var w := WordOf(ps, fs, ps[i].name);
            var r := DecodeField(s, layer, l, ps, i, words, st);
            if st.bytes + 4 <= l.maxBytes
            then r.Ok? && r.value.0 == (if ps[i].name == "flags" then Hidden else Word(w % TWO_32))
                 && r.st == Skip(st, 4)
                 && WordsAgree(ps, fs, i + 1, r.value.1)
            else r.Err?
  {
    var ps := s.ctors[c].params;
    var name := ps[i].name;
    var w := WordOf(ps, fs, name);
    assert BitsOk(ps) by {
      forall k | 0 <= k < |ps| && (ps[k].Cond? || ps[k].True?) ensures ps[k].bit < 32 { assert ParamOk(s, ps, k); }
    }
    FlagWordFaithful(ps, fs, name);
    ReadUint32Back(l, st, w);
    WordsAgreeNext(ps, fs, i, words);
    forall bit | 0 <= bit < 32 && TestBit(w, bit) ensures Known(ps, name, bit) {
      var k :| 0 <= k < |ps| && Sets(ps[k], fs[k], name, bit);
    }
  }

  lemma {:induction false} FieldUndoes(s: Schema, layer: int, l: Limits, ps: seq<Param>, f: Field, i: nat, w: nat,
                                       words: map<string, Uint32>, st: DecState)
    requires WellFormed(s, layer) && i < |ps| && ParamOk(s, ps, i) && !ps[i].FlagWord?
    requires FieldTyped(s, ps[i], f) && FieldPlaced(s, ps[i], f)
    requires ps[i].Cond? || ps[i].True? ==>
      (TestBit(WordRead(words, ps[i].word), ps[i].bit) <==> TestBit(w, ps[i].bit))
    requires EmitField(s, layer, ps[i], f, w).ok
    requires Within(l, st) && StartsWith(st, EmitField(s, layer, ps[i], f, w).bytes)
    ensures Reads(l, st, EmitField(s, layer, ps[i], f, w), DecodeField(s, layer, l, ps, i, words, st),
                  (NormField(s, ps[i], f, w), words))
    decreases f, 0
  {
    match ps[i]
    case Plain(t) => DecodeUndoesEmit(s, layer, l, t, f.v, st);
    case Cond(name, bit, t) =>
      if TestBit(w, bit) {
        if f.Absent? {
          NilUndoes(s, layer, l, t, st);
        } else {
          DecodeUndoesEmit(s, layer, l, t, f.v, st);
        }
      }
    case True(name, bit) =>
  }

  lemma {:induction false} NilUndoes(s: Schema, layer: int, l: Limits, t: Ty, st: DecState)
    requires EmitNil(t).ok && Within(l, st) && StartsWith(st, EmitNil(t).bytes)
    ensures Reads(l, st, EmitNil(t), Decode(s, layer, l, t, st), if t.Raw? then TextV([]) else VecV([]))
  {
    if t.Raw? {
      ReadTextBack(l, st, []);
    } else {
      var enter := EnterObject(l, st);
      if enter.Ok? {
        var none: seq<Value> := [];
        NoneCounted(s, layer, l, t.elem, none, enter.st);
      }
    }
  }

  lemma {:induction false} NoneCounted(s: Schema, layer: int, l: Limits, e: Ty, es: seq<Value>, st: DecState)
    requires Within(l, st) && |es| == 0 && StartsWith(st, VectorHead(es).bytes)
    ensures Reads(l, st, VectorHead(es), DecodeCounted(s, layer, l, e, st), es)
  {
    var head := VectorHead(es);
    assert head.bytes + Nothing.bytes == head.bytes;
    ThenSplits(l, st, head, Nothing);
    VectorCountBack(l, st, es, Nothing, MinimumElementBytes(e));
    var next := After(st, head);
    assert Fits(l, st, head) ==> Fits(l, next, Nothing);
    assert DecodeElems(s, layer, l, e, |es|, next) == Ok(es, next);
  }

  // ---- Where the round trip stops -----------------------------------------------------------

  /** Whatever the input, the decoder never produces a value that holds a conditional field
      written before its flag word. */
  lemma {:induction false} MisplacedNeverDecodes(s: Schema, layer: int, l: Limits, t: Ty, v: Value, st: DecState)
    requires Typed(s, t, v) && !Placed(s, t, v) && st.depth <= l.maxDepth
    ensures Decode(s, layer, l, t, st).Ok? ==> Decode(s, layer, l, t, st).value != Norm(s, t, v)
    decreases v, 1
  {
    match t
    case Vector(e) =>
      var enter := EnterObject(l, st);
      if enter.Ok? {
        var count := ReadVectorCount(l, enter.st, MAX_VECTOR_ELEMENTS, MinimumElementBytes(e));
        ReadVectorCountAdvances(l, enter.st, MAX_VECTOR_ELEMENTS, MinimumElementBytes(e));
        if count.Ok? {
          if count.value == |v.elems| {
            ElemsNeverDecode(s, layer, l, e, v.elems, 0, count.st);
          } else {
            ElemsCount(s, layer, l, e, count.value, count.st);
          }
        }
      }
    case Bare(c) => BodyNeverDecodes(s, layer, l, c, v, st);
    case Boxed(f) =>
      var c := DecodeCtor(s, layer, l, f, st);
      if c.Ok? {
        BodyNeverDecodes(s, layer, l, c.value, v, c.st);
      }
  }

  lemma {:induction false} ElemsCount(s: Schema, layer: int, l: Limits, e: Ty, n: nat, st: DecState)
    requires st.depth <= l.maxDepth
    ensures DecodeElems(s, layer, l, e, n, st).Ok? ==> |DecodeElems(s, layer, l, e, n, st).value| == n
    decreases n
  {
    if n > 0 && Decode(s, layer, l, e, st).Ok? {
      ElemsCount(s, layer, l, e, n - 1, Decode(s, layer, l, e, st).st);
    }
  }

  lemma {:induction false} ElemsNeverDecode(s: Schema, layer: int, l: Limits, e: Ty, es: seq<Value>, i: nat,
                                            st: DecState)
    requires i <= |es| && st.depth <= l.maxDepth
    requires AllTyped(s, e, es)
    requires exists k :: i <= k < |es| && !Placed(s, e, es[k])
    ensures var r := DecodeElems(s, layer, l, e, |es| - i, st); r.Ok? ==> r.value != NormElems(s, e, es, i)
    decreases es, |es| - i
  {
    var head := Decode(s, layer, l, e, st);
    if head.Ok? {
      var r := DecodeElems(s, layer, l, e, |es| - i, st);
      if Placed(s, e, es[i]) {
        ElemsNeverDecode(s, layer, l, e, es, i + 1, head.st);
        var tail := DecodeElems(s, layer, l, e, |es| - i - 1, head.st);
        assert NormElems(s, e, es, i)[1..] == NormElems(s, e, es, i + 1);
        assert r.Ok? ==> r.value[1..] == tail.value;
      } else {
        MisplacedNeverDecodes(s, layer, l, e, es[i], st);
        assert r.Ok? ==> r.value[0] == head.value;
        assert NormElems(s, e, es, i)[0] == Norm(s, e, es[i]);
      }
    }
  }

  lemma {:induction false} BodyNeverDecodes(s: Schema, layer: int, l: Limits, c: nat, v: Value, st: DecState)
    requires v.ObjV? && ObjTyped(s, v) && !ObjPlaced(s, v) && st.depth <= l.maxDepth
    ensures DecodeBody(s, layer, l, c, st).Ok? ==> DecodeBody(s, layer, l, c, st).value != NormObj(s, v)
    decreases v, 0
  {
    var enter := EnterObject(l, st);
    if c == v.ctor && enter.Ok? {
      FieldsNeverDecode(s, layer, l, s.ctors[c].params, v.fields, 0, map[], enter.st);
    }
  }

  lemma {:induction false} FieldsNeverDecode(s: Schema, layer: int, l: Limits, ps: seq<Param>, fs: seq<Field>, i: nat,
                                             words: map<string, Uint32>, st: DecState)
    requires |ps| == |fs| && i <= |fs| && st.depth <= l.maxDepth
    requires FieldsTyped(s, ps, fs)
    requires forall name :: name in words ==> DeclaredBefore(ps, i, name)
    requires exists k :: i <= k < |fs| && !(Ordered(ps, fs, k) && FieldPlaced(s, ps[k], fs[k]))
    ensures var r := DecodeFields(s, layer, l, ps, i, words, st); r.Ok? ==> r.value != NormFields(s, ps, fs, i)
    decreases fs, |fs| - i
  {
    var head := DecodeField(s, layer, l, ps, i, words, st);
    var norm := NormField(s, ps[i], fs[i], WordFor(ps, fs, ps[i]));
    if head.Ok? {
      var r := DecodeFields(s, layer, l, ps, i, words, st);
      assert r.Ok? ==> r.value[0] == head.value.0;
      assert NormFields(s, ps, fs, i)[0] == norm;
      if !Ordered(ps, fs, i) {
        assert ps[i].word !in words;
        ZeroHasNoBits(ps[i].bit);
        assert head.value.0 != norm;
      } else if !FieldPlaced(s, ps[i], fs[i]) {
        if ps[i].Cond? {
          assert Sets(ps[i], fs[i], ps[i].word, ps[i].bit);
          WordFromBits(ps, fs, ps[i].word, 0, ps[i].bit);
        }
        FieldNeverDecodes(s, layer, l, ps, fs[i], i, WordFor(ps, fs, ps[i]), words, st);
      } else {
        forall name | name in head.value.1 ensures DeclaredBefore(ps, i + 1, name) {
          WordsKnown(s, layer, l, ps, i, words, st, name);
        }
        FieldsNeverDecode(s, layer, l, ps, fs, i + 1, head.value.1, head.st);
        var tail := DecodeFields(s, layer, l, ps, i + 1, head.value.1, head.st);
        assert NormFields(s, ps, fs, i)[1..] == NormFields(s, ps, fs, i + 1);
        assert r.Ok? ==> r.value[1..] == tail.value;
      }
    }
  }

  lemma WordsKnown(s: Schema, layer: int, l: Limits, ps: seq<Param>, i: nat, words: map<string, Uint32>, st: DecState,
                   name: string)
    requires i < |ps| && st.depth <= l.maxDepth
    ensures var r := DecodeField(s, layer, l, ps, i, words, st);
            r.Ok? && name in r.value.1 ==> name in words || ps[i] == FlagWord(name)
  {
    match ps[i]
    case FlagWord(_) =>
    case _ =>
  }

  lemma {:induction false} FieldNeverDecodes(s: Schema, layer: int, l: Limits, ps: seq<Param>, f: Field, i: nat, w: nat,
                                             words: map<string, Uint32>, st: DecState)
    requires i < |ps| && st.depth <= l.maxDepth && FieldTyped(s, ps[i], f) && !FieldPlaced(s, ps[i], f)
    requires ps[i].Cond? ==> TestBit(w, ps[i].bit)
    ensures var r := DecodeField(s, layer, l, ps, i, words, st); r.Ok? ==> r.value.0 != NormField(s, ps[i], f, w)
    decreases f
  {
    match ps[i]
    case Plain(t) => MisplacedNeverDecodes(s, layer, l, t, f.v, st);
    case Cond(_, _, t) => MisplacedNeverDecodes(s, layer, l, t, f.v, st);
    case _ =>
  }

  // ---- The theorem --------------------------------------------------------------------------

  /** Under a sufficient budget, decoding the encoding of v followed by anything gives back the
      normal form of v and leaves what followed, exactly when no conditional field of v was
      written before its flag word. */
  lemma RoundTripExactly(s: Schema, layer: int, l: Limits, t: Ty, v: Value, st: DecState)
    requires WellFormed(s, layer) && Typed(s, t, v) && InRange(s, t)
    requires Emit(s, layer, t, v).ok
    requires Within(l, st) && StartsWith(st, Emit(s, layer, t, v).bytes) && Fits(l, st, Emit(s, layer, t, v))
    ensures Decode(s, layer, l, t, st) == Ok(Norm(s, t, v), After(st, Emit(s, layer, t, v))) <==> Placed(s, t, v)
    ensures Faithful(s, t, v) ==>
            (Decode(s, layer, l, t, st) == Ok(v, After(st, Emit(s, layer, t, v))) <==> Placed(s, t, v))
  {
    if Placed(s, t, v) {
      DecodeUndoesEmit(s, layer, l, t, v, st);
    } else {
      MisplacedNeverDecodes(s, layer, l, t, v, st);
    }
    BitsOkOf(s, layer);
    NormKeepsFaithful(s, t, v);
  }

  lemma BitsOkOf(s: Schema, layer: int)
    requires WellFormed(s, layer)
    ensures SchemaBitsOk(s)
  {
    forall c, i | 0 <= c < |s.ctors| && 0 <= i < |s.ctors[c].params| &&
                  (s.ctors[c].params[i].Cond? || s.ctors[c].params[i].True?)
      ensures s.ctors[c].params[i].bit < 32
    {
      assert ParamOk(s, s.ctors[c].params, i);
    }
  }

  /** A constructor with an optional field before its flag word, and a value that has the field: it
      is never decoded, from its own encoding or from anything else. */
  lemma EarlyFieldNeverDecodes(s: Schema, layer: int, l: Limits, v: Value, i: nat, st: DecState)
    requires WellFormed(s, layer) && v.ObjV? && ObjTyped(s, v) && i < |v.fields| && v.fields[i].Present?
    requires var ps := s.ctors[v.ctor].params; ps[i].Cond? && !DeclaredBefore(ps, i, ps[i].word)
    requires Faithful(s, Bare(v.ctor), v) && Within(l, st)
    ensures Decode(s, layer, l, Bare(v.ctor), st).Ok? ==> Decode(s, layer, l, Bare(v.ctor), st).value != v
  {
    var ps := s.ctors[v.ctor].params;
    BitsOkOf(s, layer);
    FlagWordFaithful(ps, v.fields, ps[i].word);
    assert Sets(ps[i], v.fields[i], ps[i].word, ps[i].bit);
    assert !Ordered(ps, v.fields, i);
    NormKeepsFaithful(s, Bare(v.ctor), v);
    MisplacedNeverDecodes(s, layer, l, Bare(v.ctor), v, st);
  }

  /** The schema-level condition: when every constructor declares its flag words first, every
      value of every type round-trips. */
  lemma {:induction false} WordsFirstPlaces(s: Schema, t: Ty, v: Value)
    requires Typed(s, t, v) && forall c :: 0 <= c < |s.ctors| ==> WordsFirst(s.ctors[c].params)
    ensures Placed(s, t, v)
    decreases v, 1
  {
    match t
    case Vector(e) =>
      if v.VecV? {
        forall i | 0 <= i < |v.elems| ensures Placed(s, e, v.elems[i]) { WordsFirstPlaces(s, e, v.elems[i]); }
      }
    case Bare(_) => if v.ObjV? { WordsFirstPlacesObj(s, v); }
    case Boxed(_) => if v.ObjV? { WordsFirstPlacesObj(s, v); }
    case _ =>
  }

  lemma {:induction false} WordsFirstPlacesObj(s: Schema, v: Value)
    requires v.ObjV? && ObjTyped(s, v) && forall c :: 0 <= c < |s.ctors| ==> WordsFirst(s.ctors[c].params)
    ensures ObjPlaced(s, v)
    decreases v, 0
  {
    var ps := s.ctors[v.ctor].params;
    assert WordsFirst(ps);
    forall i | 0 <= i < |ps| ensures Ordered(ps, v.fields, i) && FieldPlaced(s, ps[i], v.fields[i]) {
      WordsFirstPlacesField(s, ps[i], v.fields[i]);
      assert FollowsItsWord(ps, i);
    }
  }

  lemma {:induction false} WordsFirstPlacesField(s: Schema, p: Param, f: Field)
    requires FieldTyped(s, p, f) && forall c :: 0 <= c < |s.ctors| ==> WordsFirst(s.ctors[c].params)
    ensures FieldPlaced(s, p, f)
    decreases f
  {
    if p.Plain? || (p.Cond? && f.Present?) {
      WordsFirstPlaces(s, p.ty, f.v);
    }
  }
}
