/** Schemas and inputs at which the codec's promises stop, one for each condition of the theorems. */
module Witnesses {
  import opened Bytes
  import opened Cursor
  import opened Schema
  import opened Codec
  import opened RoundTrip
  import opened Sound

  /** One constructor, no layers. */
  function Single(id: Uint32, ps: seq<Param>): Schema
  {
    Schema(false, 0, [Ctor(id, [], ps)], [])
  }

  lemma FieldsOk(s: Schema, layer: int, ps: seq<Param>, fs: seq<Field>, i: nat)
    requires i <= |fs| && FieldsTyped(s, ps, fs)
    ensures EmitFields(s, layer, ps, fs, i).ok <==>
            i == |fs| || (EmitField(s, layer, ps[i], fs[i], WordFor(ps, fs, ps[i])).ok &&
                          EmitFields(s, layer, ps, fs, i + 1).ok)
  {
  }

  /** DecodeFields, one field at a time. */
  lemma FieldsCons(s: Schema, layer: int, l: Limits, ps: seq<Param>, i: nat, words: map<string, Uint32>, st: DecState,
                   f: Field, words': map<string, Uint32>, st': DecState, fs: seq<Field>, last: DecState)
    requires i < |ps| && st.depth <= l.maxDepth && st'.depth == st.depth
    requires DecodeField(s, layer, l, ps, i, words, st) == Ok((f, words'), st')
    requires DecodeFields(s, layer, l, ps, i + 1, words', st') == Ok(fs, last)
    ensures DecodeFields(s, layer, l, ps, i, words, st) == Ok([f] + fs, last)
  {
  }

  function Early(word: string): seq<Param>
  {
    [Cond(word, 0, Int), FlagWord(word)]
  }

  lemma SingleWellFormed(id: Uint32, ps: seq<Param>)
    requires forall i :: 0 <= i < |ps| ==> ParamOk(Single(id, ps), ps, i)
    ensures WellFormed(Single(id, ps), 0)
  {
  }

  /** An optional field declared before its flag word: its value 5 is written, and nothing decodes
      to it. */
  lemma EarlyFieldExample(id: Uint32, l: Limits, st: DecState)
    requires Within(l, st)
    ensures var s, v := Single(id, Early("flags")), ObjV(0, [Present(IntV(5)), Hidden]);
            && WellFormed(s, 0) && Typed(s, Bare(0), v) && Faithful(s, Bare(0), v) && Emit(s, 0, Bare(0), v).ok
            && (Decode(s, 0, l, Bare(0), st).Ok? ==> Decode(s, 0, l, Bare(0), st).value != v)
  {
    EarlyFieldCase(id, "flags", 5, l, st);
  }

  lemma EarlyFieldCase(id: Uint32, word: string, x: Int32, l: Limits, st: DecState)
    requires Within(l, st) && word == "flags"
    ensures var s, v := Single(id, Early(word)), ObjV(0, [Present(IntV(x)), Hidden]);
            && WellFormed(s, 0) && Typed(s, Bare(0), v) && Faithful(s, Bare(0), v) && Emit(s, 0, Bare(0), v).ok
            && (Decode(s, 0, l, Bare(0), st).Ok? ==> Decode(s, 0, l, Bare(0), st).value != v)
  {
    var ps, fs := Early(word), [Present(IntV(x)), Hidden];
    var s, v := Single(id, ps), ObjV(0, fs);
    SingleWellFormed(id, ps);
    assert FieldTyped(s, ps[0], fs[0]) && FieldTyped(s, ps[1], fs[1]);
    assert ObjTyped(s, v);
    FlagWordFaithful(ps, fs, word);
    assert Sets(ps[0], fs[0], word, 0);
    FieldsOk(s, 0, ps, fs, 2);
    FieldsOk(s, 0, ps, fs, 1);
    FieldsOk(s, 0, ps, fs, 0);
    assert EmitObj(s, 0, v).ok;
    assert FieldFaithful(s, ps[0], fs[0]) && FieldFaithful(s, ps[1], fs[1]);
    assert ObjFaithful(s, v);
    EarlyFieldNeverDecodes(s, 0, l, v, 0, st);
  }

  /** An optional field before its word, sharing its bit with one after it. */
  function EarlyShared(word: string): seq<Param>
  {
    [Cond(word, 0, Int), FlagWord(word), Cond(word, 0, Int)]
  }

  /** From the word 1 and the number 5 the decoder makes a well-typed value without the early field;
      that value cannot be written: its flag bit asks for the field it lacks. */
  lemma EarlySharedExample(id: Uint32, l: Limits, rest: seq<Byte>)
    requires l.maxBytes >= 8 && l.maxNodes >= 1 && l.maxDepth >= 1 && l.maxElems >= 0
    ensures var s, v := Single(id, EarlyShared("flags")), ObjV(0, [Absent, Hidden, Present(IntV(5))]);
            && WellFormed(s, 0)
            && Decode(s, 0, l, Bare(0), DecState(LE32(1) + LE32(5) + rest, 0, 0, 0, 0)) ==
               Ok(v, DecState(rest, 8, 0, 1, 0))
            && Typed(s, Bare(0), v) && !Emit(s, 0, Bare(0), v).ok && !Even(s, Bare(0), v) && !Placed(s, Bare(0), v)
  {
    EarlySharedCase(id, "flags", 5, l, rest);
  }

  lemma EarlySharedCase(id: Uint32, word: string, x: Int32, l: Limits, rest: seq<Byte>)
    requires word == "flags" && l.maxBytes >= 8 && l.maxNodes >= 1 && l.maxDepth >= 1 && l.maxElems >= 0
    ensures var s, v := Single(id, EarlyShared(word)), ObjV(0, [Absent, Hidden, Present(IntV(x))]);
            && WellFormed(s, 0)
            && Decode(s, 0, l, Bare(0), DecState(LE32(1) + LE32(ToUint32(x)) + rest, 0, 0, 0, 0)) ==
               Ok(v, DecState(rest, 8, 0, 1, 0))
            && Typed(s, Bare(0), v) && !Emit(s, 0, Bare(0), v).ok && !Even(s, Bare(0), v) && !Placed(s, Bare(0), v)
  {
    var ps, fs := EarlyShared(word), [Absent, Hidden, Present(IntV(x))];
    var s, v := Single(id, ps), ObjV(0, fs);
    SingleWellFormed(id, ps);
    assert FieldTyped(s, ps[0], fs[0]) && FieldTyped(s, ps[1], fs[1]) && FieldTyped(s, ps[2], fs[2]);
    assert ObjTyped(s, v);
    FlagWordFaithful(ps, fs, word);
    assert Sets(ps[2], fs[2], word, 0);
    FieldsOk(s, 0, ps, fs, 0);
    assert !EmitObj(s, 0, v).ok;
    assert !Ordered(ps, fs, 0) && !BitEven(ps, fs, 0);
    EarlySharedDecodes(s, ps, word, x, l, rest);
  }

  lemma EarlySharedDecodes(s: Schema, ps: seq<Param>, word: string, x: Int32, l: Limits, rest: seq<Byte>)
    requires word == "flags" && ps == EarlyShared(word) && |s.ctors| == 1 && s.ctors[0].params == ps && !s.layered
    requires l.maxBytes >= 8 && l.maxNodes >= 1 && l.maxDepth >= 1 && l.maxElems >= 0
    ensures Decode(s, 0, l, Bare(0), DecState(LE32(1) + LE32(ToUint32(x)) + rest, 0, 0, 0, 0)) ==
            Ok(ObjV(0, [Absent, Hidden, Present(IntV(x))]), DecState(rest, 8, 0, 1, 0))
  {
    var st := DecState(LE32(1) + LE32(ToUint32(x)) + rest, 0, 0, 1, 1);
    ZeroHasNoBits(0);
    assert DecodeField(s, 0, l, ps, 0, map[], st) == Ok((Absent, map[]), st);
    var two := [Hidden, Present(IntV(x))];
    WordThenNumber(s, ps, 1, word, map[], x, l, st, rest);
    FieldsCons(s, 0, l, ps, 0, map[], st, Absent, map[], st, two, DecState(rest, 8, 0, 1, 1));
    assert [Absent] + two == [Absent, Hidden, Present(IntV(x))];
  }

  /** The last two parameters, a flag word and a number on its bit 0, read from the word 1 and x. */
  lemma WordThenNumber(s: Schema, ps: seq<Param>, i: nat, word: string, words: map<string, Uint32>, x: Int32, l: Limits,
                       st: DecState, rest: seq<Byte>)
    requires i + 2 == |ps| && ps[i] == FlagWord(word) && ps[i + 1] == Cond(word, 0, Int)
    requires word == "flags" && !s.layered
    requires st.rest == LE32(1) + LE32(ToUint32(x)) + rest && Within(l, st) && st.bytes + 8 <= l.maxBytes
    ensures DecodeFields(s, 0, l, ps, i, words, st) ==
            Ok([Hidden, Present(IntV(x))], st.(rest := rest, bytes := st.bytes + 8))
  {
    assert st.rest[..4] == LE32(1) && st.rest[4..][..4] == LE32(ToUint32(x)) && st.rest[4..][4..] == rest;
    ReadUint32Back(l, st, 1);
    var st1, next := Skip(st, 4), words[word := 1];
    assert DecodeField(s, 0, l, ps, i, words, st) == Ok((Hidden, next), st1);
    ReadUint32Back(l, st1, ToUint32(x));
    var st2 := Skip(st1, 4);
    assert Decode(s, 0, l, Int, st1) == Ok(IntV(x), st2);
    assert DecodeField(s, 0, l, ps, i + 1, next, st1) == Ok((Present(IntV(x)), next), st2);
    var one := [Present(IntV(x))];
    FieldsCons(s, 0, l, ps, i + 1, next, st1, Present(IntV(x)), next, st2, [], st2);
    assert one + [] == one;
    FieldsCons(s, 0, l, ps, i, words, st, Hidden, next, st1, one, st2);
    assert [Hidden] + one == [Hidden, Present(IntV(x))];
    assert st2 == st.(rest := rest, bytes := st.bytes + 8);
  }

  /** A flag word declared twice, with a field after each. */
  function Repeated(word: string): seq<Param>
  {
    [FlagWord(word), Cond(word, 0, Vector(Int)), FlagWord(word), Cond(word, 0, Int)]
  }

  /** From the words 0 and 1 and the number 5 the decoder makes a value without the vector; it can be
      written and no field precedes its word, but both words now carry the bit, and the empty vector
      they ask for was never paid for. */
  lemma RepeatedWordExample(id: Uint32, l: Limits, rest: seq<Byte>)
    requires l.maxBytes >= 12 && l.maxNodes >= 1 && l.maxDepth >= 1 && l.maxElems >= 0
    ensures var s, v := Single(id, Repeated("flags")), ObjV(0, [Hidden, Absent, Hidden, Present(IntV(5))]);
            && WellFormed(s, 0)
            && Decode(s, 0, l, Bare(0), DecState(LE32(0) + LE32(1) + LE32(5) + rest, 0, 0, 0, 0)) ==
               Ok(v, DecState(rest, 12, 0, 1, 0))
            && Typed(s, Bare(0), v) && Emit(s, 0, Bare(0), v).ok && Placed(s, Bare(0), v) && !Even(s, Bare(0), v)
            && |Emit(s, 0, Bare(0), v).bytes| > |Paid(s, 0, Bare(0), v).bytes|
  {
    RepeatedWordCase(id, "flags", 5);
    RepeatedWordDecodes(Single(id, Repeated("flags")), Repeated("flags"), "flags", 5, l, rest);
  }

  lemma RepeatedWordCase(id: Uint32, word: string, x: Int32)
    requires word == "flags"
    ensures var s, v := Single(id, Repeated(word)), ObjV(0, [Hidden, Absent, Hidden, Present(IntV(x))]);
            && WellFormed(s, 0) && Typed(s, Bare(0), v) && Emit(s, 0, Bare(0), v).ok && Placed(s, Bare(0), v)
            && !Even(s, Bare(0), v) && |Emit(s, 0, Bare(0), v).bytes| > |Paid(s, 0, Bare(0), v).bytes|
  {
    var ps, fs := Repeated(word), [Hidden, Absent, Hidden, Present(IntV(x))];
    var s, v := Single(id, ps), ObjV(0, fs);
    assert InRange(s, Vector(Int));
    SingleWellFormed(id, ps);
    assert FieldTyped(s, ps[0], fs[0]) && FieldTyped(s, ps[1], fs[1]);
    assert FieldTyped(s, ps[2], fs[2]) && FieldTyped(s, ps[3], fs[3]);
    assert ObjTyped(s, v);
    FlagWordFaithful(ps, fs, word);
    assert Sets(ps[3], fs[3], word, 0);
    assert !BitEven(ps, fs, 1);
    RepeatedWritten(s, ps, fs, word, x);
    assert EmitObj(s, 0, v).ok;
    assert ps[0] == FlagWord(word);
    assert Ordered(ps, fs, 1) && Ordered(ps, fs, 3) && ObjPlaced(s, v);
    EvenCostsNoMore(s, 0, Bare(0), v);
  }

  lemma RepeatedWritten(s: Schema, ps: seq<Param>, fs: seq<Field>, word: string, x: Int32)
    requires ps == Repeated(word) && fs == [Hidden, Absent, Hidden, Present(IntV(x))] && FieldsTyped(s, ps, fs)
    ensures EmitFields(s, 0, ps, fs, 0).ok
  {
    FieldsOk(s, 0, ps, fs, 4);
    FieldsOk(s, 0, ps, fs, 3);
    FieldsOk(s, 0, ps, fs, 2);
    FieldsOk(s, 0, ps, fs, 1);
    FieldsOk(s, 0, ps, fs, 0);
  }

  lemma EmptyWordThenAbsent(s: Schema, ps: seq<Param>, word: string, l: Limits, st: DecState, rest: seq<Byte>)
    requires word == "flags" && ps == Repeated(word) && !s.layered
    requires st.rest == LE32(0) + rest && Within(l, st) && st.bytes + 4 <= l.maxBytes
    ensures var next := DecState(rest, st.bytes + 4, st.elems, st.nodes, st.depth);
            && DecodeField(s, 0, l, ps, 0, map[], st) == Ok((Hidden, map[word := 0]), next)
            && DecodeField(s, 0, l, ps, 1, map[word := 0], next) == Ok((Absent, map[word := 0]), next)
  {
    ZeroHasNoBits(0);
    assert st.rest[..4] == LE32(0) && st.rest[4..] == rest;
    ReadUint32Back(l, st, 0);
  }

  lemma RepeatedWordDecodes(s: Schema, ps: seq<Param>, word: string, x: Int32, l: Limits, rest: seq<Byte>)
    requires word == "flags" && ps == Repeated(word) && |s.ctors| == 1 && s.ctors[0].params == ps && !s.layered
    requires l.maxBytes >= 12 && l.maxNodes >= 1 && l.maxDepth >= 1 && l.maxElems >= 0
    ensures Decode(s, 0, l, Bare(0), DecState(LE32(0) + LE32(1) + LE32(ToUint32(x)) + rest, 0, 0, 0, 0)) ==
            Ok(ObjV(0, [Hidden, Absent, Hidden, Present(IntV(x))]), DecState(rest, 12, 0, 1, 0))
  {
    var tail := LE32(1) + LE32(ToUint32(x)) + rest;
    var st := DecState(LE32(0) + LE32(1) + LE32(ToUint32(x)) + rest, 0, 0, 1, 1);
    assert st.rest == LE32(0) + tail;
    EmptyWordThenAbsent(s, ps, word, l, st, tail);
    var st1, w0 := DecState(tail, 4, 0, 1, 1), map[word := 0];
    var last := DecState(rest, 12, 0, 1, 1);
    var two := [Hidden, Present(IntV(x))];
    WordThenNumber(s, ps, 2, word, w0, x, l, st1, rest);
    FieldsCons(s, 0, l, ps, 1, w0, st1, Absent, w0, st1, two, last);
    FieldsCons(s, 0, l, ps, 0, map[], st, Hidden, w0, st1, [Absent] + two, last);
    assert [Hidden] + ([Absent] + two) == [Hidden, Absent, Hidden, Present(IntV(x))];
  }
}
