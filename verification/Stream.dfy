/** The stream forms of mtproto/serialize.go and mtproto/deserialize.go: writers onto a sink, and
    readers that charge a shared budget before the bytes arrive. */
module Stream {
  import opened Bytes
  import opened Faults
  import opened Cursor
  import Budget

  function Least(a: nat, b: nat): nat { if a < b then a else b }

  /** A writer that fails once it has taken so many bytes, keeping what it took. */
  class Sink {
    var data: seq<Byte>
    var room: nat

    method Write(p: seq<Byte>) returns (ok: bool)
      modifies this
      ensures ok <==> |p| <= old(room)
      ensures data == old(data) + p[..Least(|p|, old(room))] && room == old(room) - Least(|p|, old(room))
    {
      var n := Least(|p|, room);
      data, room := data + p[..n], room - n;
      ok := n == |p|;
    }
  }

  lemma PrefixOfThree(a: seq<Byte>, b: seq<Byte>, c: seq<Byte>, n: nat)
    ensures n <= |a| ==> (a + b + c)[..n] == a[..n]
    ensures |a| <= n <= |a| + |b| ==> (a + b + c)[..n] == a + b[..n - |a|]
    ensures |a| + |b| <= n <= |a + b + c| ==> (a + b + c)[..n] == a + b + c[..n - |a| - |b|]
  {
  }

  /** The plain writer: short and long form written out separately. It succeeds exactly when the length
      is legal and the sink takes everything; a failing sink is left with a prefix. */
  method WriteBytes(w: Sink, v: seq<Byte>) returns (ok: bool)
    modifies w
    ensures ok <==> |v| <= MAX_TL_BYTES && |Text(v)| <= old(w.room)
    ensures |v| <= MAX_TL_BYTES ==>
              w.data == old(w.data) + Text(v)[..Least(|Text(v)|, old(w.room))] &&
              w.room == old(w.room) - Least(|Text(v)|, old(w.room))
    ensures |v| > MAX_TL_BYTES ==> w.data == old(w.data) && w.room == old(w.room)
  {
    var length := |v|;
    if length < 254 {
      ok := WritePadded(w, [length], v, (4 - (1 + length) % 4) % 4);
      return;
    }
    if length > MAX_TL_BYTES {
      return false;
    }
    var header := [0xFE, length % 256, length / 256 % 256, length / 256 / 256 % 256];
    ok := WritePadded(w, header, v, (4 - (4 + length) % 4) % 4);
  }

  /** Header, contents and padding, stopping at the first write that fails. */
  method WritePadded(w: Sink, header: seq<Byte>, v: seq<Byte>, padding: nat) returns (ok: bool)
    modifies w
    ensures var all := header + v + Zeros(padding);
            && (ok <==> |all| <= old(w.room))
            && w.data == old(w.data) + all[..Least(|all|, old(w.room))]
            && w.room == old(w.room) - Least(|all|, old(w.room))
  {
    PrefixOfThree(header, v, Zeros(padding), Least(|header + v + Zeros(padding)|, w.room));
    ok := w.Write(header);
    if !ok {
      return;
    }
    ok := w.Write(v);
    if !ok {
      return;
    }
    if padding > 0 {
      ok := w.Write(Zeros(padding));
    }
  }

  /** A byte source that may hand out fewer bytes than asked for. */
  class Source {
    var data: seq<Byte>

    method Read(n: nat) returns (got: seq<Byte>)
      modifies this
      ensures |got| <= n && got <= old(data) && data == old(data)[|got|..]
      ensures n > 0 && old(data) != [] ==> got != []
    {
      var most := if n < |data| then n else |data|;
      var k :| 0 <= k <= most && (most > 0 ==> k > 0);
      got := data[..k];
      data := data[k..];
    }
  }

  datatype Read = Bytes(got: seq<Byte>) | Fault(error: Error)

  class BudgetReader {
    const source: Source
    const budget: Budget.DecodeBudget

    constructor (source: Source, budget: Budget.DecodeBudget)
      ensures this.source == source && this.budget == budget
    {
      this.source, this.budget := source, budget;
    }

    ghost function State(): DecState
      requires budget.Valid()
      reads source, budget
    {
      DecState(source.data, budget.bytes, budget.elems, budget.nodes, budget.depth)
    }

    /** Reserve, read, give back what did not arrive. */
    method ReadSome(n: nat) returns (r: Read)
      requires budget.Valid()
      modifies source, budget`bytes
      ensures budget.Valid()
      ensures r.Fault? <==> old(source.data) == [] || old(budget.bytes) >= budget.limits.maxBytes
      ensures r.Fault? ==> State() == old(State())
      ensures r.Bytes? ==> |r.got| <= n && r.got <= old(source.data) && State() == Skip(old(State()), |r.got|)
      ensures r.Bytes? && n > 0 ==> r.got != []
    {
      if source.data == [] {
        return Fault(UnexpectedEOF);
      }
      var ok, reserved := budget.TryReserve(n);
      if !ok {
        return Fault(BytesLimit);
      }
      var got := source.Read(reserved);
      budget.Return(reserved - |got|);
      r := Bytes(got);
    }

    /** io.ReadFull: however the source chunks its bytes, n of them arrive exactly when the input
        and the budget both hold n. */
    method ReadFull(n: nat) returns (r: Read)
      requires budget.Valid()
      modifies source, budget`bytes
      ensures budget.Valid()
      ensures r.Bytes? <==> Take(budget.limits, old(State()), n).Ok?
      ensures r.Bytes? ==> Ok(r.got, State()) == Take(budget.limits, old(State()), n)
    {
      ghost var start := State();
      var got: seq<Byte> := [];
      while |got| < n
        invariant |got| <= n && |got| <= |start.rest| && got == start.rest[..|got|]
        invariant budget.Valid() && State() == Skip(start, |got|)
        decreases n - |got|
      {
        var more := ReadSome(n - |got|);
        if more.Fault? {
          return more;
        }
        assert start.rest[..|got| + |more.got|] == got + more.got;
        got := got + more.got;
      }
      r := Bytes(got);
    }

    /** ReadSizedBytes: a declared length beyond the bounded input is refused before reading. */
    method ReadSized(n: nat) returns (r: Read)
      requires budget.Valid()
      modifies source, budget`bytes
      ensures budget.Valid()
      ensures r.Bytes? <==> Take(budget.limits, old(State()), n).Ok?
      ensures r.Bytes? ==> Ok(r.got, State()) == Take(budget.limits, old(State()), n)
    {
      var remaining := budget.limits.maxBytes - budget.bytes;
      if n > (if |source.data| < remaining then |source.data| else remaining) {
        return Fault(UnexpectedEOF);
      }
      r := ReadFull(n);
    }

    /** The stream reader accepts exactly the inputs the cursor accepts, with the same value and
        the same consumption. */
    method ReadBytes() returns (r: Read)
      requires budget.Valid()
      modifies source, budget`bytes
      ensures budget.Valid()
      ensures r.Bytes? <==> ReadText(budget.limits, old(State())).Ok?
      ensures r.Bytes? ==> Ok(r.got, State()) == ReadText(budget.limits, old(State()))
    {
      var prefix := ReadFull(1);
      if prefix.Fault? {
        return prefix;
      }
      var first := prefix.got[0];
      if first == 255 {
        return Fault(InvalidLength);
      }
      var length, header := first, 1;
      if first == 254 {
        var size := ReadFull(3);
        if size.Fault? {
          return size;
        }
        length, header := FromLE24(size.got), 4;
      }
      r := ReadPadded(length, header);
    }

    method ReadPadded(length: nat, header: nat) returns (r: Read)
      requires budget.Valid()
      modifies source, budget`bytes
      ensures budget.Valid()
      ensures r.Bytes? <==> TextBody(budget.limits, old(State()), length, header).Ok?
      ensures r.Bytes? ==> Ok(r.got, State()) == TextBody(budget.limits, old(State()), length, header)
    {
      ghost var start := State();
      r := ReadSized(length);
      if r.Fault? {
        return;
      }
      var padding := (4 - (header + length) % 4) % 4;
      if padding > 0 {
        var pad := ReadFull(padding);
        if pad.Fault? {
          return pad;
        }
      }
      assert start.rest[..length + padding][..length] == start.rest[..length];
      assert start.rest[length..][padding..] == start.rest[length + padding..];
    }
  }
}
