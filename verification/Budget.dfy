/** Failures of the codec, shared by its modules. */
module Faults {
  datatype Error =
    | UnexpectedEOF | BytesLimit | NodeLimit | DepthLimit | VectorTooLong | VectorCountLimit
    | WrapperLimit | ContainerLimit | GzipRatio | GzipWork | PayloadTooLarge | Corrupt
    | InvalidBool | InvalidLength | BadVector | WrongConstructor | UnknownConstructor
    | NotInFamily | UnknownFlags | UnavailableAtLayer | EncodedLimit | TextTooLong | NilObject
}

/** The decode budget of mtproto/deserialize.go, shared by every reader of one logical decode. */
module Budget {
  import opened Faults

  const DEFAULT_MAX_BYTES := 0x100_0000
  const DEFAULT_MAX_WRAPPERS := 16
  const DEFAULT_MAX_CONTAINERS := 64
  const DEFAULT_MAX_ELEMENTS := 0x1_0000
  const DEFAULT_MAX_NODES := 0x4_0000
  const DEFAULT_MAX_DEPTH := 128
  const DEFAULT_MAX_RATIO := 128
  const DEFAULT_MAX_WORK := 0x200_0000

  /** Ceilings, one per dimension. */
  datatype Limits = Limits(maxBytes: int, maxWrappers: int, maxContainers: int, maxElems: int,
                           maxNodes: int, maxDepth: int, maxRatio: int, maxWork: int)

  predicate Negative(l: Limits)
  {
    || l.maxBytes < 0 || l.maxWrappers < 0 || l.maxContainers < 0 || l.maxElems < 0
    || l.maxNodes < 0 || l.maxDepth < 0 || l.maxRatio < 0 || l.maxWork < 0
  }

  function OrDefault(v: int, default: int): int { if v == 0 then default else v }

  /** A usable limit: the one asked for, or the default where none was. */
  predicate Filled(asked: int, default: int, got: int)
  {
    got > 0 && (asked != 0 ==> got == asked) && (asked == 0 ==> got == default)
  }

  /** Zero selects the default; a negative request is refused by NewDecodeBudget. */
  function Normalize(l: Limits): (r: Limits)
    requires !Negative(l)
    ensures Filled(l.maxBytes, DEFAULT_MAX_BYTES, r.maxBytes)
    ensures Filled(l.maxWrappers, DEFAULT_MAX_WRAPPERS, r.maxWrappers)
    ensures Filled(l.maxContainers, DEFAULT_MAX_CONTAINERS, r.maxContainers)
    ensures Filled(l.maxElems, DEFAULT_MAX_ELEMENTS, r.maxElems) && Filled(l.maxNodes, DEFAULT_MAX_NODES, r.maxNodes)
    ensures Filled(l.maxDepth, DEFAULT_MAX_DEPTH, r.maxDepth) && Filled(l.maxRatio, DEFAULT_MAX_RATIO, r.maxRatio)
    ensures Filled(l.maxWork, DEFAULT_MAX_WORK, r.maxWork)
  {
    Limits(OrDefault(l.maxBytes, DEFAULT_MAX_BYTES), OrDefault(l.maxWrappers, DEFAULT_MAX_WRAPPERS),
           OrDefault(l.maxContainers, DEFAULT_MAX_CONTAINERS), OrDefault(l.maxElems, DEFAULT_MAX_ELEMENTS),
           OrDefault(l.maxNodes, DEFAULT_MAX_NODES), OrDefault(l.maxDepth, DEFAULT_MAX_DEPTH),
           OrDefault(l.maxRatio, DEFAULT_MAX_RATIO), OrDefault(l.maxWork, DEFAULT_MAX_WORK))
  }

  // ---- One critical section each ------------------------------------------------------------

  datatype Counters =
    Counters(bytes: int, wrappers: int, containers: int, elems: int, nodes: int, depth: int, work: int)

  const ZERO := Counters(0, 0, 0, 0, 0, 0, 0)

  predicate Bounded(l: Limits, c: Counters)
  {
    && 0 <= c.bytes <= l.maxBytes && 0 <= c.wrappers <= l.maxWrappers && 0 <= c.containers <= l.maxContainers
    && 0 <= c.elems <= l.maxElems && 0 <= c.nodes <= l.maxNodes && 0 <= c.depth <= l.maxDepth
    && 0 <= c.work <= l.maxWork
  }

  datatype Attempt = Granted(c: Counters) | Refused(error: Error)

  function After(c: Counters, a: Attempt): Counters { if a.Granted? then a.c else c }

  function Consume(l: Limits, c: Counters, n: nat): Attempt
  {
    if n > l.maxBytes - c.bytes then Refused(BytesLimit) else Granted(c.(bytes := c.bytes + n))
  }

  function EnterNode(l: Limits, c: Counters): Attempt
  {
    if c.nodes >= l.maxNodes then Refused(NodeLimit)
    else if c.depth >= l.maxDepth then Refused(DepthLimit)
    else Granted(c.(nodes := c.nodes + 1, depth := c.depth + 1))
  }

  function ConsumeWrapper(l: Limits, c: Counters): Attempt
  {
    if c.wrappers >= l.maxWrappers then Refused(WrapperLimit) else Granted(c.(wrappers := c.wrappers + 1))
  }

  function ConsumeContainer(l: Limits, c: Counters): Attempt
  {
    if c.containers >= l.maxContainers then Refused(ContainerLimit) else Granted(c.(containers := c.containers + 1))
  }

  function ConsumeElements(l: Limits, c: Counters, n: nat): Attempt
  {
    if n > l.maxElems - c.elems then Refused(VectorCountLimit) else Granted(c.(elems := c.elems + n))
  }

  /** The closing section of a decompression: output and work are rechecked before being charged. */
  function ChargeGzip(l: Limits, c: Counters, packed: nat, output: nat): Attempt
  {
    if output > l.maxBytes - c.bytes then Refused(PayloadTooLarge)
    else if packed + output > l.maxWork - c.work then Refused(GzipWork)
    else Granted(c.(bytes := c.bytes + output, work := c.work + packed + output))
  }

  /** What a reader may reserve of the n bytes it asks for; zero remaining is an error. */
  function Reservation(l: Limits, c: Counters, n: nat): nat
    requires c.bytes < l.maxBytes
  {
    if n > l.maxBytes - c.bytes then l.maxBytes - c.bytes else n
  }

  // ---- Interleavings ------------------------------------------------------------------------

  datatype Reader = Idle | Reading(reserved: nat)

  /** The shared counters, any number of readers, and what has been handed out so far. */
  datatype Shared = Shared(c: Counters, readers: seq<Reader>, delivered: nat, inflated: nat)

  datatype Action =
    | Reserve(reader: nat, n: nat)
    | Settle(reader: nat, got: nat)
    | Consumed(n: nat)
    | Enter | Leave | Wrapper | Container
    | Elements(n: nat)
    | Inflate(packed: nat, output: nat)

  predicate Enabled(s: Shared, a: Action)
  {
    match a
    case Reserve(r, _) => r < |s.readers| && s.readers[r].Idle?
    case Settle(r, got) => r < |s.readers| && s.readers[r].Reading? && got <= s.readers[r].reserved
    case Leave => s.c.depth > 0
    case _ => true
  }

  function Next(l: Limits, s: Shared, a: Action): Shared
    requires Enabled(s, a)
  {
    match a
    case Reserve(r, n) =>
      if s.c.bytes >= l.maxBytes then s
      else
        var k := Reservation(l, s.c, n);
        s.(c := s.c.(bytes := s.c.bytes + k), readers := s.readers[r := Reading(k)])
    case Settle(r, got) =>
      var back := s.readers[r].reserved - got;
      s.(c := s.c.(bytes := s.c.bytes - back), readers := s.readers[r := Idle],
         delivered := s.delivered + got)
    case Consumed(n) =>
      var a := Consume(l, s.c, n);
      s.(c := After(s.c, a), delivered := if a.Granted? then s.delivered + n else s.delivered)
    case Enter => s.(c := After(s.c, EnterNode(l, s.c)))
    case Leave => s.(c := s.c.(depth := s.c.depth - 1))
    case Wrapper => s.(c := After(s.c, ConsumeWrapper(l, s.c)))
    case Container => s.(c := After(s.c, ConsumeContainer(l, s.c)))
    case Elements(n) => s.(c := After(s.c, ConsumeElements(l, s.c, n)))
    case Inflate(p, o) =>
      var a := ChargeGzip(l, s.c, p, o);
      s.(c := After(s.c, a), inflated := if a.Granted? then s.inflated + o else s.inflated)
  }

  function Outstanding(readers: seq<Reader>): nat
  {
    if readers == [] then 0
    else (if readers[0].Idle? then 0 else readers[0].reserved) + Outstanding(readers[1..])
  }

  lemma {:induction false} OutstandingUpdate(readers: seq<Reader>, r: nat, x: Reader)
    requires r < |readers|
    ensures Outstanding(readers[r := x]) + (if readers[r].Idle? then 0 else readers[r].reserved)
         == Outstanding(readers) + (if x.Idle? then 0 else x.reserved)
    decreases r
  {
    if r == 0 {
      assert readers[0 := x][1..] == readers[1..];
    } else {
      assert readers[r := x][1..] == readers[1..][r - 1 := x];
      OutstandingUpdate(readers[1..], r - 1, x);
    }
  }

  /** No counter is over its limit, and every byte charged is a byte handed to a reader, a byte
      some reader still has reserved, or a byte of gzip output. */
  predicate Sound(l: Limits, s: Shared)
  {
    Bounded(l, s.c) && s.c.bytes == s.delivered + Outstanding(s.readers) + s.inflated
  }

  lemma NextSound(l: Limits, s: Shared, a: Action)
    requires Sound(l, s) && Enabled(s, a)
    ensures Sound(l, Next(l, s, a))
  {
    match a
    case Reserve(r, n) =>
      if s.c.bytes < l.maxBytes {
        OutstandingUpdate(s.readers, r, Reading(Reservation(l, s.c, n)));
      }
    case Settle(r, got) =>
      OutstandingUpdate(s.readers, r, Idle);
    case _ =>
  }

  function Run(l: Limits, s: Shared, run: seq<Action>): Shared
  {
    if run == [] then s
    else
      var before := Run(l, s, run[..|run| - 1]);
      if Enabled(before, run[|run| - 1]) then Next(l, before, run[|run| - 1]) else before
  }

  lemma {:induction false} RunSound(l: Limits, s: Shared, run: seq<Action>)
    requires Sound(l, s)
    ensures Sound(l, Run(l, s, run))
    decreases |run|
  {
    if run != [] {
      RunSound(l, s, run[..|run| - 1]);
      var before := Run(l, s, run[..|run| - 1]);
      if Enabled(before, run[|run| - 1]) {
        NextSound(l, before, run[|run| - 1]);
      }
    }
  }

  /** Every interleaving of every number of readers, cursors and decompressions. */
  lemma BudgetHolds(l: Limits, readers: nat, run: seq<Action>)
    requires !Negative(l)
    ensures Sound(l, Run(l, Shared(ZERO, seq(readers, _ => Idle), 0, 0), run))
  {
    NoneOutstanding(readers);
    RunSound(l, Shared(ZERO, seq(readers, _ => Idle), 0, 0), run);
  }

  lemma {:induction false} NoneOutstanding(n: nat)
    ensures Outstanding(seq(n, _ => Idle)) == 0
  {
    if n > 0 {
      NoneOutstanding(n - 1);
      assert seq(n, _ => Idle)[1..] == seq(n - 1, _ => Idle);
    }
  }

  // ---- The shared object --------------------------------------------------------------------

  class DecodeBudget {
    const limits: Limits
    var bytes: int
    var wrappers: int
    var containers: int
    var elems: int
    var nodes: int
    var depth: int
    var work: int

    ghost function State(): Counters
      reads this
    {
      Counters(bytes, wrappers, containers, elems, nodes, depth, work)
    }

    ghost predicate Valid()
      reads this
    {
      Bounded(limits, State())
    }

    constructor (requested: Limits)
      requires !Negative(requested)
      ensures limits == Normalize(requested) && State() == ZERO && Valid()
    {
      limits := Normalize(requested);
      bytes, wrappers, containers, elems, nodes, depth, work := 0, 0, 0, 0, 0, 0, 0;
    }

    method TryConsume(n: nat) returns (a: Attempt)
      modifies this`bytes
      ensures a == Consume(limits, old(State()), n) && State() == After(old(State()), a)
    {
      if n > limits.maxBytes - bytes {
        return Refused(BytesLimit);
      }
      bytes := bytes + n;
      a := Granted(Counters(bytes, wrappers, containers, elems, nodes, depth, work));
    }

    method TryEnter() returns (a: Attempt)
      modifies this`nodes, this`depth
      ensures a == EnterNode(limits, old(State())) && State() == After(old(State()), a)
    {
      if nodes >= limits.maxNodes {
        return Refused(NodeLimit);
      }
      if depth >= limits.maxDepth {
        return Refused(DepthLimit);
      }
      nodes := nodes + 1;
      depth := depth + 1;
      a := Granted(Counters(bytes, wrappers, containers, elems, nodes, depth, work));
    }

    method LeaveNode()
      modifies this`depth
      ensures State() == old(State()).(depth := old(depth) - 1)
    {
      depth := depth - 1;
    }

    method TryElements(n: nat) returns (a: Attempt)
      modifies this`elems
      ensures a == ConsumeElements(limits, old(State()), n) && State() == After(old(State()), a)
    {
      if n > limits.maxElems - elems {
        return Refused(VectorCountLimit);
      }
      elems := elems + n;
      a := Granted(Counters(bytes, wrappers, containers, elems, nodes, depth, work));
    }

    method TryCharge(packed: nat, output: nat) returns (a: Attempt)
      modifies this`bytes, this`work
      ensures a == ChargeGzip(limits, old(State()), packed, output) && State() == After(old(State()), a)
    {
      if output > limits.maxBytes - bytes {
        return Refused(PayloadTooLarge);
      }
      if packed + output > limits.maxWork - work {
        return Refused(GzipWork);
      }
      bytes := bytes + output;
      work := work + packed + output;
      a := Granted(Counters(bytes, wrappers, containers, elems, nodes, depth, work));
    }

    /** The opening section of BudgetReader.Read; nothing is reserved once the budget is spent. */
    method TryReserve(n: nat) returns (ok: bool, reserved: nat)
      modifies this`bytes
      ensures ok == (old(bytes) < limits.maxBytes)
      ensures ok ==> reserved == Reservation(limits, old(State()), n)
      ensures State() == if ok then old(State()).(bytes := old(bytes) + reserved) else old(State())
    {
      var remaining := limits.maxBytes - bytes;
      if remaining <= 0 {
        return false, 0;
      }
      reserved := if n > remaining then remaining else n;
      bytes := bytes + reserved;
      ok := true;
    }

    /** The closing section of BudgetReader.Read. */
    method Return(unused: nat)
      modifies this`bytes
      ensures State() == old(State()).(bytes := old(bytes) - unused)
    {
      bytes := bytes - unused;
    }
  }
}
