/** Bounded decompression, mtproto/gzip.go. The inflater itself is abstract. */
module Gzip {
  import opened Bytes
  import opened Faults
  import opened Budget

  const MAX_INT64 := TWO_63 - 1

  /** A gzip member: whether its header opens, all it would inflate to, and whether the stream
      ends cleanly after that. */
  datatype Member = Member(opens: bool, output: seq<Byte>, clean: bool)

  datatype Result = Inflated(data: seq<Byte>) | Failed(error: Error)

  /** io.ReadAll over io.LimitReader: at most k bytes; the end of the stream is seen only when
      the limit lies beyond it. */
  function ReadLimited(m: Member, k: nat): Result
  {
    if |m.output| >= k then Inflated(m.output[..k]) else if m.clean then Inflated(m.output) else Failed(Corrupt)
  }

  lemma QuotientBound(a: nat, b: nat, m: nat)
    requires b > 0
    ensures a > m / b <==> a * b > m
  {
    if a > m / b {
      assert a * b >= (m / b + 1) * b;
    } else {
      assert a * b <= m / b * b;
    }
  }

  /** The exact product, capped at the largest int64. */
  function SaturatingMultiply(left: nat, right: nat): (r: nat)
    ensures r == if left * right > MAX_INT64 then MAX_INT64 else left * right
  {
    if left == 0 || right == 0 then 0
    else
      QuotientBound(left, right, MAX_INT64);
      if left > MAX_INT64 / right then MAX_INT64 else left * right
  }

  method MinInt64(values: seq<int>) returns (m: int)
    requires values != []
    ensures m in values && forall v :: v in values ==> m <= v
  {
    m := values[0];
    for i := 1 to |values|
      invariant m in values[..i] && forall k :: 0 <= k < i ==> m <= values[k]
    {
      if values[i] < m {
        m := values[i];
      }
    }
  }

  /** What may be produced, seen from one reading of the counters. */
  function Allowance(l: Limits, c: Counters, packed: nat): int
  {
    var ratio := SaturatingMultiply(packed, if l.maxRatio < 0 then 0 else l.maxRatio);
    var work := l.maxWork - c.work - packed;
    var bytes := l.maxBytes - c.bytes;
    if bytes <= work && bytes <= ratio then bytes else if work <= ratio then work else ratio
  }

  /** The first phase: expand under the counters as read once, charging nothing. */
  method Expand(l: Limits, c: Counters, packed: nat, m: Member) returns (r: Result)
    requires Bounded(l, c) && !Negative(l) && l.maxWork <= MAX_INT64
    requires packed == 0 ==> !m.opens
    ensures r.Inflated? <==> m.opens && m.clean && |m.output| <= Allowance(l, c, packed)
    ensures r.Inflated? ==> r.data == m.output
  {
    if !m.opens {
      return Failed(Corrupt);
    }
    var decodedRemaining := l.maxBytes - c.bytes;
    var workRemaining := l.maxWork - c.work;
    var ratioLimit := SaturatingMultiply(packed, l.maxRatio);
    if packed > workRemaining {
      return Failed(GzipWork);
    }
    var limit := MinInt64([decodedRemaining, workRemaining - packed, ratioLimit]);
    assert limit in [decodedRemaining, workRemaining - packed, ratioLimit];
    assert workRemaining - packed in [decodedRemaining, workRemaining - packed, ratioLimit];
    assert decodedRemaining in [decodedRemaining, workRemaining - packed, ratioLimit];
    assert ratioLimit in [decodedRemaining, workRemaining - packed, ratioLimit];
    assert limit + 1 <= MAX_INT64;
    r := ReadLimited(m, limit + 1);
    if r.Failed? {
      return;
    }
    if |r.data| > ratioLimit {
      return Failed(GzipRatio);
    }
    if |r.data| > decodedRemaining {
      return Failed(PayloadTooLarge);
    }
    if packed + |r.data| > workRemaining {
      return Failed(GzipWork);
    }
  }

  /** Decompression when nobody else charges the budget: it succeeds exactly when the whole
      output fits, returns all of it, and charges output and work; a failure charges nothing. */
  method Decompress(budget: DecodeBudget, packed: nat, m: Member) returns (r: Result)
    requires budget.Valid() && !Negative(budget.limits) && budget.limits.maxWork <= MAX_INT64
    requires packed == 0 ==> !m.opens
    modifies budget`bytes, budget`work
    ensures budget.Valid()
    ensures r.Inflated? <==> m.opens && m.clean && |m.output| <= Allowance(budget.limits, old(budget.State()), packed)
    ensures r.Inflated? ==> r.data == m.output
    ensures budget.State() == if r.Failed? then old(budget.State()) else
              old(budget.State()).(bytes := old(budget.bytes) + |m.output|,
                                   work := old(budget.work) + packed + |m.output|)
  {
    var seen := Counters(budget.bytes, budget.wrappers, budget.containers, budget.elems, budget.nodes, budget.depth,
                         budget.work);
    r := Expand(budget.limits, seen, packed, m);
    if r.Failed? {
      return;
    }
    // Nobody charged in between, so the second look at the counters cannot refuse.
    var a := budget.TryCharge(packed, |r.data|);
    assert a.Granted?;
  }

  /** Decompression while others use the budget: they do whatever they do between the two looks at the
      counters. It succeeds exactly when the whole output fits at both, and then the whole output has
      been paid for, within the limits; a failure charges nothing. */
  method DecompressShared(l: Limits, s: Shared, others: seq<Action>, packed: nat, m: Member)
    returns (r: Result, n: Shared)
    requires Sound(l, s) && !Negative(l) && l.maxWork <= MAX_INT64
    requires packed == 0 ==> !m.opens
    ensures var between := Run(l, s, others);
            && (r.Inflated? <==> m.opens && m.clean && |m.output| <= Allowance(l, s.c, packed) &&
                                 |m.output| <= Allowance(l, between.c, packed))
            && (r.Inflated? ==> r.data == m.output && n.inflated == between.inflated + |m.output| &&
                                n.c.bytes == between.c.bytes + |m.output| &&
                                n.c.work == between.c.work + packed + |m.output|)
            && (r.Failed? ==> n == between)
    ensures Sound(l, n)
  {
    RunSound(l, s, others);
    r := Expand(l, s.c, packed, m);
    n := Run(l, s, others);
    if r.Failed? {
      return;
    }
    var a := ChargeGzip(l, n.c, packed, |r.data|);
    if a.Refused? {
      r := Failed(a.error);
      return;
    }
    NextSound(l, n, Inflate(packed, |r.data|));
    n := n.(c := a.c, inflated := n.inflated + |r.data|);
  }
}
