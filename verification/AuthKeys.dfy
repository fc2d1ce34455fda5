/** The in-memory authorization key manager, crypto/authkey_memory.go. Each call takes place at one
    instant; timers may fire at any time after they were set, and more than once. */
module AuthKeys {
  import opened Bytes
  import opened Common

  type KeyId = Uint64
  type Time = int
  /** Key material, and the id its hash gives it. */
  datatype AuthKey = AuthKey(id: KeyId, material: seq<Byte>)

  const MAX_TEMPORARY := 4096
  /** 24 hours, in nanoseconds. */
  const MAX_LIFETIME: Time := 24 * 3600 * 1_000_000_000

  /** parent 0 stands for a key not bound yet. */
  datatype Info = Info(parent: KeyId, expires: Time)
  datatype State = State(keys: map<KeyId, AuthKey>, temporary: map<KeyId, Info>)
  datatype Error = Fine | KeyExpiry | InvalidBinding | NotFound | AlreadyBound

  function Without(s: State, gone: set<KeyId>): State
  {
    State(s.keys - gone, s.temporary - gone)
  }

  function ChildrenOf(s: State, id: KeyId): set<KeyId>
  {
    set c | c in s.temporary && c != id && s.temporary[c].parent == id
  }

  function Deleted(s: State, id: KeyId): State
  {
    Without(s, {id} + ChildrenOf(s, id))
  }

  function Expired(s: State, now: Time): set<KeyId>
  {
    set c | c in s.temporary && s.temporary[c].expires <= now
  }

  function PutTemporary(s: State, id: KeyId, key: AuthKey, expires: Time, now: Time): (State, Error)
  {
    if expires <= now || expires > now + MAX_LIFETIME || key.id != id then (s, KeyExpiry)
    else
      var swept := Without(s, Expired(s, now));
      if |swept.temporary| >= MAX_TEMPORARY then (swept, KeyExpiry)
      else if id in swept.keys then (swept, InvalidBinding)
      else (State(swept.keys[id := key], swept.temporary[id := Info(0, expires)]), Fine)
  }

  function Bind(s: State, id: KeyId, parent: KeyId, expires: Time, now: Time): (State, Error)
  {
    if id !in s.temporary || parent !in s.keys then (s, NotFound)
    else if parent in s.temporary || parent == id then (s, InvalidBinding)
    else
      var info := s.temporary[id];
      if info.parent != 0 && info.parent != parent then (s, AlreadyBound)
      else if expires <= now || expires > info.expires then (s, KeyExpiry)
      else (s.(temporary := s.temporary[id := Info(parent, expires)]), Fine)
  }

  function Fired(s: State, id: KeyId, now: Time): State
  {
    if id in s.temporary && s.temporary[id].expires <= now then Without(s, {id}) else s
  }

  /** Whether Get hands out the key at that instant. */
  predicate Usable(s: State, id: KeyId, now: Time)
  {
    && id in s.keys
    && (id in s.temporary ==>
          now < s.temporary[id].expires && (s.temporary[id].parent != 0 ==> s.temporary[id].parent in s.keys))
  }

  // ---- Runs ---------------------------------------------------------------------------------

  datatype Call =
    | CallPut(id: KeyId, key: AuthKey)
    | CallDelete(id: KeyId)
    | CallPutTemporary(id: KeyId, key: AuthKey, expires: Time)
    | CallBind(id: KeyId, parent: KeyId, expires: Time)
    | Timer(id: KeyId)

  function Step(s: State, c: Call, now: Time): State
  {
    match c
    case CallPut(id, key) => s.(keys := s.keys[id := key])
    case CallDelete(id) => Deleted(s, id)
    case CallPutTemporary(id, key, expires) => PutTemporary(s, id, key, expires, now).0
    case CallBind(id, parent, expires) => Bind(s, id, parent, expires, now).0
    case Timer(id) => Fired(s, id, now)
  }

  /** Calls in order, each with the time it happened at. */
  function Run(calls: seq<(Call, Time)>): State
  {
    if calls == [] then State(map[], map[])
    else Step(Run(calls[..|calls| - 1]), calls[|calls| - 1].0, calls[|calls| - 1].1)
  }

  /** A bound key's parent is present and permanent, so bindings are one deep. */
  predicate BindingOk(s: State, id: KeyId)
  {
    id in s.temporary ==>
      && id in s.keys
      && var p := s.temporary[id].parent;
         p != 0 ==> p in s.keys && p !in s.temporary
  }

  ghost predicate Valid(s: State)
  {
    (forall id :: BindingOk(s, id)) && |s.temporary| <= MAX_TEMPORARY
  }

  lemma {:induction false} FewerEntries<K, V>(m: map<K, V>, gone: set<K>)
    ensures |m - gone| <= |m|
  {
    SubsetCard((m - gone).Keys, m.Keys);
    assert |(m - gone).Keys| == |m - gone| && |m.Keys| == |m|;
  }

  lemma OneMoreEntry<K, V>(m: map<K, V>, k: K, v: V)
    ensures |m[k := v]| <= |m| + 1
  {
    assert m[k := v].Keys == m.Keys + {k};
    assert |m[k := v].Keys| == |m[k := v]| && |m.Keys| == |m|;
  }

  /** Taking out keys keeps the rest in order when no parent goes without its children. */
  lemma RemovalKeepsValid(s: State, gone: set<KeyId>)
    requires Valid(s)
    requires forall c :: c in s.temporary && c !in gone && s.temporary[c].parent != 0 ==> s.temporary[c].parent !in gone
    ensures Valid(Without(s, gone))
  {
    forall id
      ensures BindingOk(Without(s, gone), id)
    {
      assert BindingOk(s, id);
    }
    FewerEntries(s.temporary, gone);
  }

  lemma ExpiredAreNoParents(s: State, now: Time)
    requires Valid(s)
    ensures Valid(Without(s, Expired(s, now)))
  {
    forall c | c in s.temporary && s.temporary[c].parent != 0
      ensures s.temporary[c].parent !in Expired(s, now)
    {
      assert BindingOk(s, c);
    }
    RemovalKeepsValid(s, Expired(s, now));
  }

  lemma AdditionKeepsValid(s: State, id: KeyId, key: AuthKey, expires: Time)
    requires Valid(s) && id !in s.keys && |s.temporary| < MAX_TEMPORARY
    ensures Valid(State(s.keys[id := key], s.temporary[id := Info(0, expires)]))
  {
    var n := State(s.keys[id := key], s.temporary[id := Info(0, expires)]);
    forall c
      ensures BindingOk(n, c)
    {
      assert BindingOk(s, c);
    }
    OneMoreEntry(s.temporary, id, Info(0, expires));
  }

  lemma PutTemporaryKeepsValid(s: State, id: KeyId, key: AuthKey, expires: Time, now: Time)
    requires Valid(s)
    ensures Valid(PutTemporary(s, id, key, expires, now).0)
  {
    ExpiredAreNoParents(s, now);
    var swept := Without(s, Expired(s, now));
    if |swept.temporary| < MAX_TEMPORARY && id !in swept.keys {
      AdditionKeepsValid(swept, id, key, expires);
    }
  }

  lemma BindKeepsValid(s: State, id: KeyId, parent: KeyId, expires: Time, now: Time)
    requires Valid(s)
    ensures Valid(Bind(s, id, parent, expires, now).0)
  {
    var n := Bind(s, id, parent, expires, now).0;
    forall c
      ensures BindingOk(n, c)
    {
      assert BindingOk(s, c);
    }
    if n != s {
      assert n.temporary.Keys == s.temporary.Keys;
      assert |n.temporary.Keys| == |n.temporary| && |s.temporary.Keys| == |s.temporary|;
    }
  }

  lemma StepKeepsValid(s: State, c: Call, now: Time)
    requires Valid(s)
    ensures Valid(Step(s, c, now))
  {
    match c {
      case CallPut(id, key) =>
        forall d
          ensures BindingOk(Step(s, c, now), d)
        {
          assert BindingOk(s, d);
        }
      case CallDelete(id) =>
        forall d | d in s.temporary && d !in {id} + ChildrenOf(s, id) && s.temporary[d].parent != 0
          ensures s.temporary[d].parent !in {id} + ChildrenOf(s, id)
        {
          assert BindingOk(s, d);
        }
        RemovalKeepsValid(s, {id} + ChildrenOf(s, id));
      case CallPutTemporary(id, key, expires) => PutTemporaryKeepsValid(s, id, key, expires, now);
      case CallBind(id, parent, expires) => BindKeepsValid(s, id, parent, expires, now);
      case Timer(id) =>
        if id in s.temporary && s.temporary[id].expires <= now {
          forall d | d in s.temporary && s.temporary[d].parent != 0
            ensures s.temporary[d].parent != id
          {
            assert BindingOk(s, d);
          }
          RemovalKeepsValid(s, {id});
        }
    }
  }

  /** Whatever is called when, temporary keys are stored keys, a bound key's parent is present and
      itself permanent, and there are at most 4096 of them. */
  lemma {:induction false} RunsStayValid(calls: seq<(Call, Time)>)
    ensures Valid(Run(calls))
    decreases |calls|
  {
    if calls != [] {
      RunsStayValid(calls[..|calls| - 1]);
      StepKeepsValid(Run(calls[..|calls| - 1]), calls[|calls| - 1].0, calls[|calls| - 1].1);
    } else {
      assert forall id :: BindingOk(Run(calls), id);
    }
  }

  // ---- What a single step may do to a live temporary key --------------------------------------

  /** A live temporary key keeps its parent once bound, and its expiry never moves later. */
  lemma BindingNeverSwitches(calls: seq<(Call, Time)>, c: Call, now: Time, id: KeyId)
    requires var s := Run(calls); id in s.temporary && now < s.temporary[id].expires && id in Step(s, c, now).temporary
    ensures var s := Run(calls); var n := Step(s, c, now);
            && n.temporary[id].expires <= s.temporary[id].expires
            && (s.temporary[id].parent != 0 ==> n.temporary[id].parent == s.temporary[id].parent)
  {
    RunsStayValid(calls);
    assert BindingOk(Run(calls), id);
  }

  /** The key stays in the manager, unexpired, through all of those calls. */
  predicate LivesThrough(s: State, more: seq<(Call, Time)>, id: KeyId)
    decreases |more|
  {
    id in s.temporary &&
    (more == [] || (more[0].1 < s.temporary[id].expires && LivesThrough(Step(s, more[0].0, more[0].1), more[1..], id)))
  }

  /** Over its whole life a bound key keeps its parent, and its expiry only ever moves earlier. */
  lemma {:induction false} BindingLasts(calls: seq<(Call, Time)>, more: seq<(Call, Time)>, id: KeyId)
    requires LivesThrough(Run(calls), more, id)
    ensures var s := Run(calls); var n := Run(calls + more);
            && id in n.temporary && n.temporary[id].expires <= s.temporary[id].expires
            && (s.temporary[id].parent != 0 ==> n.temporary[id].parent == s.temporary[id].parent)
    decreases |more|
  {
    if more == [] {
      assert calls + more == calls;
    } else {
      RunAppend(calls, more[0].0, more[0].1);
      assert calls + more == calls + [(more[0].0, more[0].1)] + more[1..];
      BindingNeverSwitches(calls, more[0].0, more[0].1, id);
      BindingLasts(calls + [(more[0].0, more[0].1)], more[1..], id);
    }
  }

  /** After a successful binding another eligible parent is turned away exactly when the first was
      not 0: bound to 0 a key still counts as free. */
  lemma BoundForGood(s: State, id: KeyId, parent: KeyId, other: KeyId, expires: Time, again: Time, now: Time)
    requires Bind(s, id, parent, expires, now).1.Fine?
    requires other in s.keys && other !in s.temporary && other != id && other != parent
    ensures var n := Bind(s, id, parent, expires, now).0;
            Bind(n, id, other, again, now).1 == AlreadyBound <==> parent != 0
  {
  }

  lemma RunAppend(calls: seq<(Call, Time)>, c: Call, now: Time)
    ensures Run(calls + [(c, now)]) == Step(Run(calls), c, now)
  {
    assert (calls + [(c, now)])[..|calls|] == calls;
  }

  /** With key 0 stored, a temporary key can move from parent 0 to another one. */
  lemma ZeroParentSwitches(k: AuthKey, t: AuthKey, p: AuthKey) returns (calls: seq<(Call, Time)>)
    requires t.id == 1
    ensures var s := Run(calls);
            var bound := Bind(s, 1, 0, 9, 0);
            var moved := Bind(bound.0, 1, 2, 8, 0);
            bound.1.Fine? && moved.1.Fine? && moved.0.temporary[1].parent == 2
  {
    calls := [];
    RunAppend(calls, CallPut(0, k), 0);
    calls := calls + [(CallPut(0, k), 0)];
    RunAppend(calls, CallPut(2, p), 0);
    calls := calls + [(CallPut(2, p), 0)];
    var s := State(map[0 := k, 2 := p], map[]);
    assert Run(calls) == s;
    assert Expired(s, 0) == {} && Without(s, {}) == s;
    RunAppend(calls, CallPutTemporary(1, t, 10), 0);
    calls := calls + [(CallPutTemporary(1, t, 10), 0)];
  }

  /** What Delete is for: the key, and the temporary keys bound to it. */
  function KeyAndBound(s: State, id: KeyId): set<KeyId>
  {
    set c | c in s.keys && (c == id || (c in s.temporary && s.temporary[c].parent == id && s.temporary[c].parent != 0))
  }

  function Removed(s: State, id: KeyId): set<KeyId>
  {
    set c | c in s.keys && c !in Deleted(s, id).keys
  }

  /** Delete takes exactly the key and the keys bound to it, unless it is asked for key 0 while some
      other temporary key is unbound. */
  lemma DeleteRemovesExactly(calls: seq<(Call, Time)>, id: KeyId)
    ensures var s := Run(calls);
            Removed(s, id) == KeyAndBound(s, id) <==>
            id != 0 || forall c :: c in s.temporary ==> c == 0 || s.temporary[c].parent != 0
  {
    var s := Run(calls);
    RunsStayValid(calls);
    if id == 0 {
      if c :| c in s.temporary && c != 0 && s.temporary[c].parent == 0 {
        assert BindingOk(s, c) && c in ChildrenOf(s, 0);
        assert c in Removed(s, id) && c !in KeyAndBound(s, id);
      } else {
        assert ChildrenOf(s, 0) == {};
        assert Removed(s, id) == KeyAndBound(s, id);
      }
    } else {
      forall c
        ensures c in Removed(s, id) <==> c in KeyAndBound(s, id)
      {
        assert c in ChildrenOf(s, id) <==> c in s.temporary && c != id && s.temporary[c].parent == id;
      }
    }
  }

  /** Key 0 deleted with one fresh temporary key in the manager: that key goes too. */
  lemma DeleteZeroTakesUnbound(t: AuthKey) returns (calls: seq<(Call, Time)>)
    requires t.id == 1
    ensures 1 in Run(calls).keys && 1 !in Deleted(Run(calls), 0).keys
  {
    calls := [];
    var s := State(map[], map[]);
    assert Expired(s, 0) == {} && Without(s, {}) == s;
    RunAppend(calls, CallPutTemporary(1, t, 10), 0);
    calls := calls + [(CallPutTemporary(1, t, 10), 0)];
  }

  lemma OnlyExpiredSwept(s: State, id: KeyId, key: AuthKey, expires: Time, now: Time, gone: KeyId)
    requires gone in s.keys && gone !in PutTemporary(s, id, key, expires, now).0.keys
    ensures gone in s.temporary && s.temporary[gone].expires <= now
  {
    assert gone !in Without(s, Expired(s, now)).keys;
  }

  /** A key leaves the manager only by deletion of it or its parent, or by its own expiry: neither a
      stale timer nor a sweep takes a live key. */
  lemma OnlyExpiryOrDeletion(s: State, c: Call, now: Time, id: KeyId)
    requires id in s.keys && id !in Step(s, c, now).keys
    ensures || (c.CallDelete? && (id == c.id || id in ChildrenOf(s, c.id)))
            || (id in s.temporary && s.temporary[id].expires <= now)
  {
    if c.CallPutTemporary? {
      OnlyExpiredSwept(s, c.id, c.key, c.expires, now, id);
    }
  }

  /** The parent test in Get never decides. */
  lemma ParentTestRedundant(calls: seq<(Call, Time)>, id: KeyId, now: Time)
    ensures var s := Run(calls);
            Usable(s, id, now) <==> id in s.keys && (id in s.temporary ==> now < s.temporary[id].expires)
  {
    RunsStayValid(calls);
    assert BindingOk(Run(calls), id);
  }

  // ---- The manager ---------------------------------------------------------------------------------

  lemma WithoutMore(s: State, gone: set<KeyId>, id: KeyId)
    ensures Without(Without(s, gone), {id}) == Without(s, gone + {id})
  {
    assert s.keys - gone - {id} == s.keys - (gone + {id});
    assert s.temporary - gone - {id} == s.temporary - (gone + {id});
  }

  /** A sweep for the target has removed what it is after among the keys it has looked at. */
  predicate Sweeping(s: State, now: State, target: set<KeyId>, gone: set<KeyId>, todo: set<KeyId>)
  {
    now == Without(s, gone) && todo <= now.temporary.Keys && gone == target - todo
  }

  lemma SweepStep(s: State, now: State, target: set<KeyId>, gone: set<KeyId>, todo: set<KeyId>, id: KeyId)
    requires Sweeping(s, now, target, gone, todo) && id in todo
    ensures id in s.temporary && now.temporary[id] == s.temporary[id]
    ensures id in target ==> Sweeping(s, Without(now, {id}), target, gone + {id}, todo - {id})
    ensures id !in target ==> Sweeping(s, now, target, gone, todo - {id})
  {
    WithoutMore(s, gone, id);
  }

  lemma DeletedInTwo(s: State, id: KeyId)
    ensures var first := Without(s, {id}); Deleted(s, id) == Without(first, ChildrenOf(first, id))
  {
    var first := Without(s, {id});
    assert ChildrenOf(first, id) == ChildrenOf(s, id);
    var cs := ChildrenOf(s, id);
    assert s.keys - {id} - cs == s.keys - ({id} + cs) && s.temporary - {id} - cs == s.temporary - ({id} + cs);
  }

  class MemoryAuthKeyManager {
    var keys: map<KeyId, AuthKey>
    var temporary: map<KeyId, Info>

    ghost function Value(): State
      reads this
    {
      State(keys, temporary)
    }

    constructor ()
      ensures Value() == State(map[], map[])
    {
      keys, temporary := map[], map[];
    }

    method Get(id: KeyId, now: Time) returns (ok: bool, key: AuthKey)
      ensures ok <==> Usable(Value(), id, now)
      ensures ok ==> key == keys[id]
    {
      ok := id in keys;
      key := if ok then keys[id] else AuthKey(0, []);
      if id in temporary {
        var info := temporary[id];
        ok := ok && now < info.expires;
        if info.parent != 0 {
          ok := ok && info.parent in keys;
        }
      }
    }

    method Put(id: KeyId, key: AuthKey)
      modifies this`keys
      ensures Value() == Step(old(Value()), CallPut(id, key), 0)
    {
      keys := keys[id := key];
    }

    method Drop(id: KeyId)
      modifies this
      ensures Value() == Without(old(Value()), {id})
    {
      temporary, keys := temporary - {id}, keys - {id};
    }

    method Delete(id: KeyId)
      modifies this
      ensures Value() == Deleted(old(Value()), id)
    {
      DeletedInTwo(Value(), id);
      Drop(id);
      DropChildren(id);
    }

    /** The sweep over children, in whatever order the map yields them. */
    method DropChildren(id: KeyId)
      requires id !in temporary
      modifies this
      ensures Value() == Without(old(Value()), ChildrenOf(old(Value()), id))
    {
      ghost var s := Value();
      ghost var target, gone := ChildrenOf(s, id), {};
      var todo := temporary.Keys;
      while todo != {}
        invariant Sweeping(s, Value(), target, gone, todo)
        decreases |todo|
      {
        var child :| child in todo;
        SweepStep(s, Value(), target, gone, todo, child);
        todo := todo - {child};
        if temporary[child].parent == id {
          Drop(child);
          gone := gone + {child};
        }
      }
      assert gone == target;
    }

    method SweepExpired(now: Time)
      modifies this
      ensures Value() == Without(old(Value()), Expired(old(Value()), now))
    {
      ghost var s := Value();
      ghost var target, gone := Expired(s, now), {};
      var todo := temporary.Keys;
      while todo != {}
        invariant Sweeping(s, Value(), target, gone, todo)
        decreases |todo|
      {
        var id :| id in todo;
        SweepStep(s, Value(), target, gone, todo, id);
        todo := todo - {id};
        if now >= temporary[id].expires {
          Drop(id);
          gone := gone + {id};
        }
      }
      assert gone == target;
    }

    method PutTemporaryKey(id: KeyId, key: AuthKey, expires: Time, now: Time) returns (e: Error)
      modifies this
      ensures (Value(), e) == PutTemporary(old(Value()), id, key, expires, now)
    {
      if expires <= now || expires > now + MAX_LIFETIME || key.id != id {
        return KeyExpiry;
      }
      SweepExpired(now);
      if |temporary| >= MAX_TEMPORARY {
        return KeyExpiry;
      }
      if id in keys {
        return InvalidBinding;
      }
      keys := keys[id := key];
      temporary := temporary[id := Info(0, expires)];
      e := Fine;
    }

    method BindTemporary(id: KeyId, parent: KeyId, expires: Time, now: Time) returns (e: Error)
      modifies this`temporary
      ensures (Value(), e) == Bind(old(Value()), id, parent, expires, now)
    {
      if id !in temporary {
        return NotFound;
      }
      var info := temporary[id];
      if parent !in keys {
        return NotFound;
      }
      if parent in temporary || parent == id {
        return InvalidBinding;
      }
      if info.parent != 0 && info.parent != parent {
        return AlreadyBound;
      }
      if now >= expires || expires > info.expires {
        return KeyExpiry;
      }
      temporary := temporary[id := Info(parent, expires)];
      e := Fine;
    }

    method OnTimer(id: KeyId, now: Time)
      modifies this
      ensures Value() == Fired(old(Value()), id, now)
    {
      if id in temporary && now >= temporary[id].expires {
        temporary, keys := temporary - {id}, keys - {id};
      }
    }
  }
}
