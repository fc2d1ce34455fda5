/** The session lease coordinator and its in-memory store, session/coordinator.go and
    session/store.go: every interleaving of any number of callers, split at each lock, unlock,
    context check and store call. */
module Lease {
  import opened Bytes
  import opened Common

  datatype Snapshot = Snapshot(key: Key, body: seq<int>)

  type Thread = nat
  /** A lease is named by its place in the order of creation. */
  type Handle = nat

  datatype Cause = LeaseLost | LeaseReleased | Inactive | ParentCanceled | Other(code: int)

  /** Who still has a reference: the Acquire that made it, its caller, or nobody. */
  datatype Stage = Acquiring(thread: Thread) | Held | Abandoned
  datatype Once = Unused | Running(thread: Thread) | Closed

  datatype Record = Record(
    key: Key, generation: Int64, stage: Stage, cause: Option<Cause>, once: Once, opMu: Option<Thread>,
    snapshot: Snapshot, created: bool, ready: bool, released: bool)

  datatype Operation = Save(next: Snapshot) | Delete | Read

  /** Where a Retire goes on to: back to its caller, or to the wait inside Acquire. */
  datatype Return = ToCaller | ToWait(key: Key, initial: Snapshot)

  datatype Pc =
    | Try(key: Key, initial: Snapshot)
    | Lookup(key: Key, initial: Snapshot)
    | Wait(h: Handle, key: Key, initial: Snapshot)
    | Load(h: Handle, initial: Snapshot)
    | Check(h: Handle, snapshot: Snapshot, created: bool)
    | PublishLock(h: Handle, snapshot: Snapshot, created: bool)
    | PublishSet(h: Handle, snapshot: Snapshot, created: bool)
    | PublishUnlock(h: Handle)
    | RetireLock(h: Handle, cause: Cause, back: Return)
    | RetireCancel(h: Handle, cause: Cause, back: Return)
    | RetireUnlock(h: Handle, back: Return)
    | OpLock(h: Handle, op: Operation)
    | EnsureReady(h: Handle, op: Operation)
    | EnsureCurrent(h: Handle, op: Operation)
    | CallerContext(h: Handle, op: Operation)
    | StoreContext(h: Handle, op: Operation)
    | StoreWrite(h: Handle, op: Operation)
    | Commit(h: Handle, op: Operation)
    | OpUnlock(h: Handle)
    | ReleaseLock(h: Handle)
    | ReleaseSet(h: Handle)
    | ReleaseUnlock(h: Handle)
    | ReleaseDrop(h: Handle)
    | ReleaseClose(h: Handle)

  /** History, for the statements below: installations and store writes in order. */
  datatype Event =
    | Installed(key: Key, generation: Int64)
    | Create(key: Key, generation: Int64, value: Snapshot)
    | Saved(key: Key, generation: Int64, value: Snapshot)
    | Deleted(key: Key, generation: Int64)

  datatype State = State(
    table: map<Key, Handle>, generations: map<Key, Int64>, leases: seq<Record>,
    store: map<Key, Snapshot>, procs: map<Thread, Pc>, log: seq<Event>)

  const Start := State(map[], map[], [], map[], map[], [])

  // ---- Steps --------------------------------------------------------------------------------

  datatype Move =
    | CallAcquire(key: Key, initial: Snapshot)
    | CallOp(h: Handle, op: Operation)
    | CallRetire(h: Handle, cause: Cause)
    | CallRelease(h: Handle)
    | Advance(fails: bool)          // one step; fails: the context consulted there is done
    | CancelParent(h: Handle)       // the environment cancels the context Acquire was given

  function Generation(s: State, k: Key): Int64
  {
    if k in s.generations then s.generations[k] else 0
  }

  function Put(s: State, h: Handle, r: Record): State
    requires h < |s.leases|
  {
    s.(leases := s.leases[h := r])
  }

  function Goto(s: State, t: Thread, pc: Pc): State
  {
    s.(procs := s.procs[t := pc])
  }

  /** The call of t returns. */
  function Finish(s: State, t: Thread): State
  {
    s.(procs := s.procs - {t})
  }

  function Canceled(r: Record, c: Cause): Record
  {
    if r.cause.None? then r.(cause := Some(c)) else r
  }

  /** Lease h of a running step exists; the steps below keep this so. */
  predicate Named(s: State, pc: Pc)
  {
    pc.Try? || pc.Lookup? || pc.h < |s.leases|
  }

  /** What Acquire installs for a free key. */
  function Installation(s: State, t: Thread, k: Key, initial: Snapshot, g: Int64): State
  {
    var r := Record(k, g, Acquiring(t), None, Unused, None, initial, false, false, false);
    Goto(s.(table := s.table[k := |s.leases|], generations := s.generations[k := g], leases := s.leases + [r],
            log := s.log + [Installed(k, g)]), t, Load(|s.leases|, initial))
  }

  /** One more, as a signed 64-bit sum. */
  function NextGeneration(s: State, k: Key): Int64
  {
    ToInt64((Generation(s, k) + 1) % TWO_64)
  }

  /** The critical section of Acquire under the coordinator's own mutex. */
  function Install(s: State, t: Thread, k: Key, initial: Snapshot): State
  {
    if k in s.table then Goto(s, t, RetireLock(s.table[k], LeaseLost, ToWait(k, initial)))
    else
      var g := NextGeneration(s, k);
      if g <= Generation(s, k) then Finish(s, t)
      else Installation(s, t, k, initial, g)
  }

  /** MemoryStore.LoadOrCreate once its context check has passed. */
  function LoadOrCreate(s: State, t: Thread, h: Handle, initial: Snapshot): State
    requires h < |s.leases|
  {
    var r := s.leases[h];
    if r.key in s.store then Goto(s, t, Check(h, s.store[r.key], false))
    else
      Goto(s.(store := s.store[r.key := initial], log := s.log + [Create(r.key, r.generation, initial)]), t,
           Check(h, initial, true))
  }

  function WriteStore(s: State, t: Thread, h: Handle, op: Operation): State
    requires h < |s.leases|
  {
    var r := s.leases[h];
    match op
    case Save(next) =>
      Goto(s.(store := s.store[r.key := next], log := s.log + [Saved(r.key, r.generation, next)]), t, Commit(h, op))
    case Delete =>
      Goto(s.(store := s.store - {r.key}, log := s.log + [Deleted(r.key, r.generation)]), t, Commit(h, op))
    case Read => Goto(s, t, OpUnlock(h))
  }

  function CommitCache(r: Record, op: Operation): Record
  {
    match op
    case Save(next) => r.(snapshot := next)
    case Delete => Canceled(r.(ready := false), LeaseReleased)
    case Read => r
  }

  /** Acquire gives up a lease it installed: Release, run by the acquiring call itself. */
  function Abandon(s: State, t: Thread, h: Handle): State
    requires h < |s.leases|
  {
    Goto(Put(s, h, s.leases[h].(stage := Abandoned, once := Running(t))), t, ReleaseLock(h))
  }

  function AfterRetire(s: State, t: Thread, h: Handle, back: Return): State
  {
    if back.ToCaller? then Finish(s, t) else Goto(s, t, Wait(h, back.key, back.initial))
  }

  /** Whether thread t can move now: a lock must be free, a closed channel must be closed. */
  predicate CanAdvance(s: State, t: Thread, fails: bool)
  {
    && t in s.procs
    && Named(s, s.procs[t])
    && match s.procs[t]
       case Wait(h, _, _) => fails || s.leases[h].once.Closed?
       case PublishLock(h, _, _) => s.leases[h].opMu.None?
       case RetireLock(h, _, _) => s.leases[h].opMu.None?
       case OpLock(h, _) => s.leases[h].opMu.None?
       case ReleaseLock(h) => s.leases[h].opMu.None?
       case _ => true
  }

  function Advanced(s: State, t: Thread, fails: bool): State
    requires CanAdvance(s, t, fails)
  {
    match s.procs[t]
    case Try(k, i) => if fails then Finish(s, t) else Goto(s, t, Lookup(k, i))
    case Lookup(k, i) => Install(s, t, k, i)
    case Wait(_, k, i) => if fails then Finish(s, t) else Goto(s, t, Try(k, i))
    case Load(h, i) => if fails then Abandon(s, t, h) else LoadOrCreate(s, t, h, i)
    case Check(h, n, c) =>
      if s.leases[h].cause.Some? then Abandon(s, t, h) else Goto(s, t, PublishLock(h, n, c))
    case PublishLock(h, n, c) => Goto(Put(s, h, s.leases[h].(opMu := Some(t))), t, PublishSet(h, n, c))
    case PublishSet(h, n, c) =>
      Goto(Put(s, h, s.leases[h].(snapshot := n, created := c, ready := true)), t, PublishUnlock(h))
    case PublishUnlock(h) => Finish(Put(s, h, s.leases[h].(opMu := None, stage := Held)), t)
    case RetireLock(h, c, b) => Goto(Put(s, h, s.leases[h].(opMu := Some(t))), t, RetireCancel(h, c, b))
    case RetireCancel(h, c, b) => Goto(Put(s, h, Canceled(s.leases[h], c)), t, RetireUnlock(h, b))
    case RetireUnlock(h, b) => AfterRetire(Put(s, h, s.leases[h].(opMu := None)), t, h, b)
    case OpLock(h, op) => Goto(Put(s, h, s.leases[h].(opMu := Some(t))), t, EnsureReady(h, op))
    case EnsureReady(h, op) =>
      var r := s.leases[h];
      Goto(s, t, if !r.ready || r.released || r.cause.Some? then OpUnlock(h) else EnsureCurrent(h, op))
    case EnsureCurrent(h, op) =>
      Goto(s, t, if !Current(s, h) || op.Read? then OpUnlock(h) else CallerContext(h, op))
    case CallerContext(h, op) => Goto(s, t, if fails then OpUnlock(h) else StoreContext(h, op))
    case StoreContext(h, op) => Goto(s, t, if fails then OpUnlock(h) else StoreWrite(h, op))
    case StoreWrite(h, op) => WriteStore(s, t, h, op)
    case Commit(h, op) => Goto(Put(s, h, CommitCache(s.leases[h], op)), t, OpUnlock(h))
    case OpUnlock(h) => Finish(Put(s, h, s.leases[h].(opMu := None)), t)
    case ReleaseLock(h) => Goto(Put(s, h, s.leases[h].(opMu := Some(t))), t, ReleaseSet(h))
    case ReleaseSet(h) =>
      Goto(Put(s, h, Canceled(s.leases[h].(released := true), LeaseReleased)), t, ReleaseUnlock(h))
    case ReleaseUnlock(h) => Goto(Put(s, h, s.leases[h].(opMu := None)), t, ReleaseDrop(h))
    case ReleaseDrop(h) =>
      Goto(if Current(s, h) then s.(table := s.table - {s.leases[h].key}) else s, t, ReleaseClose(h))
    case ReleaseClose(h) => Finish(Put(s, h, s.leases[h].(once := Closed)), t)
  }

  /** The coordinator's table names h for its key: the branch behind ErrLeaseLost tests this. */
  predicate Current(s: State, h: Handle)
    requires h < |s.leases|
  {
    s.leases[h].key in s.table && s.table[s.leases[h].key] == h
  }

  predicate CanMove(s: State, t: Thread, m: Move)
  {
    match m
    case CallAcquire(k, i) => t !in s.procs
    case CallOp(h, op) => t !in s.procs && h < |s.leases| && s.leases[h].stage.Held?
    case CallRetire(h, _) => t !in s.procs && h < |s.leases| && s.leases[h].stage.Held?
    case CallRelease(h) => t !in s.procs && h < |s.leases| && s.leases[h].stage.Held? && !s.leases[h].once.Running?
    case Advance(fails) => CanAdvance(s, t, fails)
    case CancelParent(h) => h < |s.leases|
  }

  function Moved(s: State, t: Thread, m: Move): State
    requires CanMove(s, t, m)
  {
    match m
    case CallAcquire(k, i) => if i.key != k then s else Goto(s, t, Try(k, i))
    case CallOp(h, op) => if op.Save? && op.next.key != s.leases[h].key then s else Goto(s, t, OpLock(h, op))
    case CallRetire(h, c) => Goto(s, t, RetireLock(h, c, ToCaller))
    case CallRelease(h) =>
      if s.leases[h].once.Closed? then s
      else Goto(Put(s, h, s.leases[h].(once := Running(t))), t, ReleaseLock(h))
    case Advance(fails) => Advanced(s, t, fails)
    case CancelParent(h) => Put(s, h, Canceled(s.leases[h], ParentCanceled))
  }

  /** Every finite interleaving from the empty coordinator. */
  ghost predicate Reaches(moves: seq<(Thread, Move)>, s: State)
    decreases |moves|
  {
    if moves == [] then s == Start
    else
      var (t, m) := moves[|moves| - 1];
      exists before :: Reaches(moves[..|moves| - 1], before) && CanMove(before, t, m) && s == Moved(before, t, m)
  }

  // ---- Invariant ----------------------------------------------------------------------------

  /** The cached snapshot is the stored one. */
  predicate Settled(s: State, h: Handle)
    requires h < |s.leases|
  {
    var r := s.leases[h];
    r.ready && !r.released ==> r.key in s.store && s.store[r.key] == r.snapshot
  }

  predicate Owns(s: State, t: Thread, h: Handle)
    requires h < |s.leases|
  {
    s.leases[h].opMu == Some(t)
  }

  /** A call on a lease its holder got, with a snapshot of the lease's own key. */
  predicate Fitting(s: State, h: Handle, op: Operation)
    requires h < |s.leases|
  {
    s.leases[h].stage.Held? && (op.Save? ==> op.next.key == s.leases[h].key)
  }

  /** A lease that may write: ready, not released, and its owner's operation holds its mutex. */
  predicate Writing(s: State, t: Thread, h: Handle, op: Operation)
    requires h < |s.leases|
  {
    var r := s.leases[h];
    Owns(s, t, h) && Fitting(s, h, op) && r.ready && !r.released
  }

  predicate Fresh(s: State, t: Thread, h: Handle)
    requires h < |s.leases|
  {
    var r := s.leases[h];
    r.stage == Acquiring(t) && r.once.Unused? && !r.ready && !r.released && !r.created
  }

  predicate Loaded(s: State, t: Thread, h: Handle, n: Snapshot, c: bool)
    requires h < |s.leases|
  {
    var r := s.leases[h];
    && Fresh(s, t, h) && r.key in s.store && s.store[r.key] == n
    && (c ==> Made(s.log, r.key, r.generation))
  }

  predicate ThreadOk(s: State, t: Thread)
    requires t in s.procs
  {
    && Named(s, s.procs[t])
    && match s.procs[t]
       case Try(k, i) => i.key == k
       case Lookup(k, i) => i.key == k
       case Wait(_, k, i) => i.key == k
       case Load(h, i) => Fresh(s, t, h) && i.key == s.leases[h].key
       case Check(h, n, c) => Loaded(s, t, h, n, c)
       case PublishLock(h, n, c) => Loaded(s, t, h, n, c)
       case PublishSet(h, n, c) => Owns(s, t, h) && Loaded(s, t, h, n, c)
       case PublishUnlock(h) => Owns(s, t, h) && Settled(s, h) && s.leases[h].stage == Acquiring(t)
       case RetireLock(h, _, b) => b.ToWait? ==> b.initial.key == b.key
       case RetireCancel(h, _, b) => Owns(s, t, h) && Settled(s, h) && (b.ToWait? ==> b.initial.key == b.key)
       case RetireUnlock(h, b) =>
         Owns(s, t, h) && Settled(s, h) && s.leases[h].cause.Some? && (b.ToWait? ==> b.initial.key == b.key)
       case OpLock(h, op) => Fitting(s, h, op)
       case EnsureReady(h, op) => Owns(s, t, h) && Settled(s, h) && Fitting(s, h, op)
       case EnsureCurrent(h, op) => Writing(s, t, h, op) && Settled(s, h)
       case CallerContext(h, op) => Writing(s, t, h, op) && Settled(s, h)
       case StoreContext(h, op) => Writing(s, t, h, op) && Settled(s, h)
       case StoreWrite(h, op) => Writing(s, t, h, op) && Settled(s, h)
       case Commit(h, op) => Writing(s, t, h, op) && Stored(s, h, op)
       case OpUnlock(h) => Owns(s, t, h) && Settled(s, h) && s.leases[h].stage.Held?
       case ReleaseLock(h) => s.leases[h].once == Running(t)
       case ReleaseSet(h) => s.leases[h].once == Running(t) && Owns(s, t, h)
       case ReleaseUnlock(h) => s.leases[h].once == Running(t) && Owns(s, t, h) && s.leases[h].released
       case ReleaseDrop(h) => s.leases[h].once == Running(t) && s.leases[h].released
       case ReleaseClose(h) => s.leases[h].once == Running(t) && s.leases[h].released && !Current(s, h)
  }

  /** The store after the write and before the cache follows it. */
  predicate Stored(s: State, h: Handle, op: Operation)
    requires h < |s.leases|
  {
    var k := s.leases[h].key;
    match op
    case Save(next) => k in s.store && s.store[k] == next
    case Delete => k !in s.store
    case Read => Settled(s, h)
  }

  predicate Made(log: seq<Event>, k: Key, g: Int64)
  {
    exists i :: 0 <= i < |log| && log[i].Create? && log[i].key == k && log[i].generation == g
  }

  predicate LeaseOk(s: State, h: Handle)
    requires h < |s.leases|
  {
    var r := s.leases[h];
    && (!r.released ==> Current(s, h))
    && (Current(s, h) ==> r.generation == Generation(s, r.key))
    && r.generation <= Generation(s, r.key)
    && (r.stage.Acquiring? ==> r.once.Unused?)
    && (r.released ==> !r.once.Unused?)
    && (r.once.Closed? ==> r.released && !Current(s, h))
    && (r.opMu.None? ==> Settled(s, h))
    && (r.created ==> Made(s.log, r.key, r.generation))
  }

  predicate TableOk(s: State)
  {
    forall k :: k in s.table ==> s.table[k] < |s.leases| && s.leases[s.table[k]].key == k
  }

  /** Later leases of a key have higher generations. */
  predicate Ordered(leases: seq<Record>)
  {
    forall g, h :: 0 <= g < h < |leases| && leases[g].key == leases[h].key ==>
      leases[g].generation < leases[h].generation
  }

  function Replay(log: seq<Event>): map<Key, Snapshot>
  {
    if log == [] then map[] else Applied(Replay(log[..|log| - 1]), log[|log| - 1])
  }

  function Applied(m: map<Key, Snapshot>, e: Event): map<Key, Snapshot>
  {
    match e
    case Installed(_, _) => m
    case Create(k, _, v) => m[k := v]
    case Saved(k, _, v) => m[k := v]
    case Deleted(k, _) => m - {k}
  }

  /** Creation fills an empty entry; saving and deleting find one. */
  predicate Fits(m: map<Key, Snapshot>, e: Event)
  {
    match e
    case Installed(_, _) => true
    case Create(k, _, v) => k !in m && v.key == k
    case Saved(k, _, v) => k in m && v.key == k
    case Deleted(k, _) => k in m
  }

  predicate Lawful(log: seq<Event>)
  {
    log == [] || (Lawful(log[..|log| - 1]) && Fits(Replay(log[..|log| - 1]), log[|log| - 1]))
  }

  /** Generations per key never fall, and rise at every installation. */
  predicate Fenced(log: seq<Event>)
  {
    forall i, j :: 0 <= i < j < |log| && log[i].key == log[j].key ==>
      if log[j].Installed? then log[i].generation < log[j].generation else log[i].generation <= log[j].generation
  }

  predicate LogOk(s: State)
  {
    && Lawful(s.log) && Fenced(s.log) && s.store == Replay(s.log)
    && (forall i :: 0 <= i < |s.log| ==> s.log[i].generation <= Generation(s, s.log[i].key))
  }

  predicate Invariant(s: State)
  {
    && (forall t :: t in s.procs ==> ThreadOk(s, t))
    && (forall h :: 0 <= h < |s.leases| ==> LeaseOk(s, h))
    && TableOk(s) && Ordered(s.leases) && LogOk(s)
  }

  // ---- Every step keeps it ------------------------------------------------------------------

  lemma AppendKeepsLog(s: State, e: Event, n: State)
    requires LogOk(s) && Fits(s.store, e) && n.log == s.log + [e] && n.store == Applied(s.store, e)
    requires forall k :: Generation(n, k) == if e.Installed? && k == e.key then e.generation else Generation(s, k)
    requires if e.Installed? then Generation(s, e.key) < e.generation else Generation(s, e.key) == e.generation
    ensures LogOk(n)
    ensures forall k, g :: Made(s.log, k, g) ==> Made(n.log, k, g)
  {
    assert n.log[..|n.log| - 1] == s.log;
    forall k, g | Made(s.log, k, g)
      ensures Made(n.log, k, g)
    {
      var i :| 0 <= i < |s.log| && s.log[i].Create? && s.log[i].key == k && s.log[i].generation == g;
      assert n.log[i] == s.log[i];
    }
  }

  /** What thread t may do to a lease record while others run. */
  predicate Mild(r: Record, n: Record, t: Thread)
  {
    && n.key == r.key && n.generation == r.generation
    && (r.released ==> n.released) && (r.stage.Held? ==> n.stage.Held?)
    && (r.cause.Some? ==> n.cause.Some?)
    && (r.opMu.Some? && r.opMu.value != t ==>
          n.opMu == r.opMu && n.ready == r.ready && n.released == r.released && n.snapshot == r.snapshot)
    && (r.stage.Acquiring? && r.stage.thread != t ==>
          n.stage == r.stage && n.once == r.once && n.ready == r.ready && n.released == r.released &&
          n.created == r.created)
    && (r.once.Running? && r.once.thread != t ==> n.once == r.once)
  }

  /** What thread t may do to the shared state: an entry that another unreleased lease is using
      stays, a lease that left the table stays out, and history only grows. */
  ghost predicate Rely(s: State, n: State, t: Thread)
  {
    && |s.leases| <= |n.leases|
    && (forall h :: 0 <= h < |s.leases| ==>
          && Mild(s.leases[h], n.leases[h], t)
          && (!Current(s, h) ==> !Current(n, h))
          && (InUse(s.leases[h], t) ==> SameEntry(s.store, n.store, s.leases[h].key)))
    && (forall k, g :: Made(s.log, k, g) ==> Made(n.log, k, g))
    && (forall u :: u != t && u in n.procs ==> u in s.procs && n.procs[u] == s.procs[u])
  }

  predicate InUse(r: Record, t: Thread)
  {
    !r.released && ((r.ready && r.opMu.Some? && r.opMu.value != t) || (r.stage.Acquiring? && r.stage.thread != t))
  }

  predicate SameEntry(a: map<Key, Snapshot>, b: map<Key, Snapshot>, k: Key)
  {
    (k in a <==> k in b) && (k in a ==> a[k] == b[k])
  }

  lemma OthersUnaffected(s: State, n: State, t: Thread, u: Thread)
    requires Rely(s, n, t) && u != t && u in n.procs && u in s.procs && ThreadOk(s, u)
    ensures ThreadOk(n, u)
  {
    var pc := s.procs[u];
    if !pc.Try? && !pc.Lookup? {
      assert Mild(s.leases[pc.h], n.leases[pc.h], t);
      assert !Current(s, pc.h) ==> !Current(n, pc.h);
    }
  }

  lemma Assemble(s: State, n: State, t: Thread)
    requires Invariant(s) && Rely(s, n, t) && TableOk(n) && Ordered(n.leases) && LogOk(n)
    requires t in n.procs ==> ThreadOk(n, t)
    requires forall h :: 0 <= h < |n.leases| ==> LeaseOk(n, h)
    ensures Invariant(n)
  {
    forall u | u in n.procs
      ensures ThreadOk(n, u)
    {
      if u != t {
        OthersUnaffected(s, n, t, u);
      }
    }
  }

  lemma OrderedAfterPut(leases: seq<Record>, h: Handle, r: Record)
    requires Ordered(leases) && h < |leases| && r.key == leases[h].key && r.generation == leases[h].generation
    ensures Ordered(leases[h := r])
  {
    var n := leases[h := r];
    forall g, k | 0 <= g < k < |n| && n[g].key == n[k].key
      ensures n[g].generation < n[k].generation
    {
      assert leases[g].key == leases[k].key;
    }
  }

  predicate OthersStay(s: State, n: State, t: Thread)
  {
    forall u :: u != t && u in n.procs ==> u in s.procs && n.procs[u] == s.procs[u]
  }

  /** A step that only moves its thread. */
  predicate Goes(s: State, n: State, t: Thread)
  {
    n == s.(procs := n.procs) && OthersStay(s, n, t) && (t in n.procs ==> ThreadOk(n, t))
  }

  /** A step that only replaces one lease record and moves its thread. */
  predicate Puts(s: State, n: State, t: Thread, h: Handle)
  {
    && h < |s.leases| == |n.leases| && n == Put(s, h, n.leases[h]).(procs := n.procs) && OthersStay(s, n, t)
    && Mild(s.leases[h], n.leases[h], t) && LeaseOk(n, h) && (t in n.procs ==> ThreadOk(n, t))
  }

  lemma PutKeepsLease(s: State, n: State, t: Thread, h: Handle, g: Handle)
    requires Puts(s, n, t, h) && g < |s.leases| && LeaseOk(s, g)
    ensures LeaseOk(n, g) && Mild(s.leases[g], n.leases[g], t) && (Current(s, g) <==> Current(n, g))
  {
    assert g != h ==> n.leases[g] == s.leases[g];
  }

  lemma PutKeepsInvariant(s: State, n: State, t: Thread, h: Handle)
    requires Invariant(s) && Puts(s, n, t, h)
    ensures Invariant(n)
  {
    forall g | 0 <= g < |s.leases|
      ensures LeaseOk(n, g) && Mild(s.leases[g], n.leases[g], t) && (Current(s, g) <==> Current(n, g))
    {
      assert LeaseOk(s, g);
      PutKeepsLease(s, n, t, h, g);
    }
    OrderedAfterPut(s.leases, h, n.leases[h]);
    Assemble(s, n, t);
  }

  lemma GotoKeepsInvariant(s: State, n: State, t: Thread)
    requires Invariant(s) && Goes(s, n, t)
    ensures Invariant(n)
  {
    forall g | 0 <= g < |s.leases|
      ensures LeaseOk(n, g) && (Current(s, g) <==> Current(n, g))
    {
      assert LeaseOk(s, g);
    }
    Assemble(s, n, t);
  }

  lemma GotoGoes(s: State, t: Thread, pc: Pc)
    requires ThreadOk(Goto(s, t, pc), t)
    ensures Goes(s, Goto(s, t, pc), t)
  {
  }

  lemma FinishGoes(s: State, t: Thread)
    ensures Goes(s, Finish(s, t), t)
  {
  }

  lemma GateStep(s: State, t: Thread, fails: bool)
    requires CanAdvance(s, t, fails) && ThreadOk(s, t) && (s.procs[t].Try? || s.procs[t].Wait?)
    ensures Goes(s, Advanced(s, t, fails), t)
  {
  }

  lemma EnsureStep(s: State, t: Thread, fails: bool)
    requires CanAdvance(s, t, fails) && ThreadOk(s, t) && (s.procs[t].EnsureReady? || s.procs[t].EnsureCurrent?)
    ensures Goes(s, Advanced(s, t, fails), t)
  {
  }

  lemma ContextStep(s: State, t: Thread, fails: bool)
    requires CanAdvance(s, t, fails) && ThreadOk(s, t) && (s.procs[t].CallerContext? || s.procs[t].StoreContext?)
    ensures Goes(s, Advanced(s, t, fails), t)
  {
  }

  predicate Branches(pc: Pc)
  {
    pc.Try? || pc.Wait? || pc.EnsureReady? || pc.EnsureCurrent? || pc.CallerContext? || pc.StoreContext?
  }

  /** Steps that read and branch. */
  lemma BranchStep(s: State, t: Thread, fails: bool)
    requires Invariant(s) && CanAdvance(s, t, fails) && Branches(s.procs[t])
    ensures Invariant(Advanced(s, t, fails))
  {
    var pc := s.procs[t];
    assert ThreadOk(s, t);
    if pc.Try? || pc.Wait? {
      GateStep(s, t, fails);
    } else if pc.EnsureReady? || pc.EnsureCurrent? {
      EnsureStep(s, t, fails);
    } else {
      ContextStep(s, t, fails);
    }
    GotoKeepsInvariant(s, Advanced(s, t, fails), t);
  }

  lemma PublishStep(s: State, t: Thread, fails: bool)
    requires CanAdvance(s, t, fails) && ThreadOk(s, t) && (s.procs[t].PublishLock? || s.procs[t].PublishSet?)
    requires LeaseOk(s, s.procs[t].h)
    ensures Puts(s, Advanced(s, t, fails), t, s.procs[t].h)
  {
  }

  lemma PublishEnd(s: State, t: Thread, fails: bool)
    requires CanAdvance(s, t, fails) && ThreadOk(s, t) && s.procs[t].PublishUnlock?
    requires LeaseOk(s, s.procs[t].h)
    ensures Puts(s, Advanced(s, t, fails), t, s.procs[t].h)
  {
  }

  lemma RetireLockStep(s: State, t: Thread, fails: bool)
    requires CanAdvance(s, t, fails) && ThreadOk(s, t) && s.procs[t].RetireLock?
    requires LeaseOk(s, s.procs[t].h)
    ensures Puts(s, Advanced(s, t, fails), t, s.procs[t].h)
  {
  }

  lemma RetireCancelStep(s: State, t: Thread, fails: bool)
    requires CanAdvance(s, t, fails) && ThreadOk(s, t) && s.procs[t].RetireCancel?
    requires LeaseOk(s, s.procs[t].h)
    ensures Puts(s, Advanced(s, t, fails), t, s.procs[t].h)
  {
    var h := s.procs[t].h;
    var r := Canceled(s.leases[h], s.procs[t].cause);
    assert Puts(s, Goto(Put(s, h, r), t, RetireUnlock(h, s.procs[t].back)), t, h);
  }

  lemma RetireEnd(s: State, t: Thread, fails: bool)
    requires CanAdvance(s, t, fails) && ThreadOk(s, t) && s.procs[t].RetireUnlock?
    requires LeaseOk(s, s.procs[t].h)
    ensures Puts(s, Advanced(s, t, fails), t, s.procs[t].h)
  {
  }

  lemma OpLockStep(s: State, t: Thread, fails: bool)
    requires CanAdvance(s, t, fails) && ThreadOk(s, t) && s.procs[t].OpLock?
    requires LeaseOk(s, s.procs[t].h)
    ensures Puts(s, Advanced(s, t, fails), t, s.procs[t].h)
  {
  }

  lemma CommitStep(s: State, t: Thread, fails: bool)
    requires CanAdvance(s, t, fails) && ThreadOk(s, t) && s.procs[t].Commit?
    requires LeaseOk(s, s.procs[t].h)
    ensures Puts(s, Advanced(s, t, fails), t, s.procs[t].h)
  {
  }

  lemma OpEnd(s: State, t: Thread, fails: bool)
    requires CanAdvance(s, t, fails) && ThreadOk(s, t) && s.procs[t].OpUnlock?
    requires LeaseOk(s, s.procs[t].h)
    ensures Puts(s, Advanced(s, t, fails), t, s.procs[t].h)
  {
  }

  lemma ReleaseLockStep(s: State, t: Thread, fails: bool)
    requires CanAdvance(s, t, fails) && ThreadOk(s, t) && s.procs[t].ReleaseLock?
    requires LeaseOk(s, s.procs[t].h)
    ensures Puts(s, Advanced(s, t, fails), t, s.procs[t].h)
  {
  }

  lemma ReleaseSetStep(s: State, t: Thread, fails: bool)
    requires CanAdvance(s, t, fails) && ThreadOk(s, t) && s.procs[t].ReleaseSet?
    requires LeaseOk(s, s.procs[t].h)
    ensures Puts(s, Advanced(s, t, fails), t, s.procs[t].h)
  {
    var h := s.procs[t].h;
    var r := Canceled(s.leases[h].(released := true), LeaseReleased);
    assert Puts(s, Goto(Put(s, h, r), t, ReleaseUnlock(h)), t, h);
  }

  lemma ReleaseUnlockStep(s: State, t: Thread, fails: bool)
    requires CanAdvance(s, t, fails) && ThreadOk(s, t) && s.procs[t].ReleaseUnlock?
    requires LeaseOk(s, s.procs[t].h)
    ensures Puts(s, Advanced(s, t, fails), t, s.procs[t].h)
  {
  }

  lemma ReleaseCloseStep(s: State, t: Thread, fails: bool)
    requires CanAdvance(s, t, fails) && ThreadOk(s, t) && s.procs[t].ReleaseClose?
    requires LeaseOk(s, s.procs[t].h)
    ensures Puts(s, Advanced(s, t, fails), t, s.procs[t].h)
  {
  }

  predicate Records(pc: Pc)
  {
    || pc.PublishLock? || pc.PublishSet? || pc.PublishUnlock? || pc.RetireLock? || pc.RetireCancel?
    || pc.RetireUnlock? || pc.OpLock? || pc.Commit? || pc.OpUnlock?
    || pc.ReleaseLock? || pc.ReleaseSet? || pc.ReleaseUnlock? || pc.ReleaseClose?
  }

  lemma RecordPuts(s: State, t: Thread, fails: bool)
    requires CanAdvance(s, t, fails) && Records(s.procs[t]) && ThreadOk(s, t) && LeaseOk(s, s.procs[t].h)
    ensures Puts(s, Advanced(s, t, fails), t, s.procs[t].h)
  {
    match s.procs[t] {
      case PublishLock(_, _, _) => PublishStep(s, t, fails);
      case PublishSet(_, _, _) => PublishStep(s, t, fails);
      case PublishUnlock(_) => PublishEnd(s, t, fails);
      case RetireLock(_, _, _) => RetireLockStep(s, t, fails);
      case RetireCancel(_, _, _) => RetireCancelStep(s, t, fails);
      case RetireUnlock(_, _) => RetireEnd(s, t, fails);
      case OpLock(_, _) => OpLockStep(s, t, fails);
      case Commit(_, _) => CommitStep(s, t, fails);
      case OpUnlock(_) => OpEnd(s, t, fails);
      case ReleaseLock(_) => ReleaseLockStep(s, t, fails);
      case ReleaseSet(_) => ReleaseSetStep(s, t, fails);
      case ReleaseUnlock(_) => ReleaseUnlockStep(s, t, fails);
      case ReleaseClose(_) => ReleaseCloseStep(s, t, fails);
    }
  }

  /** Steps that write one lease record. */
  lemma RecordStep(s: State, t: Thread, fails: bool)
    requires Invariant(s) && CanAdvance(s, t, fails) && Records(s.procs[t])
    ensures Invariant(Advanced(s, t, fails))
  {
    assert ThreadOk(s, t) && LeaseOk(s, s.procs[t].h);
    RecordPuts(s, t, fails);
    PutKeepsInvariant(s, Advanced(s, t, fails), t, s.procs[t].h);
  }

  lemma AbandonStep(s: State, t: Thread, h: Handle)
    requires Invariant(s) && h < |s.leases| && t in s.procs && Fresh(s, t, h)
    ensures Invariant(Abandon(s, t, h))
  {
    assert LeaseOk(s, h);
    var n := Abandon(s, t, h);
    PutKeepsInvariant(s, n, t, h);
  }

  lemma CheckStep(s: State, t: Thread, fails: bool)
    requires Invariant(s) && CanAdvance(s, t, fails) && s.procs[t].Check?
    ensures Invariant(Advanced(s, t, fails))
  {
    assert ThreadOk(s, t);
    if s.leases[s.procs[t].h].cause.Some? {
      AbandonStep(s, t, s.procs[t].h);
    } else {
      GotoKeepsInvariant(s, Advanced(s, t, fails), t);
    }
  }

  /** The entry of an unreleased lease has no other user. */
  lemma OnlyUser(s: State, h: Handle, g: Handle)
    requires Invariant(s) && h < |s.leases| && g < |s.leases| && g != h
    requires !s.leases[h].released && s.leases[g].key == s.leases[h].key
    ensures s.leases[g].released
  {
    assert LeaseOk(s, h) && LeaseOk(s, g);
  }

  /** A store write by the unreleased lease h of thread t, whose own state allows no other user. */
  lemma StoreKeepsInvariant(s: State, n: State, t: Thread, h: Handle, e: Event)
    requires Invariant(s) && h < |s.leases| && !s.leases[h].released
    requires e.key == s.leases[h].key && e.generation == s.leases[h].generation && !e.Installed? && Fits(s.store, e)
    requires n == s.(store := Applied(s.store, e), log := s.log + [e], procs := n.procs)
    requires forall u :: u != t && u in n.procs ==> u in s.procs && n.procs[u] == s.procs[u]
    requires !InUse(s.leases[h], t) && (s.leases[h].opMu.Some? || !s.leases[h].ready)
    requires t in n.procs ==> ThreadOk(n, t)
    ensures Invariant(n)
  {
    assert LeaseOk(s, h);
    AppendKeepsLog(s, e, n);
    forall g | 0 <= g < |s.leases|
      ensures LeaseOk(n, g) && (Current(s, g) <==> Current(n, g))
      ensures InUse(s.leases[g], t) ==> SameEntry(s.store, n.store, s.leases[g].key)
    {
      assert LeaseOk(s, g);
      if g != h && s.leases[g].key == e.key {
        OnlyUser(s, h, g);
      }
    }
    Assemble(s, n, t);
  }

  lemma LoadStep(s: State, t: Thread, fails: bool)
    requires Invariant(s) && CanAdvance(s, t, fails) && s.procs[t].Load?
    ensures Invariant(Advanced(s, t, fails))
  {
    assert ThreadOk(s, t);
    var h, n := s.procs[t].h, Advanced(s, t, fails);
    var r := s.leases[h];
    assert LeaseOk(s, h);
    if fails {
      AbandonStep(s, t, h);
    } else if r.key in s.store {
      GotoKeepsInvariant(s, n, t);
    } else {
      var e := Create(r.key, r.generation, s.procs[t].initial);
      assert n.log[|s.log|] == e;
      StoreKeepsInvariant(s, n, t, h, e);
    }
  }

  lemma WriteStep(s: State, t: Thread, fails: bool)
    requires Invariant(s) && CanAdvance(s, t, fails) && s.procs[t].StoreWrite?
    ensures Invariant(Advanced(s, t, fails))
  {
    assert ThreadOk(s, t);
    var h, op, n := s.procs[t].h, s.procs[t].op, Advanced(s, t, fails);
    var r := s.leases[h];
    match op
    case Save(next) => StoreKeepsInvariant(s, n, t, h, Saved(r.key, r.generation, next));
    case Delete => StoreKeepsInvariant(s, n, t, h, Deleted(r.key, r.generation));
    case Read => GotoKeepsInvariant(s, n, t);
  }

  lemma DropRely(s: State, n: State, t: Thread, h: Handle)
    requires h < |s.leases| && n == Goto(s.(table := s.table - {s.leases[h].key}), t, ReleaseClose(h))
    ensures Rely(s, n, t)
  {
  }

  lemma DropKeepsInvariant(s: State, n: State, t: Thread, h: Handle)
    requires Invariant(s) && h < |s.leases| && Current(s, h)
    requires s.leases[h].released && s.leases[h].once == Running(t)
    requires n == Goto(s.(table := s.table - {s.leases[h].key}), t, ReleaseClose(h))
    ensures Invariant(n)
  {
    forall g | 0 <= g < |s.leases|
      ensures LeaseOk(n, g)
    {
      assert LeaseOk(s, g);
      assert s.leases[g].key == s.leases[h].key && g != h ==> !Current(s, g);
    }
    DropRely(s, n, t, h);
    Assemble(s, n, t);
  }

  lemma DropStep(s: State, t: Thread, fails: bool)
    requires Invariant(s) && CanAdvance(s, t, fails) && s.procs[t].ReleaseDrop?
    ensures Invariant(Advanced(s, t, fails))
  {
    assert ThreadOk(s, t);
    var h, n := s.procs[t].h, Advanced(s, t, fails);
    if Current(s, h) {
      DropKeepsInvariant(s, n, t, h);
    } else {
      GotoGoes(s, t, ReleaseClose(h));
      GotoKeepsInvariant(s, n, t);
    }
  }

  lemma InstalledOrdered(s: State, t: Thread, k: Key, initial: Snapshot, g: Int64)
    requires Invariant(s) && Generation(s, k) < g
    ensures Ordered(Installation(s, t, k, initial, g).leases)
  {
    forall h | 0 <= h < |s.leases| && s.leases[h].key == k
      ensures s.leases[h].generation < g
    {
      assert LeaseOk(s, h);
    }
  }

  lemma InstalledLeases(s: State, t: Thread, k: Key, initial: Snapshot, g: Int64, h: Handle)
    requires Invariant(s) && k !in s.table && Generation(s, k) < g && h < |s.leases|
    requires forall a, b :: Made(s.log, a, b) ==> Made(s.log + [Installed(k, g)], a, b)
    ensures var n := Installation(s, t, k, initial, g);
            LeaseOk(n, h)
  {
    assert LeaseOk(s, h);
  }

  lemma InstalledRely(s: State, t: Thread, k: Key, initial: Snapshot, g: Int64)
    requires k !in s.table
    requires forall a, b :: Made(s.log, a, b) ==> Made(s.log + [Installed(k, g)], a, b)
    ensures Rely(s, Installation(s, t, k, initial, g), t)
  {
  }

  lemma InstallKeepsInvariant(s: State, t: Thread, k: Key, initial: Snapshot, g: Int64)
    requires Invariant(s) && k !in s.table && Generation(s, k) < g && initial.key == k
    ensures Invariant(Installation(s, t, k, initial, g))
  {
    var n := Installation(s, t, k, initial, g);
    AppendKeepsLog(s, Installed(k, g), n);
    InstalledOrdered(s, t, k, initial, g);
    forall h | 0 <= h < |s.leases|
      ensures LeaseOk(n, h)
    {
      InstalledLeases(s, t, k, initial, g, h);
    }
    InstalledRely(s, t, k, initial, g);
    Assemble(s, n, t);
  }

  lemma BlockedGoes(s: State, t: Thread, k: Key, initial: Snapshot)
    requires TableOk(s) && initial.key == k
    ensures k in s.table || NextGeneration(s, k) <= Generation(s, k) ==> Goes(s, Install(s, t, k, initial), t)
  {
    if k in s.table {
      GotoGoes(s, t, RetireLock(s.table[k], LeaseLost, ToWait(k, initial)));
    } else {
      FinishGoes(s, t);
    }
  }

  lemma InstallCase(s: State, t: Thread, k: Key, initial: Snapshot)
    requires Invariant(s) && initial.key == k
    ensures Invariant(Install(s, t, k, initial))
  {
    var g := NextGeneration(s, k);
    if k in s.table || g <= Generation(s, k) {
      BlockedGoes(s, t, k, initial);
      GotoKeepsInvariant(s, Install(s, t, k, initial), t);
    } else {
      InstallKeepsInvariant(s, t, k, initial, g);
    }
  }

  lemma InstallStep(s: State, t: Thread, fails: bool)
    requires Invariant(s) && CanAdvance(s, t, fails) && s.procs[t].Lookup?
    ensures Invariant(Advanced(s, t, fails))
  {
    assert ThreadOk(s, t);
    InstallCase(s, t, s.procs[t].key, s.procs[t].initial);
  }

  lemma AdvanceKeepsInvariant(s: State, t: Thread, fails: bool)
    requires Invariant(s) && CanAdvance(s, t, fails)
    ensures Invariant(Advanced(s, t, fails))
  {
    var pc := s.procs[t];
    if Branches(pc) {
      BranchStep(s, t, fails);
    } else if Records(pc) {
      RecordStep(s, t, fails);
    } else {
      match pc {
        case Lookup(_, _) => InstallStep(s, t, fails);
        case Load(_, _) => LoadStep(s, t, fails);
        case Check(_, _, _) => CheckStep(s, t, fails);
        case StoreWrite(_, _) => WriteStep(s, t, fails);
        case ReleaseDrop(_) => DropStep(s, t, fails);
      }
    }
  }

  lemma CallGoes(s: State, t: Thread, m: Move)
    requires CanMove(s, t, m) && (m.CallAcquire? || m.CallOp? || m.CallRetire?)
    ensures Goes(s, Moved(s, t, m), t)
  {
    match m {
      case CallAcquire(k, i) => if i.key == k { GotoGoes(s, t, Try(k, i)); }
      case CallOp(h, op) => if !op.Save? || op.next.key == s.leases[h].key { GotoGoes(s, t, OpLock(h, op)); }
      case CallRetire(h, c) => GotoGoes(s, t, RetireLock(h, c, ToCaller));
    }
  }

  lemma CallStep(s: State, t: Thread, m: Move)
    requires Invariant(s) && CanMove(s, t, m) && (m.CallAcquire? || m.CallOp? || m.CallRetire?)
    ensures Invariant(Moved(s, t, m))
  {
    CallGoes(s, t, m);
    GotoKeepsInvariant(s, Moved(s, t, m), t);
  }

  lemma ReleasePuts(s: State, t: Thread, h: Handle)
    requires CanMove(s, t, CallRelease(h)) && LeaseOk(s, h) && !s.leases[h].once.Closed?
    ensures Puts(s, Moved(s, t, CallRelease(h)), t, h)
  {
  }

  lemma ReleaseCall(s: State, t: Thread, h: Handle)
    requires Invariant(s) && CanMove(s, t, CallRelease(h))
    ensures Invariant(Moved(s, t, CallRelease(h)))
  {
    if !s.leases[h].once.Closed? {
      ReleasePuts(s, t, h);
      PutKeepsInvariant(s, Moved(s, t, CallRelease(h)), t, h);
    }
  }

  lemma CauseIrrelevant(s: State, n: State, t: Thread, h: Handle)
    requires h < |s.leases| && n == Put(s, h, Canceled(s.leases[h], ParentCanceled))
    requires t in s.procs && ThreadOk(s, t)
    ensures ThreadOk(n, t)
  {
    var pc := s.procs[t];
    if !pc.Try? && !pc.Lookup? {
      assert pc.h != h ==> n.leases[pc.h] == s.leases[pc.h];
    }
  }

  lemma CancelPuts(s: State, t: Thread, h: Handle)
    requires h < |s.leases| && LeaseOk(s, h) && (t in s.procs ==> ThreadOk(s, t))
    ensures Puts(s, Moved(s, t, CancelParent(h)), t, h)
  {
    if t in s.procs {
      CauseIrrelevant(s, Moved(s, t, CancelParent(h)), t, h);
    }
  }

  lemma CancelStep(s: State, t: Thread, h: Handle)
    requires Invariant(s) && h < |s.leases|
    ensures Invariant(Moved(s, t, CancelParent(h)))
  {
    assert LeaseOk(s, h) && (t in s.procs ==> ThreadOk(s, t));
    CancelPuts(s, t, h);
    PutKeepsInvariant(s, Moved(s, t, CancelParent(h)), t, h);
  }

  lemma MoveKeepsInvariant(s: State, t: Thread, m: Move)
    requires Invariant(s) && CanMove(s, t, m)
    ensures Invariant(Moved(s, t, m))
  {
    match m {
      case Advance(fails) => AdvanceKeepsInvariant(s, t, fails);
      case CallRelease(h) => ReleaseCall(s, t, h);
      case CancelParent(h) => CancelStep(s, t, h);
      case _ => CallStep(s, t, m);
    }
  }

  // ---- What holds in every reachable state --------------------------------------------------

  lemma {:induction false} ReachableInvariant(moves: seq<(Thread, Move)>, s: State)
    requires Reaches(moves, s)
    ensures Invariant(s)
    decreases |moves|
  {
    if moves != [] {
      var (t, m) := moves[|moves| - 1];
      var before :| Reaches(moves[..|moves| - 1], before) && CanMove(before, t, m) && s == Moved(before, t, m);
      ReachableInvariant(moves[..|moves| - 1], before);
      MoveKeepsInvariant(before, t, m);
    }
  }

  /** A thread whose next step writes the store on behalf of lease h. */
  predicate AboutToWrite(s: State, t: Thread, h: Handle)
  {
    t in s.procs && (s.procs[t].Load? || s.procs[t].StoreWrite?) && s.procs[t].h == h
  }

  /** Fencing: whoever writes next is the lease the table names, with the newest generation; in the
      history of a key no generation below an installed one ever writes again, and every
      installation raises the generation. */
  lemma Fencing(moves: seq<(Thread, Move)>, s: State, t: Thread, h: Handle)
    requires Reaches(moves, s)
    ensures AboutToWrite(s, t, h) ==>
              h < |s.leases| && Current(s, h) && s.leases[h].generation == Generation(s, s.leases[h].key)
    ensures Fenced(s.log)
  {
    ReachableInvariant(moves, s);
    if AboutToWrite(s, t, h) {
      assert ThreadOk(s, t) && LeaseOk(s, h);
    }
  }

  /** A usable lease at rest is the table's, and caches what is stored; a lease whose Done channel
      is closed has left the table. */
  lemma CacheAgrees(moves: seq<(Thread, Move)>, s: State, h: Handle)
    requires Reaches(moves, s) && h < |s.leases|
    ensures var r := s.leases[h];
            r.opMu.None? && r.ready && !r.released ==>
              Current(s, h) && r.key in s.store && s.store[r.key] == r.snapshot
    ensures s.leases[h].once.Closed? ==> !Current(s, h)
  {
    ReachableInvariant(moves, s);
    assert LeaseOk(s, h);
  }

  /** The test behind ErrLeaseLost never fails. */
  lemma LeaseLostUnreachable(moves: seq<(Thread, Move)>, s: State, t: Thread)
    requires Reaches(moves, s) && t in s.procs && s.procs[t].EnsureCurrent?
    ensures s.procs[t].h < |s.leases| && Current(s, s.procs[t].h)
  {
    ReachableInvariant(moves, s);
    assert ThreadOk(s, t) && LeaseOk(s, s.procs[t].h);
  }

  /** Past the test of its lease, and not yet out of the critical section that writes. */
  predicate InWriteSection(pc: Pc, h: Handle)
  {
    (pc.EnsureCurrent? || pc.CallerContext? || pc.StoreContext? || pc.StoreWrite? || pc.Commit?) && pc.h == h
  }

  /** Canceled, with no save or deletion under way. */
  predicate Retired(s: State, h: Handle)
  {
    && h < |s.leases| && s.leases[h].cause.Some?
    && forall t :: t in s.procs ==> !InWriteSection(s.procs[t], h)
  }

  /** When a Retire is about to let go of the mutex its lease is retired: no save or deletion of it is
      under way. */
  lemma RetireRetires(moves: seq<(Thread, Move)>, s: State, t: Thread)
    requires Reaches(moves, s) && t in s.procs && s.procs[t].RetireUnlock?
    ensures Retired(s, s.procs[t].h)
  {
    ReachableInvariant(moves, s);
    assert ThreadOk(s, t);
    forall u | u in s.procs
      ensures !InWriteSection(s.procs[u], s.procs[t].h)
    {
      assert ThreadOk(s, u);
    }
  }

  /** A step of t beside the canceled lease h: other calls stay where they are, the cancellation
      stays, and t does not get into a write section of h. */
  predicate Tame(s: State, n: State, t: Thread, h: Handle)
  {
    && h < |n.leases| && n.leases[h].cause.Some?
    && (forall u :: u in n.procs && u != t ==> u in s.procs && n.procs[u] == s.procs[u])
    && (t in n.procs ==> !InWriteSection(n.procs[t], h))
  }

  lemma AcquireTame(s: State, t: Thread, fails: bool, h: Handle)
    requires CanAdvance(s, t, fails) && h < |s.leases| && s.leases[h].cause.Some?
    requires !InWriteSection(s.procs[t], h)
    requires s.procs[t].Try? || s.procs[t].Lookup? || s.procs[t].Wait? || s.procs[t].Load? || s.procs[t].Check?
    ensures Tame(s, Advanced(s, t, fails), t, h)
  {
  }

  lemma PublishTame(s: State, t: Thread, fails: bool, h: Handle)
    requires CanAdvance(s, t, fails) && h < |s.leases| && s.leases[h].cause.Some?
    requires !InWriteSection(s.procs[t], h)
    requires s.procs[t].PublishLock? || s.procs[t].PublishSet? || s.procs[t].PublishUnlock?
    ensures Tame(s, Advanced(s, t, fails), t, h)
  {
  }

  lemma RetireTame(s: State, t: Thread, fails: bool, h: Handle)
    requires CanAdvance(s, t, fails) && h < |s.leases| && s.leases[h].cause.Some?
    requires !InWriteSection(s.procs[t], h)
    requires s.procs[t].RetireLock? || s.procs[t].RetireCancel? || s.procs[t].RetireUnlock?
    ensures Tame(s, Advanced(s, t, fails), t, h)
  {
  }

  lemma TestTame(s: State, t: Thread, fails: bool, h: Handle)
    requires CanAdvance(s, t, fails) && h < |s.leases| && s.leases[h].cause.Some?
    requires !InWriteSection(s.procs[t], h)
    requires s.procs[t].OpLock? || s.procs[t].EnsureReady? || s.procs[t].EnsureCurrent? ||
             s.procs[t].CallerContext? || s.procs[t].StoreContext?
    ensures Tame(s, Advanced(s, t, fails), t, h)
  {
  }

  lemma WriteTame(s: State, t: Thread, fails: bool, h: Handle)
    requires CanAdvance(s, t, fails) && h < |s.leases| && s.leases[h].cause.Some?
    requires !InWriteSection(s.procs[t], h)
    requires s.procs[t].StoreWrite? || s.procs[t].Commit? || s.procs[t].OpUnlock?
    ensures Tame(s, Advanced(s, t, fails), t, h)
  {
  }

  lemma ReleaseTame(s: State, t: Thread, fails: bool, h: Handle)
    requires CanAdvance(s, t, fails) && h < |s.leases| && s.leases[h].cause.Some?
    requires !InWriteSection(s.procs[t], h)
    requires s.procs[t].ReleaseLock? || s.procs[t].ReleaseSet? || s.procs[t].ReleaseUnlock? ||
             s.procs[t].ReleaseDrop? || s.procs[t].ReleaseClose?
    ensures Tame(s, Advanced(s, t, fails), t, h)
  {
  }

  lemma CallTame(s: State, t: Thread, m: Move, h: Handle)
    requires CanMove(s, t, m) && h < |s.leases| && s.leases[h].cause.Some? && !m.Advance?
    requires t in s.procs ==> !InWriteSection(s.procs[t], h)
    ensures Tame(s, Moved(s, t, m), t, h)
  {
  }

  /** A retired lease stays retired: no later save or deletion gets past its test. */
  lemma RetiredForGood(s: State, t: Thread, m: Move, h: Handle)
    requires Retired(s, h) && CanMove(s, t, m)
    ensures Retired(Moved(s, t, m), h)
  {
    if !m.Advance? {
      CallTame(s, t, m, h);
    } else {
      var pc, fails := s.procs[t], m.fails;
      if pc.Try? || pc.Lookup? || pc.Wait? || pc.Load? || pc.Check? {
        AcquireTame(s, t, fails, h);
      } else if pc.PublishLock? || pc.PublishSet? || pc.PublishUnlock? {
        PublishTame(s, t, fails, h);
      } else if pc.RetireLock? || pc.RetireCancel? || pc.RetireUnlock? {
        RetireTame(s, t, fails, h);
      } else if pc.StoreWrite? || pc.Commit? || pc.OpUnlock? {
        WriteTame(s, t, fails, h);
      } else if pc.OpLock? || pc.EnsureReady? || pc.EnsureCurrent? || pc.CallerContext? || pc.StoreContext? {
        TestTame(s, t, fails, h);
      } else {
        ReleaseTame(s, t, fails, h);
      }
    }
  }

  /** Any further moves from a state already reached. */
  ghost predicate Continues(s: State, more: seq<(Thread, Move)>, n: State)
    decreases |more|
  {
    if more == [] then n == s
    else
      var (t, m) := more[|more| - 1];
      exists before :: Continues(s, more[..|more| - 1], before) && CanMove(before, t, m) && n == Moved(before, t, m)
  }

  predicate Own(e: Event, r: Record)
  {
    e.key == r.key && e.generation == r.generation
  }

  /** The history past a moment in which lease h was retired: no installation, save or deletion of h,
      and a creation only if its own Acquire was still running then. */
  predicate Silent(log: seq<Event>, from: nat, r: Record)
  {
    forall i :: from <= i < |log| && Own(log[i], r) ==> log[i].Create? && r.stage.Acquiring?
  }

  /** What a step may add to the history. */
  predicate Adds(s: State, n: State, h: Handle)
    requires h < |s.leases|
  {
    && h < |n.leases| && n.leases[h].key == s.leases[h].key && n.leases[h].generation == s.leases[h].generation
    && (n.leases[h].stage.Acquiring? ==> s.leases[h].stage.Acquiring?)
    && (n.log == s.log || (|n.log| == |s.log| + 1 && n.log[..|s.log|] == s.log &&
                           (Own(n.log[|s.log|], s.leases[h]) ==>
                              n.log[|s.log|].Create? && s.leases[h].stage.Acquiring?)))
  }

  lemma SameLease(s: State, g: Handle, h: Handle)
    requires Ordered(s.leases) && g < |s.leases| && h < |s.leases|
    requires s.leases[g].key == s.leases[h].key && s.leases[g].generation == s.leases[h].generation
    ensures g == h
  {
  }

  lemma LoadAdds(s: State, t: Thread, fails: bool, h: Handle)
    requires Invariant(s) && h < |s.leases| && CanAdvance(s, t, fails) && s.procs[t].Load?
    ensures Adds(s, Advanced(s, t, fails), h)
  {
    var g := s.procs[t].h;
    assert ThreadOk(s, t);
    if Own(Create(s.leases[g].key, s.leases[g].generation, s.procs[t].initial), s.leases[h]) {
      SameLease(s, g, h);
    }
  }

  lemma WriteAdds(s: State, t: Thread, fails: bool, h: Handle)
    requires Invariant(s) && Retired(s, h) && CanAdvance(s, t, fails) && s.procs[t].StoreWrite?
    ensures Adds(s, Advanced(s, t, fails), h)
  {
    var g := s.procs[t].h;
    assert !InWriteSection(s.procs[t], h);
    if s.leases[g].key == s.leases[h].key && s.leases[g].generation == s.leases[h].generation {
      SameLease(s, g, h);
    }
  }

  lemma InstallAdds(s: State, t: Thread, fails: bool, h: Handle)
    requires Invariant(s) && h < |s.leases| && CanAdvance(s, t, fails) && s.procs[t].Lookup?
    ensures Adds(s, Advanced(s, t, fails), h)
  {
    assert LeaseOk(s, h);
  }

  /** The steps that write no history. */
  lemma AcquireAdds(s: State, t: Thread, fails: bool, h: Handle)
    requires h < |s.leases| && CanAdvance(s, t, fails)
    requires s.procs[t].Try? || s.procs[t].Wait? || s.procs[t].Check? || s.procs[t].PublishLock? ||
             s.procs[t].PublishSet? || s.procs[t].PublishUnlock? || s.procs[t].RetireLock? ||
             s.procs[t].RetireCancel? || s.procs[t].RetireUnlock?
    ensures Adds(s, Advanced(s, t, fails), h)
  {
  }

  lemma OpAdds(s: State, t: Thread, fails: bool, h: Handle)
    requires h < |s.leases| && CanAdvance(s, t, fails)
    requires s.procs[t].OpLock? || s.procs[t].EnsureReady? || s.procs[t].EnsureCurrent? || s.procs[t].CallerContext? ||
             s.procs[t].StoreContext? || s.procs[t].Commit? || s.procs[t].OpUnlock?
    ensures Adds(s, Advanced(s, t, fails), h)
  {
  }

  lemma ReleaseAdds(s: State, t: Thread, fails: bool, h: Handle)
    requires h < |s.leases| && CanAdvance(s, t, fails)
    requires s.procs[t].ReleaseLock? || s.procs[t].ReleaseSet? || s.procs[t].ReleaseUnlock? ||
             s.procs[t].ReleaseDrop? || s.procs[t].ReleaseClose?
    ensures Adds(s, Advanced(s, t, fails), h)
  {
  }

  lemma CallAdds(s: State, t: Thread, m: Move, h: Handle)
    requires h < |s.leases| && CanMove(s, t, m) && !m.Advance?
    ensures Adds(s, Moved(s, t, m), h)
  {
  }

  lemma MoveAdds(s: State, t: Thread, m: Move, h: Handle)
    requires Invariant(s) && Retired(s, h) && CanMove(s, t, m)
    ensures Adds(s, Moved(s, t, m), h)
  {
    if !m.Advance? {
      CallAdds(s, t, m, h);
    } else {
      var pc, fails := s.procs[t], m.fails;
      if pc.Load? {
        LoadAdds(s, t, fails, h);
      } else if pc.StoreWrite? {
        WriteAdds(s, t, fails, h);
      } else if pc.Lookup? {
        InstallAdds(s, t, fails, h);
      } else if pc.OpLock? || pc.EnsureReady? || pc.EnsureCurrent? || pc.CallerContext? || pc.StoreContext? ||
                pc.Commit? || pc.OpUnlock? {
        OpAdds(s, t, fails, h);
      } else if pc.ReleaseLock? || pc.ReleaseSet? || pc.ReleaseUnlock? || pc.ReleaseDrop? || pc.ReleaseClose? {
        ReleaseAdds(s, t, fails, h);
      } else {
        AcquireAdds(s, t, fails, h);
      }
    }
  }

  /** Retirement over whole runs: from a reachable state in which h is retired, no further moves, by
      whomever, ever add a save or a deletion of h to the history; the only write left to it is the
      creation by its own Acquire, and only if that call had not returned. */
  lemma {:induction false} RetiredStaysSilent(moves: seq<(Thread, Move)>, s: State, more: seq<(Thread, Move)>, n: State,
                                              h: Handle)
    requires Reaches(moves, s) && Retired(s, h) && Continues(s, more, n)
    ensures Invariant(n) && Retired(n, h) && s.log <= n.log && Silent(n.log, |s.log|, s.leases[h])
    ensures n.leases[h].key == s.leases[h].key && n.leases[h].generation == s.leases[h].generation
    ensures n.leases[h].stage.Acquiring? ==> s.leases[h].stage.Acquiring?
    decreases |more|
  {
    if more == [] {
      ReachableInvariant(moves, s);
    } else {
      var (t, m) := more[|more| - 1];
      var before :| Continues(s, more[..|more| - 1], before) && CanMove(before, t, m) && n == Moved(before, t, m);
      RetiredStaysSilent(moves, s, more[..|more| - 1], before, h);
      MoveKeepsInvariant(before, t, m);
      RetiredForGood(before, t, m, h);
      MoveAdds(before, t, m, h);
      SilentNext(before.log, n.log, |s.log|, before.leases[h], s.leases[h]);
    }
  }

  lemma SilentNext(before: seq<Event>, after: seq<Event>, from: nat, now: Record, was: Record)
    requires Silent(before, from, was) && from <= |before|
    requires now.key == was.key && now.generation == was.generation && (now.stage.Acquiring? ==> was.stage.Acquiring?)
    requires after == before || (|after| == |before| + 1 && after[..|before|] == before &&
                                 (Own(after[|before|], now) ==> after[|before|].Create? && now.stage.Acquiring?))
    ensures Silent(after, from, was) && before <= after
  {
    forall i | from <= i < |after| && Own(after[i], was)
      ensures after[i].Create? && was.stage.Acquiring?
    {
      if i < |before| {
        assert after[i] == after[..|before|][i] == before[i];
      }
    }
  }

  lemma {:induction false} LawfulAt(log: seq<Event>, i: nat)
    requires Lawful(log) && i < |log|
    ensures Fits(Replay(log[..i]), log[i])
    ensures Replay(log[..i + 1]) == Applied(Replay(log[..i]), log[i])
    decreases |log|
  {
    assert log[..i + 1][..i] == log[..i];
    if i < |log| - 1 {
      LawfulAt(log[..|log| - 1], i);
      assert log[..|log| - 1][..i] == log[..i];
      assert log[..|log| - 1][..i + 1] == log[..i + 1];
    } else {
      assert log[..i + 1] == log;
    }
  }

  /** The store is what its history of writes makes it: a save or a deletion always finds the entry,
      so a save never brings a deleted session back. */
  lemma WritesFindTheirEntry(moves: seq<(Thread, Move)>, s: State, i: nat)
    requires Reaches(moves, s) && i < |s.log|
    ensures s.store == Replay(s.log)
    ensures s.log[i].Saved? || s.log[i].Deleted? ==> s.log[i].key in Replay(s.log[..i])
    ensures s.log[i].Create? ==> s.log[i].key !in Replay(s.log[..i])
  {
    ReachableInvariant(moves, s);
    LawfulAt(s.log, i);
  }

  predicate DeletedBetween(log: seq<Event>, k: Key, i: nat, j: nat)
    requires j <= |log|
  {
    exists m :: i < m < j && log[m].Deleted? && log[m].key == k
  }

  lemma {:induction false} EntryLasts(log: seq<Event>, i: nat, j: nat)
    requires Lawful(log) && i < j <= |log| && log[i].Create?
    ensures log[i].key in Replay(log[..j]) || DeletedBetween(log, log[i].key, i, j)
    decreases j
  {
    LawfulAt(log, j - 1);
    if i < j - 1 {
      EntryLasts(log, i, j - 1);
    }
  }

  /** After its retirement a lease creates its entry at most once. */
  lemma RetiredCreatesOnce(moves: seq<(Thread, Move)>, s: State, more: seq<(Thread, Move)>, n: State, h: Handle, i: nat,
                           j: nat)
    requires Reaches(moves, s) && Retired(s, h) && Continues(s, more, n) && |s.log| <= i < j < |n.log|
    ensures !(Own(n.log[i], s.leases[h]) && Own(n.log[j], s.leases[h]))
  {
    RetiredStaysSilent(moves, s, more, n, h);
    var r := s.leases[h];
    if Own(n.log[i], r) && Own(n.log[j], r) {
      LawfulAt(n.log, j);
      EntryLasts(n.log, i, j);
    }
  }

  lemma ReachesNext(moves: seq<(Thread, Move)>, s: State, t: Thread, m: Move)
    requires Reaches(moves, s) && CanMove(s, t, m)
    ensures Reaches(moves + [(t, m)], Moved(s, t, m))
  {
    var all := moves + [(t, m)];
    assert all[..|all| - 1] == moves && all[|all| - 1] == (t, m);
    assert Reaches(all[..|all| - 1], s) && CanMove(s, t, m);
  }

  lemma TryAdvances(s: State, t: Thread, k: Key, i: Snapshot)
    ensures var n := Goto(s, t, Try(k, i)); CanAdvance(n, t, false) && Advanced(n, t, false) == Goto(s, t, Lookup(k, i))
  {
    assert s.procs[t := Try(k, i)][t := Lookup(k, i)] == s.procs[t := Lookup(k, i)];
  }

  /** An Acquire called and past its first context check. */
  lemma Arrives(t: Thread, k: Key, i: Snapshot, moves: seq<(Thread, Move)>, s: State)
    returns (more: seq<(Thread, Move)>, n: State)
    requires i.key == k && Reaches(moves, s) && t !in s.procs
    ensures Reaches(more, n) && n == Goto(s, t, Lookup(k, i))
  {
    more, n := Extended(moves, s, t, CallAcquire(k, i));
    TryAdvances(s, t, k, i);
    more, n := Extended(more, n, t, Advance(false));
  }

  lemma FirstLoads(k: Key, i: Snapshot) returns (moves: seq<(Thread, Move)>, s: State)
    requires i.key == k
    ensures Reaches(moves, s) && s.procs == map[1 := Load(0, i)] && s.table == map[k := 0] && s.store == map[]
    ensures |s.leases| == 1 && s.leases[0].key == k && s.leases[0].opMu.None?
  {
    moves, s := Arrives(1, k, i, [], Start);
    moves, s := Extended(moves, s, 1, Advance(false));
  }

  lemma SecondArrives(k: Key, i: Snapshot, moves: seq<(Thread, Move)>, s: State)
    returns (more: seq<(Thread, Move)>, n: State)
    requires i.key == k && Reaches(moves, s) && 2 !in s.procs && k in s.table
    ensures Reaches(more, n) && n == Goto(s, 2, RetireLock(s.table[k], LeaseLost, ToWait(k, i)))
  {
    more, n := Arrives(2, k, i, moves, s);
    more, n := Extended(more, n, 2, Advance(false));
    assert n.procs == s.procs[2 := RetireLock(s.table[k], LeaseLost, ToWait(k, i))];
  }

  lemma SecondRetires(k: Key, i: Snapshot, moves: seq<(Thread, Move)>, s: State)
    returns (more: seq<(Thread, Move)>, n: State)
    requires Reaches(moves, s) && 2 in s.procs && s.procs[2] == RetireLock(0, LeaseLost, ToWait(k, i))
    requires |s.leases| == 1 && s.leases[0].opMu.None?
    ensures Reaches(more, n) && n.procs == s.procs[2 := RetireUnlock(0, ToWait(k, i))]
    ensures n.store == s.store && |n.leases| == 1 && n.leases[0].cause.Some? && n.leases[0].key == s.leases[0].key
  {
    more, n := Extended(moves, s, 2, Advance(false));
    assert n.procs[2] == RetireCancel(0, LeaseLost, ToWait(k, i));
    more, n := Extended(more, n, 2, Advance(false));
  }

  /** That creation does happen: call 1 has installed its lease and is about to load, call 2 has
      retired the lease, and the next step of call 1 creates the entry. */
  lemma RetiredMayCreate(k: Key, i: Snapshot) returns (moves: seq<(Thread, Move)>, s: State)
    requires i.key == k
    ensures Reaches(moves, s) && Retired(s, 0) && CanMove(s, 1, Advance(false))
    ensures Moved(s, 1, Advance(false)).log == s.log + [Create(k, s.leases[0].generation, i)]
  {
    moves, s := FirstLoads(k, i);
    moves, s := SecondArrives(k, i, moves, s);
    moves, s := SecondRetires(k, i, moves, s);
  }

  lemma Extended(moves: seq<(Thread, Move)>, s: State, t: Thread, m: Move)
    returns (more: seq<(Thread, Move)>, n: State)
    requires Reaches(moves, s) && CanMove(s, t, m)
    ensures Reaches(more, n) && n == Moved(s, t, m)
  {
    ReachesNext(moves, s, t, m);
    more, n := moves + [(t, m)], Moved(s, t, m);
  }

  /** Between two deletions of an entry at most one lease reports Created. */
  lemma CreatedOnce(moves: seq<(Thread, Move)>, s: State, g: Handle, h: Handle) returns (i: nat, j: nat)
    requires Reaches(moves, s) && g < h < |s.leases|
    requires s.leases[g].key == s.leases[h].key && s.leases[g].created && s.leases[h].created
    ensures i < j < |s.log| && s.log[i].Create? && s.log[j].Create?
    ensures s.log[i].key == s.leases[g].key && s.log[i].generation == s.leases[g].generation
    ensures s.log[j].key == s.leases[h].key && s.log[j].generation == s.leases[h].generation
    ensures DeletedBetween(s.log, s.leases[g].key, i, j)
  {
    ReachableInvariant(moves, s);
    assert LeaseOk(s, g) && LeaseOk(s, h);
    i :| 0 <= i < |s.log| && s.log[i].Create? && s.log[i].key == s.leases[g].key &&
    s.log[i].generation == s.leases[g].generation;
    j :| 0 <= j < |s.log| && s.log[j].Create? && s.log[j].key == s.leases[h].key &&
    s.log[j].generation == s.leases[h].generation;
    LawfulAt(s.log, j);
    EntryLasts(s.log, i, j);
  }

  // ---- The store itself ---------------------------------------------------------------------

  datatype StoreError = ContextDone | KeyMismatch | NotFound
  datatype Fetched = Fetched(snapshot: Snapshot, created: bool) | Failed(error: StoreError)

  class MemoryStore {
    var snapshots: map<Key, Snapshot>

    constructor ()
      ensures snapshots == map[]
    {
      snapshots := map[];
    }

    method Load(canceled: bool, key: Key) returns (r: Fetched)
      ensures r == if canceled then Failed(ContextDone) else if key in snapshots then Fetched(snapshots[key], false)
                   else Failed(NotFound)
    {
      if canceled {
        return Failed(ContextDone);
      }
      if key !in snapshots {
        return Failed(NotFound);
      }
      r := Fetched(snapshots[key], false);
    }

    /** Inserts only into an empty entry, and says whether it did. */
    method LoadOrCreate(canceled: bool, key: Key, initial: Snapshot) returns (r: Fetched)
      modifies this
      ensures r.Failed? <==> canceled || initial.key != key
      ensures r.Failed? ==> snapshots == old(snapshots)
      ensures r.Fetched? ==> key in snapshots && r == Fetched(snapshots[key], key !in old(snapshots))
      ensures r.Fetched? && r.created ==> snapshots == Applied(old(snapshots), Create(key, 0, initial))
      ensures r.Fetched? && !r.created ==> snapshots == old(snapshots)
    {
      if canceled {
        return Failed(ContextDone);
      }
      if initial.key != key {
        return Failed(KeyMismatch);
      }
      if key in snapshots {
        return Fetched(snapshots[key], false);
      }
      snapshots := snapshots[key := initial];
      r := Fetched(initial, true);
    }

    method Save(canceled: bool, key: Key, snapshot: Snapshot) returns (r: Option<StoreError>)
      modifies this
      ensures r.None? <==> !canceled && snapshot.key == key
      ensures snapshots == if r.None? then Applied(old(snapshots), Saved(key, 0, snapshot)) else old(snapshots)
    {
      if canceled {
        return Some(ContextDone);
      }
      if snapshot.key != key {
        return Some(KeyMismatch);
      }
      snapshots := snapshots[key := snapshot];
      r := None;
    }

    method Delete(canceled: bool, key: Key) returns (r: Option<StoreError>)
      modifies this
      ensures r.None? <==> !canceled
      ensures snapshots == if r.None? then Applied(old(snapshots), Deleted(key, 0)) else old(snapshots)
    {
      if canceled {
        return Some(ContextDone);
      }
      snapshots := snapshots - {key};
      r := None;
    }
  }
}
