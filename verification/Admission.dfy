/** Connection admission, accounting and shutdown, resource_controls.go and server.go: every
    interleaving of accepted connections, session bindings and Stop, one step per section under
    the lifecycle mutex. */
module Admission {
  import opened Bytes
  import opened Common

  /** Zero or less means unlimited. */
  datatype Limits = Limits(connections: int, perIp: int, perAuth: int)

  /** How far serveConn has come with one connection. */
  datatype Phase =
    | Accepted                  // not yet under the mutex
    | Refused                   // the server had stopped; to be closed
    | Inserted                  // in the table, counted by the wait group
    | Named                     // has its connection id
    | Rejected                  // over a limit; to be closed
    | RejectedClosed            // closed; to leave the table
    | Admitted                  // counted
    | Running                   // the runtime serves it
    | Ended                     // the runtime returned and it was closed
    | Finished(setup: bool)     // no longer counted; to leave the table
    | Out(setup: bool)          // out of the table; the wait group still counts it
    | Unclosed                  // setup failed; to be closed
    | Gone

  type Id = nat
  /** A remote host; UNKNOWN stands for the empty key of a connection without one. */
  type Address = nat
  const UNKNOWN: Address := 0

  datatype Conn = Conn(
    phase: Phase, name: nat, ip: Address, auth: Int64, counted: bool, sessions: set<Key>, onConn: int, closes: nat)

  datatype Tables = Tables(
    conns: seq<Conn>, connections: set<Id>, states: set<Id>, byName: map<nat, Id>, lastName: nat,
    byIp: map<Address, int>, byAuth: map<Int64, int>, active: int, wait: int)

  datatype StopPhase = Serving | Grace | Closing(todo: set<Id>) | Waiting | Returned
  datatype State = State(t: Tables, stop: StopPhase, snapshot: set<Id>)

  const Start := State(Tables([], {}, {}, map[], 0, map[], map[], 0, 0), Serving, {})

  predicate InTable(p: Phase)
  {
    p.Inserted? || p.Named? || p.Rejected? || p.RejectedClosed? || p.Admitted? || p.Running? || p.Ended? || p.Finished?
  }

  predicate Waited(p: Phase)
  {
    InTable(p) || p.Out?
  }

  predicate Counted(p: Phase)
  {
    p.Admitted? || p.Running? || p.Ended?
  }

  // ---- Sections -----------------------------------------------------------------------------

  function Get<K>(m: map<K, int>, k: K): int
  {
    if k in m then m[k] else 0
  }

  function Increment<K>(m: map<K, int>, k: K): map<K, int>
  {
    m[k := Get(m, k) + 1]
  }

  /** A counter that falls to zero leaves its map. */
  function Decrement<K>(m: map<K, int>, k: K): map<K, int>
  {
    if Get(m, k) - 1 <= 0 then m - {k} else m[k := Get(m, k) - 1]
  }

  /** n guarded decrements. */
  function Drained(active: int, n: nat): int
  {
    if n == 0 then active else Drained(if active > 0 then active - 1 else active, n - 1)
  }

  function At(t: Tables, c: Id, p: Phase): Tables
    requires c < |t.conns|
  {
    t.(conns := t.conns[c := t.conns[c].(phase := p)])
  }

  function Closed(k: Conn): Conn
  {
    if k.closes > 0 then k else k.(closes := 1)
  }

  function Insert(t: Tables, c: Id, stopped: bool): Tables
    requires c < |t.conns|
  {
    if stopped then At(t, c, Refused)
    else At(t, c, Inserted).(connections := t.connections + {c}, wait := t.wait + 1)
  }

  function Admit(t: Tables, l: Limits, c: Id): Tables
    requires c < |t.conns|
  {
    var k := t.conns[c];
    if l.connections > 0 && |t.connections| > l.connections then At(t, c, Rejected)
    else if k.ip != UNKNOWN && l.perIp > 0 && Get(t.byIp, k.ip) >= l.perIp then At(t, c, Rejected)
    else At(t, c, Admitted).(states := t.states + {c}, byName := t.byName[k.name := c],
                             byIp := if k.ip != UNKNOWN then Increment(t.byIp, k.ip) else t.byIp)
  }

  function Finish(t: Tables, c: Id, setup: bool): Tables
    requires c < |t.conns|
  {
    var k := t.conns[c];
    if c !in t.states then At(t, c, Finished(setup))
    else
      t.(conns := t.conns[c := k.(phase := Finished(setup), sessions := {}, onConn := 0)],
         states := t.states - {c}, byName := t.byName - {k.name},
         byIp := if k.ip != UNKNOWN then Decrement(t.byIp, k.ip) else t.byIp,
         byAuth := if k.counted && k.auth != 0 then Decrement(t.byAuth, k.auth) else t.byAuth,
         active := Drained(t.active, |k.sessions|))
  }

  function Bound(t: Tables, l: Limits, name: nat, auth: Int64, key: Key): Tables
    requires name in t.byName ==> t.byName[name] < |t.conns|
  {
    if name !in t.byName then t
    else
      var c := t.byName[name];
      var k := t.conns[c];
      if !k.counted && auth != 0 then
        if l.perAuth > 0 && Get(t.byAuth, auth) >= l.perAuth then t.(conns := t.conns[c := Closed(k)])
        else
          WithSession(t.(byAuth := Increment(t.byAuth, auth),
                         conns := t.conns[c := k.(auth := auth, counted := true)]), c, key)
      else WithSession(t, c, key)
  }

  function WithSession(t: Tables, c: Id, key: Key): Tables
    requires c < |t.conns|
  {
    var k := t.conns[c];
    if key in k.sessions then t
    else t.(conns := t.conns[c := k.(sessions := k.sessions + {key}, onConn := k.onConn + 1)], active := t.active + 1)
  }

  function Unbound(t: Tables, name: nat, key: Key): Tables
    requires name in t.byName ==> t.byName[name] < |t.conns|
  {
    if name !in t.byName || key !in t.conns[t.byName[name]].sessions then t
    else
      var c := t.byName[name];
      var k := t.conns[c];
      t.(conns := t.conns[c := k.(sessions := k.sessions - {key},
                                  onConn := if k.onConn > 0 then k.onConn - 1 else k.onConn)],
         active := if t.active > 0 then t.active - 1 else t.active)
  }

  // ---- Steps --------------------------------------------------------------------------------

  datatype Move =
    | Accept(ip: Address)
    | Serve(c: Id, fails: bool)     // the next step of serveConn for c
    | BindSession(name: nat, auth: Int64, key: Key)
    | UnbindSession(name: nat, key: Key)
    | Shut(c: Id)                   // anyone closes the connection
    | BeginStop
    | GraceOver(waited: bool)       // waited: every connection was done before the timer
    | StopClose(c: Id)
    | StopReturn

  predicate CanMove(s: State, m: Move)
  {
    match m
    case Accept(_) => true
    case Serve(c, _) => c < |s.t.conns| && !s.t.conns[c].phase.Gone?
    case BindSession(name, _, _) => name in s.t.byName ==> s.t.byName[name] < |s.t.conns|
    case UnbindSession(name, _) => name in s.t.byName ==> s.t.byName[name] < |s.t.conns|
    case Shut(c) => c < |s.t.conns|
    case BeginStop => s.stop.Serving?
    case GraceOver(waited) => s.stop.Grace? && (waited ==> s.t.wait == 0)
    case StopClose(c) => s.stop.Closing? && c in s.stop.todo && c < |s.t.conns|
    case StopReturn => s.stop.Waiting? && s.t.wait == 0
  }

  function Served(t: Tables, l: Limits, c: Id, stopped: bool, fails: bool): Tables
    requires c < |t.conns| && !t.conns[c].phase.Gone?
  {
    var k := t.conns[c];
    match k.phase
    case Accepted => Insert(t, c, stopped)
    case Refused => t.(conns := t.conns[c := Closed(k).(phase := Gone)])
    case Inserted => t.(conns := t.conns[c := k.(phase := Named, name := t.lastName + 1)], lastName := t.lastName + 1)
    case Named => Admit(t, l, c)
    case Rejected => t.(conns := t.conns[c := Closed(k).(phase := RejectedClosed)])
    case RejectedClosed => At(t, c, Out(false)).(connections := t.connections - {c}, states := t.states - {c})
    case Admitted => if fails then Finish(t, c, true) else At(t, c, Running)
    case Running => t.(conns := t.conns[c := Closed(k).(phase := Ended)])
    case Ended => Finish(t, c, false)
    case Finished(setup) => At(t, c, Out(setup)).(connections := t.connections - {c})
    case Out(setup) => At(t, c, if setup then Unclosed else Gone).(wait := t.wait - 1)
    case Unclosed => t.(conns := t.conns[c := Closed(k).(phase := Gone)])
  }

  function Moved(s: State, l: Limits, m: Move): State
    requires CanMove(s, m)
  {
    match m
    case Accept(ip) => s.(t := s.t.(conns := s.t.conns + [Conn(Accepted, 0, ip, 0, false, {}, 0, 0)]))
    case Serve(c, fails) => s.(t := Served(s.t, l, c, !s.stop.Serving?, fails))
    case BindSession(name, auth, key) => s.(t := Bound(s.t, l, name, auth, key))
    case UnbindSession(name, key) => s.(t := Unbound(s.t, name, key))
    case Shut(c) => s.(t := s.t.(conns := s.t.conns[c := Closed(s.t.conns[c])]))
    case BeginStop => s.(stop := Grace, snapshot := s.t.connections)
    case GraceOver(waited) => s.(stop := if waited then Returned else AfterClose(s.snapshot))
    case StopClose(c) =>
      s.(t := s.t.(conns := s.t.conns[c := Closed(s.t.conns[c])]), stop := AfterClose(s.stop.todo - {c}))
    case StopReturn => s.(stop := Returned)
  }

  /** The closing loop, then the wait. Without a grace period the timer is over at once. */
  function AfterClose(todo: set<Id>): StopPhase
  {
    if todo == {} then Waiting else Closing(todo)
  }

  // ---- Invariant ----------------------------------------------------------------------------

  predicate InRange(t: Tables)
  {
    forall c :: c in t.states ==> c < |t.conns|
  }

  function OfIp(t: Tables, ip: Address): set<Id>
    requires InRange(t)
  {
    set c | c in t.states && t.conns[c].ip == ip
  }

  function OfAuth(t: Tables, auth: Int64): set<Id>
    requires InRange(t)
  {
    set c | c in t.states && t.conns[c].counted && t.conns[c].auth == auth
  }

  function Sessions(t: Tables): set<(Id, Key)>
    requires InRange(t)
  {
    set c, k | c in t.states && k in t.conns[c].sessions :: (c, k)
  }

  function WaitedFor(t: Tables): set<Id>
  {
    set c | 0 <= c < |t.conns| && Waited(t.conns[c].phase)
  }

  /** Tables and phases say the same about every connection. */
  predicate PlacedAt(t: Tables, c: Id)
    requires c < |t.conns|
  {
    (c in t.connections <==> InTable(t.conns[c].phase)) && (c in t.states <==> Counted(t.conns[c].phase))
  }

  predicate Placed(t: Tables)
  {
    && (forall c :: c in t.connections ==> c < |t.conns|)
    && InRange(t)
    && (forall c :: 0 <= c < |t.conns| ==> PlacedAt(t, c))
    && t.wait == |WaitedFor(t)|
  }

  predicate NameOk(t: Tables, c: Id)
    requires c < |t.conns|
  {
    var k := t.conns[c];
    && k.name <= t.lastName
    && (k.phase.Named? || Counted(k.phase) ==> k.name > 0)
    && (Counted(k.phase) ==> k.name in t.byName && t.byName[k.name] == c)
  }

  predicate EntryOk(t: Tables, name: nat)
  {
    name in t.byName ==> var c := t.byName[name]; c in t.states && c < |t.conns| && t.conns[c].name == name
  }

  predicate Apart(t: Tables, c: Id, d: Id)
    requires c < |t.conns| && d < |t.conns|
  {
    c != d && t.conns[c].name == t.conns[d].name ==> t.conns[c].name == 0
  }

  /** Connection names are never given twice, and the name table is the counted connections'. */
  ghost predicate NamesOk(t: Tables)
  {
    && (forall c :: 0 <= c < |t.conns| ==> NameOk(t, c))
    && (forall c, d :: 0 <= c < |t.conns| && 0 <= d < |t.conns| ==> Apart(t, c, d))
    && (forall name :: EntryOk(t, name))
  }

  /** Nothing is charged to a connection before it is admitted. */
  predicate ConnOk(k: Conn)
  {
    && (k.phase.Accepted? || k.phase.Inserted? || k.phase.Named? ==> !k.counted && k.sessions == {} && k.onConn == 0)
    && (k.counted ==> k.auth != 0)
    && (Counted(k.phase) ==> k.onConn == |k.sessions|)
    && k.closes <= 1
    && (k.phase.RejectedClosed? || k.phase.Ended? || k.phase.Gone? || k.phase == Finished(false) ||
        k.phase == Out(false) ==>
          k.closes == 1)
  }

  ghost predicate IpOk(t: Tables, l: Limits, ip: Address)
    requires InRange(t)
  {
    && (ip != UNKNOWN ==> Get(t.byIp, ip) == |OfIp(t, ip)| && (l.perIp > 0 ==> |OfIp(t, ip)| <= l.perIp))
    && (ip in t.byIp ==> ip != UNKNOWN && t.byIp[ip] > 0)
  }

  ghost predicate AuthOk(t: Tables, l: Limits, auth: Int64)
    requires InRange(t)
  {
    && (auth != 0 ==> Get(t.byAuth, auth) == |OfAuth(t, auth)| && (l.perAuth > 0 ==> |OfAuth(t, auth)| <= l.perAuth))
    && (auth in t.byAuth ==> auth != 0 && t.byAuth[auth] > 0)
  }

  ghost predicate CountsOk(t: Tables, l: Limits)
    requires InRange(t)
  {
    && (forall ip :: IpOk(t, l, ip))
    && (forall auth :: AuthOk(t, l, auth))
    && (l.connections > 0 ==> |t.states| <= l.connections)
    && t.active == |Sessions(t)|
  }

  predicate ConnsOk(t: Tables)
  {
    forall c :: 0 <= c < |t.conns| ==> ConnOk(t.conns[c])
  }

  ghost predicate TablesOk(t: Tables, l: Limits)
  {
    Placed(t) && NamesOk(t) && CountsOk(t, l) && ConnsOk(t)
  }

  predicate StopOk(s: State)
  {
    && (forall c :: c in s.snapshot ==> c < |s.t.conns|)
    && (!s.stop.Serving? ==> s.t.connections <= s.snapshot)
    && (s.stop.Closing? ==> forall c :: c in s.snapshot && c !in s.stop.todo ==> s.t.conns[c].closes == 1)
    && (s.stop.Waiting? ==> forall c :: c in s.snapshot ==> s.t.conns[c].closes == 1)
    && (s.stop.Returned? ==> s.t.wait == 0)
  }

  ghost predicate Invariant(s: State, l: Limits)
  {
    TablesOk(s.t, l) && StopOk(s)
  }

  // ---- Steps that only relabel one connection -----------------------------------------------

  predicate SameCharges(k: Conn, n: Conn)
  {
    && n == k.(phase := n.phase, closes := n.closes)
    && InTable(k.phase) == InTable(n.phase) && Waited(k.phase) == Waited(n.phase)
    && Counted(k.phase) == Counted(n.phase)
    && (n.phase.Named? ==> k.phase.Named?)
    && (n.phase.Accepted? || n.phase.Inserted? ==> n.phase == k.phase)
  }

  /** The counts read nothing of a counted connection but its address, its key and its sessions. */
  predicate SameCounted(t: Tables, n: Tables)
  {
    && n.states == t.states && n.byIp == t.byIp && n.byAuth == t.byAuth && n.active == t.active
    && (forall c :: c in t.states ==> c < |t.conns| && c < |n.conns| && SameKeys(t.conns[c], n.conns[c]))
  }

  predicate SameKeys(k: Conn, n: Conn)
  {
    n.ip == k.ip && n.auth == k.auth && n.counted == k.counted && n.sessions == k.sessions
  }

  lemma IpsUnchanged(t: Tables, n: Tables, l: Limits)
    requires InRange(t) && InRange(n) && n.states == t.states && n.byIp == t.byIp
    requires forall c :: c in t.states ==> c < |t.conns| && c < |n.conns| && n.conns[c].ip == t.conns[c].ip
    requires forall ip :: IpOk(t, l, ip)
    ensures forall ip :: IpOk(n, l, ip)
  {
    forall ip
      ensures IpOk(n, l, ip)
    {
      assert IpOk(t, l, ip) && OfIp(n, ip) == OfIp(t, ip);
    }
  }

  lemma AuthsUnchanged(t: Tables, n: Tables, l: Limits)
    requires InRange(t) && InRange(n) && n.states == t.states && n.byAuth == t.byAuth
    requires forall c :: c in t.states ==> c < |t.conns| && c < |n.conns| && n.conns[c].auth == t.conns[c].auth &&
                                           n.conns[c].counted == t.conns[c].counted
    requires forall auth :: AuthOk(t, l, auth)
    ensures forall auth :: AuthOk(n, l, auth)
  {
    forall auth
      ensures AuthOk(n, l, auth)
    {
      assert AuthOk(t, l, auth) && OfAuth(n, auth) == OfAuth(t, auth);
    }
  }

  lemma CountsUnchanged(t: Tables, n: Tables, l: Limits)
    requires InRange(t) && InRange(n) && CountsOk(t, l) && SameCounted(t, n)
    ensures CountsOk(n, l)
  {
    IpsUnchanged(t, n, l);
    AuthsUnchanged(t, n, l);
    assert Sessions(n) == Sessions(t);
  }

  lemma RelabelPlaced(t: Tables, c: Id, k: Conn)
    requires Placed(t) && c < |t.conns| && SameCharges(t.conns[c], k)
    ensures Placed(t.(conns := t.conns[c := k]))
  {
    var n := t.(conns := t.conns[c := k]);
    assert WaitedFor(n) == WaitedFor(t);
    forall d | 0 <= d < |n.conns|
      ensures PlacedAt(n, d)
    {
      assert PlacedAt(t, d);
    }
  }

  /** The conjuncts of NamesOk that speak of connections, when only c's record and entry change. */
  lemma NamesFollow(t: Tables, n: Tables, c: Id)
    requires NamesOk(t) && Replaced(t, n, c) && n.lastName == t.lastName && n.conns[c].name == t.conns[c].name
    requires forall name :: name != t.conns[c].name ==> (name in n.byName <==> name in t.byName)
    requires forall name :: name != t.conns[c].name && name in n.byName ==> n.byName[name] == t.byName[name]
    requires NameOk(n, c)
    requires Counted(t.conns[c].phase) || t.conns[c].phase.Named? || n.byName == t.byName
    ensures forall a :: 0 <= a < |n.conns| ==> NameOk(n, a)
    ensures forall a, b :: 0 <= a < |n.conns| && 0 <= b < |n.conns| ==> Apart(n, a, b)
  {
    forall a | 0 <= a < |n.conns|
      ensures NameOk(n, a)
    {
      assert NameOk(t, a) && NameOk(t, c) && Apart(t, a, c);
    }
    forall a, b | 0 <= a < |n.conns| && 0 <= b < |n.conns|
      ensures Apart(n, a, b)
    {
      assert Apart(t, a, b);
    }
  }

  lemma RelabelNames(t: Tables, n: Tables, c: Id)
    requires NamesOk(t) && Replaced(t, n, c) && n.conns[c].name == t.conns[c].name
    requires n.byName == t.byName && n.lastName == t.lastName && n.states == t.states
    requires Counted(n.conns[c].phase) == Counted(t.conns[c].phase)
    requires n.conns[c].phase.Named? ==> t.conns[c].phase.Named?
    ensures NamesOk(n)
  {
    assert NameOk(t, c);
    NamesFollow(t, n, c);
    forall name
      ensures EntryOk(n, name)
    {
      assert EntryOk(t, name);
    }
  }

  lemma RelabelKeepsTables(t: Tables, l: Limits, c: Id, k: Conn)
    requires TablesOk(t, l) && c < |t.conns| && SameCharges(t.conns[c], k) && ConnOk(k)
    ensures TablesOk(t.(conns := t.conns[c := k]), l)
  {
    RelabelPlaced(t, c, k);
    RelabelNames(t, t.(conns := t.conns[c := k]), c);
    CountsUnchanged(t, t.(conns := t.conns[c := k]), l);
  }

  // ---- Steps that move a connection between tables --------------------------------------------

  /** Only where c stands changes; n is the table set after the step. */
  predicate Replaced(t: Tables, n: Tables, c: Id)
  {
    c < |t.conns| == |n.conns| && n.conns == t.conns[c := n.conns[c]]
  }

  lemma PlacedAfter(t: Tables, n: Tables, c: Id)
    requires Placed(t) && Replaced(t, n, c)
    requires n.connections == if InTable(n.conns[c].phase) then t.connections + {c} else t.connections - {c}
    requires n.states == if Counted(n.conns[c].phase) then t.states + {c} else t.states - {c}
    requires n.wait == t.wait + (if Waited(n.conns[c].phase) then 1 else 0)
                       - (if Waited(t.conns[c].phase) then 1 else 0)
    ensures Placed(n)
  {
    var w := WaitedFor(t);
    assert WaitedFor(n) == if Waited(n.conns[c].phase) then w + {c} else w - {c};
    assert c in w <==> Waited(t.conns[c].phase);
    forall d | 0 <= d < |n.conns|
      ensures PlacedAt(n, d)
    {
      assert PlacedAt(t, d);
    }
  }

  lemma UncountedStep(t: Tables, n: Tables, l: Limits, c: Id)
    requires TablesOk(t, l) && Replaced(t, n, c) && ConnOk(n.conns[c]) && SameCounted(t, n)
    requires n.byName == t.byName && n.lastName == t.lastName
    requires n.conns[c].name == t.conns[c].name && (n.conns[c].phase.Named? ==> t.conns[c].phase.Named?)
    requires !Counted(t.conns[c].phase) && !Counted(n.conns[c].phase)
    requires n.connections == if InTable(n.conns[c].phase) then t.connections + {c} else t.connections - {c}
    requires n.wait == t.wait + (if Waited(n.conns[c].phase) then 1 else 0)
                       - (if Waited(t.conns[c].phase) then 1 else 0)
    ensures TablesOk(n, l)
  {
    assert PlacedAt(t, c);
    assert n.states == t.states - {c};
    PlacedAfter(t, n, c);
    RelabelNames(t, n, c);
    CountsUnchanged(t, n, l);
  }

  lemma NewlyNamed(t: Tables, l: Limits, c: Id)
    requires InRange(t) && c < |t.conns| && t.conns[c].phase.Inserted? && c in t.connections && c !in t.states
    requires ConnsOk(t)
    ensures var n := Served(t, l, c, false, false);
            && Replaced(t, n, c) && InRange(n) && SameCounted(t, n) && ConnsOk(n) && n.conns[c].phase == Named
            && n.connections == t.connections + {c} && n.states == t.states - {c} && n.wait == t.wait
  {
  }

  lemma NameStep(t: Tables, l: Limits, c: Id)
    requires TablesOk(t, l) && c < |t.conns| && t.conns[c].phase.Inserted?
    ensures TablesOk(Served(t, l, c, false, false), l)
  {
    var n := Served(t, l, c, false, false);
    assert PlacedAt(t, c);
    NewlyNamed(t, l, c);
    PlacedAfter(t, n, c);
    CountsUnchanged(t, n, l);
    NamedApart(t, l, c);
  }

  lemma NamedApart(t: Tables, l: Limits, c: Id)
    requires NamesOk(t) && c < |t.conns| && t.conns[c].phase.Inserted? && c !in t.states
    ensures NamesOk(Served(t, l, c, false, false))
  {
    var n := Served(t, l, c, false, false);
    forall a | 0 <= a < |n.conns|
      ensures NameOk(n, a)
    {
      assert NameOk(t, a);
    }
    forall a, b | 0 <= a < |n.conns| && 0 <= b < |n.conns|
      ensures Apart(n, a, b)
    {
      assert NameOk(t, a) && NameOk(t, b) && Apart(t, a, b);
    }
    forall name
      ensures EntryOk(n, name)
    {
      assert EntryOk(t, name);
    }
  }

  lemma AcceptStep(t: Tables, l: Limits, ip: Address)
    requires TablesOk(t, l)
    ensures TablesOk(t.(conns := t.conns + [Conn(Accepted, 0, ip, 0, false, {}, 0, 0)]), l)
  {
    var n := t.(conns := t.conns + [Conn(Accepted, 0, ip, 0, false, {}, 0, 0)]);
    assert WaitedFor(n) == WaitedFor(t);
    forall c | 0 <= c < |n.conns|
      ensures PlacedAt(n, c)
    {
      assert c < |t.conns| ==> PlacedAt(t, c);
    }
    CountsUnchanged(t, n, l);
    AcceptedNames(t, n);
  }

  lemma AcceptedNames(t: Tables, n: Tables)
    requires NamesOk(t) && |n.conns| == |t.conns| + 1 && n == t.(conns := t.conns + [n.conns[|t.conns|]])
    requires n.conns[|t.conns|].phase.Accepted?
    requires n.conns[|t.conns|].name == 0
    ensures NamesOk(n)
  {
    forall a | 0 <= a < |n.conns|
      ensures NameOk(n, a)
    {
      assert a < |t.conns| ==> NameOk(t, a);
    }
    forall a, b | 0 <= a < |n.conns| && 0 <= b < |n.conns|
      ensures Apart(n, a, b)
    {
      assert a < |t.conns| && b < |t.conns| ==> Apart(t, a, b);
    }
    forall name
      ensures EntryOk(n, name)
    {
      assert EntryOk(t, name);
    }
  }

  // ---- Admission and its end --------------------------------------------------------------------

  lemma OfIpAdded(t: Tables, n: Tables, c: Id, ip: Address)
    requires InRange(t) && InRange(n) && Replaced(t, n, c) && c !in t.states && n.states == t.states + {c}
    requires n.conns[c].ip == t.conns[c].ip
    ensures c !in OfIp(t, ip)
    ensures OfIp(n, ip) == if ip == t.conns[c].ip then OfIp(t, ip) + {c} else OfIp(t, ip)
  {
    forall d
      ensures d in OfIp(n, ip) <==> d in OfIp(t, ip) || (d == c && ip == t.conns[c].ip)
    {
      assert d in t.states && d != c ==> n.conns[d] == t.conns[d];
    }
  }

  /** One more in the set of an address or key, one more in its counter. */
  lemma AdmittedIp(t: Tables, n: Tables, l: Limits, c: Id, ip: Address)
    requires InRange(t) && InRange(n) && Replaced(t, n, c) && c !in t.states && n.states == t.states + {c}
    requires var k := t.conns[c]; n.conns[c].ip == k.ip && IpOk(t, l, ip) && IpOk(t, l, k.ip) &&
                                  n.byIp == if k.ip != UNKNOWN then Increment(t.byIp, k.ip) else t.byIp
    requires var k := t.conns[c]; k.ip == UNKNOWN || l.perIp <= 0 || Get(t.byIp, k.ip) < l.perIp
    ensures IpOk(n, l, ip)
  {
    OfIpAdded(t, n, c, ip);
  }

  /** Admitted connections are all in the table, so the check on its size bounds them too. */
  lemma AdmittedWithin(t: Tables, n: Tables, l: Limits, c: Id)
    requires Placed(n) && n.connections == t.connections && (l.connections > 0 ==> |t.connections| <= l.connections)
    ensures l.connections > 0 ==> |n.states| <= l.connections
  {
    forall d | d in n.states
      ensures d in n.connections
    {
      assert PlacedAt(n, d);
    }
    SubsetCard(n.states, n.connections);
  }

  /** Nothing of a blank connection shows in the other counts. */
  lemma AdmittedBlank(t: Tables, n: Tables, l: Limits, c: Id)
    requires InRange(t) && InRange(n) && Replaced(t, n, c) && c !in t.states && n.states == t.states + {c}
    requires !n.conns[c].counted && n.conns[c].sessions == {} && n.byAuth == t.byAuth
    requires forall auth :: AuthOk(t, l, auth)
    ensures forall auth :: AuthOk(n, l, auth)
    ensures Sessions(n) == Sessions(t)
  {
    forall auth
      ensures AuthOk(n, l, auth)
    {
      assert AuthOk(t, l, auth) && OfAuth(n, auth) == OfAuth(t, auth);
    }
  }

  lemma AdmittedCounts(t: Tables, n: Tables, l: Limits, c: Id)
    requires InRange(t) && Placed(n) && CountsOk(t, l) && c < |t.conns| && c !in t.states && ConnOk(t.conns[c])
    requires t.conns[c].phase.Named? && n == Admit(t, l, c) && n.conns[c].phase.Admitted?
    ensures CountsOk(n, l)
  {
    forall ip
      ensures IpOk(n, l, ip)
    {
      assert IpOk(t, l, ip) && IpOk(t, l, t.conns[c].ip);
      AdmittedIp(t, n, l, c, ip);
    }
    AdmittedBlank(t, n, l, c);
    AdmittedWithin(t, n, l, c);
  }

  lemma NewlyAdmitted(t: Tables, l: Limits, c: Id)
    requires c < |t.conns| && t.conns[c].phase.Named? && c in t.connections && ConnsOk(t)
    requires Admit(t, l, c).conns[c].phase.Admitted?
    ensures var n := Admit(t, l, c);
            && Replaced(t, n, c) && ConnsOk(n)
            && n.connections == t.connections + {c} && n.states == t.states + {c} && n.wait == t.wait
  {
  }

  lemma AdmitStep(t: Tables, l: Limits, c: Id)
    requires TablesOk(t, l) && c < |t.conns| && t.conns[c].phase.Named?
    ensures TablesOk(Admit(t, l, c), l)
  {
    var n := Admit(t, l, c);
    assert ConnOk(t.conns[c]);
    if n.conns[c].phase.Rejected? {
      RelabelKeepsTables(t, l, c, n.conns[c]);
    } else {
      assert PlacedAt(t, c);
      NewlyAdmitted(t, l, c);
      PlacedAfter(t, n, c);
      AdmittedCounts(t, n, l, c);
      AdmittedNames(t, l, c);
    }
  }

  lemma AdmittedNames(t: Tables, l: Limits, c: Id)
    requires NamesOk(t) && c < |t.conns| && t.conns[c].phase.Named?
    requires Admit(t, l, c).conns[c].phase.Admitted?
    ensures NamesOk(Admit(t, l, c))
  {
    var n := Admit(t, l, c);
    assert NameOk(t, c);
    NamesFollow(t, n, c);
    forall name
      ensures EntryOk(n, name)
    {
      assert EntryOk(t, name);
    }
  }

  lemma {:induction false} DrainedExactly(active: int, n: nat)
    requires active >= n
    ensures Drained(active, n) == active - n
    decreases n
  {
    if n > 0 {
      DrainedExactly(active - 1, n - 1);
    }
  }

  function Pairs(c: Id, ks: set<Key>): set<(Id, Key)>
  {
    set k | k in ks :: (c, k)
  }

  lemma {:induction false} PairsCard(c: Id, ks: set<Key>)
    ensures |Pairs(c, ks)| == |ks|
  {
    if ks != {} {
      var k :| k in ks;
      PairsCard(c, ks - {k});
      assert Pairs(c, ks) == Pairs(c, ks - {k}) + {(c, k)};
    }
  }

  lemma FinishedIp(t: Tables, n: Tables, l: Limits, c: Id, ip: Address)
    requires InRange(t) && InRange(n) && Replaced(t, n, c) && c in t.states && n.states == t.states - {c}
    requires var k := t.conns[c]; IpOk(t, l, ip) && IpOk(t, l, k.ip) &&
                                  n.byIp == if k.ip != UNKNOWN then Decrement(t.byIp, k.ip) else t.byIp
    ensures IpOk(n, l, ip)
  {
    assert c in OfIp(t, t.conns[c].ip);
    assert OfIp(n, ip) == if ip == t.conns[c].ip then OfIp(t, ip) - {c} else OfIp(t, ip);
  }

  lemma FinishedAuth(t: Tables, n: Tables, l: Limits, c: Id, auth: Int64)
    requires InRange(t) && InRange(n) && Replaced(t, n, c) && c in t.states && n.states == t.states - {c}
    requires var k := t.conns[c]; AuthOk(t, l, auth) && AuthOk(t, l, k.auth) && ConnOk(k) &&
                                  n.byAuth == if k.counted && k.auth != 0 then Decrement(t.byAuth, k.auth) else t.byAuth
    ensures AuthOk(n, l, auth)
  {
    var k := t.conns[c];
    assert k.counted ==> c in OfAuth(t, k.auth);
    assert OfAuth(n, auth) == if k.counted && auth == k.auth then OfAuth(t, auth) - {c} else OfAuth(t, auth);
  }

  /** The sessions of c are all there to be taken off: no guard of the loop ever suppresses one. */
  lemma FinishedSessions(t: Tables, n: Tables, c: Id)
    requires InRange(t) && InRange(n) && Replaced(t, n, c) && c in t.states && n.states == t.states - {c}
    ensures |Sessions(t)| == |Sessions(n)| + |t.conns[c].sessions|
  {
    var mine := Pairs(c, t.conns[c].sessions);
    PairsCard(c, t.conns[c].sessions);
    assert Sessions(t) == Sessions(n) + mine && Sessions(n) !! mine;
  }

  lemma FinishedCounts(t: Tables, n: Tables, l: Limits, c: Id, setup: bool)
    requires InRange(t) && InRange(n) && CountsOk(t, l) && c < |t.conns| && c in t.states && ConnOk(t.conns[c])
    requires n == Finish(t, c, setup)
    ensures CountsOk(n, l)
  {
    forall ip
      ensures IpOk(n, l, ip)
    {
      assert IpOk(t, l, ip) && IpOk(t, l, t.conns[c].ip);
      FinishedIp(t, n, l, c, ip);
    }
    forall auth
      ensures AuthOk(n, l, auth)
    {
      assert AuthOk(t, l, auth) && AuthOk(t, l, t.conns[c].auth);
      FinishedAuth(t, n, l, c, auth);
    }
    FinishedSessions(t, n, c);
    DrainedExactly(t.active, |t.conns[c].sessions|);
    SubsetCard(n.states, t.states);
  }

  lemma FinishStep(t: Tables, l: Limits, c: Id, setup: bool)
    requires TablesOk(t, l) && c < |t.conns| && Counted(t.conns[c].phase)
    requires setup || t.conns[c].phase.Ended?
    ensures TablesOk(Finish(t, c, setup), l)
  {
    var n := Finish(t, c, setup);
    assert ConnOk(t.conns[c]);
    assert PlacedAt(t, c);
    assert n.connections == t.connections + {c};
    PlacedAfter(t, n, c);
    FinishedCounts(t, n, l, c, setup);
    FinishedNames(t, c, setup);
  }

  lemma FinishedNames(t: Tables, c: Id, setup: bool)
    requires NamesOk(t) && c < |t.conns| && c in t.states && Counted(t.conns[c].phase)
    ensures NamesOk(Finish(t, c, setup))
  {
    var n := Finish(t, c, setup);
    assert NameOk(t, c);
    NamesFollow(t, n, c);
    forall name
      ensures EntryOk(n, name)
    {
      assert EntryOk(t, name);
    }
  }

  // ---- Sessions -----------------------------------------------------------------------------

  /** A charge to the counted connection c: its phase and name stay. */
  lemma ChargePlaced(t: Tables, n: Tables, c: Id)
    requires Placed(t) && NamesOk(t) && Replaced(t, n, c)
    requires n.conns[c].phase == t.conns[c].phase && n.conns[c].name == t.conns[c].name
    requires n.connections == t.connections && n.states == t.states && n.wait == t.wait
    requires n.byName == t.byName && n.lastName == t.lastName
    ensures Placed(n) && NamesOk(n)
  {
    assert PlacedAt(t, c);
    assert InTable(n.conns[c].phase) ==> t.connections + {c} == t.connections;
    assert Counted(n.conns[c].phase) ==> t.states + {c} == t.states;
    assert !InTable(n.conns[c].phase) ==> t.connections - {c} == t.connections;
    assert !Counted(n.conns[c].phase) ==> t.states - {c} == t.states;
    PlacedAfter(t, n, c);
    RelabelNames(t, n, c);
  }

  lemma AuthCharged(t: Tables, n: Tables, l: Limits, c: Id, auth: Int64, a: Int64)
    requires InRange(t) && InRange(n) && Replaced(t, n, c) && c in t.states && n.states == t.states
    requires !t.conns[c].counted && n.conns[c].counted && n.conns[c].auth == auth != 0
    requires AuthOk(t, l, a) && AuthOk(t, l, auth) && n.byAuth == Increment(t.byAuth, auth)
    requires l.perAuth <= 0 || Get(t.byAuth, auth) < l.perAuth
    ensures AuthOk(n, l, a)
  {
    if a == auth {
      assert OfAuth(n, a) == OfAuth(t, a) + {c};
    } else {
      assert OfAuth(n, a) == OfAuth(t, a);
    }
  }

  lemma AuthCounts(t: Tables, n: Tables, l: Limits, c: Id, auth: Int64)
    requires InRange(t) && InRange(n) && CountsOk(t, l) && c < |t.conns| && c in t.states
    requires !t.conns[c].counted && auth != 0
    requires l.perAuth <= 0 || Get(t.byAuth, auth) < l.perAuth
    requires n == t.(byAuth := Increment(t.byAuth, auth),
                     conns := t.conns[c := t.conns[c].(auth := auth, counted := true)])
    ensures CountsOk(n, l)
  {
    IpsUnchanged(t, n, l);
    forall a
      ensures AuthOk(n, l, a)
    {
      assert AuthOk(t, l, a) && AuthOk(t, l, auth);
      AuthCharged(t, n, l, c, auth, a);
    }
    assert Sessions(n) == Sessions(t);
  }

  lemma AuthStep(t: Tables, n: Tables, l: Limits, c: Id, auth: Int64)
    requires TablesOk(t, l) && c < |t.conns| && c in t.states && !t.conns[c].counted && auth != 0
    requires l.perAuth <= 0 || Get(t.byAuth, auth) < l.perAuth
    requires n == t.(byAuth := Increment(t.byAuth, auth),
                     conns := t.conns[c := t.conns[c].(auth := auth, counted := true)])
    ensures TablesOk(n, l)
  {
    assert ConnOk(t.conns[c]) && PlacedAt(t, c);
    ChargePlaced(t, n, c);
    AuthCounts(t, n, l, c, auth);
  }

  /** Counts after a change to the sessions of c alone. */
  lemma SessionCounts(t: Tables, n: Tables, l: Limits, c: Id)
    requires InRange(t) && InRange(n) && CountsOk(t, l) && Replaced(t, n, c) && n.states == t.states
    requires n.byIp == t.byIp && n.byAuth == t.byAuth && n.active == |Sessions(n)|
    requires n.conns[c] == t.conns[c].(sessions := n.conns[c].sessions, onConn := n.conns[c].onConn)
    ensures CountsOk(n, l)
  {
    IpsUnchanged(t, n, l);
    AuthsUnchanged(t, n, l);
  }

  lemma SessionAdded(t: Tables, n: Tables, c: Id, key: Key)
    requires InRange(t) && InRange(n) && Replaced(t, n, c) && c in t.states && n.states == t.states
    requires key !in t.conns[c].sessions && n.conns[c].sessions == t.conns[c].sessions + {key}
    ensures |Sessions(n)| == |Sessions(t)| + 1
  {
    assert Sessions(n) == Sessions(t) + {(c, key)};
  }

  lemma SessionStep(t: Tables, l: Limits, c: Id, key: Key)
    requires TablesOk(t, l) && c < |t.conns| && c in t.states
    ensures TablesOk(WithSession(t, c, key), l)
  {
    var n := WithSession(t, c, key);
    assert ConnOk(t.conns[c]) && PlacedAt(t, c);
    if key !in t.conns[c].sessions {
      ChargePlaced(t, n, c);
      SessionAdded(t, n, c, key);
      SessionCounts(t, n, l, c);
    }
  }

  lemma BoundStep(t: Tables, l: Limits, name: nat, auth: Int64, key: Key)
    requires TablesOk(t, l) && (name in t.byName ==> t.byName[name] < |t.conns|)
    ensures TablesOk(Bound(t, l, name, auth, key), l)
  {
    if name in t.byName {
      assert EntryOk(t, name);
      var c := t.byName[name];
      var k := t.conns[c];
      assert ConnOk(k) && PlacedAt(t, c);
      if k.counted || auth == 0 {
        SessionStep(t, l, c, key);
      } else if l.perAuth > 0 && Get(t.byAuth, auth) >= l.perAuth {
        RelabelKeepsTables(t, l, c, Closed(k));
      } else {
        var m := t.(byAuth := Increment(t.byAuth, auth), conns := t.conns[c := k.(auth := auth, counted := true)]);
        AuthStep(t, m, l, c, auth);
        SessionStep(m, l, c, key);
      }
    }
  }

  /** Neither guard of the release ever suppresses a decrement. */
  lemma UnboundStep(t: Tables, l: Limits, name: nat, key: Key)
    requires TablesOk(t, l) && (name in t.byName ==> t.byName[name] < |t.conns|)
    ensures TablesOk(Unbound(t, name, key), l)
    ensures name in t.byName && key in t.conns[t.byName[name]].sessions ==>
              t.active > 0 && t.conns[t.byName[name]].onConn > 0
  {
    if name in t.byName && key in t.conns[t.byName[name]].sessions {
      assert EntryOk(t, name);
      var n, c := Unbound(t, name, key), t.byName[name];
      assert ConnOk(t.conns[c]) && PlacedAt(t, c);
      ChargePlaced(t, n, c);
      assert (c, key) in Sessions(t);
      assert Sessions(n) == Sessions(t) - {(c, key)};
      SessionCounts(t, n, l, c);
    }
  }

  // ---- Every move --------------------------------------------------------------------------------

  lemma EnterStep(t: Tables, l: Limits, c: Id, stopped: bool)
    requires TablesOk(t, l) && c < |t.conns| && t.conns[c].phase.Accepted?
    ensures TablesOk(Insert(t, c, stopped), l)
  {
    assert ConnOk(t.conns[c]) && PlacedAt(t, c);
    UncountedStep(t, Insert(t, c, stopped), l, c);
  }

  lemma LeftTable(t: Tables, l: Limits, c: Id)
    requires InRange(t) && c < |t.conns| && (t.conns[c].phase.RejectedClosed? || t.conns[c].phase.Finished?)
    requires ConnOk(t.conns[c]) && c !in t.states
    ensures var n := Served(t, l, c, false, false);
            && Replaced(t, n, c) && SameCounted(t, n) && ConnOk(n.conns[c]) && n.conns[c].phase.Out?
            && n.connections == t.connections - {c} && n.wait == t.wait
            && n.byName == t.byName && n.lastName == t.lastName && n.conns[c].name == t.conns[c].name
  {
    assert t.states - {c} == t.states;
  }

  lemma LeaveStep(t: Tables, l: Limits, c: Id)
    requires TablesOk(t, l) && c < |t.conns| && (t.conns[c].phase.RejectedClosed? || t.conns[c].phase.Finished?)
    ensures TablesOk(Served(t, l, c, false, false), l)
  {
    assert ConnOk(t.conns[c]) && PlacedAt(t, c);
    LeftTable(t, l, c);
    UncountedStep(t, Served(t, l, c, false, false), l, c);
  }

  lemma DoneStep(t: Tables, l: Limits, c: Id)
    requires TablesOk(t, l) && c < |t.conns| && t.conns[c].phase.Out?
    ensures TablesOk(Served(t, l, c, false, false), l)
  {
    assert ConnOk(t.conns[c]) && PlacedAt(t, c);
    UncountedStep(t, Served(t, l, c, false, false), l, c);
  }

  lemma MarkStep(t: Tables, l: Limits, c: Id)
    requires TablesOk(t, l) && c < |t.conns|
    requires var p := t.conns[c].phase; p.Refused? || p.Rejected? || p.Admitted? || p.Running? || p.Unclosed?
    ensures TablesOk(Served(t, l, c, false, false), l)
  {
    assert ConnOk(t.conns[c]);
    RelabelKeepsTables(t, l, c, Served(t, l, c, false, false).conns[c]);
  }

  lemma ServeKeepsTables(t: Tables, l: Limits, c: Id, stopped: bool, fails: bool)
    requires TablesOk(t, l) && c < |t.conns| && !t.conns[c].phase.Gone?
    ensures TablesOk(Served(t, l, c, stopped, fails), l)
  {
    var p := t.conns[c].phase;
    if p.Inserted? {
      NameStep(t, l, c);
    } else if p.Named? {
      AdmitStep(t, l, c);
    } else if p.Ended? || (p.Admitted? && fails) {
      FinishStep(t, l, c, p.Admitted?);
    } else if p.Accepted? {
      EnterStep(t, l, c, stopped);
    } else if p.RejectedClosed? || p.Finished? {
      LeaveStep(t, l, c);
    } else if p.Out? {
      DoneStep(t, l, c);
    } else {
      MarkStep(t, l, c);
    }
  }

  lemma TablesKept(s: State, l: Limits, m: Move)
    requires Invariant(s, l) && CanMove(s, m)
    ensures TablesOk(Moved(s, l, m).t, l)
  {
    match m {
      case Accept(ip) => AcceptStep(s.t, l, ip);
      case Serve(c, fails) => ServeKeepsTables(s.t, l, c, !s.stop.Serving?, fails);
      case BindSession(name, auth, key) => BoundStep(s.t, l, name, auth, key);
      case UnbindSession(name, key) => UnboundStep(s.t, l, name, key);
      case Shut(c) => assert ConnOk(s.t.conns[c]); RelabelKeepsTables(s.t, l, c, Closed(s.t.conns[c]));
      case StopClose(c) => assert ConnOk(s.t.conns[c]); RelabelKeepsTables(s.t, l, c, Closed(s.t.conns[c]));
      case _ =>
    }
  }

  /** What any step does to the tables once the server has stopped: nothing new enters. */
  predicate Quiet(t: Tables, n: Tables)
  {
    && |t.conns| <= |n.conns| && n.connections <= t.connections && n.wait <= t.wait
    && (forall c :: 0 <= c < |t.conns| ==> t.conns[c].closes <= n.conns[c].closes)
  }

  lemma ReplacedQuiet(t: Tables, n: Tables, c: Id)
    requires Replaced(t, n, c) && n.connections <= t.connections && n.wait <= t.wait
    requires t.conns[c].closes <= n.conns[c].closes
    ensures Quiet(t, n)
  {
  }

  predicate Admitting(p: Phase)
  {
    p.Accepted? || p.Refused? || p.Inserted? || p.Named? || p.Rejected? || p.RejectedClosed?
  }

  lemma AdmittingQuiet(t: Tables, l: Limits, c: Id, fails: bool)
    requires c < |t.conns| && Admitting(t.conns[c].phase)
    ensures Quiet(t, Served(t, l, c, true, fails))
  {
    ReplacedQuiet(t, Served(t, l, c, true, fails), c);
  }

  lemma LeavingQuiet(t: Tables, l: Limits, c: Id, fails: bool)
    requires c < |t.conns| && !t.conns[c].phase.Gone? && !Admitting(t.conns[c].phase)
    ensures Quiet(t, Served(t, l, c, true, fails))
  {
    ReplacedQuiet(t, Served(t, l, c, true, fails), c);
  }

  lemma ServeQuiet(t: Tables, l: Limits, c: Id, fails: bool)
    requires c < |t.conns| && !t.conns[c].phase.Gone?
    ensures Quiet(t, Served(t, l, c, true, fails))
  {
    if Admitting(t.conns[c].phase) {
      AdmittingQuiet(t, l, c, fails);
    } else {
      LeavingQuiet(t, l, c, fails);
    }
  }

  lemma ServeLength(t: Tables, l: Limits, c: Id, fails: bool)
    requires c < |t.conns| && !t.conns[c].phase.Gone?
    ensures |Served(t, l, c, false, fails).conns| == |t.conns|
  {
  }

  lemma MoveQuiet(s: State, l: Limits, m: Move)
    requires CanMove(s, m) && (s.stop.Serving? ==> !m.Serve?)
    ensures Quiet(s.t, Moved(s, l, m).t)
  {
    if m.Serve? {
      ServeQuiet(s.t, l, m.c, m.fails);
    }
  }

  /** The moves that are not Stop's own. */
  lemma StopUndisturbed(s: State, n: State)
    requires StopOk(s) && n.stop == s.stop && n.snapshot == s.snapshot && ConnsOk(n.t) && |s.t.conns| <= |n.t.conns|
    requires !s.stop.Serving? ==> Quiet(s.t, n.t) && n.t.wait >= 0
    ensures StopOk(n)
  {
  }

  lemma StopMoves(s: State, l: Limits, m: Move)
    requires StopOk(s) && CanMove(s, m) && (m.BeginStop? || m.GraceOver? || m.StopClose? || m.StopReturn?)
    requires ConnsOk(Moved(s, l, m).t) && (forall c :: c in s.t.connections ==> c < |s.t.conns|)
    ensures StopOk(Moved(s, l, m))
  {
    if m.StopClose? {
      var n := Moved(s, l, m);
      forall c | c in n.snapshot && c !in s.stop.todo - {m.c}
        ensures n.t.conns[c].closes == 1
      {
      }
      assert n.stop.Waiting? ==> s.stop.todo - {m.c} == {};
    }
  }

  lemma StopKept(s: State, l: Limits, m: Move)
    requires StopOk(s) && CanMove(s, m) && (forall c :: c in s.t.connections ==> c < |s.t.conns|)
    requires ConnsOk(Moved(s, l, m).t) && Moved(s, l, m).t.wait >= 0
    ensures StopOk(Moved(s, l, m))
  {
    if m.BeginStop? || m.GraceOver? || m.StopClose? || m.StopReturn? {
      StopMoves(s, l, m);
    } else if s.stop.Serving? && m.Serve? {
      ServeLength(s.t, l, m.c, m.fails);
    } else {
      MoveQuiet(s, l, m);
      StopUndisturbed(s, Moved(s, l, m));
    }
  }

  lemma MoveKeepsInvariant(s: State, l: Limits, m: Move)
    requires Invariant(s, l) && CanMove(s, m)
    ensures Invariant(Moved(s, l, m), l)
  {
    TablesKept(s, l, m);
    StopKept(s, l, m);
  }

  ghost predicate Reaches(moves: seq<Move>, l: Limits, s: State)
    decreases |moves|
  {
    if moves == [] then s == Start
    else
      var m := moves[|moves| - 1];
      exists before :: Reaches(moves[..|moves| - 1], l, before) && CanMove(before, m) && s == Moved(before, l, m)
  }

  lemma StartOk(l: Limits)
    ensures Invariant(Start, l)
  {
    var t := Start.t;
    assert WaitedFor(t) == {} && Sessions(t) == {};
    assert forall ip :: OfIp(t, ip) == {} && IpOk(t, l, ip);
    assert forall auth :: OfAuth(t, auth) == {} && AuthOk(t, l, auth);
    assert forall name :: EntryOk(t, name);
  }

  lemma {:induction false} ReachableInvariant(moves: seq<Move>, l: Limits, s: State)
    requires Reaches(moves, l, s)
    ensures Invariant(s, l)
    decreases |moves|
  {
    if moves == [] {
      StartOk(l);
    } else {
      var m := moves[|moves| - 1];
      var before :| Reaches(moves[..|moves| - 1], l, before) && CanMove(before, m) && s == Moved(before, l, m);
      ReachableInvariant(moves[..|moves| - 1], l, before);
      MoveKeepsInvariant(before, l, m);
    }
  }

  /** In every reachable state each counter is the number of connections it stands for, and no limit
      is exceeded, whatever insertions raced with whatever admissions. */
  lemma AccountingHolds(moves: seq<Move>, l: Limits, s: State, ip: Address, auth: Int64)
    requires Reaches(moves, l, s)
    ensures InRange(s.t)
    ensures ip != UNKNOWN ==> Get(s.t.byIp, ip) == |OfIp(s.t, ip)| && (l.perIp > 0 ==> |OfIp(s.t, ip)| <= l.perIp)
    ensures auth != 0 ==>
              Get(s.t.byAuth, auth) == |OfAuth(s.t, auth)| && (l.perAuth > 0 ==> |OfAuth(s.t, auth)| <= l.perAuth)
    ensures l.connections > 0 ==> |s.t.states| <= l.connections
    ensures s.t.active == |Sessions(s.t)| && s.t.wait == |WaitedFor(s.t)|
  {
    ReachableInvariant(moves, l, s);
    assert IpOk(s.t, l, ip) && AuthOk(s.t, l, auth);
  }

  /** The "> 0" guards are never what decides: a bound session is always there to be taken off. */
  lemma GuardsNeverSuppress(moves: seq<Move>, l: Limits, s: State, c: Id)
    requires Reaches(moves, l, s) && c in s.t.states
    ensures c < |s.t.conns| && s.t.conns[c].onConn == |s.t.conns[c].sessions| <= s.t.active
  {
    ReachableInvariant(moves, l, s);
    assert PlacedAt(s.t, c) && ConnOk(s.t.conns[c]);
    var mine := Pairs(c, s.t.conns[c].sessions);
    PairsCard(c, s.t.conns[c].sessions);
    assert mine <= Sessions(s.t);
    SubsetCard(mine, Sessions(s.t));
  }

  /** A connection is closed at most once, and exactly once by the time it is gone; once Stop has
      begun its snapshot covers every connection still registered, and its closing loop reaches all
      of them before it waits. */
  lemma ClosedOnce(moves: seq<Move>, l: Limits, s: State, c: Id)
    requires Reaches(moves, l, s) && c < |s.t.conns|
    ensures s.t.conns[c].closes <= 1 && (s.t.conns[c].phase.Gone? ==> s.t.conns[c].closes == 1)
    ensures !s.stop.Serving? && c in s.t.connections ==> c in s.snapshot
    ensures s.stop.Waiting? && c in s.t.connections ==> s.t.conns[c].closes == 1
  {
    ReachableInvariant(moves, l, s);
    assert ConnOk(s.t.conns[c]);
  }

  /** When Stop returns nothing is left in any table or counter. */
  lemma StoppedIsEmpty(moves: seq<Move>, l: Limits, s: State)
    requires Reaches(moves, l, s) && s.stop.Returned?
    ensures s.t.connections == {} && s.t.states == {} && s.t.byName == map[]
    ensures s.t.byIp == map[] && s.t.byAuth == map[] && s.t.active == 0 && s.t.wait == 0
  {
    ReachableInvariant(moves, l, s);
    var t := s.t;
    assert WaitedFor(t) == {};
    forall c | 0 <= c < |t.conns|
      ensures c !in t.connections && c !in t.states
    {
      assert PlacedAt(t, c) && c !in WaitedFor(t);
    }
    assert t.states == {} && t.connections == {};
    assert Sessions(t) == {};
    forall ip
      ensures ip !in t.byIp
    {
      assert IpOk(t, l, ip) && OfIp(t, ip) == {};
    }
    forall auth
      ensures auth !in t.byAuth
    {
      assert AuthOk(t, l, auth) && OfAuth(t, auth) == {};
    }
    forall name: nat
      ensures name !in t.byName
    {
      assert EntryOk(t, name);
    }
  }

  /** n is what further moves make of s. */
  ghost predicate Continues(s: State, l: Limits, more: seq<Move>, n: State)
    decreases |more|
  {
    if more == [] then n == s
    else
      var m := more[|more| - 1];
      exists before :: Continues(s, l, more[..|more| - 1], before) && CanMove(before, m) && n == Moved(before, l, m)
  }

  lemma StoppingShrinks(s: State, l: Limits, m: Move)
    requires !s.stop.Serving? && CanMove(s, m)
    ensures Moved(s, l, m).t.connections <= s.t.connections && Moved(s, l, m).t.wait <= s.t.wait
    ensures !Moved(s, l, m).stop.Serving? && Moved(s, l, m).snapshot == s.snapshot
  {
    if m.Serve? {
      ServeQuiet(s.t, l, m.c, m.fails);
    }
  }

  /** From any state in which Stop has begun, through any further moves: no connection enters the table
      or the wait group again, Stop does not go back to serving, and what is left in the table is in
      the snapshot that Stop took. */
  lemma {:induction false} NothingEntersAfterStop(moves: seq<Move>, l: Limits, s: State, more: seq<Move>, n: State)
    requires Reaches(moves, l, s) && !s.stop.Serving? && Continues(s, l, more, n)
    ensures n.t.connections <= s.t.connections <= s.snapshot == n.snapshot
    ensures n.t.wait <= s.t.wait && !n.stop.Serving?
    decreases |more|
  {
    if more == [] {
      ReachableInvariant(moves, l, s);
    } else {
      var m := more[|more| - 1];
      var before :| Continues(s, l, more[..|more| - 1], before) && CanMove(before, m) && n == Moved(before, l, m);
      NothingEntersAfterStop(moves, l, s, more[..|more| - 1], before);
      StoppingShrinks(before, l, m);
    }
  }

  // ---- The sections as they run under the lifecycle mutex ---------------------------------------

  class Accounts {
    const limits: Limits
    var conns: seq<Conn>
    var connections: set<Id>
    var states: set<Id>
    var byName: map<nat, Id>
    var lastName: nat
    var byIp: map<Address, int>
    var byAuth: map<Int64, int>
    var active: int
    var wait: int

    ghost function Value(): Tables
      reads this
    {
      Tables(conns, connections, states, byName, lastName, byIp, byAuth, active, wait)
    }

    constructor (limits: Limits)
      ensures this.limits == limits && Value() == Start.t
    {
      this.limits := limits;
      conns, connections, states, byName, lastName := [], {}, {}, map[], 0;
      byIp, byAuth, active, wait := map[], map[], 0, 0;
    }

    method AdmitConnection(c: Id) returns (ok: bool)
      requires c < |conns|
      modifies this
      ensures Value() == Admit(old(Value()), limits, c)
      ensures ok <==> conns[c].phase.Admitted?
    {
      var k := conns[c];
      if limits.connections > 0 && |connections| > limits.connections {
        conns := conns[c := k.(phase := Rejected)];
        return false;
      }
      if k.ip != UNKNOWN && limits.perIp > 0 && k.ip in byIp && byIp[k.ip] >= limits.perIp {
        conns := conns[c := k.(phase := Rejected)];
        return false;
      }
      states := states + {c};
      byName := byName[k.name := c];
      if k.ip != UNKNOWN {
        byIp := byIp[k.ip := (if k.ip in byIp then byIp[k.ip] else 0) + 1];
      }
      conns := conns[c := k.(phase := Admitted)];
      ok := true;
    }

    /** The sessions go one by one, each with its guarded decrement. */
    method DropSessions(sessions: set<Key>)
      modifies this`active
      ensures active == Drained(old(active), |sessions|)
    {
      var left := sessions;
      while left != {}
        invariant Drained(active, |left|) == Drained(old(active), |sessions|)
        decreases |left|
      {
        var key :| key in left;
        left := left - {key};
        if active > 0 {
          active := active - 1;
        }
      }
    }

    static method CountDown<K(==)>(counts: map<K, int>, key: K) returns (r: map<K, int>)
      ensures r == Decrement(counts, key)
    {
      var next := (if key in counts then counts[key] else 0) - 1;
      r := if next <= 0 then counts - {key} else counts[key := next];
    }

    method FinishConnection(c: Id, setup: bool)
      requires c < |conns|
      modifies this
      ensures Value() == Finish(old(Value()), c, setup)
    {
      if c !in states {
        conns := conns[c := conns[c].(phase := Finished(setup))];
        return;
      }
      var k := conns[c];
      states := states - {c};
      byName := byName - {k.name};
      if k.ip != UNKNOWN {
        byIp := CountDown(byIp, k.ip);
      }
      if k.counted && k.auth != 0 {
        byAuth := CountDown(byAuth, k.auth);
      }
      DropSessions(k.sessions);
      conns := conns[c := k.(phase := Finished(setup), sessions := {}, onConn := 0)];
    }

    /** The result says whether the connection has to be closed over its key's limit. */
    method SessionBound(name: nat, auth: Int64, key: Key) returns (refused: bool)
      requires name in byName ==> byName[name] < |conns|
      modifies this
      ensures Value() == Bound(old(Value()), limits, name, auth, key)
      ensures refused ==> byAuth == old(byAuth) && active == old(active)
    {
      if name !in byName {
        return false;
      }
      var c := byName[name];
      if !conns[c].counted && auth != 0 {
        var count := if auth in byAuth then byAuth[auth] else 0;
        if limits.perAuth > 0 && count >= limits.perAuth {
          conns := conns[c := Closed(conns[c])];
          return true;
        }
        byAuth := byAuth[auth := count + 1];
        conns := conns[c := conns[c].(auth := auth, counted := true)];
      }
      if key !in conns[c].sessions {
        conns := conns[c := conns[c].(sessions := conns[c].sessions + {key}, onConn := conns[c].onConn + 1)];
        active := active + 1;
      }
      refused := false;
    }

    method SessionUnbound(name: nat, key: Key)
      requires name in byName ==> byName[name] < |conns|
      modifies this
      ensures Value() == Unbound(old(Value()), name, key)
    {
      if name !in byName || key !in conns[byName[name]].sessions {
        return;
      }
      var c := byName[name];
      var k := conns[c];
      conns := conns[c := k.(sessions := k.sessions - {key},
                             onConn := if k.onConn > 0 then k.onConn - 1 else k.onConn)];
      if active > 0 {
        active := active - 1;
      }
    }
  }
}
