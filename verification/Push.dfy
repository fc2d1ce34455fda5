/** The push registry, runtime_push.go: its two tables, and every interleaving of updates,
    removals and projected publishing. */
module Push {
  import opened Bytes
  import opened Common

  datatype Binding = Binding(
    connection: Uint64, authKey: Int64, session: Int64, generation: Int64, salt: Int64, user: Int64, layer: int)

  type Sender = nat
  /** A registration is a mutable object; its identity is its place in the order of creation. */
  type Id = nat

  datatype Entry = Entry(binding: Binding, sender: Sender, reachable: bool, accepts: bool)

  datatype Registry = Registry(
    byKey: map<Key, seq<Id>>, byUser: map<Int64, map<Key, seq<Id>>>, entries: seq<Entry>)

  /** The session key a binding was made for. */
  function KeyOf(b: Binding): Key
  {
    Key(ToUint64(b.authKey), b.session)
  }

  /** What Update binds, from the session's snapshot; layer 0 means the server's own. */
  function Bind(schemaLayer: int, k: Key, connection: Uint64, generation: Int64, salt: Int64, user: Int64, layer: int)
    : (b: Binding)
    ensures KeyOf(b) == k && b.user == user && b.generation == generation
    ensures b.salt == salt && b.connection == connection
    ensures b.layer == 0 ==> layer == 0 && schemaLayer == 0
  {
    Binding(connection, ToInt64(k.authKey), k.session, generation, salt, user,
            if layer == 0 then schemaLayer else layer)
  }

  function Listed(r: Registry, k: Key): seq<Id>
  {
    if k in r.byKey then r.byKey[k] else []
  }

  function Indexed(byUser: map<Int64, map<Key, seq<Id>>>, u: Int64, k: Key): seq<Id>
  {
    if u in byUser && k in byUser[u] then byUser[u][k] else []
  }

  function RemoveFirst(ids: seq<Id>, id: Id): seq<Id>
  {
    if ids == [] then [] else if ids[0] == id then ids[1..] else [ids[0]] + RemoveFirst(ids[1..], id)
  }

  function AddUser(byUser: map<Int64, map<Key, seq<Id>>>, k: Key, id: Id, u: Int64): map<Int64, map<Key, seq<Id>>>
  {
    var inner := if u in byUser then byUser[u] else map[];
    byUser[u := inner[k := Indexed(byUser, u, k) + [id]]]
  }

  function RemoveUser(byUser: map<Int64, map<Key, seq<Id>>>, k: Key, id: Id, u: Int64): map<Int64, map<Key, seq<Id>>>
  {
    if u == 0 || u !in byUser then byUser
    else
      var targets := RemoveFirst(Indexed(byUser, u, k), id);
      var inner := if targets == [] then byUser[u] - {k} else byUser[u][k := targets];
      if inner == map[] then byUser - {u} else byUser[u := inner]
  }

  function Reachable(b: Binding, accepts: bool): bool
  {
    b.user != 0 && accepts
  }

  /** The section that registers a sender not yet listed. */
  function Created(r: Registry, b: Binding, s: Sender, accepts: bool): Registry
  {
    var k, id := KeyOf(b), |r.entries|;
    Registry(r.byKey[k := Listed(r, k) + [id]],
             if Reachable(b, accepts) then AddUser(r.byUser, k, id, b.user) else r.byUser,
             r.entries + [Entry(b, s, Reachable(b, accepts), accepts)])
  }

  /** The section that rebinds a listed registration. */
  function Rebound(r: Registry, id: Id, b: Binding, accepts: bool): Registry
    requires id < |r.entries|
  {
    var k := KeyOf(b);
    var cleared := RemoveUser(r.byUser, k, id, r.entries[id].binding.user);
    r.(byUser := if Reachable(b, accepts) then AddUser(cleared, k, id, b.user) else cleared,
       entries := r.entries[id := Entry(b, r.entries[id].sender, Reachable(b, accepts), accepts)])
  }

  /** The section that removes a listed registration. */
  function Dropped(r: Registry, k: Key, id: Id): Registry
    requires id < |r.entries|
  {
    var rest := RemoveFirst(Listed(r, k), id);
    Registry(if rest == [] then r.byKey - {k} else r.byKey[k := rest],
             RemoveUser(r.byUser, k, id, r.entries[id].binding.user),
             r.entries[id := r.entries[id].(reachable := false, accepts := false)])
  }

  // ---- Agreement of the two tables ----------------------------------------------------------

  predicate Distinct(ids: seq<Id>)
  {
    forall i, j :: 0 <= i < j < |ids| ==> ids[i] != ids[j]
  }

  predicate Registered(r: Registry, id: Id)
  {
    id < |r.entries| && id in Listed(r, KeyOf(r.entries[id].binding))
  }

  /** Key k lists its own registrations, each once, with distinct senders. */
  predicate KeyOk(r: Registry, k: Key)
  {
    && Distinct(Listed(r, k))
    && (k in r.byKey ==> r.byKey[k] != [])
    && (forall id :: id in Listed(r, k) ==> id < |r.entries| && KeyOf(r.entries[id].binding) == k)
    && (forall id, j :: id in Listed(r, k) && j in Listed(r, k) && id != j ==>
          r.entries[id].sender != r.entries[j].sender)
  }

  predicate EntryOk(r: Registry, id: Id)
    requires id < |r.entries|
  {
    var e := r.entries[id];
    if Registered(r, id) then e.reachable == Reachable(e.binding, e.accepts) else !e.reachable && !e.accepts
  }

  /** The index of user u under key k holds exactly the reachable registrations of k bound to u. */
  ghost predicate Exact(r: Registry, u: Int64, k: Key)
  {
    && Distinct(Indexed(r.byUser, u, k))
    && (forall id: Id :: id in Indexed(r.byUser, u, k) <==>
          id in Listed(r, k) && id < |r.entries| && r.entries[id].reachable && r.entries[id].binding.user == u)
  }

  /** No user without a key, and no key without a registration. */
  predicate Tidy(byUser: map<Int64, map<Key, seq<Id>>>)
  {
    forall u :: u in byUser ==> byUser[u] != map[] && forall k :: k in byUser[u] ==> byUser[u][k] != []
  }

  ghost predicate Agree(r: Registry)
  {
    && (forall k :: KeyOk(r, k))
    && (forall id :: 0 <= id < |r.entries| ==> EntryOk(r, id))
    && (forall u, k :: Exact(r, u, k))
    && Tidy(r.byUser)
  }

  lemma {:induction false} RemoveFirstExact(ids: seq<Id>, id: Id)
    requires Distinct(ids)
    ensures Distinct(RemoveFirst(ids, id))
    ensures forall j :: j in RemoveFirst(ids, id) <==> j in ids && j != id
  {
    if ids != [] {
      assert ids == [ids[0]] + ids[1..];
      RemoveFirstExact(ids[1..], id);
      var rest := RemoveFirst(ids[1..], id);
      assert ids[0] !in ids[1..];
      assert forall j :: 0 <= j < |rest| ==> rest[j] in rest;
    }
  }

  lemma AddUserExact(byUser: map<Int64, map<Key, seq<Id>>>, k: Key, id: Id, u: Int64)
    requires Tidy(byUser)
    ensures Tidy(AddUser(byUser, k, id, u))
    ensures forall v, j :: Indexed(AddUser(byUser, k, id, u), v, j) ==
              if v == u && j == k then Indexed(byUser, u, k) + [id] else Indexed(byUser, v, j)
  {
    var n := AddUser(byUser, k, id, u);
    forall v | v in n
      ensures n[v] != map[] && forall j :: j in n[v] ==> n[v][j] != []
    {
      if v == u {
        assert k in n[u];
      }
    }
  }

  lemma RemoveUserExact(byUser: map<Int64, map<Key, seq<Id>>>, k: Key, id: Id, u: Int64)
    requires Tidy(byUser)
    ensures Tidy(RemoveUser(byUser, k, id, u))
    ensures forall v, j :: Indexed(RemoveUser(byUser, k, id, u), v, j) ==
              if v == u && j == k && u != 0 then RemoveFirst(Indexed(byUser, u, k), id) else Indexed(byUser, v, j)
  {
    if u != 0 && u in byUser {
      var targets := RemoveFirst(Indexed(byUser, u, k), id);
      var inner := if targets == [] then byUser[u] - {k} else byUser[u][k := targets];
      forall j
        ensures (j in inner <==> if j == k then targets != [] else j in byUser[u])
      {
      }
    }
  }

  lemma AppendDistinct(ids: seq<Id>, id: Id)
    requires Distinct(ids) && id !in ids
    ensures Distinct(ids + [id])
  {
  }

  // ---- The three sections keep it ------------------------------------------------------------

  predicate Missing(r: Registry, k: Key, s: Sender)
  {
    forall id :: id in Listed(r, k) && id < |r.entries| ==> r.entries[id].sender != s
  }

  lemma CreatedExact(r: Registry, b: Binding, s: Sender, accepts: bool, u: Int64, j: Key)
    requires KeyOk(r, j) && Exact(r, u, j) && Tidy(r.byUser)
    ensures Exact(Created(r, b, s, accepts), u, j)
  {
    AddUserExact(r.byUser, KeyOf(b), |r.entries|, b.user);
    AppendDistinct(Indexed(r.byUser, u, j), |r.entries|);
  }

  lemma CreatedKey(r: Registry, b: Binding, s: Sender, accepts: bool, j: Key)
    requires KeyOk(r, j) && Missing(r, KeyOf(b), s)
    ensures KeyOk(Created(r, b, s, accepts), j)
  {
    if j == KeyOf(b) {
      AppendDistinct(Listed(r, j), |r.entries|);
    }
  }

  lemma CreatedAgrees(r: Registry, b: Binding, s: Sender, accepts: bool)
    requires Agree(r) && Missing(r, KeyOf(b), s)
    ensures Agree(Created(r, b, s, accepts))
  {
    var k, id, n := KeyOf(b), |r.entries|, Created(r, b, s, accepts);
    AddUserExact(r.byUser, k, id, b.user);
    forall j
      ensures KeyOk(n, j)
    {
      assert KeyOk(r, j);
      CreatedKey(r, b, s, accepts, j);
    }
    forall i | 0 <= i < |n.entries|
      ensures EntryOk(n, i)
    {
      if i < id {
        assert EntryOk(r, i);
      }
    }
    forall u, j
      ensures Exact(n, u, j)
    {
      CreatedExact(r, b, s, accepts, u, j);
    }
  }

  lemma ReboundExact(r: Registry, id: Id, b: Binding, accepts: bool, u: Int64, j: Key)
    requires id < |r.entries| && id in Listed(r, KeyOf(b)) && KeyOf(r.entries[id].binding) == KeyOf(b)
    requires EntryOk(r, id) && KeyOk(r, j) && Exact(r, u, j) && Tidy(r.byUser)
    ensures Exact(Rebound(r, id, b, accepts), u, j)
  {
    var k, was := KeyOf(b), r.entries[id].binding.user;
    RemoveUserExact(r.byUser, k, id, was);
    AddUserExact(RemoveUser(r.byUser, k, id, was), k, id, b.user);
    RemoveFirstExact(Indexed(r.byUser, u, j), id);
  }

  lemma ReboundAgrees(r: Registry, id: Id, b: Binding, accepts: bool)
    requires Agree(r) && id < |r.entries| && id in Listed(r, KeyOf(b))
    ensures Agree(Rebound(r, id, b, accepts))
  {
    var k, n, was := KeyOf(b), Rebound(r, id, b, accepts), r.entries[id].binding.user;
    assert KeyOk(r, k);
    RemoveUserExact(r.byUser, k, id, was);
    AddUserExact(RemoveUser(r.byUser, k, id, was), k, id, b.user);
    forall j
      ensures KeyOk(n, j)
    {
      assert KeyOk(r, j);
    }
    forall i | 0 <= i < |n.entries|
      ensures EntryOk(n, i)
    {
      assert EntryOk(r, i);
    }
    forall u, j
      ensures Exact(n, u, j)
    {
      assert EntryOk(r, id) && KeyOk(r, j) && Exact(r, u, j);
      ReboundExact(r, id, b, accepts, u, j);
    }
  }

  lemma DroppedAgrees(r: Registry, k: Key, id: Id)
    requires Agree(r) && id < |r.entries| && id in Listed(r, k)
    ensures Agree(Dropped(r, k, id))
  {
    var n, was := Dropped(r, k, id), r.entries[id].binding.user;
    assert KeyOk(r, k);
    RemoveUserExact(r.byUser, k, id, was);
    RemoveFirstExact(Listed(r, k), id);
    forall j
      ensures KeyOk(n, j)
      ensures Listed(n, j) == if j == k then RemoveFirst(Listed(r, k), id) else Listed(r, j)
    {
      assert KeyOk(r, j);
    }
    forall i | 0 <= i < |n.entries|
      ensures EntryOk(n, i)
    {
      assert EntryOk(r, i);
    }
    forall u, j
      ensures Exact(n, u, j)
    {
      assert Exact(r, u, j) && KeyOk(r, j) && EntryOk(r, id);
      RemoveFirstExact(Indexed(r.byUser, u, j), id);
    }
  }

  /** Active exactly when some key lists a reachable registration bound to that positive user. */
  predicate HasActive(r: Registry, u: Int64)
  {
    u > 0 && u in r.byUser && r.byUser[u] != map[]
  }

  lemma ActiveMeansReachable(r: Registry, u: Int64)
    requires Agree(r)
    ensures HasActive(r, u) <==> u > 0 && exists id: Id :: Registered(r, id) && r.entries[id].reachable &&
                                                       r.entries[id].binding.user == u
  {
    if HasActive(r, u) {
      var k :| k in r.byUser[u];
      assert Exact(r, u, k) && KeyOk(r, k);
      assert r.byUser[u][k][0] in Indexed(r.byUser, u, k);
    }
    if id: Id :| Registered(r, id) && r.entries[id].reachable && r.entries[id].binding.user == u {
      assert Exact(r, u, KeyOf(r.entries[id].binding));
    }
  }

  // ---- Interleavings --------------------------------------------------------------------------

  type Thread = nat

  datatype Filter =
    | ToUser(user: Int64, notSession: Option<Key>, notAuthKey: Option<Uint64>)
    | ToAuthKey(authKey: Uint64)

  datatype Target = Target(id: Id, binding: Binding)
  datatype Update = Update(binding: Binding, sender: Sender, accepts: bool)

  datatype Pc =
    | UpdateFind(up: Update)
    | UpdateCreate(up: Update)
    | UpdateLock(id: Id, up: Update)
    | UpdateApply(id: Id, up: Update)
    | UpdateRetry(id: Id, up: Update)
    | RemoveFind(key: Key, sender: Sender)
    | RemoveLock(id: Id, key: Key, sender: Sender)
    | RemoveApply(id: Id, key: Key, sender: Sender)
    | RemoveRetry(id: Id, key: Key, sender: Sender)
    | Unlock(id: Id)
    | Collect(f: Filter)
    | Peek(f: Filter, todo: seq<Id>, targets: seq<Target>)
    | Project(f: Filter, targets: seq<Target>)
    | PushLock(f: Filter, target: Target, targets: seq<Target>)
    | PushCheck(f: Filter, target: Target, targets: seq<Target>)
    | PushSend(f: Filter, target: Target, targets: seq<Target>)
    | PushUnlock(f: Filter, id: Id, targets: seq<Target>)

  /** A projected body that went out, with the filter of the publish it belongs to. */
  datatype Sent = Sent(f: Filter, target: Target)

  datatype State = State(reg: Registry, mu: map<Id, Thread>, procs: map<Thread, Pc>, sent: seq<Sent>)

  const Start := State(Registry(map[], map[], []), map[], map[], [])

  /** A call begins, or a running call takes its next step. The step's free choices: the registration
      a lookup finds, the order a collection comes in, and whether a context, projector or encoder
      fails. */
  datatype Move = Begin(pc: Pc) | Advance(found: Id, order: seq<Id>, fails: bool)

  predicate Excluded(f: Filter, k: Key)
  {
    && f.ToUser?
    && ((f.notSession.Some? && f.notSession.value == k) || (f.notAuthKey.Some? && f.notAuthKey.value == k.authKey))
  }

  /** The registrations a publish reads out of the tables. */
  predicate Collected(r: Registry, f: Filter, id: Id)
  {
    match f
    case ToUser(u, _, _) => u in r.byUser && exists k :: k in r.byUser[u] && !Excluded(f, k) && id in r.byUser[u][k]
    case ToAuthKey(a) => exists k :: k in r.byKey && k.authKey == a && id in r.byKey[k]
  }

  predicate Passes(f: Filter, b: Binding)
  {
    match f
    case ToUser(u, _, _) => b.user == u && !Excluded(f, KeyOf(b))
    case ToAuthKey(a) => KeyOf(b).authKey == a
  }

  predicate Eligible(f: Filter, e: Entry)
  {
    if f.ToUser? then e.reachable else e.accepts && KeyOf(e.binding).authKey == f.authKey
  }

  predicate Found(r: Registry, k: Key, s: Sender, id: Id)
  {
    id in Listed(r, k) && id < |r.entries| && r.entries[id].sender == s
  }

  function Goto(s: State, t: Thread, pc: Pc): State
  {
    s.(procs := s.procs[t := pc])
  }

  function Finish(s: State, t: Thread): State
  {
    s.(procs := s.procs - {t})
  }

  function Lock(s: State, t: Thread, id: Id): State
  {
    s.(mu := s.mu[id := t])
  }

  function Release(s: State, id: Id): State
  {
    s.(mu := s.mu - {id})
  }

  predicate CanMove(s: State, t: Thread, m: Move)
  {
    match m
    case Begin(pc) => t !in s.procs && (pc.UpdateFind? || pc.RemoveFind? || pc.Collect?)
    case Advance(found, order, fails) =>
      && t in s.procs
      && match s.procs[t]
         case UpdateFind(up) =>
           Found(s.reg, KeyOf(up.binding), up.sender, found) || Missing(s.reg, KeyOf(up.binding), up.sender)
         case RemoveFind(k, n) => Found(s.reg, k, n, found) || Missing(s.reg, k, n)
         case UpdateLock(id, _) => id !in s.mu
         case UpdateApply(id, _) => id < |s.reg.entries|
         case RemoveLock(id, _, _) => id !in s.mu
         case RemoveApply(id, _, _) => id < |s.reg.entries|
         case Collect(f) =>
           && (forall i :: 0 <= i < |order| ==> Collected(s.reg, f, order[i]))
           && (forall id :: 0 <= id < |s.reg.entries| && Collected(s.reg, f, id) ==> id in order)
         case Peek(_, todo, _) => todo == [] || (todo[0] !in s.mu && todo[0] < |s.reg.entries|)
         case PushLock(_, target, _) => target.id !in s.mu
         case PushCheck(_, target, _) => target.id < |s.reg.entries|
         case _ => true
  }

  function Moved(s: State, t: Thread, m: Move): State
    requires CanMove(s, t, m)
  {
    match m
    case Begin(pc) => Goto(s, t, pc)
    case Advance(found, order, fails) =>
      match s.procs[t]
      case UpdateFind(up) =>
        Goto(s, t, if Found(s.reg, KeyOf(up.binding), up.sender, found) then UpdateLock(found, up)
                   else UpdateCreate(up))
      case UpdateCreate(up) =>
        if Missing(s.reg, KeyOf(up.binding), up.sender)
        then Finish(s.(reg := Created(s.reg, up.binding, up.sender, up.accepts)), t)
        else Goto(s, t, UpdateFind(up))
      case UpdateLock(id, up) => Goto(Lock(s, t, id), t, UpdateApply(id, up))
      case UpdateApply(id, up) =>
        if id in Listed(s.reg, KeyOf(up.binding))
        then Goto(s.(reg := Rebound(s.reg, id, up.binding, up.accepts)), t, Unlock(id))
        else Goto(s, t, UpdateRetry(id, up))
      case UpdateRetry(id, up) => Goto(Release(s, id), t, UpdateFind(up))
      case RemoveFind(k, n) => if Found(s.reg, k, n, found) then Goto(s, t, RemoveLock(found, k, n)) else Finish(s, t)
      case RemoveLock(id, k, n) => Goto(Lock(s, t, id), t, RemoveApply(id, k, n))
      case RemoveApply(id, k, n) =>
        if Found(s.reg, k, n, id) then Goto(s.(reg := Dropped(s.reg, k, id)), t, Unlock(id))
        else Goto(s, t, RemoveRetry(id, k, n))
      case RemoveRetry(id, k, n) => Goto(Release(s, id), t, RemoveFind(k, n))
      case Unlock(id) => Finish(Release(s, id), t)
      case Collect(f) => Goto(s, t, Peek(f, order, []))
      case Peek(f, todo, targets) =>
        if todo == [] then Goto(s, t, Project(f, targets))
        else
          var e := s.reg.entries[todo[0]];
          Goto(s, t, Peek(f, todo[1..],
                          if Eligible(f, e) && Passes(f, e.binding) then targets + [Target(todo[0], e.binding)]
                          else targets))
      case Project(f, targets) =>
        if targets == [] then Finish(s, t)
        else if fails then Goto(s, t, Project(f, targets[1..]))
        else Goto(s, t, PushLock(f, targets[0], targets[1..]))
      case PushLock(f, target, rest) => Goto(Lock(s, t, target.id), t, PushCheck(f, target, rest))
      case PushCheck(f, target, rest) =>
        var e := s.reg.entries[target.id];
        Goto(s, t, if Eligible(f, e) && e.binding == target.binding then PushSend(f, target, rest)
                   else PushUnlock(f, target.id, rest))
      case PushSend(f, target, rest) =>
        Goto(s.(sent := s.sent + [Sent(f, target)]), t, PushUnlock(f, target.id, rest))
      case PushUnlock(f, id, rest) => Goto(Release(s, id), t, Project(f, rest))
  }

  // ---- What every run keeps ---------------------------------------------------------------------

  predicate TargetOk(s: State, f: Filter, x: Target)
  {
    x.id < |s.reg.entries| && Passes(f, x.binding)
  }

  predicate TargetsOk(s: State, f: Filter, xs: seq<Target>)
  {
    forall i :: 0 <= i < |xs| ==> TargetOk(s, f, xs[i])
  }

  /** Registration id was found under key k for that sender; neither ever changes. */
  predicate Chosen(s: State, id: Id, k: Key, n: Sender)
  {
    id < |s.reg.entries| && KeyOf(s.reg.entries[id].binding) == k && s.reg.entries[id].sender == n
  }

  predicate Owns(s: State, t: Thread, id: Id)
  {
    id in s.mu && s.mu[id] == t
  }

  predicate ThreadOk(s: State, t: Thread)
    requires t in s.procs
  {
    match s.procs[t]
    case UpdateLock(id, up) => Chosen(s, id, KeyOf(up.binding), up.sender)
    case UpdateApply(id, up) => Chosen(s, id, KeyOf(up.binding), up.sender) && Owns(s, t, id)
    case UpdateRetry(id, _) => Owns(s, t, id)
    case RemoveLock(id, k, n) => Chosen(s, id, k, n)
    case RemoveApply(id, k, n) => Chosen(s, id, k, n) && Owns(s, t, id)
    case RemoveRetry(id, _, _) => Owns(s, t, id)
    case Unlock(id) => Owns(s, t, id)
    case Peek(f, todo, targets) =>
      TargetsOk(s, f, targets) && forall i :: 0 <= i < |todo| ==> todo[i] < |s.reg.entries|
    case Project(f, targets) => TargetsOk(s, f, targets)
    case PushLock(f, x, targets) => TargetOk(s, f, x) && TargetsOk(s, f, targets)
    case PushCheck(f, x, targets) => TargetOk(s, f, x) && TargetsOk(s, f, targets) && Owns(s, t, x.id)
    case PushSend(f, x, targets) =>
      && TargetOk(s, f, x) && TargetsOk(s, f, targets) && Owns(s, t, x.id)
      && Eligible(f, s.reg.entries[x.id]) && s.reg.entries[x.id].binding == x.binding
    case PushUnlock(f, id, targets) => TargetsOk(s, f, targets) && Owns(s, t, id)
    case _ => true
  }

  ghost predicate Invariant(s: State)
  {
    Agree(s.reg) && forall t :: t in s.procs ==> ThreadOk(s, t)
  }

  /** What a step of t leaves alone: identities, and whatever another thread has locked. */
  predicate Rely(s: State, n: State, t: Thread)
  {
    && |s.reg.entries| <= |n.reg.entries|
    && (forall id :: 0 <= id < |s.reg.entries| ==>
          && KeyOf(n.reg.entries[id].binding) == KeyOf(s.reg.entries[id].binding)
          && n.reg.entries[id].sender == s.reg.entries[id].sender
          && (id in s.mu && s.mu[id] != t ==> n.reg.entries[id] == s.reg.entries[id]))
    && (forall id :: id in s.mu && s.mu[id] != t ==> id in n.mu && n.mu[id] == s.mu[id])
    && (forall u :: u in n.procs && u != t ==> u in s.procs && n.procs[u] == s.procs[u])
  }

  lemma OthersUnaffected(s: State, n: State, t: Thread, u: Thread)
    requires Rely(s, n, t) && u != t && u in n.procs && u in s.procs && ThreadOk(s, u)
    ensures ThreadOk(n, u)
  {
  }

  lemma Assemble(s: State, n: State, t: Thread)
    requires Invariant(s) && Rely(s, n, t) && Agree(n.reg) && (t in n.procs ==> ThreadOk(n, t))
    ensures Invariant(n)
  {
    forall u | u in n.procs
      ensures ThreadOk(n, u)
    {
      if u != t {
        OthersUnaffected(s, n, t, u);
      }
    }
  }

  /** A publish reads out exactly the registrations it is addressed to. */
  lemma CollectedExactly(r: Registry, f: Filter, id: Id)
    requires Agree(r)
    ensures Collected(r, f, id) <==> Registered(r, id) && Passes(f, r.entries[id].binding) &&
                                     (f.ToUser? ==> r.entries[id].reachable)
  {
    if id < |r.entries| {
      var b := r.entries[id].binding;
      assert Exact(r, b.user, KeyOf(b)) && KeyOk(r, KeyOf(b));
    }
    if Collected(r, f, id) {
      match f
      case ToUser(u, _, _) =>
        var k :| k in r.byUser[u] && !Excluded(f, k) && id in r.byUser[u][k];
        assert Exact(r, u, k) && KeyOk(r, k) && id in Indexed(r.byUser, u, k);
      case ToAuthKey(a) =>
        var k :| k in r.byKey && k.authKey == a && id in r.byKey[k];
        assert KeyOk(r, k) && id in Listed(r, k);
    }
  }

  lemma UpdateStep(s: State, t: Thread, m: Move)
    requires Invariant(s) && CanMove(s, t, m) && m.Advance?
    requires s.procs[t].UpdateFind? || s.procs[t].UpdateCreate? || s.procs[t].UpdateLock? ||
             s.procs[t].UpdateApply? || s.procs[t].UpdateRetry?
    ensures Invariant(Moved(s, t, m))
  {
    var n := Moved(s, t, m);
    var up := s.procs[t].up;
    assert ThreadOk(s, t) && KeyOk(s.reg, KeyOf(up.binding));
    if s.procs[t].UpdateCreate? && Missing(s.reg, KeyOf(up.binding), up.sender) {
      CreatedAgrees(s.reg, up.binding, up.sender, up.accepts);
    }
    if s.procs[t].UpdateApply? && s.procs[t].id in Listed(s.reg, KeyOf(up.binding)) {
      ReboundAgrees(s.reg, s.procs[t].id, up.binding, up.accepts);
    }
    Assemble(s, n, t);
  }

  lemma RemoveStep(s: State, t: Thread, m: Move)
    requires Invariant(s) && CanMove(s, t, m) && m.Advance?
    requires s.procs[t].RemoveFind? || s.procs[t].RemoveLock? || s.procs[t].RemoveApply? ||
             s.procs[t].RemoveRetry? || s.procs[t].Unlock?
    ensures Invariant(Moved(s, t, m))
  {
    var n, pc := Moved(s, t, m), s.procs[t];
    assert ThreadOk(s, t);
    if !pc.Unlock? {
      assert KeyOk(s.reg, pc.key);
    }
    if pc.RemoveApply? && Found(s.reg, pc.key, pc.sender, pc.id) {
      DroppedAgrees(s.reg, pc.key, pc.id);
    }
    Assemble(s, n, t);
  }

  lemma PublishStep(s: State, t: Thread, m: Move)
    requires Invariant(s) && CanMove(s, t, m) && m.Advance?
    requires s.procs[t].Collect? || s.procs[t].Peek? || s.procs[t].Project?
    ensures Invariant(Moved(s, t, m))
  {
    var n, pc := Moved(s, t, m), s.procs[t];
    assert ThreadOk(s, t);
    if pc.Collect? {
      forall i | 0 <= i < |m.order|
        ensures m.order[i] < |s.reg.entries|
      {
        CollectedExactly(s.reg, pc.f, m.order[i]);
      }
    }
    Assemble(s, n, t);
  }

  lemma PushStep(s: State, t: Thread, m: Move)
    requires Invariant(s) && CanMove(s, t, m) && m.Advance?
    requires s.procs[t].PushLock? || s.procs[t].PushCheck? || s.procs[t].PushSend? || s.procs[t].PushUnlock?
    ensures Invariant(Moved(s, t, m))
  {
    assert ThreadOk(s, t);
    Assemble(s, Moved(s, t, m), t);
  }

  lemma MoveKeepsInvariant(s: State, t: Thread, m: Move)
    requires Invariant(s) && CanMove(s, t, m)
    ensures Invariant(Moved(s, t, m))
  {
    if m.Begin? {
      Assemble(s, Moved(s, t, m), t);
    } else {
      var pc := s.procs[t];
      if pc.Collect? || pc.Peek? || pc.Project? {
        PublishStep(s, t, m);
      } else if pc.PushLock? || pc.PushCheck? || pc.PushSend? || pc.PushUnlock? {
        PushStep(s, t, m);
      } else if pc.RemoveFind? || pc.RemoveLock? || pc.RemoveApply? || pc.RemoveRetry? || pc.Unlock? {
        RemoveStep(s, t, m);
      } else {
        UpdateStep(s, t, m);
      }
    }
  }

  /** Every finite interleaving from the empty registry. */
  ghost predicate Reaches(moves: seq<(Thread, Move)>, s: State)
    decreases |moves|
  {
    if moves == [] then s == Start
    else
      var (t, m) := moves[|moves| - 1];
      exists before :: Reaches(moves[..|moves| - 1], before) && CanMove(before, t, m) && s == Moved(before, t, m)
  }

  lemma StartAgrees()
    ensures Invariant(Start)
  {
    assert forall k :: KeyOk(Start.reg, k);
    assert forall u, k :: Exact(Start.reg, u, k);
  }

  lemma {:induction false} ReachableInvariant(moves: seq<(Thread, Move)>, s: State)
    requires Reaches(moves, s)
    ensures Invariant(s)
    decreases |moves|
  {
    if moves == [] {
      StartAgrees();
    } else {
      var (t, m) := moves[|moves| - 1];
      var before :| Reaches(moves[..|moves| - 1], before) && CanMove(before, t, m) && s == Moved(before, t, m);
      ReachableInvariant(moves[..|moves| - 1], before);
      MoveKeepsInvariant(before, t, m);
    }
  }

  /** Between critical sections the index of a user holds exactly that user's reachable
      registrations, and a user is active exactly when one exists. */
  lemma IndexAgrees(moves: seq<(Thread, Move)>, s: State, u: Int64, k: Key)
    requires Reaches(moves, s)
    ensures Exact(s.reg, u, k) && KeyOk(s.reg, k) && Tidy(s.reg.byUser)
    ensures HasActive(s.reg, u) <==> u > 0 && exists id: Id :: Registered(s.reg, id) && s.reg.entries[id].reachable &&
                                                               s.reg.entries[id].binding.user == u
  {
    ReachableInvariant(moves, s);
    ActiveMeansReachable(s.reg, u);
  }

  /** The registration of x is in the registry, accepts, is bound as x says, and is one that the
      publish is addressed to. */
  ghost predicate Current(r: Registry, f: Filter, x: Target)
  {
    && Registered(r, x.id) && r.entries[x.id].binding == x.binding && r.entries[x.id].accepts
    && Passes(f, x.binding) && (f.ToUser? ==> r.entries[x.id].reachable)
  }

  lemma EligibleIsCurrent(r: Registry, f: Filter, x: Target)
    requires x.id < |r.entries| && EntryOk(r, x.id) && KeyOk(r, KeyOf(r.entries[x.id].binding))
    requires Eligible(f, r.entries[x.id]) && r.entries[x.id].binding == x.binding && Passes(f, x.binding)
    ensures Current(r, f, x)
  {
  }

  /** A projected body goes out only while its registration is in the registry, eligible, and bound
      exactly as when the body was projected. */
  lemma ProjectedPushIsCurrent(moves: seq<(Thread, Move)>, s: State, t: Thread)
    requires Reaches(moves, s) && t in s.procs && s.procs[t].PushSend?
    ensures Current(s.reg, s.procs[t].f, s.procs[t].target)
  {
    ReachableInvariant(moves, s);
    assert ThreadOk(s, t);
    assert EntryOk(s.reg, s.procs[t].target.id);
    EligibleIsCurrent(s.reg, s.procs[t].f, s.procs[t].target);
  }

  /** The targets a publish has read out and not yet dealt with. */
  function Pending(pc: Pc): seq<Target>
  {
    match pc
    case Peek(_, _, targets) => targets
    case Project(_, targets) => targets
    case PushLock(_, x, targets) => [x] + targets
    case PushCheck(_, x, targets) => [x] + targets
    case PushSend(_, x, targets) => [x] + targets
    case PushUnlock(_, _, targets) => targets
    case _ => []
  }

  predicate Publishes(pc: Pc)
  {
    pc.Peek? || pc.Project? || pc.PushLock? || pc.PushCheck? || pc.PushSend? || pc.PushUnlock?
  }

  /** Call u is about to read the binding of x, which is current. */
  ghost predicate Reads(s: State, u: Thread, f: Filter, x: Target)
  {
    && u in s.procs && s.procs[u].Peek? && s.procs[u].f == f && s.procs[u].todo != [] && s.procs[u].todo[0] == x.id
    && Current(s.reg, f, x)
  }

  /** Step i of the run is the one in which call u reads the binding of x. */
  ghost predicate ReadAt(moves: seq<(Thread, Move)>, i: nat, at: State, u: Thread, f: Filter, x: Target)
  {
    i < |moves| && moves[i].0 == u && Reaches(moves[..i], at) && Reads(at, u, f, x)
  }

  lemma ReadAtLater(moves: seq<(Thread, Move)>, i: nat, at: State, u: Thread, f: Filter, x: Target)
    requires moves != [] && ReadAt(moves[..|moves| - 1], i, at, u, f, x)
    ensures ReadAt(moves, i, at, u, f, x)
  {
    assert moves[..|moves| - 1][..i] == moves[..i];
  }

  lemma ReadNow(moves: seq<(Thread, Move)>, at: State, u: Thread, f: Filter, x: Target)
    requires moves != [] && Reaches(moves[..|moves| - 1], at) && moves[|moves| - 1].0 == u && Reads(at, u, f, x)
    ensures ReadAt(moves, |moves| - 1, at, u, f, x)
  {
  }

  lemma ReachableAgrees(moves: seq<(Thread, Move)>, s: State)
    requires Reaches(moves, s)
    ensures Agree(s.reg)
  {
    ReachableInvariant(moves, s);
  }

  lemma OthersStay(s: State, t: Thread, m: Move, u: Thread)
    requires CanMove(s, t, m) && u != t
    ensures u in Moved(s, t, m).procs <==> u in s.procs
    ensures u in s.procs ==> Moved(s, t, m).procs[u] == s.procs[u]
  {
  }

  /** Reading one registration adds at most its own target. */
  lemma PeekedFrom(s: State, t: Thread, m: Move, x: Target)
    requires Agree(s.reg) && CanMove(s, t, m) && m.Advance? && s.procs[t].Peek?
    requires x in Pending(Moved(s, t, m).procs[t]) && x !in Pending(s.procs[t])
    ensures Reads(s, t, s.procs[t].f, x)
  {
    var id := s.procs[t].todo[0];
    assert EntryOk(s.reg, id) && KeyOk(s.reg, KeyOf(s.reg.entries[id].binding));
    EligibleIsCurrent(s.reg, s.procs[t].f, x);
  }

  lemma SentFrom(s: State, t: Thread, m: Move, x: Target)
    requires CanMove(s, t, m) && m.Advance? && !s.procs[t].Peek? && t in Moved(s, t, m).procs
    requires Publishes(Moved(s, t, m).procs[t]) && x in Pending(Moved(s, t, m).procs[t])
    ensures Publishes(s.procs[t]) && s.procs[t].f == Moved(s, t, m).procs[t].f && x in Pending(s.procs[t])
  {
  }

  /** A target pending after a step was pending before it, or is just being read. */
  lemma PendingFrom(s: State, t: Thread, m: Move, u: Thread, x: Target)
    requires Agree(s.reg) && CanMove(s, t, m)
    requires u in Moved(s, t, m).procs && Publishes(Moved(s, t, m).procs[u]) && x in Pending(Moved(s, t, m).procs[u])
    ensures var f := Moved(s, t, m).procs[u].f;
            || (u in s.procs && Publishes(s.procs[u]) && s.procs[u].f == f && x in Pending(s.procs[u]))
            || (u == t && Reads(s, u, f, x))
  {
    if u != t {
      OthersStay(s, t, m, u);
    } else if m.Advance? {
      if !s.procs[t].Peek? {
        SentFrom(s, t, m, x);
      } else if x !in Pending(s.procs[t]) {
        PeekedFrom(s, t, m, x);
      }
    }
  }

  /** Whatever a publish still has to send was current when it was read. */
  lemma {:induction false} PendingWasRead(moves: seq<(Thread, Move)>, s: State, u: Thread, x: Target)
    returns (i: nat, at: State)
    requires Reaches(moves, s) && u in s.procs && Publishes(s.procs[u]) && x in Pending(s.procs[u])
    ensures ReadAt(moves, i, at, u, s.procs[u].f, x)
    decreases |moves|
  {
    var front := moves[..|moves| - 1];
    var (t, m) := moves[|moves| - 1];
    var before :| Reaches(front, before) && CanMove(before, t, m) && s == Moved(before, t, m);
    ReachableAgrees(front, before);
    PendingFrom(before, t, m, u, x);
    if u == t && Reads(before, u, s.procs[u].f, x) {
      i, at := |front|, before;
      ReadNow(moves, before, u, s.procs[u].f, x);
    } else {
      i, at := PendingWasRead(front, before, u, x);
      ReadAtLater(moves, i, at, u, s.procs[u].f, x);
    }
  }

  lemma SendsOnlyWhenSending(s: State, t: Thread, m: Move)
    requires CanMove(s, t, m)
    ensures Moved(s, t, m).sent ==
            if m.Advance? && s.procs[t].PushSend? then s.sent + [Sent(s.procs[t].f, s.procs[t].target)] else s.sent
  {
  }

  /** Step j of the run is the one in which call u sends what becomes entry k of the history. */
  ghost predicate SentAt(moves: seq<(Thread, Move)>, j: nat, at: State, u: Thread, k: nat, y: Sent)
  {
    && j < |moves| && moves[j].0 == u && Reaches(moves[..j], at) && |at.sent| == k
    && u in at.procs && at.procs[u].PushSend? && y == Sent(at.procs[u].f, at.procs[u].target)
    && Current(at.reg, y.f, y.target)
  }

  lemma SentAtLater(moves: seq<(Thread, Move)>, j: nat, at: State, k: nat, y: Sent)
    requires j + 1 < |moves| && SentAt(moves[..|moves| - 1], j, at, moves[j].0, k, y)
    ensures SentAt(moves, j, at, moves[j].0, k, y)
  {
    assert moves[..|moves| - 1][..j] == moves[..j];
  }

  lemma SentNow(moves: seq<(Thread, Move)>, at: State, t: Thread)
    requires moves != [] && Reaches(moves[..|moves| - 1], at) && moves[|moves| - 1].0 == t
    requires t in at.procs && at.procs[t].PushSend?
    ensures SentAt(moves, |moves| - 1, at, t, |at.sent|, Sent(at.procs[t].f, at.procs[t].target))
  {
    ProjectedPushIsCurrent(moves[..|moves| - 1], at, t);
  }

  lemma {:induction false} SentOnce(moves: seq<(Thread, Move)>, s: State, k: nat) returns (j: nat, at: State)
    requires Reaches(moves, s) && k < |s.sent|
    ensures j < |moves| && SentAt(moves, j, at, moves[j].0, k, s.sent[k])
    decreases |moves|
  {
    var front := moves[..|moves| - 1];
    var (t, m) := moves[|moves| - 1];
    var before :| Reaches(front, before) && CanMove(before, t, m) && s == Moved(before, t, m);
    SendsOnlyWhenSending(before, t, m);
    if k < |before.sent| {
      j, at := SentOnce(front, before, k);
      SentAtLater(moves, j, at, k, s.sent[k]);
    } else {
      j, at := |front|, before;
      SentNow(moves, before, t);
    }
  }

  /** Every body ever sent was current twice: in the step of the run that sent it, and in the earlier
      step of the same call that read the binding it was projected for. */
  lemma EverySendWasCurrent(moves: seq<(Thread, Move)>, s: State, k: nat)
    returns (u: Thread, i: nat, read: State, j: nat, at: State)
    requires Reaches(moves, s) && k < |s.sent|
    ensures i < j && ReadAt(moves, i, read, u, s.sent[k].f, s.sent[k].target)
    ensures SentAt(moves, j, at, u, k, s.sent[k])
  {
    j, at := SentOnce(moves, s, k);
    u := moves[j].0;
    i, read := PendingWasRead(moves[..j], at, u, s.sent[k].target);
    assert moves[..j][..i] == moves[..i];
  }

  // ---- The sections as they run under the registry's mutex --------------------------------------

  class PushRegistry {
    var byKey: map<Key, seq<Id>>
    var byUser: map<Int64, map<Key, seq<Id>>>
    var entries: seq<Entry>

    ghost function Value(): Registry
      reads this
    {
      Registry(byKey, byUser, entries)
    }

    constructor ()
      ensures Value() == Start.reg && Agree(Value())
    {
      byKey, byUser, entries := map[], map[], [];
      new;
      StartAgrees();
    }

    /** The first registration of that sender in the list, or -1. */
    method Find(ids: seq<Id>, s: Sender) returns (i: int)
      requires forall j :: 0 <= j < |ids| ==> ids[j] < |entries|
      ensures -1 <= i < |ids|
      ensures i >= 0 ==> entries[ids[i]].sender == s
      ensures forall j :: 0 <= j < (if i < 0 then |ids| else i) ==> entries[ids[j]].sender != s
    {
      for k := 0 to |ids|
        invariant forall j :: 0 <= j < k ==> entries[ids[j]].sender != s
      {
        if entries[ids[k]].sender == s {
          return k;
        }
      }
      i := -1;
    }

    method Contains(ids: seq<Id>, target: Id) returns (b: bool)
      ensures b <==> target in ids
    {
      for k := 0 to |ids|
        invariant target !in ids[..k]
      {
        if ids[k] == target {
          return true;
        }
      }
      assert ids[..|ids|] == ids;
      b := false;
    }

    method AddUserLocked(k: Key, id: Id, u: Int64)
      modifies this`byUser
      ensures byUser == AddUser(old(byUser), k, id, u)
    {
      var bindings := if u in byUser then byUser[u] else map[];
      var targets := if k in bindings then bindings[k] else [];
      byUser := byUser[u := bindings[k := targets + [id]]];
    }

    method RemoveUserLocked(k: Key, id: Id, u: Int64)
      modifies this`byUser
      ensures byUser == RemoveUser(old(byUser), k, id, u)
    {
      if u == 0 {
        return;
      }
      var bindings := if u in byUser then byUser[u] else map[];
      var targets := if k in bindings then bindings[k] else [];
      ghost var all := targets;
      var i := 0;
      while i < |targets|
        invariant i <= |targets| && targets == all && id !in all[..i]
      {
        if targets[i] == id {
          RemoveFirstAt(all, id, i);
          targets := targets[..i] + targets[i + 1..];
          break;
        }
        i := i + 1;
      }
      if i == |all| {
        assert all[..i] == all;
        RemoveFirstNone(all, id);
      }
      bindings := if |targets| == 0 then bindings - {k} else bindings[k := targets];
      byUser := if bindings == map[] then byUser - {u} else byUser[u := bindings];
    }

    /** Where the sender stands among the registrations of the key, or -1. */
    method FindUnder(k: Key, s: Sender) returns (ids: seq<Id>, i: int)
      requires KeyOk(Value(), k)
      ensures ids == Listed(Value(), k) && -1 <= i < |ids|
      ensures i < 0 <==> Missing(Value(), k, s)
      ensures i >= 0 ==> ids[i] < |entries| && entries[ids[i]].sender == s && ids[i] !in ids[..i]
      ensures forall id: Id :: Found(Value(), k, s, id) <==> i >= 0 && id == ids[i]
    {
      ids := if k in byKey then byKey[k] else [];
      assert forall j :: 0 <= j < |ids| ==> ids[j] in ids;
      i := Find(ids, s);
    }

    /** Update's section for a sender without a registration; false sends the caller round again. */
    method CreateLocked(b: Binding, s: Sender, accepts: bool) returns (done: bool)
      requires KeyOk(Value(), KeyOf(b))
      modifies this
      ensures done <==> Missing(old(Value()), KeyOf(b), s)
      ensures Value() == if done then Created(old(Value()), b, s, accepts) else old(Value())
    {
      var k := KeyOf(b);
      var ids, i := FindUnder(k, s);
      if i >= 0 {
        return false;
      }
      entries := entries + [Entry(b, s, b.user != 0 && accepts, accepts)];
      byKey := byKey[k := ids + [|entries| - 1]];
      if b.user != 0 && accepts {
        AddUserLocked(k, |entries| - 1, b.user);
      }
      done := true;
    }

    /** Update's section for a registration found before; false when it has gone meanwhile. */
    method RebindLocked(id: Id, b: Binding, accepts: bool) returns (done: bool)
      requires id < |entries|
      modifies this`byUser, this`entries
      ensures done <==> id in Listed(old(Value()), KeyOf(b))
      ensures Value() == if done then Rebound(old(Value()), id, b, accepts) else old(Value())
    {
      var k := KeyOf(b);
      var ids := if k in byKey then byKey[k] else [];
      done := Contains(ids, id);
      if !done {
        return;
      }
      RemoveUserLocked(k, id, entries[id].binding.user);
      entries := entries[id := Entry(b, entries[id].sender, b.user != 0 && accepts, accepts)];
      if b.user != 0 && accepts {
        AddUserLocked(k, id, b.user);
      }
    }

    /** Remove's section: the registration found before must still be that sender's. */
    method DropLocked(k: Key, s: Sender, id: Id) returns (done: bool)
      requires KeyOk(Value(), k) && id < |entries|
      modifies this
      ensures done <==> Found(old(Value()), k, s, id)
      ensures Value() == if done then Dropped(old(Value()), k, id) else old(Value())
    {
      var ids, i := FindUnder(k, s);
      if i < 0 || ids[i] != id {
        return false;
      }
      RemoveFirstAt(ids, id, i);
      var rest := ids[..i] + ids[i + 1..];
      byKey := if |rest| == 0 then byKey - {k} else byKey[k := rest];
      RemoveUserLocked(k, id, entries[id].binding.user);
      entries := entries[id := entries[id].(reachable := false, accepts := false)];
      done := true;
    }

    method HasActiveUser(u: Int64) returns (b: bool)
      requires Agree(Value())
      ensures b <==> u > 0 && exists id: Id ::
                Registered(Value(), id) && entries[id].reachable && entries[id].binding.user == u
    {
      ActiveMeansReachable(Value(), u);
      if u <= 0 {
        return false;
      }
      b := u in byUser && |byUser[u]| != 0;
    }
  }

  lemma {:induction false} RemoveFirstAt(ids: seq<Id>, id: Id, i: nat)
    requires i < |ids| && ids[i] == id && id !in ids[..i]
    ensures RemoveFirst(ids, id) == ids[..i] + ids[i + 1..]
  {
    if i > 0 {
      assert ids[0] in ids[..i] && ids[1..][..i - 1] == ids[..i][1..];
      RemoveFirstAt(ids[1..], id, i - 1);
    }
  }

  lemma {:induction false} RemoveFirstNone(ids: seq<Id>, id: Id)
    requires id !in ids
    ensures RemoveFirst(ids, id) == ids
  {
    if ids != [] {
      assert ids[0] in ids;
      RemoveFirstNone(ids[1..], id);
    }
  }
}
