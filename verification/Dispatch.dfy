/** Layer dispatch: method_layers.go, service registration in server.go and the method table of
    runtime_application.go. */
module Dispatch {
  import opened Bytes
  import opened Common

  /** One row of a service description. The contract stands for the identity of its request type,
      handler and encoder; complete says that none of them is nil and that the request type carries
      the row's own constructor. */
  datatype Method = Method(minLayer: int, maxLayer: int, name: string, ctor: Uint32, contract: nat, complete: bool)
  datatype Service = Service(name: string, schemaLayer: int, methods: seq<Method>, implemented: bool)

  predicate Supports(m: Method, layer: int)
  {
    (m.minLayer == 0 || layer >= m.minLayer) && (m.maxLayer == 0 || layer <= m.maxLayer)
  }

  predicate Overlap(a: Method, b: Method)
  {
    (a.maxLayer == 0 || b.minLayer <= a.maxLayer) && (b.maxLayer == 0 || a.minLayer <= b.maxLayer)
  }

  predicate ValidRange(m: Method)
  {
    m.minLayer >= 0 && m.maxLayer >= 0 && (m.maxLayer == 0 || m.minLayer <= m.maxLayer)
  }

  /** Two valid ranges overlap exactly when some layer lies in both. */
  lemma OverlapExactly(a: Method, b: Method)
    requires ValidRange(a) && ValidRange(b)
    ensures Overlap(a, b) <==> exists layer: int :: Supports(a, layer) && Supports(b, layer)
  {
    if Overlap(a, b) {
      var layer := if a.minLayer < b.minLayer then b.minLayer else a.minLayer;
      assert Supports(a, layer) && Supports(b, layer);
    }
  }

  // ---- Registration -------------------------------------------------------------------------

  datatype Server = Server(
    services: map<string, Service>, constructors: set<Uint32>, handlers: set<Uint32>, schemaLayer: Option<int>)

  predicate WellFormed(m: Method)
  {
    m.name != "" && m.ctor != 0 && m.complete && ValidRange(m)
  }

  predicate Compatible(a: Method, b: Method)
  {
    && (a.ctor == b.ctor ==> !Overlap(a, b))
    && (a.name == b.name ==> a.ctor == b.ctor && a.contract == b.contract)
  }

  predicate RowOk(s: Server, ms: seq<Method>, i: nat)
    requires i < |ms|
  {
    && WellFormed(ms[i]) && ms[i].ctor !in s.constructors && ms[i].ctor !in s.handlers
    && forall j :: 0 <= j < i ==> Compatible(ms[j], ms[i])
  }

  predicate HeadOk(s: Server, d: Service)
  {
    && d.name != "" && d.methods != [] && d.implemented && d.name !in s.services
    && (s.schemaLayer.None? || s.schemaLayer.value == d.schemaLayer)
  }

  /** What a service must be to be taken. */
  predicate Acceptable(s: Server, d: Service)
  {
    HeadOk(s, d) && forall i :: 0 <= i < |d.methods| ==> RowOk(s, d.methods, i)
  }

  function Ids(ms: seq<Method>): set<Uint32>
  {
    set i | 0 <= i < |ms| :: ms[i].ctor
  }

  function Registered(s: Server, d: Service): Server
  {
    Server(s.services[d.name := d], s.constructors + Ids(d.methods), s.handlers + Ids(d.methods), Some(d.schemaLayer))
  }

  /** The state after a sequence of attempts; a refused one panics and changes nothing. */
  function After(ds: seq<Service>): Server
  {
    if ds == [] then Server(map[], {}, {}, None)
    else
      var s := After(ds[..|ds| - 1]);
      if Acceptable(s, ds[|ds| - 1]) then Registered(s, ds[|ds| - 1]) else s
  }

  /** Row i of service n handles a constructor at a layer. */
  predicate Handles(s: Server, n: string, i: nat, ctor: Uint32, layer: int)
  {
    && n in s.services && i < |s.services[n].methods|
    && s.services[n].methods[i].ctor == ctor && Supports(s.services[n].methods[i], layer)
  }

  predicate ServiceOk(s: Server, n: string)
  {
    n in s.services ==>
      var ms := s.services[n].methods;
      && Ids(ms) <= s.constructors && Ids(ms) <= s.handlers
      && (forall i :: 0 <= i < |ms| ==> ValidRange(ms[i]))
      && (forall i, j :: 0 <= i < j < |ms| && ms[i].ctor == ms[j].ctor ==> !Overlap(ms[i], ms[j]))
  }

  predicate Disjoint(s: Server, n: string, k: string)
  {
    n in s.services && k in s.services && n != k ==> Ids(s.services[n].methods) !! Ids(s.services[k].methods)
  }

  ghost predicate ServerOk(s: Server)
  {
    (forall n :: ServiceOk(s, n)) && (forall n, k :: Disjoint(s, n, k))
  }

  lemma RegisteredOk(s: Server, d: Service)
    requires ServerOk(s) && Acceptable(s, d)
    ensures ServerOk(Registered(s, d))
  {
    var n := Registered(s, d);
    forall k
      ensures ServiceOk(n, k)
    {
      assert ServiceOk(s, k);
      if k == d.name {
        forall i, j | 0 <= i < j < |d.methods| && d.methods[i].ctor == d.methods[j].ctor
          ensures !Overlap(d.methods[i], d.methods[j])
        {
          assert RowOk(s, d.methods, j) && Compatible(d.methods[i], d.methods[j]);
        }
        forall i | 0 <= i < |d.methods|
          ensures ValidRange(d.methods[i])
        {
          assert RowOk(s, d.methods, i);
        }
      }
    }
    forall k, l
      ensures Disjoint(n, k, l)
    {
      assert Disjoint(s, k, l) && ServiceOk(s, k) && ServiceOk(s, l);
      assert forall c :: c in Ids(d.methods) ==> c !in s.constructors by {
        forall i | 0 <= i < |d.methods|
          ensures d.methods[i].ctor !in s.constructors
        {
          assert RowOk(s, d.methods, i);
        }
      }
    }
  }

  lemma {:induction false} AlwaysOk(ds: seq<Service>)
    ensures ServerOk(After(ds))
    decreases |ds|
  {
    if ds != [] {
      var s := After(ds[..|ds| - 1]);
      AlwaysOk(ds[..|ds| - 1]);
      if Acceptable(s, ds[|ds| - 1]) {
        RegisteredOk(s, ds[|ds| - 1]);
      }
    }
  }

  /** Whatever was registered, a constructor at a layer has at most one handler. */
  lemma HandlerUnique(ds: seq<Service>, ctor: Uint32, layer: int, n: string, i: nat, k: string, j: nat)
    requires Handles(After(ds), n, i, ctor, layer) && Handles(After(ds), k, j, ctor, layer)
    ensures n == k && i == j
  {
    var s := After(ds);
    AlwaysOk(ds);
    assert ServiceOk(s, n) && ServiceOk(s, k) && Disjoint(s, n, k);
    var a, b := s.services[n].methods, s.services[k].methods;
    assert a[i].ctor in Ids(a) && b[j].ctor in Ids(b);
    assert n == k;
    OverlapExactly(a[i], a[j]);
    OverlapExactly(a[j], a[i]);
  }

  // ---- Registration as it runs ------------------------------------------------------------------

  predicate SameContract(a: Method, b: Method)
  {
    a.ctor == b.ctor && a.contract == b.contract
  }

  /** One of the first i rows. */
  predicate Among(ms: seq<Method>, i: nat, m: Method)
    requires i <= |ms|
  {
    i > 0 && (ms[i - 1] == m || Among(ms, i - 1, m))
  }

  lemma {:induction false} AmongAt(ms: seq<Method>, i: nat, m: Method) returns (j: nat)
    requires i <= |ms| && Among(ms, i, m)
    ensures j < i && ms[j] == m
  {
    if ms[i - 1] == m {
      j := i - 1;
    } else {
      j := AmongAt(ms, i - 1, m);
    }
  }

  predicate IdsHold(ms: seq<Method>, i: nat, byId: map<Uint32, seq<Method>>)
    requires i <= |ms|
  {
    forall j :: 0 <= j < i ==> ms[j].ctor in byId && ms[j] in byId[ms[j].ctor]
  }

  predicate NamesHold(ms: seq<Method>, i: nat, byName: map<string, Method>)
    requires i <= |ms|
  {
    forall j :: 0 <= j < i ==> ms[j].name in byName && SameContract(ms[j], byName[ms[j].name])
  }

  predicate IdsFromRows(ms: seq<Method>, i: nat, byId: map<Uint32, seq<Method>>)
    requires i <= |ms|
  {
    forall c :: c in byId ==> FromRows(ms, i, byId[c], c)
  }

  predicate NamesFromRows(ms: seq<Method>, i: nat, byName: map<string, Method>)
    requires i <= |ms|
  {
    forall n :: n in byName ==> byName[n].name == n && Among(ms, i, byName[n])
  }

  /** What the two tables kept over the first i rows say about them. */
  predicate Tracked(ms: seq<Method>, i: nat, byId: map<Uint32, seq<Method>>, byName: map<string, Method>)
    requires i <= |ms|
  {
    IdsHold(ms, i, byId) && NamesHold(ms, i, byName) && IdsFromRows(ms, i, byId) && NamesFromRows(ms, i, byName)
  }

  function WithRow(byId: map<Uint32, seq<Method>>, m: Method): map<Uint32, seq<Method>>
  {
    byId[m.ctor := (if m.ctor in byId then byId[m.ctor] else []) + [m]]
  }

  predicate FromRows(ms: seq<Method>, i: nat, rows: seq<Method>, c: Uint32)
    requires i <= |ms|
  {
    forall k :: 0 <= k < |rows| ==> rows[k].ctor == c && Among(ms, i, rows[k])
  }

  predicate AnyOverlaps(rows: seq<Method>, m: Method)
  {
    exists k :: 0 <= k < |rows| && Overlap(rows[k], m)
  }

  /** The tables answer for all earlier rows. */
  lemma RowDecided(ms: seq<Method>, i: nat, byId: map<Uint32, seq<Method>>, byName: map<string, Method>)
    requires i < |ms| && Tracked(ms, i, byId, byName)
    ensures var m := ms[i];
            (forall j :: 0 <= j < i ==> Compatible(ms[j], m)) <==>
            && (m.ctor in byId ==> !AnyOverlaps(byId[m.ctor], m))
            && (m.name in byName ==> SameContract(byName[m.name], m))
  {
    var m := ms[i];
    if m.ctor in byId && AnyOverlaps(byId[m.ctor], m) {
      var k :| 0 <= k < |byId[m.ctor]| && Overlap(byId[m.ctor][k], m);
      assert FromRows(ms, i, byId[m.ctor], m.ctor);
      var j := AmongAt(ms, i, byId[m.ctor][k]);
      assert !Compatible(ms[j], m);
    } else if m.name in byName && !SameContract(byName[m.name], m) {
      var j := AmongAt(ms, i, byName[m.name]);
      assert !Compatible(ms[j], m);
    } else {
      forall j | 0 <= j < i
        ensures Compatible(ms[j], m)
      {
        assert ms[j] in byId[ms[j].ctor];
      }
    }
  }

  lemma TrackedNext(ms: seq<Method>, i: nat, byId: map<Uint32, seq<Method>>, byName: map<string, Method>)
    requires i < |ms| && Tracked(ms, i, byId, byName)
    requires ms[i].name in byName ==> SameContract(byName[ms[i].name], ms[i])
    ensures var m := ms[i];
            Tracked(ms, i + 1, WithRow(byId, m), byName[m.name := m])
  {
    var m := ms[i];
    var ids := WithRow(byId, m);
    forall c | c in ids
      ensures FromRows(ms, i + 1, ids[c], c)
    {
      assert c in byId ==> FromRows(ms, i, byId[c], c);
    }
    forall j | 0 <= j < i + 1
      ensures ms[j].ctor in ids && ms[j] in ids[ms[j].ctor]
    {
    }
  }

  predicate RowsOk(s: Server, ms: seq<Method>, i: nat)
    requires i <= |ms|
  {
    forall j :: 0 <= j < i ==> RowOk(s, ms, j)
  }

  method AnyOverlap(rows: seq<Method>, m: Method) returns (b: bool)
    ensures b <==> AnyOverlaps(rows, m)
  {
    for k := 0 to |rows|
      invariant forall j :: 0 <= j < k ==> !Overlap(rows[j], m)
    {
      if Overlap(rows[k], m) {
        return true;
      }
    }
    b := false;
  }

  class Registrar {
    var services: map<string, Service>
    var constructors: set<Uint32>
    var handlers: set<Uint32>
    var schemaLayer: Option<int>

    ghost function Value(): Server
      reads this
    {
      Server(services, constructors, handlers, schemaLayer)
    }

    constructor ()
      ensures Value() == After([])
    {
      services, constructors, handlers, schemaLayer := map[], {}, {}, None;
    }

    /** One row against the server and against the tables kept over the rows before it, and the tables
        with that row. */
    method CheckRow(ms: seq<Method>, i: nat, byId: map<Uint32, seq<Method>>, byName: map<string, Method>)
      returns (ok: bool, ids: map<Uint32, seq<Method>>, names: map<string, Method>)
      requires i < |ms| && Tracked(ms, i, byId, byName)
      ensures ok <==> RowOk(Value(), ms, i)
      ensures ok ==> Tracked(ms, i + 1, ids, names)
    {
      var m := ms[i];
      ok, ids, names := false, byId, byName;
      RowDecided(ms, i, byId, byName);
      if m.name == "" || m.ctor == 0 || !m.complete || m.minLayer < 0 || m.maxLayer < 0 {
        return;
      }
      if m.maxLayer != 0 && m.minLayer > m.maxLayer {
        return;
      }
      var clash := AnyOverlap(if m.ctor in byId then byId[m.ctor] else [], m);
      var sameName := m.name !in byName || (byName[m.name].ctor == m.ctor && byName[m.name].contract == m.contract);
      ok := !clash && sameName && m.ctor !in handlers && m.ctor !in constructors;
      if ok {
        TrackedNext(ms, i, byId, byName);
        ids, names := WithRow(byId, m), byName[m.name := m];
      }
    }

    /** The row checks, with the two tables the source keeps while it walks the rows. */
    method CheckRows(ms: seq<Method>) returns (ok: bool)
      ensures ok <==> RowsOk(Value(), ms, |ms|)
    {
      var byId: map<Uint32, seq<Method>> := map[];
      var byName: map<string, Method> := map[];
      for i := 0 to |ms|
        invariant RowsOk(Value(), ms, i) && Tracked(ms, i, byId, byName)
      {
        ok, byId, byName := CheckRow(ms, i, byId, byName);
        if !ok {
          return;
        }
      }
      ok := true;
    }

    /** Accepts exactly an acceptable service; a panic leaves everything as it was. */
    method RegisterService(d: Service) returns (ok: bool)
      modifies this
      ensures ok <==> Acceptable(old(Value()), d)
      ensures Value() == if ok then Registered(old(Value()), d) else old(Value())
    {
      if d.name == "" || |d.methods| == 0 || !d.implemented || d.name in services {
        return false;
      }
      if schemaLayer.Some? && schemaLayer.value != d.schemaLayer {
        return false;
      }
      ok := CheckRows(d.methods);
      if !ok {
        return;
      }
      ghost var s := Value();
      for i := 0 to |d.methods|
        invariant Value() == s.(constructors := s.constructors + Ids(d.methods[..i]),
                                handlers := s.handlers + Ids(d.methods[..i]))
      {
        IdsNext(d.methods, i);
        constructors := constructors + {d.methods[i].ctor};
        handlers := handlers + {d.methods[i].ctor};
      }
      assert d.methods[..|d.methods|] == d.methods;
      schemaLayer := Some(d.schemaLayer);
      services := services[d.name := d];
    }
  }

  lemma IdsNext(ms: seq<Method>, i: nat)
    requires i < |ms|
    ensures Ids(ms[..i + 1]) == Ids(ms[..i]) + {ms[i].ctor}
  {
    var a, b := ms[..i], ms[..i + 1];
    assert forall j :: 0 <= j < i ==> a[j] == b[j];
    assert forall c :: c in Ids(b) ==> c in Ids(a) + {ms[i].ctor};
    forall c | c in Ids(a) + {ms[i].ctor}
      ensures c in Ids(b)
    {
      if c == ms[i].ctor {
        assert b[i].ctor == c;
      } else {
        var j :| 0 <= j < |a| && a[j].ctor == c;
        assert b[j].ctor == c;
      }
    }
  }

  // ---- The method table and the choice from it --------------------------------------------------

  /** A variant: a row of a service, as the adapter keeps it. */
  datatype Variant = Variant(service: string, row: nat, desc: Method)
  type Table = map<Uint32, seq<Variant>>

  predicate FromServer(s: Server, v: Variant)
  {
    && v.service in s.services && v.row < |s.services[v.service].methods|
    && s.services[v.service].methods[v.row] == v.desc
  }

  /** The rows put into the table so far: all of the finished services and the first i of one more. */
  predicate Reached(s: Server, done: set<string>, n: string, i: nat, v: Variant)
  {
    FromServer(s, v) && (v.service in done || (v.service == n && v.row < i))
  }

  predicate Listed(t: Table, v: Variant)
  {
    v.desc.ctor in t && v in t[v.desc.ctor]
  }

  ghost predicate Filled(s: Server, t: Table, done: set<string>, n: string, i: nat)
  {
    && (forall c, k :: c in t && 0 <= k < |t[c]| ==> t[c][k].desc.ctor == c)
    && (forall v: Variant :: Listed(t, v) <==> Reached(s, done, n, i, v))
  }

  /** The table holds exactly the rows of all services, each under its constructor. */
  ghost predicate Complete(s: Server, t: Table)
  {
    && (forall c, k :: c in t && 0 <= k < |t[c]| ==> t[c][k].desc.ctor == c)
    && (forall v: Variant :: Listed(t, v) <==> FromServer(s, v))
  }

  lemma ClashMeansBroken(s: Server, a: Variant, b: Variant)
    requires FromServer(s, a) && FromServer(s, b) && a.desc.ctor == b.desc.ctor && Overlap(a.desc, b.desc)
    requires a.service != b.service || a.row < b.row
    ensures !ServerOk(s)
  {
    var x, y := s.services[a.service].methods, s.services[b.service].methods;
    assert x[a.row].ctor in Ids(x) && y[b.row].ctor in Ids(y);
    if a.service != b.service {
      assert !Disjoint(s, a.service, b.service);
    } else {
      assert !ServiceOk(s, a.service);
    }
  }

  lemma FilledNext(s: Server, t: Table, done: set<string>, n: string, i: nat)
    requires Filled(s, t, done, n, i) && n in s.services && n !in done && i < |s.services[n].methods|
    ensures var v := Variant(n, i, s.services[n].methods[i]);
            Filled(s, t[v.desc.ctor := (if v.desc.ctor in t then t[v.desc.ctor] else []) + [v]], done, n, i + 1)
  {
    var v := Variant(n, i, s.services[n].methods[i]);
    var u := t[v.desc.ctor := (if v.desc.ctor in t then t[v.desc.ctor] else []) + [v]];
    forall w: Variant
      ensures Listed(u, w) <==> Reached(s, done, n, i + 1, w)
    {
      assert Listed(t, w) <==> Reached(s, done, n, i, w);
      assert Listed(u, w) <==> Listed(t, w) || w == v;
    }
  }

  method AnyClash(rows: seq<Variant>, m: Method) returns (k: int)
    ensures -1 <= k < |rows|
    ensures k >= 0 ==> Overlap(rows[k].desc, m)
    ensures k < 0 ==> forall j :: 0 <= j < |rows| ==> !Overlap(rows[j].desc, m)
  {
    for j := 0 to |rows|
      invariant forall l :: 0 <= l < j ==> !Overlap(rows[l].desc, m)
    {
      if Overlap(rows[j].desc, m) {
        return j;
      }
    }
    k := -1;
  }

  /** One service's rows into the table; false is the setup error. */
  method AddService(s: Server, t0: Table, ghost done: set<string>, n: string) returns (ok: bool, t: Table)
    requires n in s.services && n !in done && Filled(s, t0, done, n, 0)
    ensures ServerOk(s) ==> ok
    ensures ok ==> Filled(s, t, done, n, |s.services[n].methods|)
  {
    t := t0;
    var ms := s.services[n].methods;
    for i := 0 to |ms|
      invariant Filled(s, t, done, n, i)
    {
      var m := ms[i];
      if m.ctor !in s.constructors || m.ctor !in s.handlers {
        assert m.ctor in Ids(ms);
        assert ServerOk(s) ==> ServiceOk(s, n);
        return false, t;
      }
      var rows := if m.ctor in t then t[m.ctor] else [];
      var k := AnyClash(rows, m);
      if k >= 0 {
        assert Listed(t, rows[k]);
        ClashMeansBroken(s, rows[k], Variant(n, i, m));
        return false, t;
      }
      FilledNext(s, t, done, n, i);
      t := t[m.ctor := rows + [Variant(n, i, m)]];
    }
    ok := true;
  }

  /** The adapter, over the services in whatever order the map yields them. */
  method BuildAdapter(s: Server) returns (ok: bool, t: Table)
    ensures ServerOk(s) ==> ok
    ensures ok ==> Complete(s, t)
  {
    t := map[];
    var todo := s.services.Keys;
    ghost var done: set<string> := {};
    while todo != {}
      invariant todo !! done && todo + done == s.services.Keys
      invariant forall n :: n in todo ==> Filled(s, t, done, n, 0)
      invariant todo == {} ==> Complete(s, t)
      decreases |todo|
    {
      var n :| n in todo;
      ok, t := AddService(s, t, done, n);
      if !ok {
        return;
      }
      todo := todo - {n};
      done := done + {n};
      assert forall k, v: Variant :: k in todo ==>
               (Reached(s, done, k, 0, v) <==> Reached(s, done - {n}, n, |s.services[n].methods|, v));
    }
    ok := true;
  }

  function Rows(t: Table, ctor: Uint32): seq<Variant> { if ctor in t then t[ctor] else [] }

  /** The row at `k` is the first that serves the layer. */
  predicate FirstAt(rows: seq<Variant>, k: nat, layer: int, v: Variant)
  {
    k < |rows| && rows[k] == v && Supports(v.desc, layer) && forall j :: 0 <= j < k ==> !Supports(rows[j].desc, layer)
  }

  ghost predicate Chosen(t: Table, ctor: Uint32, layer: int, r: Option<Variant>)
  {
    match r
    case Some(v) => exists k: nat :: FirstAt(Rows(t, ctor), k, layer, v)
    case None => forall k :: 0 <= k < |Rows(t, ctor)| ==> !Supports(Rows(t, ctor)[k].desc, layer)
  }

  /** The first variant that supports the layer; layer 0 means the server's own. */
  method SelectVariant(t: Table, ctor: Uint32, declared: int, schemaLayer: int) returns (r: Option<Variant>)
    ensures Chosen(t, ctor, if declared == 0 then schemaLayer else declared, r)
  {
    var rows := Rows(t, ctor);
    var layer := if declared == 0 then schemaLayer else declared;
    for k := 0 to |rows|
      invariant forall j :: 0 <= j < k ==> !Supports(rows[j].desc, layer)
    {
      if Supports(rows[k].desc, layer) {
        assert FirstAt(rows, k, layer, rows[k]);
        return Some(rows[k]);
      }
    }
    r := None;
  }

  /** The choice depends on nothing but what was registered: any complete table, filled in any order,
      gives the one row that handles the constructor at that layer, or none when none does. */
  lemma SelectionDeterministic(ds: seq<Service>, t: Table, ctor: Uint32, layer: int, r: Option<Variant>)
    requires Complete(After(ds), t) && Chosen(t, ctor, layer, r)
    ensures forall n, i: nat :: Handles(After(ds), n, i, ctor, layer) <==>
              r.Some? && n == r.value.service && i == r.value.row
  {
    var s := After(ds);
    if r.Some? {
      assert r.value.desc.ctor == ctor by {
        var k: nat :| FirstAt(Rows(t, ctor), k, layer, r.value);
      }
      assert Listed(t, r.value) && FromServer(s, r.value);
      assert Handles(s, r.value.service, r.value.row, ctor, layer);
    }
    forall n, i: nat
      ensures Handles(s, n, i, ctor, layer) <==> r.Some? && n == r.value.service && i == r.value.row
    {
      if Handles(s, n, i, ctor, layer) {
        var v := Variant(n, i, s.services[n].methods[i]);
        assert FromServer(s, v) && Listed(t, v) && v in Rows(t, ctor);
        if r.Some? {
          HandlerUnique(ds, ctor, layer, n, i, r.value.service, r.value.row);
        }
      }
    }
  }
}
