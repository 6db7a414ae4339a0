/** The session store: the object vector and the watcher map of the object store
    over the table and observer maps of the storage engine. Each call is one step. */
module ObjectTables {
  import opened Common
  import opened StorageEngine

  /** An object at its address, with the session it was made for. */
  datatype Obj = Obj(ptr: nat, session: Session)

  /** `watchers` is keyed by address. */
  datatype Tables = Tables(engine: Engine, objects: seq<Obj>, watchers: map<nat, nat>)

  function Open(e: Engine): Engine {
    e.(isOpen := true)
  }

  /** `granted` is whether the caller may create: in continuation, or permitted; `addr`
      is where a new object is allocated. */
  function CreateOp(t: Tables, s: Session, granted: bool, kvOk: bool, pragmaOk: bool, addr: nat)
    : (Tables, Status, Option<Obj>)
  {
    if s == [] then (t, ERR_INVALID_ARGS, None)
    else if !granted then (t, ERR_NO_PERMISSION, None)
    else
      var (e, status) := CreateTable(Open(t.engine), s, kvOk, pragmaOk);
      var u := t.(engine := e);
      if status != SUCCESS then (u, status, None)
      else (u.(objects := t.objects + [Obj(addr, s)]), SUCCESS, Some(Obj(addr, s)))
  }

  function Without(objects: seq<Obj>, s: Session): seq<Obj> {
    if objects == [] then []
    else Without(objects[..|objects| - 1], s)
         + (if objects[|objects| - 1].session == s then [] else [objects[|objects| - 1]])
  }

  function DeleteOp(t: Tables, s: Session, closeOk: bool): (Tables, Status) {
    var (e, status) := DeleteTable(Open(t.engine), s, closeOk);
    var u := t.(engine := e);
    if status != SUCCESS then (u, status) else (u.(objects := Without(t.objects, s)), SUCCESS)
  }

  function GetOp(t: Tables, s: Session): (r: Option<Obj>)
    ensures r.Some? ==> r.value in t.objects && r.value.session == s
    ensures r.None? ==> forall o :: o in t.objects ==> o.session != s
    decreases |t.objects|
  {
    if t.objects == [] then None
    else if t.objects[0].session == s then Some(t.objects[0])
    else GetOp(t.(objects := t.objects[1..]), s)
  }

  function WatchOp(t: Tables, o: Obj, watcher: nat, registerOk: bool): (Tables, Status) {
    if o.ptr in t.watchers then (t, ERR_EXIST)
    else
      var (e, status) := RegisterObserver(Open(t.engine), o.session, watcher, registerOk);
      var u := t.(engine := e);
      if status != SUCCESS then (u, status) else (u.(watchers := t.watchers[o.ptr := watcher]), SUCCESS)
  }

  function UnWatchOp(t: Tables, o: Obj, unregisterOk: bool): (Tables, Status) {
    var (e, status) := UnRegisterObserver(Open(t.engine), o.session, unregisterOk);
    var u := t.(engine := e);
    if status != SUCCESS then (u, status) else (u.(watchers := t.watchers - {o.ptr}), SUCCESS)
  }

  // ---- Agreement ----

  ghost predicate Held(objects: seq<Obj>, s: Session) {
    exists o :: o in objects && o.session == s
  }

  ghost predicate AtAddress(objects: seq<Obj>, p: nat) {
    exists o :: o in objects && o.ptr == p
  }

  ghost predicate Distinct(objects: seq<Obj>) {
    forall i, j :: 0 <= i < j < |objects| ==>
      objects[i].session != objects[j].session && objects[i].ptr != objects[j].ptr
  }

  /** What the engine has registered for an object's session is what the store holds. */
  ghost predicate Paired(objects: seq<Obj>, observers: map<Session, nat>, watchers: map<nat, nat>) {
    forall o :: o in objects ==>
      && (o.ptr in watchers <==> o.session in observers)
      && (o.ptr in watchers ==> observers[o.session] == watchers[o.ptr])
  }

  /** Sessions are distinct in the vector and are those of the tables; watchers belong to
      live objects, and the engine has registered for each session exactly the watcher
      the store believes in. */
  ghost predicate Agree(t: Tables) {
    && Distinct(t.objects)
    && (forall o :: o in t.objects ==> o.session in t.engine.delegates)
    && (forall s :: s in t.engine.delegates ==> Held(t.objects, s))
    && (forall p :: p in t.watchers ==> AtAddress(t.objects, p))
    && Paired(t.objects, t.engine.observers, t.watchers)
    && (forall s :: s in t.engine.observers ==> s in t.engine.delegates)
  }

  lemma {:induction false} WithoutKeeps(objects: seq<Obj>, s: Session, o: Obj)
    ensures o in Without(objects, s) <==> o in objects && o.session != s
  {
    if objects != [] {
      var n := |objects| - 1;
      WithoutKeeps(objects[..n], s, o);
      assert objects == objects[..n] + [objects[n]];
    }
  }

  lemma {:induction false} WithoutDistinct(objects: seq<Obj>, s: Session)
    requires Distinct(objects)
    ensures Distinct(Without(objects, s))
  {
    if objects != [] {
      var n := |objects| - 1;
      var kept := Without(objects[..n], s);
      WithoutDistinct(objects[..n], s);
      forall i | 0 <= i < |kept|
        ensures kept[i].session != objects[n].session && kept[i].ptr != objects[n].ptr
      {
        WithoutKeeps(objects[..n], s, kept[i]);
      }
    }
  }

  lemma {:induction false} WithoutMembers(objects: seq<Obj>, s: Session)
    ensures forall o :: o in Without(objects, s) <==> o in objects && o.session != s
    ensures Distinct(objects) ==> Distinct(Without(objects, s))
  {
    hide Without, Distinct;
    forall o {
      WithoutKeeps(objects, s, o);
    }
    if Distinct(objects) {
      WithoutDistinct(objects, s);
    }
  }

  /** The allocator never gives out the address of a live object. */
  predicate FreeAddress(t: Tables, addr: nat) {
    forall o :: o in t.objects ==> o.ptr != addr
  }

  lemma StillHeld(a: seq<Obj>, b: seq<Obj>, s: Session)
    requires forall o :: o in a && o.session == s ==> o in b
    requires Held(a, s)
    ensures Held(b, s)
  {
    var o :| o in a && o.session == s;
  }

  lemma StillThere(a: seq<Obj>, b: seq<Obj>, p: nat)
    requires forall o :: o in a && o.ptr == p ==> o in b
    requires AtAddress(a, p)
    ensures AtAddress(b, p)
  {
    var o :| o in a && o.ptr == p;
  }

  lemma CreateAgrees(t: Tables, s: Session, granted: bool, kvOk: bool, pragmaOk: bool, addr: nat)
    requires Agree(t) && FreeAddress(t, addr)
    ensures Agree(CreateOp(t, s, granted, kvOk, pragmaOk, addr).0)
  {
    hide Held, AtAddress;
    var u := CreateOp(t, s, granted, kvOk, pragmaOk, addr).0;
    forall x | x in u.engine.delegates ensures Held(u.objects, x) {
      if x in t.engine.delegates {
        StillHeld(t.objects, u.objects, x);
      } else {
        NewlyHeld(u.objects, u.objects[|t.objects|]);
      }
    }
    forall p | p in t.watchers ensures p != addr && AtAddress(u.objects, p) {
      AddressTaken(t, p, addr);
      StillThere(t.objects, u.objects, p);
    }
  }

  lemma NewlyHeld(objects: seq<Obj>, o: Obj)
    requires o in objects
    ensures Held(objects, o.session)
  {
  }

  lemma AddressTaken(t: Tables, p: nat, addr: nat)
    requires AtAddress(t.objects, p) && FreeAddress(t, addr)
    ensures p != addr
  {
  }

  lemma WatchAgrees(t: Tables, o: Obj, watcher: nat, registerOk: bool)
    requires Agree(t) && o in t.objects
    ensures Agree(WatchOp(t, o, watcher, registerOk).0)
  {
    StillPaired(t, o, watcher);
    hide Held, Distinct, Paired;
    if o.ptr !in t.watchers {
      Unregistered(t, o);
      assert AtAddress(t.objects, o.ptr);
    }
  }

  lemma UnWatchAgrees(t: Tables, o: Obj, unregisterOk: bool)
    requires Agree(t) && o in t.objects
    ensures Agree(UnWatchOp(t, o, unregisterOk).0)
  {
    StillPaired(t, o, 0);
    hide Held, AtAddress, Distinct, Paired;
  }

  lemma Unregistered(t: Tables, o: Obj)
    requires Agree(t) && o in t.objects
    ensures o.session in t.engine.observers <==> o.ptr in t.watchers
  {
  }

  lemma StillPaired(t: Tables, o: Obj, watcher: nat)
    requires Agree(t) && o in t.objects
    ensures Paired(t.objects, t.engine.observers[o.session := watcher], t.watchers[o.ptr := watcher])
    ensures Paired(t.objects, t.engine.observers - {o.session}, t.watchers - {o.ptr})
  {
    OtherObjects(t, o);
    assert Paired(t.objects, t.engine.observers, t.watchers);
    hide Agree;
    var observers, watchers := t.engine.observers[o.session := watcher], t.watchers[o.ptr := watcher];
    var observers', watchers' := t.engine.observers - {o.session}, t.watchers - {o.ptr};
    forall x | x in t.objects
      ensures x.ptr in watchers <==> x.session in observers
      ensures x.ptr in watchers ==> observers[x.session] == watchers[x.ptr]
      ensures x.ptr in watchers' <==> x.session in observers'
      ensures x.ptr in watchers' ==> observers'[x.session] == watchers'[x.ptr]
    {
      if x != o {
        assert x.session != o.session && x.ptr != o.ptr;
      }
    }
  }

  lemma OtherObjects(t: Tables, o: Obj)
    requires Distinct(t.objects) && o in t.objects
    ensures forall p :: p in t.objects && p != o ==> p.session != o.session && p.ptr != o.ptr
  {
  }

  /** A successful delete keeps the tables in agreement exactly when the session is
      not watched: nothing clears the observer or the watcher of a deleted session. */
  lemma DeleteAgreesIff(t: Tables, s: Session, closeOk: bool)
    requires Agree(t) && DeleteOp(t, s, closeOk).1 == SUCCESS
    ensures Agree(DeleteOp(t, s, closeOk).0) <==> s !in t.engine.observers
  {
    hide Without, Held, AtAddress;
    var u := DeleteOp(t, s, closeOk).0;
    WithoutMembers(t.objects, s);
    if s in t.engine.observers {
      assert s !in u.engine.delegates;
    } else {
      hide Distinct;
      forall x | x in u.engine.delegates ensures Held(u.objects, x) {
        StillHeld(t.objects, u.objects, x);
      }
      forall p | p in u.watchers ensures AtAddress(u.objects, p) {
        StillThere(t.objects, u.objects, p);
      }
    }
  }

  // ---- Runs ----

  datatype Action =
    | Create(session: Session, granted: bool, kvOk: bool, pragmaOk: bool, addr: nat)
    | Delete(session: Session, closeOk: bool)
    | Watch(target: Obj, watcher: nat, registerOk: bool)
    | UnWatch(target: Obj, unregisterOk: bool)

  /** Callers pass live objects; a deletion needs nothing. */
  predicate Enabled(t: Tables, a: Action) {
    match a
    case Create(_, _, _, _, addr) => FreeAddress(t, addr)
    case Delete(_, _) => true
    case Watch(o, _, _) => o in t.objects
    case UnWatch(o, _) => o in t.objects
  }

  function Next(t: Tables, a: Action): Tables {
    match a
    case Create(s, granted, kvOk, pragmaOk, addr) => CreateOp(t, s, granted, kvOk, pragmaOk, addr).0
    case Delete(s, closeOk) => DeleteOp(t, s, closeOk).0
    case Watch(o, watcher, registerOk) => WatchOp(t, o, watcher, registerOk).0
    case UnWatch(o, unregisterOk) => UnWatchOp(t, o, unregisterOk).0
  }

  function Run(t: Tables, acts: seq<Action>): Tables
    decreases |acts|
  {
    if acts == [] then t else Run(Next(t, acts[0]), acts[1..])
  }

  predicate Legal(t: Tables, acts: seq<Action>)
    decreases |acts|
  {
    acts == [] || (Enabled(t, acts[0]) && Legal(Next(t, acts[0]), acts[1..]))
  }

  /** A deletion that succeeds on a watched session. */
  predicate Orphans(t: Tables, a: Action) {
    a.Delete? && a.session in t.engine.observers && DeleteOp(t, a.session, a.closeOk).1 == SUCCESS
  }

  lemma AgreeStep(t: Tables, a: Action)
    requires Agree(t) && Enabled(t, a)
    ensures Agree(Next(t, a)) <==> !Orphans(t, a)
  {
    hide Agree;
    match a
    case Create(s, granted, kvOk, pragmaOk, addr) => CreateAgrees(t, s, granted, kvOk, pragmaOk, addr);
    case Delete(s, closeOk) =>
      if DeleteOp(t, s, closeOk).1 == SUCCESS {
        DeleteAgreesIff(t, s, closeOk);
      } else {
        OpenAgrees(t);
      }
    case Watch(o, watcher, registerOk) => WatchAgrees(t, o, watcher, registerOk);
    case UnWatch(o, unregisterOk) => UnWatchAgrees(t, o, unregisterOk);
  }

  /** No deletion of the run orphans an observer. */
  predicate OrphansNone(t: Tables, acts: seq<Action>)
    decreases |acts|
  {
    acts == [] || (!Orphans(t, acts[0]) && OrphansNone(Next(t, acts[0]), acts[1..]))
  }

  ghost predicate AlwaysAgree(t: Tables, acts: seq<Action>) {
    forall k: nat :: k <= |acts| ==> Agree(Run(t, acts[..k]))
  }

  /** Through every success and every failure the four tables agree, after every prefix of
      a run, if and only if every deletion that succeeds is of an unwatched session. */
  lemma {:induction false} AlwaysAgreeIff(t: Tables, acts: seq<Action>)
    requires Agree(t) && Legal(t, acts)
    ensures AlwaysAgree(t, acts) <==> OrphansNone(t, acts)
    decreases |acts|
  {
    hide Next, Enabled, Agree, Orphans;
    if acts == [] {
      assert forall k: nat :: k <= 0 ==> acts[..k] == [];
    } else {
      var next, rest := Next(t, acts[0]), acts[1..];
      AgreeStep(t, acts[0]);
      AlwaysShifted(t, acts);
      if Agree(next) {
        AlwaysAgreeIff(next, rest);
      } else {
        assert Run(next, rest[..0]) == next;
      }
    }
  }

  lemma AlwaysShifted(t: Tables, acts: seq<Action>)
    requires Agree(t) && acts != []
    ensures AlwaysAgree(t, acts) <==> AlwaysAgree(Next(t, acts[0]), acts[1..])
  {
    hide Next, Agree;
    var next, rest := Next(t, acts[0]), acts[1..];
    assert Run(t, acts[..0]) == t;
    forall k: nat | k <= |rest| ensures Run(t, acts[..k + 1]) == Run(next, rest[..k]) {
      assert acts[..k + 1][1..] == rest[..k];
    }
    if AlwaysAgree(next, rest) {
      forall k: nat | k <= |acts| ensures Agree(Run(t, acts[..k])) {
        if k > 0 {
          assert Agree(Run(next, rest[..k - 1]));
        }
      }
    }
  }

  lemma OpenAgrees(t: Tables)
    requires Agree(t)
    ensures Agree(t.(engine := Open(t.engine)))
  {
  }

  const EMPTY := Tables(Engine(true, map[], map[]), [], map[])

  lemma CreatedFirst(s: Session, addr: nat)
    requires s != []
    ensures CreateOp(EMPTY, s, true, true, true, addr).0
         == Tables(Engine(true, map[s := map[]], map[]), [Obj(addr, s)], map[])
  {
  }

  lemma WatchedFirst(s: Session, w: nat, addr: nat)
    ensures WatchOp(Tables(Engine(true, map[s := map[]], map[]), [Obj(addr, s)], map[]), Obj(addr, s), w, true).0
         == Tables(Engine(true, map[s := map[]], map[s := w]), [Obj(addr, s)], map[addr := w])
  {
  }

  lemma DeletedWatched(s: Session, w: nat, addr: nat)
    ensures DeleteOp(Tables(Engine(true, map[s := map[]], map[s := w]), [Obj(addr, s)], map[addr := w]), s, true).0
         == Tables(Engine(true, map[], map[s := w]), [], map[addr := w])
  {
    assert [Obj(addr, s)][..0] == [] && Without([], s) == [];
    assert Without([Obj(addr, s)], s) == [];
  }

  /** Without unwatching first: a session deleted while watched and created again keeps
      its old observer. A new watcher is never registered: it is refused if the new
      object lies where the old one lay, and accepted all the same if it does not. */
  lemma StaleObserver(s: Session, w1: nat, w2: nat, addr1: nat, addr2: nat)
    requires s != []
    ensures var t1 := CreateOp(EMPTY, s, true, true, true, addr1).0;
            var t2 := WatchOp(t1, Obj(addr1, s), w1, true).0;
            var t3 := DeleteOp(t2, s, true).0;
            var t4 := CreateOp(t3, s, true, true, true, addr2).0;
            var (t5, status) := WatchOp(t4, Obj(addr2, s), w2, true);
            && t4.objects == [Obj(addr2, s)] && t5.engine.observers == map[s := w1]
            && status == (if addr1 == addr2 then ERR_EXIST else SUCCESS)
            && (status == SUCCESS ==> t5.watchers[addr2] == w2)
  {
    hide CreateOp, WatchOp, DeleteOp;
    CreatedFirst(s, addr1);
    WatchedFirst(s, w1, addr1);
    DeletedWatched(s, w1, addr1);
    StaleWatch(DeleteOp(WatchOp(CreateOp(EMPTY, s, true, true, true, addr1).0, Obj(addr1, s), w1, true).0, s, true).0,
               s, w1, w2, addr1, addr2);
  }

  lemma StaleWatch(t3: Tables, s: Session, w1: nat, w2: nat, addr1: nat, addr2: nat)
    requires s != [] && t3 == Tables(Engine(true, map[], map[s := w1]), [], map[addr1 := w1])
    ensures var t4 := CreateOp(t3, s, true, true, true, addr2).0;
            var (t5, status) := WatchOp(t4, Obj(addr2, s), w2, true);
            && t4.objects == [Obj(addr2, s)] && t5.engine.observers == map[s := w1]
            && status == (if addr1 == addr2 then ERR_EXIST else SUCCESS)
            && (status == SUCCESS ==> t5.watchers[addr2] == w2)
  {
  }

  // ---- The store is a map from sessions to objects ----

  /** What Get answers, as a map. */
  ghost function Index(t: Tables): map<Session, Obj> {
    map s | s in t.engine.delegates && GetOp(t, s).Some? :: GetOp(t, s).value
  }

  lemma GetIs(t: Tables, s: Session, o: Obj)
    requires Agree(t)
    ensures GetOp(t, s) == Some(o) <==> o in t.objects && o.session == s
  {
  }

  lemma IndexIs(t: Tables, s: Session)
    requires Agree(t)
    ensures s in Index(t) <==> s in t.engine.delegates
    ensures s in Index(t) ==> GetOp(t, s) == Some(Index(t)[s])
    ensures s !in Index(t) ==> GetOp(t, s) == None
  {
  }

  /** Create adds the session's object if it is not there, or changes nothing. */
  lemma CreateRefines(t: Tables, s: Session, granted: bool, kvOk: bool, pragmaOk: bool, addr: nat)
    requires Agree(t) && FreeAddress(t, addr)
    ensures var (u, status, r) := CreateOp(t, s, granted, kvOk, pragmaOk, addr);
            if s != [] && granted && s !in Index(t) && kvOk && pragmaOk
            then status == SUCCESS && r.Some? && r.value !in t.objects && Index(u) == Index(t)[s := r.value]
            else && r == None && Index(u) == Index(t)
                 && status == if s == [] then ERR_INVALID_ARGS
                              else if !granted then ERR_NO_PERMISSION
                              else if s in Index(t) then ERR_EXIST else ERR_DB_GETKV_FAIL
  {
    hide Agree, Index, GetOp;
    var (u, status, r) := CreateOp(t, s, granted, kvOk, pragmaOk, addr);
    CreateAgrees(t, s, granted, kvOk, pragmaOk, addr);
    IndexIs(t, s);
    forall x ensures x in Index(u) <==> x in Index(t) || (status == SUCCESS && x == s) {
      IndexIs(t, x);
      IndexIs(u, x);
    }
    forall x | x in Index(u) ensures Index(u)[x] == if status == SUCCESS && x == s then r.value else Index(t)[x] {
      IndexIs(u, x);
      IndexIs(t, x);
      if status == SUCCESS && x == s {
        assert r.value == u.objects[|t.objects|];
        GetIs(u, x, r.value);
      } else {
        GetIs(u, x, Index(t)[x]);
      }
    }
  }

  /** Delete takes the session's object away if it is there, or changes nothing. */
  lemma DeleteRefines(t: Tables, s: Session, closeOk: bool)
    requires Agree(t) && s !in t.engine.observers
    ensures var (u, status) := DeleteOp(t, s, closeOk);
            if s in Index(t) && closeOk
            then status == SUCCESS && Index(u) == Index(t) - {s}
            else && Index(u) == Index(t)
                 && status == if s in Index(t) then ERR_CLOSE_STORAGE else ERR_DB_NOT_EXIST
  {
    hide Agree, Index, GetOp, Without;
    var (u, status) := DeleteOp(t, s, closeOk);
    IndexIs(t, s);
    if status == SUCCESS {
      DeleteAgreesIff(t, s, closeOk);
      WithoutMembers(t.objects, s);
    } else {
      OpenAgrees(t);
    }
    forall x ensures x in Index(u) <==> x in Index(t) && !(status == SUCCESS && x == s) {
      IndexIs(t, x);
      IndexIs(u, x);
    }
    forall x | x in Index(u) ensures Index(u)[x] == Index(t)[x] {
      IndexIs(t, x);
      IndexIs(u, x);
      GetIs(u, x, Index(t)[x]);
    }
  }

  /** Whom a change of a session is told: as the engine has it. Watch adds a watcher for
      the session of a live object unless it has one, or changes nothing. */
  lemma WatchRefines(t: Tables, o: Obj, watcher: nat, registerOk: bool)
    requires Agree(t) && t.engine.isOpen && o in t.objects
    ensures var (u, status) := WatchOp(t, o, watcher, registerOk);
            && Index(u) == Index(t)
            && if o.session !in t.engine.observers && registerOk
               then status == SUCCESS
                    && u == t.(engine := t.engine.(observers := t.engine.observers[o.session := watcher]),
                               watchers := t.watchers[o.ptr := watcher])
               else u == t && status == if o.session in t.engine.observers then ERR_EXIST else ERR_REGISTER
  {
    WatchAgrees(t, o, watcher, registerOk);
    SameIndex(t, WatchOp(t, o, watcher, registerOk).0);
  }

  /** UnWatch takes the watcher of the session away if it has one, or changes nothing. */
  lemma UnWatchRefines(t: Tables, o: Obj, unregisterOk: bool)
    requires Agree(t) && t.engine.isOpen && o in t.objects
    ensures var (u, status) := UnWatchOp(t, o, unregisterOk);
            && Index(u) == Index(t)
            && if o.session in t.engine.observers && unregisterOk
               then status == SUCCESS
                    && u == t.(engine := t.engine.(observers := t.engine.observers - {o.session}),
                               watchers := t.watchers - {o.ptr})
               else u == t && status == if o.session in t.engine.observers then ERR_UNREGISTER else ERR_NO_OBSERVER
  {
    UnWatchAgrees(t, o, unregisterOk);
    SameIndex(t, UnWatchOp(t, o, unregisterOk).0);
  }

  /** Watching one object and unwatching it again leaves the store as it was. */
  lemma WatchThenUnWatch(t: Tables, o: Obj, watcher: nat)
    requires Agree(t) && t.engine.isOpen && o in t.objects && o.session !in t.engine.observers
    ensures var u := WatchOp(t, o, watcher, true).0; UnWatchOp(u, o, true) == (t, SUCCESS)
  {
    hide Agree, Index, WatchOp, UnWatchOp;
    var u := WatchOp(t, o, watcher, true).0;
    Unregistered(t, o);
    WatchRefines(t, o, watcher, true);
    WatchAgrees(t, o, watcher, true);
    UnWatchRefines(u, o, true);
    assert u.watchers - {o.ptr} == t.watchers;
    assert u.engine.observers - {o.session} == t.engine.observers;
  }

  lemma SameIndex(t: Tables, u: Tables)
    requires Agree(t) && Agree(u) && t.objects == u.objects && t.engine.delegates == u.engine.delegates
    ensures Index(u) == Index(t)
  {
    hide Agree, Index, GetOp;
    forall x ensures x in Index(u) <==> x in Index(t) {
      IndexIs(t, x);
      IndexIs(u, x);
    }
    forall x | x in Index(u) ensures Index(u)[x] == Index(t)[x] {
      IndexIs(t, x);
      IndexIs(u, x);
      GetIs(u, x, Index(t)[x]);
      GetIs(t, x, Index(t)[x]);
    }
  }

  // ---- The store object ----

  /** One step of the erasing walk, on the part kept so far and the part ahead. */
  lemma WithoutStep(all: seq<Obj>, k: nat, s: Session)
    requires k < |all|
    ensures var kept, i, now := Without(all[..k], s), |Without(all[..k], s)|, Without(all[..k], s) + all[k..];
            && now[i] == all[k]
            && (all[k].session == s ==>
                  Without(all[..k + 1], s) == kept && now[..i] + now[i + 1..] == kept + all[k + 1..])
            && (all[k].session != s ==>
                  Without(all[..k + 1], s) == kept + [all[k]] && now == kept + [all[k]] + all[k + 1..])
  {
    assert all[..k + 1][..k] == all[..k];
  }

  class DistributedObjectStore {
    const engine: FlatObjectStorageEngine
    var objects: seq<Obj>
    var watchers: map<nat, nat>

    ghost function View(): Tables
      reads this, engine
    {
      Tables(engine.View(), objects, watchers)
    }

    constructor ()
      ensures fresh(engine) && View() == Tables(Engine(false, map[], map[]), [], map[])
    {
      engine := new FlatObjectStorageEngine();
      objects, watchers := [], map[];
    }

    method CreateObject(s: Session, granted: bool, kvOk: bool, pragmaOk: bool, addr: nat)
      returns (status: Status, result: Option<Obj>)
      modifies this, engine
      ensures (View(), status, result) == CreateOp(old(View()), s, granted, kvOk, pragmaOk, addr)
    {
      if s == [] {
        return ERR_INVALID_ARGS, None;
      }
      if !granted {
        return ERR_NO_PERMISSION, None;
      }
      engine.Open();
      status := engine.DoCreateTable(s, kvOk, pragmaOk);
      if status != SUCCESS {
        return status, None;
      }
      result := Some(Obj(addr, s));
      objects := objects + [Obj(addr, s)];
    }

    /** Erases every cached object of the session while walking over the vector. */
    method RemoveCacheObject(s: Session)
      modifies this`objects
      ensures objects == Without(old(objects), s)
    {
      var i: nat := 0;
      ghost var all := objects;
      ghost var k: nat := 0;
      assert all[..0] == [] && Without([], s) + all[0..] == all && all[..|all|] == all;
      hide Without;
      while i < |objects|
        invariant k <= |all| && objects == Without(all[..k], s) + all[k..]
        invariant i == |Without(all[..k], s)|
        decreases |all| - k
      {
        WithoutStep(all, k, s);
        if objects[i].session == s {
          objects := objects[..i] + objects[i + 1..];
        } else {
          i := i + 1;
        }
        k := k + 1;
      }
      assert k == |all| && all[k..] == [];
    }

    method DeleteObject(s: Session, closeOk: bool) returns (status: Status)
      modifies this, engine
      ensures (View(), status) == DeleteOp(old(View()), s, closeOk)
    {
      engine.Open();
      status := engine.DoDeleteTable(s, closeOk);
      if status == SUCCESS {
        RemoveCacheObject(s);
      }
    }

    method Get(s: Session) returns (status: Status, result: Option<Obj>)
      ensures result == GetOp(View(), s) && status == if result.Some? then SUCCESS else ERR_GET_OBJECT
    {
      var i := 0;
      while i < |objects|
        invariant 0 <= i <= |objects|
        invariant GetOp(View(), s) == GetOp(View().(objects := objects[i..]), s)
      {
        if objects[i].session == s {
          return SUCCESS, Some(objects[i]);
        }
        assert objects[i..][1..] == objects[i + 1..];
        i := i + 1;
      }
      return ERR_GET_OBJECT, None;
    }

    method DoWatch(o: Obj, watcher: nat, registerOk: bool) returns (status: Status)
      modifies this, engine
      ensures (View(), status) == WatchOp(old(View()), o, watcher, registerOk)
    {
      if o.ptr in watchers {
        return ERR_EXIST;
      }
      engine.Open();
      status := engine.DoRegisterObserver(o.session, watcher, registerOk);
      if status == SUCCESS {
        watchers := watchers[o.ptr := watcher];
      }
    }

    method DoUnWatch(o: Obj, unregisterOk: bool) returns (status: Status)
      modifies this, engine
      ensures (View(), status) == UnWatchOp(old(View()), o, unregisterOk)
    {
      engine.Open();
      status := engine.DoUnRegisterObserver(o.session, unregisterOk);
      if status == SUCCESS {
        watchers := watchers - {o.ptr};
      }
    }
  }
}
