/** What the calls of the storage engine do to each other: sessions are independent,
    pairs of calls undo or read back one another, and a batch is its single writes. */
module EngineLaws {
  import opened Common
  import opened StorageEngine

  /** A call with what the database answers to it; a write names one item or a batch. */
  datatype Call =
    | Create(s: Session, kvOk: bool, pragmaOk: bool)
    | Delete(s: Session, ok: bool)
    | Register(s: Session, watcher: nat, ok: bool)
    | UnRegister(s: Session, ok: bool)
    | Write(s: Session, item: string, value: Bytes, ok: bool)
    | WriteAll(s: Session, data: Table, ok: bool)

  function Apply(e: Engine, c: Call): (Engine, Status) {
    match c
    case Create(s, kvOk, pragmaOk) => CreateTable(e, s, kvOk, pragmaOk)
    case Delete(s, ok) => DeleteTable(e, s, ok)
    case Register(s, watcher, ok) => RegisterObserver(e, s, watcher, ok)
    case UnRegister(s, ok) => UnRegisterObserver(e, s, ok)
    case Write(s, item, value, ok) => UpdateItem(e, s, item, value, ok)
    case WriteAll(s, data, ok) => UpdateItems(e, s, data, ok)
  }

  // ---- Sessions are independent ----

  /** All of the engine that a session can see. */
  datatype Part = Part(isOpen: bool, table: Option<Table>, observer: Option<nat>)

  function PartOf(e: Engine, s: Session): Part {
    Part(e.isOpen,
         if s in e.delegates then Some(e.delegates[s]) else None,
         if s in e.observers then Some(e.observers[s]) else None)
  }

  function Run(e: Engine, calls: seq<Call>): Engine {
    if calls == [] then e else Apply(Run(e, calls[..|calls| - 1]), calls[|calls| - 1]).0
  }

  /** The calls for one session, and the answers they get. */
  function Only(calls: seq<Call>, s: Session): seq<Call> {
    if calls == [] then []
    else
      var c := calls[|calls| - 1];
      Only(calls[..|calls| - 1], s) + (if c.s == s then [c] else [])
  }

  function Answers(e: Engine, calls: seq<Call>, s: Session): seq<Status> {
    if calls == [] then []
    else
      var before, c := calls[..|calls| - 1], calls[|calls| - 1];
      Answers(e, before, s) + (if c.s == s then [Apply(Run(e, before), c).1] else [])
  }

  /** A call answers by its own session's part, changes that by nothing else, and leaves
      every other session's part alone. */
  lemma CallIsLocal(e: Engine, f: Engine, c: Call)
    requires PartOf(e, c.s) == PartOf(f, c.s)
    ensures Apply(e, c).1 == Apply(f, c).1 && PartOf(Apply(e, c).0, c.s) == PartOf(Apply(f, c).0, c.s)
  {
  }

  lemma CallLeavesOthers(e: Engine, c: Call, s: Session)
    requires c.s != s
    ensures PartOf(Apply(e, c).0, s) == PartOf(e, s)
  {
  }

  /** Over every run, what a session has and every answer it gets is what it would have
      and get if the calls for the other sessions had never been made. */
  lemma {:induction false} SessionsIsolated(e: Engine, calls: seq<Call>, s: Session)
    ensures PartOf(Run(e, calls), s) == PartOf(Run(e, Only(calls, s)), s)
    ensures Answers(e, calls, s) == Answers(e, Only(calls, s), s)
  {
    if calls != [] {
      var before, c := calls[..|calls| - 1], calls[|calls| - 1];
      SessionsIsolated(e, before, s);
      hide Apply, PartOf;
      if c.s == s {
        CallIsLocal(Run(e, before), Run(e, Only(before, s)), c);
        assert (Only(before, s) + [c])[..|Only(before, s)|] == Only(before, s);
      } else {
        CallLeavesOthers(Run(e, before), c, s);
        assert Only(before, s) + [] == Only(before, s);
      }
    }
  }

  // ---- When calls succeed ----

  /** What the database answers to a call that gets as far as asking it. */
  predicate DatabaseAgrees(c: Call) {
    match c
    case Create(_, kvOk, pragmaOk) => kvOk && pragmaOk
    case Delete(_, ok) => ok
    case Register(_, _, ok) => ok
    case UnRegister(_, ok) => ok
    case Write(_, _, _, ok) => ok
    case WriteAll(_, _, ok) => ok
  }

  /** A call succeeds exactly if the engine is open, the session has a table, or has none
      to be created, an observer to be removed is there, there is something to write, and
      the database agrees, which an observer already there is not asked for. */
  lemma SucceedsIff(e: Engine, c: Call)
    ensures Apply(e, c).1 == SUCCESS
       <==> && e.isOpen && (c.s in e.delegates <==> !c.Create?)
            && (c.UnRegister? ==> c.s in e.observers) && (c.WriteAll? ==> c.data != map[])
            && (DatabaseAgrees(c) || (c.Register? && c.s in e.observers))
  {
  }

  /** A call that does not succeed changes nothing, and says why. */
  lemma RefusedChangesNothing(e: Engine, c: Call)
    requires Apply(e, c).1 != SUCCESS
    ensures Apply(e, c).0 == e
    ensures Apply(e, c).1 ==
            if !e.isOpen || (c.WriteAll? && c.data == map[]) then ERR_DB_NOT_INIT
            else if c.Create? then (if c.s in e.delegates then ERR_EXIST else ERR_DB_GETKV_FAIL)
            else if c.s !in e.delegates then ERR_DB_NOT_EXIST
            else if c.Register? then ERR_REGISTER
            else if c.UnRegister? then (if c.s in e.observers then ERR_UNREGISTER else ERR_NO_OBSERVER)
            else ERR_CLOSE_STORAGE
  {
  }

  // ---- Calls that undo or read back one another ----

  /** Deleting a table just created leaves the engine as it was, an observer left over
      from an earlier table included. */
  lemma CreateThenDelete(e: Engine, s: Session)
    ensures var (e1, created) := CreateTable(e, s, true, true);
            (created == SUCCESS <==> e.isOpen && s !in e.delegates)
            && (created == SUCCESS ==> DeleteTable(e1, s, true) == (e, SUCCESS))
  {
    assert s !in e.delegates ==> e.delegates[s := map[]] - {s} == e.delegates;
  }

  /** Unregistering the observer just registered leaves the engine as it was; over an
      observer that is there, registering succeeds and unregistering takes the old one. */
  lemma RegisterThenUnRegister(e: Engine, s: Session, watcher: nat)
    requires e.isOpen && s in e.delegates
    ensures var (e1, registered) := RegisterObserver(e, s, watcher, true);
            var (e2, unregistered) := UnRegisterObserver(e1, s, true);
            && registered == SUCCESS && unregistered == SUCCESS
            && e1.observers[s] == (if s in e.observers then e.observers[s] else watcher)
            && e2 == e.(observers := e.observers - {s})
            && (s !in e.observers ==> e2 == e)
  {
    assert e.observers[s := watcher] - {s} == e.observers - {s};
    assert s !in e.observers ==> e.observers - {s} == e.observers;
  }

  /** An item written is read back, in any later reading that the database answers, and
      no other item, session or observer reads differently. */
  lemma WriteThenRead(e: Engine, s: Session, item: string, value: Bytes, s2: Session, item2: string, failure: nat)
    ensures var (e1, status) := UpdateItem(e, s, item, value, true);
            && (status == SUCCESS <==> e.isOpen && s in e.delegates)
            && GetItem(e1, s2, item2, true, failure)
               == (if status == SUCCESS && s2 == s && item2 == item then (SUCCESS, value)
                   else GetItem(e, s2, item2, true, failure))
            && e1.observers == e.observers && e1.delegates.Keys == e.delegates.Keys
  {
  }

  /** Reading a whole table and reading its items one by one agree: an item is read
      exactly if it is in the table read, with the same value. */
  lemma ReadAllIsReads(e: Engine, s: Session, item: string, failure: nat)
    ensures var (all, table) := GetItems(e, s, true, failure);
            var (one, value) := GetItem(e, s, item, true, failure);
            && (one == SUCCESS <==> item in table)
            && (one == SUCCESS ==> all == SUCCESS && value == table[item])
            && (all != SUCCESS ==> one == all)
  {
  }

  function Writes(s: Session, entries: seq<Item>): seq<Call> {
    if entries == [] then []
    else
      var last := entries[|entries| - 1];
      Writes(s, entries[..|entries| - 1]) + [Write(s, last.key, last.value, true)]
  }

  lemma {:induction false} WritesAre(e: Engine, s: Session, entries: seq<Item>)
    requires e.isOpen && s in e.delegates
    ensures Run(e, Writes(s, entries)) == e.(delegates := e.delegates[s := PutBatch(e.delegates[s], entries)])
  {
    if entries == [] {
      assert e.delegates[s := e.delegates[s]] == e.delegates;
    } else {
      var before, last := entries[..|entries| - 1], entries[|entries| - 1];
      var w := Write(s, last.key, last.value, true);
      var table := PutBatch(e.delegates[s], before);
      WritesAre(e, s, before);
      assert Writes(s, entries) == Writes(s, before) + [w];
      assert (Writes(s, before) + [w])[..|Writes(s, before)|] == Writes(s, before);
      assert Run(e, Writes(s, entries)) == Apply(Run(e, Writes(s, before)), w).0;
      hide Run, Writes, PutBatch;
      assert e.delegates[s := table][s := table[last.key := last.value]]
          == e.delegates[s := table[last.key := last.value]];
    }
  }

  /** A batch does what its entries do as single writes, in whatever order they list the
      data; but a batch of nothing is refused. */
  lemma BatchIsWrites(e: Engine, s: Session, data: Table, entries: seq<Item>)
    requires e.isOpen && s in e.delegates
    requires PutBatch(e.delegates[s], entries) == e.delegates[s] + data
    ensures UpdateItems(e, s, data, true)
         == if data == map[] then (e, ERR_DB_NOT_INIT) else (Run(e, Writes(s, entries)), SUCCESS)
  {
    WritesAre(e, s, entries);
  }
}
