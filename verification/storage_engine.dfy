/** The storage engine: one key-value table per session and one observer per watched
    table. The database behind a table is not part of this model: a table is a map,
    and the outcome of each database call is a parameter. */
module StorageEngine {
  import opened Common

  type Table = map<string, Bytes>
  type Session = string

  datatype Status =
    | SUCCESS
    | ERR_EXIST
    | ERR_DATA_LEN
    | ERR_DB_NOT_INIT
    | ERR_DB_GETKV_FAIL
    | ERR_DB_NOT_EXIST
    | ERR_CLOSE_STORAGE
    | ERR_NULL_OBJECT
    | ERR_REGISTER
    | ERR_GET_OBJECT
    | ERR_NO_OBSERVER
    | ERR_UNREGISTER
    | ERR_INVALID_ARGS
    | ERR_NO_PERMISSION
    | DB_STATUS(code: nat)

  /** `observers` names the watcher registered for each watched table. */
  datatype Engine = Engine(isOpen: bool, delegates: map<Session, Table>, observers: map<Session, nat>)

  function CreateTable(e: Engine, key: Session, kvOk: bool, pragmaOk: bool): (Engine, Status) {
    if !e.isOpen then (e, ERR_DB_NOT_INIT)
    else if key in e.delegates then (e, ERR_EXIST)
    else if !kvOk || !pragmaOk then (e, ERR_DB_GETKV_FAIL)
    else (e.(delegates := e.delegates[key := map[]]), SUCCESS)
  }

  function DeleteTable(e: Engine, key: Session, closeOk: bool): (Engine, Status) {
    if !e.isOpen then (e, ERR_DB_NOT_INIT)
    else if key !in e.delegates then (e, ERR_DB_NOT_EXIST)
    else if !closeOk then (e, ERR_CLOSE_STORAGE)
    else (e.(delegates := e.delegates - {key}), SUCCESS)
  }

  function RegisterObserver(e: Engine, key: Session, watcher: nat, registerOk: bool): (Engine, Status) {
    if !e.isOpen then (e, ERR_DB_NOT_INIT)
    else if key !in e.delegates then (e, ERR_DB_NOT_EXIST)
    else if key in e.observers then (e, SUCCESS)
    else if !registerOk then (e, ERR_REGISTER)
    else (e.(observers := e.observers[key := watcher]), SUCCESS)
  }

  function UnRegisterObserver(e: Engine, key: Session, unregisterOk: bool): (Engine, Status) {
    if !e.isOpen then (e, ERR_DB_NOT_INIT)
    else if key !in e.delegates then (e, ERR_DB_NOT_EXIST)
    else if key !in e.observers then (e, ERR_NO_OBSERVER)
    else if !unregisterOk then (e, ERR_UNREGISTER)
    else (e.(observers := e.observers - {key}), SUCCESS)
  }

  function UpdateItem(e: Engine, key: Session, item: string, value: Bytes, putOk: bool): (Engine, Status) {
    if !e.isOpen then (e, ERR_DB_NOT_INIT)
    else if key !in e.delegates then (e, ERR_DB_NOT_EXIST)
    else if !putOk then (e, ERR_CLOSE_STORAGE)
    else (e.(delegates := e.delegates[key := e.delegates[key][item := value]]), SUCCESS)
  }

  function UpdateItems(e: Engine, key: Session, data: Table, putOk: bool): (Engine, Status) {
    if !e.isOpen || data == map[] then (e, ERR_DB_NOT_INIT)
    else if key !in e.delegates then (e, ERR_DB_NOT_EXIST)
    else if !putOk then (e, ERR_CLOSE_STORAGE)
    else (e.(delegates := e.delegates[key := e.delegates[key] + data]), SUCCESS)
  }

  /** `failure` is the database's status when it cannot read. */
  function GetItem(e: Engine, key: Session, item: string, readOk: bool, failure: nat): (Status, Bytes) {
    if !e.isOpen then (ERR_DB_NOT_INIT, [])
    else if key !in e.delegates then (ERR_DB_NOT_EXIST, [])
    else if !readOk || item !in e.delegates[key] then (DB_STATUS(failure), [])
    else (SUCCESS, e.delegates[key][item])
  }

  function GetItems(e: Engine, key: Session, readOk: bool, failure: nat): (Status, Table) {
    if !e.isOpen then (ERR_DB_NOT_INIT, map[])
    else if key !in e.delegates then (ERR_DB_NOT_EXIST, map[])
    else if !readOk then (DB_STATUS(failure), map[])
    else (SUCCESS, e.delegates[key])
  }

  datatype Item = Item(key: string, value: Bytes)

  /** A batch of writes, applied in order. */
  function PutBatch(table: Table, entries: seq<Item>): Table {
    if entries == [] then table
    else PutBatch(table, entries[..|entries| - 1])[entries[|entries| - 1].key := entries[|entries| - 1].value]
  }

  lemma PutBatchStep(table: Table, entries: seq<Item>, done: Table, k: string, v: Bytes)
    requires PutBatch(table, entries) == table + done
    ensures PutBatch(table, entries + [Item(k, v)]) == table + done[k := v]
  {
  }

  /** A table overridden with all of the data but some keys. */
  ghost function Overridden(table: Table, data: Table, todo: set<string>): Table {
    table + (data - todo)
  }

  lemma OverriddenEnds(table: Table, data: Table)
    ensures Overridden(table, data, data.Keys) == table && Overridden(table, data, {}) == table + data
  {
    assert data - data.Keys == map[] && data - {} == data && table + map[] == table;
  }

  lemma OverriddenStep(table: Table, data: Table, todo: set<string>, entries: seq<Item>, k: string)
    requires k in todo && k in data && PutBatch(table, entries) == Overridden(table, data, todo)
    ensures PutBatch(table, entries + [Item(k, data[k])]) == Overridden(table, data, todo - {k})
  {
    PutBatchStep(table, entries, data - todo, k, data[k]);
    assert data - (todo - {k}) == (data - todo)[k := data[k]];
  }

  /** The entries of a map, in some order: writing them is overriding with the map. */
  method Entries(data: Table, ghost table: Table) returns (entries: seq<Item>)
    ensures PutBatch(table, entries) == table + data
  {
    entries := [];
    var todo := data.Keys;
    OverriddenEnds(table, data);
    assert PutBatch(table, entries) == table;
    hide PutBatch, Overridden;
    while todo != {}
      invariant todo <= data.Keys && PutBatch(table, entries) == Overridden(table, data, todo)
      decreases |todo|
    {
      var k :| k in todo;
      OverriddenStep(table, data, todo, entries, k);
      todo := todo - {k};
      entries := entries + [Item(k, data[k])];
    }
  }

  class FlatObjectStorageEngine {
    var isOpened: bool
    var delegates: map<Session, Table>
    var observerMap: map<Session, nat>

    ghost function View(): Engine
      reads this
    {
      Engine(isOpened, delegates, observerMap)
    }

    constructor ()
      ensures View() == Engine(false, map[], map[])
    {
      isOpened, delegates, observerMap := false, map[], map[];
    }

    method Open()
      modifies this
      ensures View() == old(View()).(isOpen := true)
    {
      isOpened := true;
    }

    method DoCreateTable(key: Session, kvOk: bool, pragmaOk: bool) returns (status: Status)
      modifies this
      ensures (View(), status) == CreateTable(old(View()), key, kvOk, pragmaOk)
    {
      if !isOpened {
        return ERR_DB_NOT_INIT;
      }
      if key in delegates {
        return ERR_EXIST;
      }
      if !kvOk || !pragmaOk {
        return ERR_DB_GETKV_FAIL;
      }
      delegates := delegates[key := map[]];
      return SUCCESS;
    }

    method DoDeleteTable(key: Session, closeOk: bool) returns (status: Status)
      modifies this
      ensures (View(), status) == DeleteTable(old(View()), key, closeOk)
    {
      if !isOpened {
        return ERR_DB_NOT_INIT;
      }
      if key !in delegates {
        return ERR_DB_NOT_EXIST;
      }
      if !closeOk {
        return ERR_CLOSE_STORAGE;
      }
      delegates := delegates - {key};
      return SUCCESS;
    }

    method DoRegisterObserver(key: Session, watcher: nat, registerOk: bool) returns (status: Status)
      modifies this
      ensures (View(), status) == RegisterObserver(old(View()), key, watcher, registerOk)
    {
      if !isOpened {
        return ERR_DB_NOT_INIT;
      }
      if key !in delegates {
        return ERR_DB_NOT_EXIST;
      }
      if key in observerMap {
        return SUCCESS;
      }
      if !registerOk {
        return ERR_REGISTER;
      }
      observerMap := observerMap[key := watcher];
      return SUCCESS;
    }

    method DoUnRegisterObserver(key: Session, unregisterOk: bool) returns (status: Status)
      modifies this
      ensures (View(), status) == UnRegisterObserver(old(View()), key, unregisterOk)
    {
      if !isOpened {
        return ERR_DB_NOT_INIT;
      }
      if key !in delegates {
        return ERR_DB_NOT_EXIST;
      }
      if key !in observerMap {
        return ERR_NO_OBSERVER;
      }
      if !unregisterOk {
        return ERR_UNREGISTER;
      }
      observerMap := observerMap - {key};
      return SUCCESS;
    }

    method DoUpdateItem(key: Session, item: string, value: Bytes, putOk: bool) returns (status: Status)
      modifies this
      ensures (View(), status) == UpdateItem(old(View()), key, item, value, putOk)
    {
      if !isOpened {
        return ERR_DB_NOT_INIT;
      }
      if key !in delegates {
        return ERR_DB_NOT_EXIST;
      }
      if !putOk {
        return ERR_CLOSE_STORAGE;
      }
      delegates := delegates[key := delegates[key][item := value]];
      return SUCCESS;
    }

    /** A failing read leaves the caller's value alone: here, empty. */
    method DoGetItem(key: Session, item: string, readOk: bool, failure: nat) returns (status: Status, value: Bytes)
      ensures (status, value) == GetItem(View(), key, item, readOk, failure)
    {
      value := [];
      if !isOpened {
        return ERR_DB_NOT_INIT, value;
      }
      if key !in delegates {
        return ERR_DB_NOT_EXIST, value;
      }
      if !readOk || item !in delegates[key] {
        return DB_STATUS(failure), value;
      }
      return SUCCESS, delegates[key][item];
    }

    method DoGetItems(key: Session, readOk: bool, failure: nat) returns (status: Status, data: Table)
      ensures (status, data) == GetItems(View(), key, readOk, failure)
    {
      data := map[];
      if !isOpened {
        return ERR_DB_NOT_INIT, data;
      }
      if key !in delegates {
        return ERR_DB_NOT_EXIST, data;
      }
      if !readOk {
        return DB_STATUS(failure), data;
      }
      return SUCCESS, delegates[key];
    }

    /** The data is turned into a list of entries and written in one batch. */
    method DoUpdateItems(key: Session, data: Table, putOk: bool) returns (status: Status)
      modifies this
      ensures (View(), status) == UpdateItems(old(View()), key, data, putOk)
    {
      if !isOpened || data == map[] {
        return ERR_DB_NOT_INIT;
      }
      if key !in delegates {
        return ERR_DB_NOT_EXIST;
      }
      var entries := Entries(data, delegates[key]);
      if !putOk {
        return ERR_CLOSE_STORAGE;
      }
      delegates := delegates[key := PutBatch(delegates[key], entries)];
      return SUCCESS;
    }
  }
}
