/** The flat object store: typed puts and gets over the storage engine, and the
    callbacks of the object service. */
module FlatObjectStores {
  import opened Common
  import opened StorageEngine
  import opened BytesUtils
  import opened TypedValues
  import opened DataCallbacks
  import ChangePipeline

  /** `told` lists the calls of NotifyStatus and NotifyChange made so far. */
  class FlatObjectStore {
    const storageEngine: FlatObjectStorageEngine
    var retrievedCache: seq<Session>
    var told: seq<Notice>

    ghost function View(): Store
      reads this, storageEngine
    {
      Store(storageEngine.View(), retrievedCache, told)
    }

    constructor (openOk: bool)
      ensures View() == Store(Engine(openOk, map[], map[]), [], []) && fresh(storageEngine)
    {
      storageEngine := new FlatObjectStorageEngine();
      retrievedCache, told := [], [];
      new;
      if openOk {
        storageEngine.Open();
      }
    }

    // ---- Typed values ----

    method Put(env: Env, sessionId: Session, item: string, value: Bytes) returns (status: Status)
      modifies storageEngine
      ensures (storageEngine.View(), status) == PutItemOp(old(storageEngine.View()), env, sessionId, item, value)
    {
      if !storageEngine.isOpened {
        if !env.openOk {
          return ERR_DB_NOT_INIT;
        }
        storageEngine.Open();
      }
      status := storageEngine.DoUpdateItem(sessionId, item, value, env.dbOk);
    }

    method Get(env: Env, sessionId: Session, item: string) returns (status: Status, value: Bytes)
      modifies storageEngine
      ensures (storageEngine.View(), status, value) == GetItemOp(old(storageEngine.View()), env, sessionId, item)
    {
      if !storageEngine.isOpened {
        if !env.openOk {
          return ERR_DB_NOT_INIT, [];
        }
        storageEngine.Open();
      }
      status, value := storageEngine.DoGetItem(sessionId, item, env.dbOk, env.failure);
    }

    method PutDouble(env: Env, sessionId: Session, key: string, value: Double) returns (status: Status)
      modifies storageEngine
      ensures (storageEngine.View(), status)
           == PutOp(old(storageEngine.View()), env, sessionId, key, Encoded(Number(value)))
    {
      var data := new Buffer();
      data.PutNum([Code(TYPE_DOUBLE)], 0);
      data.PutNum(value, 1);
      status := Put(env, sessionId, ChangePipeline.FIELDS_PREFIX + key, data.data);
    }

    method PutBoolean(env: Env, sessionId: Session, key: string, value: bool) returns (status: Status)
      modifies storageEngine
      ensures (storageEngine.View(), status)
           == PutOp(old(storageEngine.View()), env, sessionId, key, Encoded(Flag(value)))
    {
      var data := new Buffer();
      data.PutNum([Code(TYPE_BOOLEAN)], 0);
      data.PutNum([BoolByte(value)], 1);
      status := Put(env, sessionId, ChangePipeline.FIELDS_PREFIX + key, data.data);
    }

    method PutString(env: Env, sessionId: Session, key: string, value: Bytes) returns (status: Status)
      modifies storageEngine
      ensures (storageEngine.View(), status)
           == PutOp(old(storageEngine.View()), env, sessionId, key, Encoded(Text(value)))
    {
      var data := new Buffer();
      data.PutNum([Code(TYPE_STRING)], 0);
      data.Append(value);
      status := Put(env, sessionId, ChangePipeline.FIELDS_PREFIX + key, data.data);
    }

    method PutComplex(env: Env, sessionId: Session, key: string, value: Bytes) returns (status: Status)
      modifies storageEngine
      ensures (storageEngine.View(), status)
           == PutOp(old(storageEngine.View()), env, sessionId, key, Encoded(Complex(value)))
    {
      var data := new Buffer();
      data.PutNum([Code(TYPE_COMPLEX)], 0);
      data.Append(value);
      status := Put(env, sessionId, ChangePipeline.FIELDS_PREFIX + key, data.data);
    }

    /** Writes the double through `value`; on any failure leaves it as it was. */
    method GetDouble(env: Env, sessionId: Session, key: string, value: array<byte>) returns (status: Status)
      requires value.Length == DOUBLE_SIZE
      modifies storageEngine, value
      ensures storageEngine.View() == GetOp(old(storageEngine.View()), env, sessionId, key).0
      ensures GetAs(old(storageEngine.View()), env, sessionId, key, TYPE_DOUBLE)
           == if status == SUCCESS then Got(Number(value[..])) else Failed(status)
      ensures status != SUCCESS ==> value[..] == old(value[..])
    {
      var bytes: Bytes;
      status, bytes := Get(env, sessionId, ChangePipeline.FIELDS_PREFIX + key);
      if status != SUCCESS {
        return;
      }
      var data := new Buffer.Of(bytes);
      status := data.GetNum(1, value);
    }

    method GetBoolean(env: Env, sessionId: Session, key: string) returns (status: Status, value: bool)
      modifies storageEngine
      ensures storageEngine.View() == GetOp(old(storageEngine.View()), env, sessionId, key).0
      ensures GetAs(old(storageEngine.View()), env, sessionId, key, TYPE_BOOLEAN)
           == if status == SUCCESS then Got(Flag(value)) else Failed(status)
    {
      value := false;
      var bytes: Bytes;
      status, bytes := Get(env, sessionId, ChangePipeline.FIELDS_PREFIX + key);
      if status != SUCCESS {
        return;
      }
      var data := new Buffer.Of(bytes);
      var one := new byte[1];
      status := data.GetNum(1, one);
      if status == SUCCESS {
        assert one[..] == GetNumOp(bytes, 1, 1).1;
        value := one[0] != 0;
      }
    }

    method GetString(env: Env, sessionId: Session, key: string) returns (status: Status, value: Bytes)
      modifies storageEngine
      ensures storageEngine.View() == GetOp(old(storageEngine.View()), env, sessionId, key).0
      ensures GetAs(old(storageEngine.View()), env, sessionId, key, TYPE_STRING)
           == if status == SUCCESS then Got(Text(value)) else Failed(status)
    {
      value := [];
      var bytes: Bytes;
      status, bytes := Get(env, sessionId, ChangePipeline.FIELDS_PREFIX + key);
      if status != SUCCESS {
        return;
      }
      var r := BytesToStrWithType(bytes);
      status, value := r.0, r.1;
    }

    /** The type byte is erased without looking: what is stored must have one. */
    method GetComplex(env: Env, sessionId: Session, key: string) returns (status: Status, value: Bytes)
      requires var r := GetOp(storageEngine.View(), env, sessionId, key); r.1 == SUCCESS ==> r.2 != []
      modifies storageEngine
      ensures storageEngine.View() == GetOp(old(storageEngine.View()), env, sessionId, key).0
      ensures GetAs(old(storageEngine.View()), env, sessionId, key, TYPE_COMPLEX)
           == if status == SUCCESS then Got(Complex(value)) else Failed(status)
    {
      status, value := Get(env, sessionId, ChangePipeline.FIELDS_PREFIX + key);
      if status != SUCCESS {
        return;
      }
      value := value[1..];
    }

    method GetTypeOf(env: Env, sessionId: Session, key: string, kind: array<byte>) returns (status: Status)
      requires kind.Length == 1
      modifies storageEngine, kind
      ensures storageEngine.View() == GetOp(old(storageEngine.View()), env, sessionId, key).0
      ensures GetType(old(storageEngine.View()), env, sessionId, key)
           == (status, if status == SUCCESS then kind[..] else [])
      ensures status != SUCCESS ==> kind[..] == old(kind[..])
    {
      var bytes: Bytes;
      status, bytes := Get(env, sessionId, ChangePipeline.FIELDS_PREFIX + key);
      if status != SUCCESS {
        return;
      }
      var data := new Buffer.Of(bytes);
      status := data.GetNum(0, kind);
    }

    // ---- Callbacks ----

    method Find(sessionId: Session) returns (p: nat)
      ensures p == Position(retrievedCache, sessionId)
    {
      p := 0;
      while p < |retrievedCache| && retrievedCache[p] != sessionId
        invariant p <= |retrievedCache| && sessionId !in retrievedCache[..p]
      {
        p := p + 1;
      }
      PositionIs(retrievedCache, sessionId, p);
    }

    method DoAnnounce(sessionId: Session, allReady: bool)
      modifies this
      ensures View() == Announce(old(View()), sessionId, allReady)
    {
      if allReady {
        var p := Find(sessionId);
        if p == |retrievedCache| {
          retrievedCache := retrievedCache + [sessionId];
          told := told + [Restored(sessionId)];
        }
      }
    }

    method OnRetrieve(sessionId: Session, data: Table, allReady: bool, putOk: bool)
      modifies this, storageEngine
      ensures View() == RetrieveOp(old(View()), sessionId, data, allReady, putOk)
    {
      if data == map[] {
        return;
      }
      var _ := storageEngine.DoUpdateItems(sessionId, data, putOk);
      DoAnnounce(sessionId, allReady);
    }

    method FilterData(sessionId: Session, data: Table, readOk: bool, failure: nat) returns (filtered: Table)
      ensures filtered == Filtered(storageEngine.View(), sessionId, data, readOk, failure)
    {
      var _, allData := storageEngine.DoGetItems(sessionId, readOk, failure);
      filtered := data;
      var todo := allData.Keys;
      while todo != {}
        invariant todo <= allData.Keys && filtered == data - (allData.Keys - todo)
        decreases |todo|
      {
        var k :| k in todo;
        todo := todo - {k};
        filtered := filtered - {k};
      }
    }

    method OnDataChange(sessionId: Session, data: Table, allReady: bool, readOk: bool, failure: nat, putOk: bool)
      modifies this, storageEngine
      ensures View() == DataChangeOp(old(View()), sessionId, data, allReady, readOk, failure, putOk)
    {
      var filteredData := FilterData(sessionId, data, readOk, failure);
      if filteredData != map[] {
        var _ := storageEngine.DoUpdateItems(sessionId, filteredData, putOk);
        told := told + [Changed(sessionId, filteredData)];
      }
      DoAnnounce(sessionId, allReady);
    }

    method CheckRetrieveCache(sessionId: Session)
      modifies this
      ensures View() == CheckOp(old(View()), sessionId)
    {
      var p := Find(sessionId);
      if p != |retrievedCache| {
        told := told + [Restored(retrievedCache[p])];
        retrievedCache := retrievedCache[..p] + retrievedCache[p + 1..];
      }
    }
  }

  lemma {:induction false} PositionIs(ss: seq<Session>, s: Session, p: nat)
    requires p <= |ss| && s !in ss[..p] && (p < |ss| ==> ss[p] == s)
    ensures Position(ss, s) == p
  {
  }
}
