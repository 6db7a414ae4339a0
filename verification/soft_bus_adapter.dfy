/** The adapter object of the send path: maps changed in place, buffers deleted by
    hand, loops that erase while they iterate. Each method is proved against the
    operation on values it stands for. */
module SoftBusAdapter {
  import opened TaskQueue
  import opened SoftBus
  import opened Scheduler

  const TASK_CAPACITY_MAX: nat := 15
  const FLUSH: nat := 1

  datatype Status = SUCCESS | ERROR | INVALID_ARGUMENT

  class Adapter {
    const taskQueue: TaskScheduler
    var dataCaches: map<Device, seq<Msg>>
    var sockets: map<Device, int>
    var nextBuffer: nat
    ghost var freed: multiset<nat>
    ghost var history: map<Device, History>

    constructor ()
      ensures fresh(taskQueue) && taskQueue.Valid() && taskQueue.capacity == TASK_CAPACITY_MAX
      ensures taskQueue.View() == Queue([], IDLE, INVALID_TASK_ID, 0, TASK_CAPACITY_MAX)
      ensures View() == Net(map[], map[], 0, multiset{}, map[])
    {
      taskQueue := new TaskScheduler(TASK_CAPACITY_MAX);
      dataCaches, sockets, nextBuffer, freed, history := map[], map[], 0, multiset{}, map[];
    }

    ghost function View(): Net
      reads this
    {
      Net(dataCaches, sockets, nextBuffer, freed, history)
    }

    /** Deletes the buffer in front of a cache and erases its message; `sent` tells
        whether SendBytes was given the message first. */
    method EraseFront(d: Device, ghost fate: Fate)
      requires d in dataCaches && dataCaches[d] != []
      modifies this
      ensures View() == DropFront(old(View()), d, fate)
    {
      ghost var m, h := dataCaches[d][0], Past(View(), d);
      freed := freed + multiset{m.ptr};
      history := history[d := History(h.submitted, h.fate + [fate],
                                      if fate == Sent then h.sent + [m.data] else h.sent)];
      dataCaches := dataCaches[d := dataCaches[d][1..]];
    }

    method CacheData(d: Device, data: Payload, copied: bool) returns (status: Status)
      modifies this
      ensures View() == CacheOp(old(View()), d, data, copied)
      ensures status == if copied then SUCCESS else INVALID_ARGUMENT
    {
      var ptr := nextBuffer;
      nextBuffer := nextBuffer + 1;
      if !copied {
        freed := freed + multiset{ptr};
        return INVALID_ARGUMENT;
      }
      ghost var h := Past(View(), d);
      history := history[d := h.(submitted := h.submitted + [data])];
      if d !in dataCaches {
        dataCaches := dataCaches[d := [Msg(ptr, data)]];
        assert [] + [Msg(ptr, data)] == [Msg(ptr, data)];
        assert View() == Push(old(View()), d, data);
      } else {
        dataCaches := dataCaches[d := dataCaches[d] + [Msg(ptr, data)]];
        if |dataCaches[d]| > CACHE_LIMIT {
          assert View() == Push(old(View()), d, data);
          EraseFront(d, Evicted);
        }
      }
      return SUCCESS;
    }

    method GetSocket(d: Device, created: int) returns (socket: int)
      modifies this
      ensures (View(), socket) == SocketOp(old(View()), d, created)
    {
      if d in sockets {
        return sockets[d];
      }
      if created <= INVALID_SOCKET {
        return INVALID_SOCKET;
      }
      sockets := sockets[d := created];
      return created;
    }

    /** Empties a device's cache from the front, whatever SendBytes returns. */
    method DrainCache(d: Device, ghost fate: Fate)
      requires d in dataCaches
      modifies this
      ensures View() == Drain(old(View()), d, fate)
      ensures d in dataCaches && dataCaches[d] == [] && sockets == old(sockets)
      ensures dataCaches.Keys == old(dataCaches.Keys)
    {
      while dataCaches[d] != []
        invariant d in dataCaches && sockets == old(sockets) && dataCaches.Keys == old(dataCaches.Keys)
        invariant Drain(View(), d, fate) == Drain(old(View()), d, fate)
        decreases |dataCaches[d]|
      {
        EraseFront(d, fate);
      }
    }

    /** The flush task: every device of the socket table, in the table's order. */
    method Flush() returns (ghost order: seq<Device>)
      modifies this
      ensures View() == FlushAll(old(View()), order)
      ensures forall d :: d in order <==> d in old(sockets)
      ensures forall i, j :: 0 <= i < j < |order| ==> order[i] != order[j]
    {
      order := [];
      var todo := sockets.Keys;
      while todo != {}
        invariant sockets == old(sockets) && todo <= sockets.Keys
        invariant View() == FlushAll(old(View()), order)
        invariant forall d :: d in order <==> d in sockets && d !in todo
        invariant forall i, j :: 0 <= i < j < |order| ==> order[i] != order[j]
        decreases |todo|
      {
        var d :| d in todo;
        todo := todo - {d};
        if sockets[d] > INVALID_SOCKET && d in dataCaches {
          DrainCache(d, Sent);
        }
        ghost var longer := order + [d];
        assert longer[..|longer| - 1] == order;
        order := longer;
      }
    }

    method OnClientShutdown(socket: int)
      modifies this
      ensures View() == ShutdownOp(old(View()), socket)
      ensures forall d :: d in sockets <==> d in old(sockets) && old(sockets)[d] != socket
      ensures forall d :: d in sockets ==> sockets[d] == old(sockets)[d]
    {
      var todo := sockets.Keys;
      while todo != {}
        invariant todo <= old(sockets).Keys
        invariant sockets == map d | d in old(sockets) && (d in todo || old(sockets)[d] != socket) :: old(sockets)[d]
        invariant View() == old(View()).(sockets := sockets)
        decreases |todo|
      {
        var d :| d in todo;
        todo := todo - {d};
        if sockets[d] == socket {
          sockets := sockets - {d};
        }
      }
    }

    /** Caching, connecting and queueing a flush, with nobody in between. */
    method SendData(d: Device, data: Payload, copied: bool, created: int, now: int) returns (status: Status)
      requires taskQueue.Valid() && Fresh(taskQueue.View()) && taskQueue.capacity == TASK_CAPACITY_MAX
      requires forall i :: 0 <= i < |taskQueue.tasks| ==> taskQueue.tasks[i].exec == FLUSH
      modifies this, taskQueue
      ensures taskQueue.Valid()
      ensures View() == if copied then SocketOp(CacheOp(old(View()), d, data, true), d, created).0
                        else CacheOp(old(View()), d, data, false)
      ensures status == SUCCESS ==> taskQueue.tasks != [] && forall n :: n in taskQueue.tasks ==> n.exec == FLUSH
      ensures status != SUCCESS ==> taskQueue.View() == old(taskQueue.View())
      ensures status == if !copied then INVALID_ARGUMENT
                        else if d !in old(sockets) && created <= INVALID_SOCKET then ERROR
                        else if d in old(sockets) && old(sockets)[d] == INVALID_SOCKET then ERROR
                        else SUCCESS
    {
      hide AtOp, WellFormed, Agrees, UpperBound, NextId;
      status := CacheData(d, data, copied);
      if status != SUCCESS {
        return;
      }
      assert sockets == old(sockets);
      var socket := GetSocket(d, created);
      if socket == INVALID_SOCKET {
        return ERROR;
      }
      ghost var was := taskQueue.View();
      var id, wake := taskQueue.At(now, FLUSH, INVALID_INTERVAL, UNLIMITED_TIMES);
      ExecuteQueues(was, now);
      assert forall i :: 0 <= i < |taskQueue.tasks| ==> taskQueue.View().tasks[i].task.exec == taskQueue.tasks[i].exec;
    }

    /** The part of the destructor that owns buffers: delete all, then clear. */
    method ReleaseAll() returns (ghost order: seq<Device>)
      modifies this
      ensures View() == DrainAll(old(View()), order, Discarded).(caches := map[], sockets := map[])
      ensures forall d :: d in order <==> d in old(dataCaches)
    {
      order := [];
      var todo := dataCaches.Keys;
      while todo != {}
        invariant todo <= dataCaches.Keys && dataCaches.Keys == old(dataCaches.Keys)
        invariant View() == DrainAll(old(View()), order, Discarded)
        invariant forall d :: d in order <==> d in old(dataCaches) && d !in todo
        decreases |todo|
      {
        var d :| d in todo;
        todo := todo - {d};
        DrainCache(d, Discarded);
        ghost var longer := order + [d];
        assert longer[..|longer| - 1] == order;
        order := longer;
      }
      dataCaches, sockets := map[], map[];
    }
  }

  /** After Execute a flush is queued, even when the queue was full. */
  lemma ExecuteQueues(q: Queue, now: int)
    requires q.capacity == TASK_CAPACITY_MAX
    requires forall i :: 0 <= i < |q.tasks| ==> q.tasks[i].task.exec == FLUSH
    ensures var t := AtOp(q, now, FLUSH, INVALID_INTERVAL, UNLIMITED_TIMES).queue;
            t.tasks != [] && forall i :: 0 <= i < |t.tasks| ==> t.tasks[i].task.exec == FLUSH
  {
  }
}
