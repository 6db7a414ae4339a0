/** The scheduler object: a multimap of heap nodes, a side index whose values
    are iterators into it, and the running slot. Each method is one region run
    under the scheduler's mutex, proved against the queue operation it stands for. */
module Scheduler {
  import opened TaskQueue

  /** A multimap node; a reference to one plays the part of an iterator. Only the
      interval is ever written through an iterator. */
  class Node {
    const due: int
    const stamp: nat
    const id: nat
    const times: nat
    const exec: nat
    var interval: int

    constructor (due: int, stamp: nat, task: Task)
      ensures this.due == due && this.stamp == stamp && this.id == task.id
      ensures this.Value() == task
    {
      this.due, this.stamp := due, stamp;
      id, times, exec, interval := task.id, task.times, task.exec, task.interval;
    }

    function Value(): Task
      reads this
    {
      Task(id, interval, times, exec)
    }
  }

  ghost function Values(ns: seq<Node>): (r: seq<Entry>)
    reads ns
    ensures |r| == |ns|
    ensures forall i :: 0 <= i < |ns| ==> r[i] == Entry(ns[i].due, ns[i].stamp, ns[i].Value())
  {
    seq(|ns|, i requires 0 <= i < |ns| reads ns => Entry(ns[i].due, ns[i].stamp, ns[i].Value()))
  }

  function NodeDues(ns: seq<Node>): (d: seq<int>)
    ensures |d| == |ns| && forall i :: 0 <= i < |ns| ==> d[i] == ns[i].due
  {
    seq(|ns|, i requires 0 <= i < |ns| => ns[i].due)
  }

  /** The side index is a bijection from ids onto the nodes, and each iterator
      points at the node that carries its own id. */
  ghost predicate Agrees(ns: seq<Node>, indexes: map<nat, Node>) {
    && (forall id :: id in indexes ==> indexes[id] in ns && indexes[id].id == id)
    && (forall i :: 0 <= i < |ns| ==> ns[i].id in indexes && indexes[ns[i].id] == ns[i])
    && (forall i, j :: 0 <= i < j < |ns| ==> ns[i].id != ns[j].id)
  }

  /** The place of an iterator's node. */
  function Position(ns: seq<Node>, n: Node): (p: nat)
    requires n in ns
    ensures p < |ns| && ns[p] == n && n !in ns[..p]
  {
    if ns[0] == n then 0 else 1 + Position(ns[1..], n)
  }

  lemma AgreesInsert(ns: seq<Node>, indexes: map<nat, Node>, p: nat, n: Node)
    requires Agrees(ns, indexes) && p <= |ns| && n.id !in indexes
    ensures Agrees(Splice(ns, p, n), indexes[n.id := n])
  {
  }

  lemma AgreesErase(ns: seq<Node>, indexes: map<nat, Node>, p: nat)
    requires Agrees(ns, indexes) && p < |ns|
    ensures Agrees(Erase(ns, p), indexes - {ns[p].id})
  {
  }

  /** The node the index holds for an id is the one a search would find. */
  lemma IndexFinds(ns: seq<Node>, indexes: map<nat, Node>, id: nat)
    requires Agrees(ns, indexes)
    ensures id in indexes <==> IndexOf(Values(ns), id) < |ns|
    ensures id in indexes ==> IndexOf(Values(ns), id) == Position(ns, indexes[id])
  {
  }

  lemma PositionUnique(ns: seq<Node>, indexes: map<nat, Node>, node: Node)
    requires Agrees(ns, indexes) && node in ns
    ensures node.id in indexes
    ensures forall i :: 0 <= i < |ns| && i != Position(ns, node) ==> ns[i] != node
  {
  }

  lemma SplicePosition(ns: seq<Node>, indexes: map<nat, Node>, u: nat, it: Node, node: Node)
    requires Agrees(ns, indexes) && u <= |ns| && node in ns && it !in ns
    ensures node in Splice(ns, u, it)
    ensures Position(Splice(ns, u, it), node) == var p := Position(ns, node); if p < u then p else p + 1
  {
  }

  lemma SpliceValues(ns: seq<Node>, n: Node)
    ensures Values(Splice(ns, UpperBound(NodeDues(ns), n.due), n))
            == Insert(Values(ns), Entry(n.due, n.stamp, n.Value()))
  {
  }

  lemma EraseValues(ns: seq<Node>, p: nat)
    requires p < |ns|
    ensures Values(Erase(ns, p)) == Erase(Values(ns), p)
  {
  }

  /** Writing an interval through an iterator disturbs neither the order nor the
      other entries. */
  lemma OnlyOneRetimed(s: Queue, r: seq<Entry>, p: nat)
    requires WellFormed(s) && |r| == |s.tasks| && p < |r|
    requires forall i :: 0 <= i < |r| && i != p ==> r[i] == s.tasks[i]
    requires r[p].due == s.tasks[p].due && r[p].stamp == s.tasks[p].stamp
    ensures Sorted(r) && Dues(r) == Dues(s.tasks) && Erase(r, p) == Erase(s.tasks, p)
  {
  }

  lemma DuesOf(ns: seq<Node>)
    ensures NodeDues(ns) == Dues(Values(ns))
  {
  }

  datatype Turn = MustWait | WaitUntil(due: int) | Took(exec: nat)

  class TaskScheduler {
    const capacity: nat
    var tasks: seq<Node>
    var indexes: map<nat, Node>
    var running: Task
    var taskId: nat
    var stamps: nat

    ghost function View(): Queue
      reads this, tasks
    {
      Queue(Values(tasks), running, taskId, stamps, capacity)
    }

    /** With the lock free the index agrees with the multimap, and the queue is
        well formed, so the running id is in neither. */
    ghost predicate Valid()
      reads this, tasks
    {
      Agrees(tasks, indexes) && WellFormed(View()) && running.id !in indexes
    }

    constructor (capacity: nat)
      ensures Valid() && View() == Queue([], IDLE, INVALID_TASK_ID, 0, capacity)
      ensures this.capacity == capacity
    {
      this.capacity := capacity;
      tasks, indexes, running, taskId, stamps := [], map[], IDLE, INVALID_TASK_ID, 0;
    }

    method At(begin: int, exec: nat, interval: int, times: nat) returns (id: nat, wake: bool)
      requires Valid() && times < U64
      requires Fresh(View())
      modifies this
      ensures Valid()
      ensures Outcome(View(), id, wake) == AtOp(old(View()), begin, exec, interval, times)
    {
      hide UpperBound, IndexOf, NextId, Sorted, DistinctIds, Agrees, Insert, Dues, NodeDues, Splice, Position, Values;
      if |tasks| >= capacity {
        return INVALID_TASK_ID, false;
      }
      ghost var after := AtOp(View(), begin, exec, interval, times).queue;
      AtWellFormed(View(), begin, exec, interval, times);
      IndexFinds(tasks, indexes, NextId(taskId));
      id := NextId(taskId);
      taskId := id;
      var it := new Node(begin, stamps, Task(id, interval, times, exec));
      var p := UpperBound(NodeDues(tasks), begin);
      SpliceValues(tasks, it);
      AgreesInsert(tasks, indexes, p, it);
      tasks, stamps := Splice(tasks, p, it), stamps + 1;
      wake := p == 0;
      indexes := indexes[id := it];
      assert View() == after;
    }

    method Reset(id: nat, interval: int, now: int) returns (result: nat, wake: bool)
      requires Valid()
      modifies this, tasks
      ensures Valid()
      ensures Outcome(View(), result, wake) == ResetOp(old(View()), id, interval, now)
    {
      hide UpperBound, IndexOf, WellFormed, Agrees, Insert, Dues, Position;
      ghost var after := ResetOp(View(), id, interval, now).queue;
      ResetWellFormed(View(), id, interval, now);
      if running.id == id && running.interval != INVALID_INTERVAL {
        running := running.(interval := interval);
        assert View() == after;
        return running.id, false;
      }
      IndexFinds(tasks, indexes, id);
      if id !in indexes {
        return INVALID_TASK_ID, false;
      }
      wake := Requeue(indexes[id], interval, now);
      assert View() == after;
      result := id;
    }

    /** Writes the interval through an iterator, unless the task is a one-shot one. */
    method Retime(node: Node, interval: int)
      requires Agrees(tasks, indexes) && WellFormed(View()) && node in tasks
      modifies node
      ensures var p, was, now := Position(tasks, node), old(Values(tasks)), Values(tasks);
              && node.Value() == Retimed(was[p].task, interval)
              && Sorted(now) && Dues(now) == Dues(was) && Erase(now, p) == Erase(was, p)
    {
      hide UpperBound, WellFormed, Sorted, Agrees, Dues, Position, Values, Erase;
      ghost var p, q := Position(tasks, node), View();
      PositionUnique(tasks, indexes, node);
      if node.interval != INVALID_INTERVAL {
        node.interval := interval;
      }
      OnlyOneRetimed(q, Values(tasks), p);
    }

    method Requeue(node: Node, interval: int, now: int) returns (wake: bool)
      requires Agrees(tasks, indexes) && WellFormed(View()) && node in tasks
      modifies this, node
      ensures Agrees(tasks, indexes) && indexes.Keys == old(indexes.Keys)
      ensures var q, p := old(View()), old(Position(tasks, node));
              var e := Entry(now + interval, q.stamps, Retimed(q.tasks[p].task, interval));
              && View() == q.(tasks := Insert(Erase(q.tasks, p), e), stamps := q.stamps + 1)
              && wake == (p == 0 || UpperBound(Dues(q.tasks), e.due) == 0)
    {
      hide UpperBound, WellFormed, Sorted, Agrees, Insert, Dues, NodeDues, Position, Values, Erase, Retimed;
      PositionUnique(tasks, indexes, node);
      Retime(node, interval);
      var it := new Node(now + interval, stamps, node.Value());
      DuesOf(tasks);
      var u := UpperBound(NodeDues(tasks), now + interval);
      tasks, indexes, wake := Move(tasks, indexes, node, it, u);
      stamps := stamps + 1;
    }

    method Clean()
      requires Valid()
      modifies this
      ensures Valid() && View() == CleanOp(old(View())) && indexes == map[]
    {
      indexes := map[];
      tasks := [];
    }

    /** The part of Remove that follows its wait on the running task. */
    method Remove(id: nat) returns (wake: bool)
      requires Valid()
      modifies this
      ensures Valid() && id !in indexes
      ensures Outcome(View(), id, wake) == RemoveOp(old(View()), id)
    {
      hide IndexOf, Position, Sorted, DistinctIds, Agrees, Values;
      IndexFinds(tasks, indexes, id);
      if id !in indexes {
        return false;
      }
      RemoveWellFormed(View(), id);
      var at := Position(tasks, indexes[id]);
      EraseValues(tasks, at);
      AgreesErase(tasks, indexes, at);
      tasks := Erase(tasks, at);
      indexes := indexes - {id};
      return true;
    }

    /** The worker's first locked region, entered with the lock in hand. */
    method Begin(now: int) returns (turn: Turn)
      requires Valid()
      modifies this
      ensures Valid()
      ensures turn == if old(tasks) == [] then MustWait
                      else if old(View()).tasks[0].due > now then WaitUntil(old(View()).tasks[0].due)
                      else Took(old(View()).tasks[0].task.exec)
      ensures View() == if turn.Took? then TakeOp(old(View())) else old(View())
    {
      hide UpperBound, IndexOf, NextId, Sorted, DistinctIds, Agrees, Insert, Dues, NodeDues, Splice, Position, Values;
      if tasks == [] {
        return MustWait;
      }
      if tasks[0].due > now {
        return WaitUntil(tasks[0].due);
      }
      ghost var after := TakeOp(View());
      TakeWellFormed(View());
      AgreesErase(tasks, indexes, 0);
      assert Erase(tasks, 0) == tasks[1..];
      assert Values(tasks[1..]) == Values(tasks)[1..];
      running := tasks[0].Value();
      turn := Took(running.exec);
      indexes := indexes - {running.id};
      tasks := tasks[1..];
      running := running.(times := Decremented(running.times));
      assert View() == after;
    }

    /** The worker's second locked region, after the closure has run: it always
        notifies every caller that waits in Remove. */
    method Finish(now: int) returns (notifyAll: bool)
      requires Valid()
      requires running.interval != INVALID_INTERVAL ==> running.id != INVALID_TASK_ID
      modifies this
      ensures Valid() && View() == FinishOp(old(View()), now)
      ensures notifyAll
    {
      hide UpperBound, IndexOf, NextId, Sorted, DistinctIds, Agrees, Insert, Dues, NodeDues, Splice, Position, Values;
      FinishWellFormed(View(), now);
      if running.interval != INVALID_INTERVAL && running.times > 0 {
        var it := new Node(now + running.interval, stamps, running);
        var p := UpperBound(NodeDues(tasks), now + running.interval);
        SpliceValues(tasks, it);
        AgreesInsert(tasks, indexes, p, it);
        tasks, stamps := Splice(tasks, p, it), stamps + 1;
        indexes := indexes[running.id := it];
      }
      running := IDLE;
      notifyAll := true;
      IndexFinds(tasks, indexes, INVALID_TASK_ID);
    }
  }

  /** Reset's insert, erase and re-pointing of the index, in that order. */
  method Move(ns: seq<Node>, indexes: map<nat, Node>, node: Node, it: Node, u: nat)
    returns (rs: seq<Node>, index: map<nat, Node>, wake: bool)
    requires Agrees(ns, indexes) && Sorted(Values(ns))
    requires node in ns && it !in ns && it.id == node.id
    requires u == UpperBound(NodeDues(ns), it.due)
    ensures Agrees(rs, index)
    ensures index == indexes[it.id := it]
    ensures Values(rs) == Insert(Erase(Values(ns), Position(ns, node)), Entry(it.due, it.stamp, it.Value()))
    ensures wake == (Position(ns, node) == 0 || u == 0)
    ensures forall n :: n in rs ==> n in ns || n == it
  {
    hide UpperBound, Sorted, Agrees, Insert, Dues, NodeDues, Position, Values;
    ghost var p := Position(ns, node);
    ghost var v := if p < u then u - 1 else u;
    rs := Splice(ns, u, it);
    wake := rs[0] == it || ns[0] == node;
    var at := Position(rs, node);
    SplicePosition(ns, indexes, u, it, node);
    SpliceValues(ns, it);
    EraseValues(rs, at);
    MoveCommutes(Values(ns), p, Entry(it.due, it.stamp, it.Value()));
    AgreesErase(ns, indexes, p);
    AgreesInsert(Erase(ns, p), indexes - {node.id}, v, it);
    SpliceErase(ns, p, u, it);
    rs := Erase(rs, at);
    index := indexes[it.id := it];
    Repoint(indexes, it.id, it);
  }

  lemma Repoint(indexes: map<nat, Node>, id: nat, it: Node)
    ensures (indexes - {id})[id := it] == indexes[id := it]
  {
  }

  lemma UpperBoundUnique(d: seq<int>, t: int, w: nat)
    requires w <= |d| && (forall i :: 0 <= i < w ==> d[i] <= t) && (w < |d| ==> t < d[w])
    ensures UpperBound(d, t) == w
  {
  }

  /** Removing an element moves the insertion point of a key by at most one. */
  lemma UpperBoundAfterErase(q: seq<Entry>, p: nat, t: int)
    requires Sorted(q) && p < |q|
    ensures var u := UpperBound(Dues(q), t);
            UpperBound(Dues(Erase(q, p)), t) == if p < u then u - 1 else u
  {
    hide UpperBound;
    var u, r := UpperBound(Dues(q), t), Erase(q, p);
    assert forall i :: 0 <= i < |r| ==> r[i] == q[if i < p then i else i + 1];
    assert forall i, j :: 0 <= i <= j < |q| ==> q[i].due <= q[j].due;
    var w := if p < u then u - 1 else u;
    assert forall i :: 0 <= i < w ==> Dues(r)[i] <= t;
    assert forall i :: w <= i < |r| ==> Dues(r)[i] > t;
    UpperBoundUnique(Dues(r), t, w);
  }

  /** Inserting before erasing the old node, as Reset does, leaves what erasing
      first would leave. */
  lemma MoveCommutes(q: seq<Entry>, p: nat, e: Entry)
    requires Sorted(q) && p < |q|
    ensures Erase(Insert(q, e), if p < UpperBound(Dues(q), e.due) then p else p + 1) == Insert(Erase(q, p), e)
  {
    hide UpperBound, Erase, Splice;
    UpperBoundAfterErase(q, p, e.due);
    SpliceErase(q, p, UpperBound(Dues(q), e.due), e);
  }
}
