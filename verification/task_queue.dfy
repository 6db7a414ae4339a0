/** The task queue of the scheduler as a value: what each locked region of the
    scheduler does to the queue, the running slot and the id counter, said
    without the side index and without iterators. */
module TaskQueue {
  const U64: nat := 0x1_0000_0000_0000_0000
  const UNLIMITED_TIMES: nat := U64 - 1
  const INVALID_TASK_ID: nat := 0
  const INVALID_INTERVAL: int := 0

  /** `exec` names the closure that was submitted. */
  datatype Task = Task(id: nat, interval: int, times: nat, exec: nat)

  const IDLE := Task(INVALID_TASK_ID, INVALID_INTERVAL, UNLIMITED_TIMES, 0)

  /** A node of the multimap. `stamp` numbers the insertions, so that "insertion
      order" can be spoken of; nothing is decided by it. */
  datatype Entry = Entry(due: int, stamp: nat, task: Task)

  datatype Queue = Queue(tasks: seq<Entry>, running: Task, lastId: nat, stamps: nat, capacity: nat)

  /** What a call leaves behind: the queue, the returned id, and whether the
      worker's condition variable was notified. */
  datatype Outcome = Outcome(queue: Queue, id: nat, wake: bool)

  /** Earlier in the queue: by due time, and by insertion among equals. */
  predicate Before(a: Entry, b: Entry) {
    a.due < b.due || (a.due == b.due && a.stamp < b.stamp)
  }

  ghost predicate Sorted(q: seq<Entry>) {
    forall i, j :: 0 <= i < j < |q| ==> Before(q[i], q[j])
  }

  ghost predicate DistinctIds(q: seq<Entry>) {
    forall i, j :: 0 <= i < j < |q| ==> q[i].task.id != q[j].task.id
  }

  ghost predicate Queued(q: seq<Entry>, id: nat) {
    exists i :: 0 <= i < |q| && q[i].task.id == id
  }

  ghost predicate WellFormed(s: Queue) {
    && Sorted(s.tasks)
    && DistinctIds(s.tasks)
    && (forall i :: 0 <= i < |s.tasks| ==>
          && s.tasks[i].stamp < s.stamps
          && s.tasks[i].task.id != INVALID_TASK_ID
          && s.tasks[i].task.id != s.running.id
          && s.tasks[i].task.times < U64)
    && s.running.times < U64
  }

  function Dues(q: seq<Entry>): (d: seq<int>)
    ensures |d| == |q| && forall i :: 0 <= i < |q| ==> d[i] == q[i].due
  {
    seq(|q|, i requires 0 <= i < |q| => q[i].due)
  }

  /** Where a multimap inserts a key: in front of the first larger one. */
  function UpperBound(dues: seq<int>, t: int): (p: nat)
    ensures p <= |dues|
    ensures forall i :: 0 <= i < p ==> dues[i] <= t
    ensures p < |dues| ==> t < dues[p]
  {
    if dues == [] || t < dues[0] then 0 else 1 + UpperBound(dues[1..], t)
  }

  function Splice<T>(q: seq<T>, p: nat, e: T): seq<T>
    requires p <= |q|
  {
    q[..p] + [e] + q[p..]
  }

  function Insert(q: seq<Entry>, e: Entry): seq<Entry> {
    var p := UpperBound(Dues(q), e.due);
    Splice(q, p, e)
  }

  function IndexOf(q: seq<Entry>, id: nat): (p: nat)
    ensures p <= |q|
    ensures p < |q| ==> q[p].task.id == id
    ensures forall i :: 0 <= i < p ==> q[i].task.id != id
  {
    if q == [] || q[0].task.id == id then 0 else 1 + IndexOf(q[1..], id)
  }

  function Erase<T>(q: seq<T>, p: nat): seq<T>
    requires p < |q|
  {
    q[..p] + q[p + 1..]
  }

  /** Pre-increments an unsigned 64-bit counter, and once more if it hit the
      invalid id. */
  function NextId(last: nat): nat {
    var next := (last + 1) % U64;
    if next == INVALID_TASK_ID then (next + 1) % U64 else next
  }

  function AtOp(s: Queue, begin: int, exec: nat, interval: int, times: nat): Outcome {
    if |s.tasks| >= s.capacity then Outcome(s, INVALID_TASK_ID, false)
    else
      var id := NextId(s.lastId);
      var e := Entry(begin, s.stamps, Task(id, interval, times, exec));
      Outcome(s.(tasks := Insert(s.tasks, e), lastId := id, stamps := s.stamps + 1), id,
              UpperBound(Dues(s.tasks), begin) == 0)
  }

  function Retimed(t: Task, interval: int): Task {
    if t.interval != INVALID_INTERVAL then t.(interval := interval) else t
  }

  function ResetOp(s: Queue, id: nat, interval: int, now: int): Outcome {
    if s.running.id == id && s.running.interval != INVALID_INTERVAL then
      Outcome(s.(running := s.running.(interval := interval)), id, false)
    else
      var p := IndexOf(s.tasks, id);
      if p == |s.tasks| then Outcome(s, INVALID_TASK_ID, false)
      else
        var e := Entry(now + interval, s.stamps, Retimed(s.tasks[p].task, interval));
        Outcome(s.(tasks := Insert(Erase(s.tasks, p), e), stamps := s.stamps + 1), id,
                p == 0 || UpperBound(Dues(s.tasks), e.due) == 0)
  }

  function CleanOp(s: Queue): Queue {
    s.(tasks := [])
  }

  function RemoveOp(s: Queue, id: nat): Outcome {
    var p := IndexOf(s.tasks, id);
    if p == |s.tasks| then Outcome(s, id, false)
    else Outcome(s.(tasks := Erase(s.tasks, p)), id, true)
  }

  /** An unsigned 64-bit decrement: zero wraps to the largest value. */
  function Decremented(times: nat): (r: nat)
    ensures r < U64
    ensures times < U64 ==> r == if times == 0 then UNLIMITED_TIMES else times - 1
  {
    (times + U64 - 1) % U64
  }

  /** The worker moves the head into the running slot; the count wraps. */
  function TakeOp(s: Queue): Queue
    requires s.tasks != []
  {
    var t := s.tasks[0].task;
    s.(tasks := s.tasks[1..], running := t.(times := Decremented(t.times)))
  }

  /** The worker empties the running slot, queueing a periodic task again. */
  function FinishOp(s: Queue, now: int): Queue {
    if s.running.interval != INVALID_INTERVAL && s.running.times > 0 then
      var e := Entry(now + s.running.interval, s.stamps, s.running);
      s.(tasks := Insert(s.tasks, e), running := IDLE, stamps := s.stamps + 1)
    else
      s.(running := IDLE)
  }

  lemma SpliceAt<T>(q: seq<T>, u: nat, e: T)
    requires u <= |q|
    ensures |Splice(q, u, e)| == |q| + 1
    ensures forall i :: 0 <= i <= |q| ==> Splice(q, u, e)[i] == if i < u then q[i] else if i == u then e else q[i - 1]
  {
  }

  lemma EraseAt<T>(q: seq<T>, p: nat)
    requires p < |q|
    ensures |Erase(q, p)| == |q| - 1
    ensures forall i :: 0 <= i < |q| - 1 ==> Erase(q, p)[i] == if i < p then q[i] else q[i + 1]
  {
  }

  lemma SpliceErase<T>(q: seq<T>, p: nat, u: nat, e: T)
    requires p < |q| && u <= |q|
    ensures Erase(Splice(q, u, e), if p < u then p else p + 1)
            == Splice(Erase(q, p), if p < u then u - 1 else u, e)
    ensures forall x :: x in Splice(q, u, e) ==> x in q || x == e
  {
    var s, f := Splice(q, u, e), Erase(q, p);
    var at, v := if p < u then p else p + 1, if p < u then u - 1 else u;
    var l, r := Erase(s, at), Splice(f, v, e);
    SpliceAt(q, u, e);
    SpliceAt(f, v, e);
    EraseAt(q, p);
    EraseAt(s, at);
    hide Splice, Erase;
    assert l == r;
  }

  // ---- The shape of the queue is kept ----

  lemma SortedDues(q: seq<Entry>, i: nat, j: nat)
    requires Sorted(q) && i <= j < |q|
    ensures q[i].due <= q[j].due
  {
  }

  lemma InsertElements(q: seq<Entry>, e: Entry, x: Entry)
    ensures x in Insert(q, e) <==> x == e || x in q
  {
    var p := UpperBound(Dues(q), e.due);
    assert q == q[..p] + q[p..];
  }

  lemma InsertSorted(q: seq<Entry>, e: Entry)
    requires Sorted(q) && forall i :: 0 <= i < |q| ==> q[i].stamp < e.stamp
    ensures Sorted(Insert(q, e))
  {
    hide UpperBound, Splice;
    var p := UpperBound(Dues(q), e.due);
    var r := Insert(q, e);
    SpliceAt(q, p, e);
    forall i, j | 0 <= i < j < |r| ensures Before(r[i], r[j]) {
      assert r[i] == (if i < p then q[i] else if i == p then e else q[i - 1]);
      assert r[j] == (if j < p then q[j] else if j == p then e else q[j - 1]);
      if j == p {
        assert Dues(q)[i] <= e.due;
      } else if i == p {
        SortedDues(q, p, j - 1);
        assert e.due < Dues(q)[p];
      }
    }
  }

  lemma InsertDistinct(q: seq<Entry>, e: Entry)
    requires DistinctIds(q) && !Queued(q, e.task.id)
    ensures DistinctIds(Insert(q, e))
  {
  }

  /** Membership after an erase, and that order and distinctness survive it. */
  lemma EraseShape(q: seq<Entry>, p: nat)
    requires Sorted(q) && DistinctIds(q) && p < |q|
    ensures Sorted(Erase(q, p)) && DistinctIds(Erase(q, p))
    ensures forall x :: x in Erase(q, p) <==> x in q && x != q[p]
    ensures !Queued(Erase(q, p), q[p].task.id)
  {
  }

  ghost predicate Fresh(s: Queue) {
    NextId(s.lastId) != s.running.id && !Queued(s.tasks, NextId(s.lastId))
  }

  lemma InsertWellFormed(s: Queue, e: Entry)
    requires WellFormed(s) && e.stamp == s.stamps && e.task.times < U64
    requires e.task.id != INVALID_TASK_ID && e.task.id != s.running.id && !Queued(s.tasks, e.task.id)
    ensures WellFormed(s.(tasks := Insert(s.tasks, e), stamps := s.stamps + 1))
  {
    InsertSorted(s.tasks, e);
    InsertDistinct(s.tasks, e);
    var r := Insert(s.tasks, e);
    forall i | 0 <= i < |r|
      ensures r[i].stamp < s.stamps + 1 && r[i].task.id != INVALID_TASK_ID
      ensures r[i].task.id != s.running.id && r[i].task.times < U64
    {
      InsertElements(s.tasks, e, r[i]);
      assert r[i] in r;
    }
  }

  lemma IdValid(last: nat)
    ensures NextId(last) != INVALID_TASK_ID
  {
  }

  lemma AtWellFormed(s: Queue, begin: int, exec: nat, interval: int, times: nat)
    requires WellFormed(s) && Fresh(s) && times < U64
    ensures WellFormed(AtOp(s, begin, exec, interval, times).queue)
  {
    var id := NextId(s.lastId);
    var issued := s.(lastId := id);
    IdValid(s.lastId);
    assert WellFormed(issued);
    hide UpperBound, Insert, WellFormed, NextId;
    if |s.tasks| < s.capacity {
      InsertWellFormed(issued, Entry(begin, s.stamps, Task(id, interval, times, exec)));
    }
  }

  lemma EraseWellFormed(s: Queue, p: nat)
    requires WellFormed(s) && p < |s.tasks|
    ensures WellFormed(s.(tasks := Erase(s.tasks, p)))
  {
  }

  lemma ResetWellFormed(s: Queue, id: nat, interval: int, now: int)
    requires WellFormed(s)
    ensures WellFormed(ResetOp(s, id, interval, now).queue)
  {
    var p := IndexOf(s.tasks, id);
    if !(s.running.id == id && s.running.interval != INVALID_INTERVAL) && p < |s.tasks| {
      EraseShape(s.tasks, p);
      EraseWellFormed(s, p);
      InsertWellFormed(s.(tasks := Erase(s.tasks, p)),
                       Entry(now + interval, s.stamps, Retimed(s.tasks[p].task, interval)));
    }
  }

  lemma RemoveWellFormed(s: Queue, id: nat)
    requires WellFormed(s)
    ensures WellFormed(RemoveOp(s, id).queue)
    ensures !Queued(RemoveOp(s, id).queue.tasks, id)
    ensures forall x :: x in RemoveOp(s, id).queue.tasks <==> x in s.tasks && x.task.id != id
  {
    var p := IndexOf(s.tasks, id);
    if p < |s.tasks| {
      EraseShape(s.tasks, p);
      EraseWellFormed(s, p);
      forall x | x in s.tasks && x.task.id == id ensures x == s.tasks[p] {
        var k :| 0 <= k < |s.tasks| && s.tasks[k] == x;
      }
    }
  }

  lemma TakeWellFormed(s: Queue)
    requires WellFormed(s) && s.tasks != []
    ensures WellFormed(TakeOp(s))
  {
  }

  lemma FinishWellFormed(s: Queue, now: int)
    requires WellFormed(s) && (s.running.interval != INVALID_INTERVAL ==> s.running.id != INVALID_TASK_ID)
    ensures WellFormed(FinishOp(s, now))
  {
    if s.running.interval != INVALID_INTERVAL && s.running.times > 0 {
      var idle := s.(running := IDLE);
      assert WellFormed(idle);
      assert !Queued(idle.tasks, s.running.id);
      var e := Entry(now + s.running.interval, s.stamps, s.running);
      InsertWellFormed(idle, e);
      assert FinishOp(s, now) == idle.(tasks := Insert(idle.tasks, e), stamps := idle.stamps + 1);
    }
  }

  // ---- The queue as a plain priority queue: a set of entries, of which the
  //      least by due time and insertion is served ----

  ghost function Bag(q: seq<Entry>): set<Entry> {
    set e | e in q
  }

  ghost predicate Least(e: Entry, bag: set<Entry>) {
    e in bag && forall x :: x in bag && x != e ==> Before(e, x)
  }

  lemma InsertBag(q: seq<Entry>, e: Entry)
    ensures Bag(Insert(q, e)) == Bag(q) + {e} && |Insert(q, e)| == |q| + 1
  {
  }

  lemma EraseBag(q: seq<Entry>, p: nat)
    requires Sorted(q) && DistinctIds(q) && p < |q|
    ensures Bag(Erase(q, p)) == Bag(q) - {q[p]} && |Erase(q, p)| == |q| - 1
  {
  }

  /** Reset either leaves the entries alone, or swaps the entry of the id for one
      due an interval from now that keeps its count and never turns a one-shot
      task into a periodic one. */
  lemma ResetBag(q: Queue, id: nat, interval: int, now: int) returns (was: Entry)
    requires WellFormed(q)
    ensures var o := ResetOp(q, id, interval, now).queue;
            WellFormed(o) && |o.tasks| == |q.tasks| && o.lastId == q.lastId && o.capacity == q.capacity
    ensures q.running.id == id && q.running.interval != INVALID_INTERVAL ==>
            ResetOp(q, id, interval, now) == Outcome(q.(running := q.running.(interval := interval)), id, false)
    ensures !Queued(q.tasks, id) && !(q.running.id == id && q.running.interval != INVALID_INTERVAL) ==>
            ResetOp(q, id, interval, now) == Outcome(q, INVALID_TASK_ID, false)
    ensures Queued(q.tasks, id) ==>
            var o := ResetOp(q, id, interval, now);
            && o.id == id && o.queue.running == q.running
            && was in q.tasks && was.task.id == id
            && var kept := if was.task.interval == INVALID_INTERVAL then INVALID_INTERVAL else interval;
               var e := Entry(now + interval, q.stamps, Task(id, kept, was.task.times, was.task.exec));
               && e.task == Retimed(was.task, interval)
               && Bag(o.queue.tasks) == Bag(q.tasks) - {was} + {e}
               && o.wake == (was == q.tasks[0] || UpperBound(Dues(q.tasks), e.due) == 0)
  {
    hide UpperBound, IndexOf, Insert;
    ResetWellFormed(q, id, interval, now);
    var p := IndexOf(q.tasks, id);
    if p < |q.tasks| {
      was := q.tasks[p];
      assert q.running.id != id;
      EraseBag(q.tasks, p);
      InsertBag(Erase(q.tasks, p), Entry(now + interval, q.stamps, Retimed(q.tasks[p].task, interval)));
      assert p != 0 ==> was != q.tasks[0];
    } else {
      was := Entry(0, 0, IDLE);
      assert !Queued(q.tasks, id);
    }
  }

  lemma RemoveBag(q: Queue, id: nat)
    requires WellFormed(q)
    ensures var o := RemoveOp(q, id);
            && WellFormed(o.queue) && !Queued(o.queue.tasks, id) && |o.queue.tasks| <= |q.tasks|
            && Bag(o.queue.tasks) == (set x | x in q.tasks && x.task.id != id)
            && o.queue == q.(tasks := o.queue.tasks)
            && (if Queued(q.tasks, id) then o.wake else o == Outcome(q, id, false))
  {
    RemoveWellFormed(q, id);
  }

  /** What the worker takes is the least entry, and only that leaves the set. */
  lemma TakeBag(q: Queue)
    requires WellFormed(q) && q.tasks != []
    ensures Least(q.tasks[0], Bag(q.tasks)) && WellFormed(TakeOp(q))
    ensures Bag(TakeOp(q).tasks) == Bag(q.tasks) - {q.tasks[0]}
  {
  }

  lemma FinishBag(q: Queue, now: int)
    requires WellFormed(q) && (q.running.interval != INVALID_INTERVAL ==> q.running.id != INVALID_TASK_ID)
    ensures var f := FinishOp(q, now);
            && WellFormed(f) && f.running == IDLE && f.lastId == q.lastId && f.capacity == q.capacity
            && if q.running.interval != INVALID_INTERVAL && q.running.times > 0
               then Bag(f.tasks) == Bag(q.tasks) + {Entry(now + q.running.interval, q.stamps, q.running)}
                    && |f.tasks| == |q.tasks| + 1
               else f.tasks == q.tasks
  {
    hide UpperBound, Insert;
    FinishWellFormed(q, now);
    InsertBag(q.tasks, Entry(now + q.running.interval, q.stamps, q.running));
  }
}
