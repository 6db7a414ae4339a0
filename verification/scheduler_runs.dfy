/** Every interleaving of callers, the worker thread, the clock and the
    destructor. A step is one region run under the scheduler's mutex (or one
    unlocked read of the running flag); a run is any list of enabled steps. */
module SchedulerRuns {
  import opened TaskQueue

  /** Where the worker is. A parked worker remembers whether it was notified. */
  datatype Mode =
    | Top
    | Entering
    | ParkedEmpty(woken: bool)
    | ParkedUntil(until: int, woken: bool)
    | Executing
    | Exited

  /** How far the destructor has got: flag cleared, queue cleared, last task submitted. */
  datatype Phase = Alive | Stopping | Cleaned | Joining

  /** A call of Remove that waits for its task to stop running. */
  datatype Waiter = Waiter(id: nat, woken: bool)

  datatype Event = Started(id: nat, at: int, interval: int) | Rescheduled(id: nat)

  datatype Submission = Submission(interval: int, times: nat)

  /** `log`, `given` and `issued` are history: what happened, what was submitted
      under each id, and how many ids were handed out. */
  datatype Sys = Sys(
    q: Queue, now: int, mode: Mode, phase: Phase, waiters: map<nat, Waiter>,
    log: seq<Event>, given: map<nat, Submission>, issued: nat)

  datatype Action =
    | At(begin: int, exec: nat, interval: int, times: nat)
    | Reset(id: nat, interval: int)
    | Clean
    | Remove(caller: nat, id: nat, wait: bool)
    | Retry(caller: nat)
    | Tick(to: int)
    | Worker
    | Destructor

  const NOOP: nat := 0

  function Init(capacity: nat, now: int): Sys {
    Sys(Queue([], IDLE, INVALID_TASK_ID, 0, capacity), now, Top, Alive, map[], [], map[], 0)
  }

  /** Once destruction has begun only a task body still calls in. */
  predicate CanCall(s: Sys) {
    s.phase == Alive || s.mode == Executing
  }

  /** Ids are issued at most 2^64 - 1 times. */
  predicate Enabled(s: Sys, a: Action) {
    match a
    case At(_, _, _, times) => CanCall(s) && times < U64 && s.issued < UNLIMITED_TIMES
    case Reset(_, _) => CanCall(s)
    case Clean => CanCall(s)
    case Remove(caller, _, _) => CanCall(s) && caller !in s.waiters
    case Retry(caller) => CanCall(s) && caller in s.waiters
    case Tick(to) => s.now <= to
    case Worker => s.mode != Exited
    case Destructor => s.phase != Joining && s.issued < UNLIMITED_TIMES
  }

  function Notify(m: Mode, wake: bool): Mode {
    match m
    case ParkedEmpty(w) => ParkedEmpty(w || wake)
    case ParkedUntil(t, w) => ParkedUntil(t, w || wake)
    case _ => m
  }

  function Submit(s: Sys, begin: int, exec: nat, interval: int, times: nat): Sys {
    var o := AtOp(s.q, begin, exec, interval, times);
    if o.id == INVALID_TASK_ID then s
    else s.(q := o.queue, mode := Notify(s.mode, o.wake), issued := s.issued + 1,
            given := s.given[o.id := Submission(interval, times)])
  }

  function RemoveNow(s: Sys, id: nat): Sys {
    var o := RemoveOp(s.q, id);
    s.(q := o.queue, mode := Notify(s.mode, o.wake))
  }

  /** The first locked region of the worker loop, from the lock to the wait or
      to the release before the body runs. */
  function LockRegion(s: Sys): Sys
  {
    if s.q.tasks == [] then s.(mode := ParkedEmpty(false))
    else if s.q.tasks[0].due > s.now then s.(mode := ParkedUntil(s.q.tasks[0].due, false))
    else
      var t := s.q.tasks[0].task;
      s.(q := TakeOp(s.q), mode := Executing, log := s.log + [Started(t.id, s.now, t.interval)])
  }

  function WorkerStep(s: Sys): Sys
  {
    match s.mode
    case Top => s.(mode := if s.phase == Alive then Entering else Exited)
    case Entering => LockRegion(s)
    case ParkedEmpty(_) => LockRegion(s)
    case ParkedUntil(_, _) => s.(mode := Top)
    case Executing =>
      s.(q := FinishOp(s.q, s.now), mode := Top,
         waiters := map c | c in s.waiters :: s.waiters[c].(woken := true))
    case Exited => s
  }

  function Next(s: Sys, a: Action): Sys
  {
    match a
    case At(begin, exec, interval, times) => Submit(s, begin, exec, interval, times)
    case Reset(id, interval) =>
      var o := ResetOp(s.q, id, interval, s.now);
      s.(q := o.queue, mode := Notify(s.mode, o.wake),
         log := if o.id == INVALID_TASK_ID then s.log else s.log + [Rescheduled(id)])
    case Clean => s.(q := CleanOp(s.q))
    case Remove(caller, id, wait) =>
      if wait && s.q.running.id == id then s.(waiters := s.waiters[caller := Waiter(id, false)])
      else RemoveNow(s, id)
    case Retry(caller) =>
      if caller !in s.waiters then s
      else
        var id := s.waiters[caller].id;
        if s.q.running.id == id then s.(waiters := s.waiters[caller := Waiter(id, false)])
        else RemoveNow(s.(waiters := s.waiters - {caller}), id)
    case Tick(to) => s.(now := to)
    case Worker => WorkerStep(s)
    case Destructor =>
      match s.phase
      case Alive => s.(phase := Stopping)
      case Stopping => s.(phase := Cleaned, q := CleanOp(s.q))
      case _ => Submit(s, s.now, NOOP, INVALID_INTERVAL, UNLIMITED_TIMES).(phase := Joining)
  }

  // ---- The core invariant: a well-formed queue, a busy slot exactly while
  //      executing, and ids that are fresh because they were counted up ----

  ghost predicate Core(s: Sys) {
    && WellFormed(s.q)
    && (s.mode == Executing <==> s.q.running.id != INVALID_TASK_ID)
    && (s.mode != Executing ==> s.q.running == IDLE)
    && s.issued <= UNLIMITED_TIMES && s.q.lastId == s.issued
    && (forall id :: id in s.given <==> 1 <= id <= s.issued)
    && (forall e :: e in s.q.tasks ==> e.task.id in s.given)
    && (s.mode == Executing ==> s.q.running.id in s.given)
  }

  lemma FreshNext(s: Sys)
    requires Core(s) && s.issued < UNLIMITED_TIMES
    ensures Fresh(s.q) && NextId(s.q.lastId) == s.issued + 1
  {
  }

  lemma AtBag(s: Sys, begin: int, exec: nat, interval: int, times: nat)
    requires Core(s) && s.issued < UNLIMITED_TIMES && times < U64
    ensures var e := Entry(begin, s.q.stamps, Task(s.issued + 1, interval, times, exec));
            var t := Submit(s, begin, exec, interval, times);
            if |s.q.tasks| >= s.q.capacity then t == s
            else && t.issued == s.issued + 1 && WellFormed(t.q) && Bag(t.q.tasks) == Bag(s.q.tasks) + {e}
                 && |t.q.tasks| == |s.q.tasks| + 1
                 && t.given == s.given[t.issued := Submission(interval, times)]
                 && t == s.(q := t.q, mode := t.mode, issued := t.issued, given := t.given)
                 && t.q == s.q.(tasks := t.q.tasks, lastId := t.issued, stamps := s.q.stamps + 1)
                 && t.mode == Notify(s.mode, UpperBound(Dues(s.q.tasks), begin) == 0)
  {
    hide UpperBound;
    FreshNext(s);
    AtWellFormed(s.q, begin, exec, interval, times);
    InsertBag(s.q.tasks, Entry(begin, s.q.stamps, Task(s.issued + 1, interval, times, exec)));
  }

  lemma SubmitCore(s: Sys, begin: int, exec: nat, interval: int, times: nat)
    requires Core(s) && s.issued < UNLIMITED_TIMES && times < U64
    ensures Core(Submit(s, begin, exec, interval, times))
  {
    hide UpperBound, IndexOf, Insert, NextId;
    AtBag(s, begin, exec, interval, times);
    var t := Submit(s, begin, exec, interval, times);
    forall x | x in t.q.tasks ensures x.task.id in t.given {
      assert x in Bag(t.q.tasks);
    }
  }

  lemma RemoveCore(s: Sys, id: nat)
    requires Core(s)
    ensures Core(RemoveNow(s, id))
  {
    hide UpperBound, IndexOf, Insert, NextId;
    RemoveBag(s.q, id);
    var t := RemoveNow(s, id);
    forall x | x in t.q.tasks ensures x.task.id in t.given {
      assert x in Bag(t.q.tasks);
    }
  }

  lemma ResetCore(s: Sys, id: nat, interval: int)
    requires Core(s)
    ensures Core(Next(s, Action.Reset(id, interval)))
  {
    hide UpperBound, IndexOf, Insert, NextId;
    var was := ResetBag(s.q, id, interval, s.now);
    var t := Next(s, Action.Reset(id, interval));
    forall x | x in t.q.tasks ensures x.task.id in t.given {
      assert x in Bag(t.q.tasks);
    }
  }

  lemma WorkerCore(s: Sys)
    requires Core(s) && s.mode != Exited
    ensures Core(WorkerStep(s))
  {
    hide UpperBound, IndexOf, Insert, NextId;
    var t := WorkerStep(s);
    if s.mode == Executing {
      FinishBag(s.q, s.now);
    } else if t.mode == Executing {
      TakeBag(s.q);
    }
    forall x | x in t.q.tasks ensures x.task.id in t.given {
      assert x in Bag(t.q.tasks);
    }
  }

  lemma CoreStep(s: Sys, a: Action)
    requires Core(s) && Enabled(s, a)
    ensures Core(Next(s, a))
  {
    hide UpperBound, IndexOf, Insert, NextId;
    match a
    case At(begin, exec, interval, times) => SubmitCore(s, begin, exec, interval, times);
    case Reset(id, interval) => ResetCore(s, id, interval);
    case Clean =>
    case Remove(caller, id, wait) => RemoveCore(s, id);
    case Retry(caller) => RemoveCore(s.(waiters := s.waiters - {caller}), s.waiters[caller].id);
    case Tick(to) =>
    case Worker => WorkerCore(s);
    case Destructor => if s.phase == Cleaned { SubmitCore(s, s.now, NOOP, INVALID_INTERVAL, UNLIMITED_TIMES); }
  }

  // ---- Runs ----

  /** Every action of the list is enabled where it is taken. */
  predicate Legal(s: Sys, acts: seq<Action>)
    decreases |acts|
  {
    acts == [] || (Enabled(s, acts[0]) && Legal(Next(s, acts[0]), acts[1..]))
  }

  function Run(s: Sys, acts: seq<Action>): Sys
    decreases |acts|
  {
    if acts == [] then s else Run(Next(s, acts[0]), acts[1..])
  }

  lemma {:induction false} RunCore(s: Sys, acts: seq<Action>)
    requires Core(s) && Legal(s, acts)
    ensures Core(Run(s, acts))
    decreases |acts|
  {
    hide Next, Enabled, Core;
    if acts != [] {
      CoreStep(s, acts[0]);
      RunCore(Next(s, acts[0]), acts[1..]);
    }
  }

  lemma RunNil(s: Sys)
    ensures Legal(s, []) && Run(s, []) == s
  {
  }

  lemma RunCons(s: Sys, a: Action, rest: seq<Action>)
    requires Enabled(s, a) && Legal(Next(s, a), rest)
    ensures Legal(s, [a] + rest) && Run(s, [a] + rest) == Run(Next(s, a), rest)
  {
  }

  lemma {:induction false} RunAppend(s: Sys, a: seq<Action>, b: seq<Action>)
    requires Legal(s, a) && Legal(Run(s, a), b)
    ensures Legal(s, a + b) && Run(s, a + b) == Run(Run(s, a), b)
    decreases |a|
  {
    hide Next, Enabled;
    if a == [] {
      assert a + b == b;
    } else {
      RunAppend(Next(s, a[0]), a[1..], b);
      assert (a + b)[1..] == a[1..] + b;
    }
  }
}
