/** What holds in every reachable state of the scheduler: no wake-up is lost, the
    queue stays within its capacity, and the destructor's join comes through. */
module SchedulerSafety {
  import opened TaskQueue
  import opened SchedulerRuns

  /** A worker parked for work without a notification has none; one parked until
      T without a notification has nothing due earlier. */
  ghost predicate NoLostWakeUp(s: Sys) {
    && (s.mode == ParkedEmpty(false) ==> s.q.tasks == [])
    && (s.mode.ParkedUntil? && !s.mode.woken ==> forall e :: e in s.q.tasks ==> s.mode.until <= e.due)
  }

  /** A Remove call sleeps without a notification only while its task runs. */
  ghost predicate WaitersWoken(s: Sys) {
    forall c :: c in s.waiters && !s.waiters[c].woken && s.waiters[c].id != INVALID_TASK_ID
      ==> s.waiters[c].id == s.q.running.id
  }

  ghost predicate WithinCapacity(s: Sys) {
    |s.q.tasks| <= s.q.capacity + (if s.mode == Executing then 0 else 1)
  }

  /** The worker will not look at the queue again, or not before the running flag. */
  predicate Leaving(s: Sys) {
    s.mode == Executing || s.mode == Top || s.mode == Exited
  }

  /** The worker leaves only once destruction has begun; after Clean nothing is queued behind a worker that
      may still park, and after Execute such a worker finds something due. */
  ghost predicate DestructorOnTrack(s: Sys) {
    && (s.mode == Exited ==> s.phase != Alive)
    && (s.phase == Cleaned ==> Leaving(s) || s.q.tasks == [])
    && (s.phase == Joining && s.q.capacity >= 1
        ==> Leaving(s) || (s.q.tasks != [] && s.q.tasks[0].due <= s.now))
  }

  ghost predicate Safe(s: Sys) {
    NoLostWakeUp(s) && WaitersWoken(s) && WithinCapacity(s) && DestructorOnTrack(s)
  }

  /** Without a notification, the head of the queue has not moved forward. */
  lemma InsertUnnotified(q: seq<Entry>, e: Entry)
    requires Sorted(q) && UpperBound(Dues(q), e.due) != 0
    ensures q != [] && q[0].due <= e.due && Insert(q, e)[0] == q[0]
  {
  }

  lemma SubmitSafe(s: Sys, begin: int, exec: nat, interval: int, times: nat)
    requires Core(s) && Safe(s) && s.issued < UNLIMITED_TIMES && times < U64
    requires CanCall(s)
    ensures Safe(Submit(s, begin, exec, interval, times))
  {
    hide UpperBound, Insert;
    AtBag(s, begin, exec, interval, times);
    var t := Submit(s, begin, exec, interval, times);
    var e := Entry(begin, s.q.stamps, Task(s.issued + 1, interval, times, exec));
    if t != s {
      if UpperBound(Dues(s.q.tasks), begin) != 0 {
        InsertUnnotified(s.q.tasks, e);
      }
      forall x | x in t.q.tasks ensures x in s.q.tasks || x == e {
        assert x in Bag(t.q.tasks);
      }
    }
  }

  /** The destructor's own submission, made when nobody else calls. */
  lemma FarewellSafe(s: Sys)
    requires Core(s) && Safe(s) && s.phase == Cleaned && s.issued < UNLIMITED_TIMES
    ensures Safe(Next(s, Destructor))
  {
    hide UpperBound, Insert;
    AtBag(s, s.now, NOOP, INVALID_INTERVAL, UNLIMITED_TIMES);
    var t := Submit(s, s.now, NOOP, INVALID_INTERVAL, UNLIMITED_TIMES);
    var e := Entry(s.now, s.q.stamps, Task(s.issued + 1, INVALID_INTERVAL, UNLIMITED_TIMES, NOOP));
    if t != s {
      if UpperBound(Dues(s.q.tasks), s.now) != 0 {
        InsertUnnotified(s.q.tasks, e);
      }
      forall x | x in t.q.tasks ensures x in s.q.tasks || x == e {
        assert x in Bag(t.q.tasks);
      }
      assert t.q.tasks[0] in t.q.tasks;
    }
  }

  lemma ResetSafe(s: Sys, id: nat, interval: int)
    requires Core(s) && Safe(s) && CanCall(s)
    ensures Safe(Next(s, Action.Reset(id, interval)))
  {
    hide UpperBound, Insert, IndexOf;
    var was := ResetBag(s.q, id, interval, s.now);
    var t := Next(s, Action.Reset(id, interval));
    if Queued(s.q.tasks, id) {
      var e := Entry(s.now + interval, s.q.stamps, Retimed(was.task, interval));
      if UpperBound(Dues(s.q.tasks), e.due) != 0 {
        InsertUnnotified(s.q.tasks, e);
      }
      forall x | x in t.q.tasks ensures x in s.q.tasks || x == e {
        assert x in Bag(t.q.tasks);
      }
    }
  }

  lemma RemoveSafe(s: Sys, id: nat)
    requires Core(s) && Safe(s) && CanCall(s)
    ensures Safe(RemoveNow(s, id))
  {
  }

  lemma WorkerSafe(s: Sys)
    requires Core(s) && Safe(s) && s.mode != Exited
    ensures Safe(WorkerStep(s))
  {
    hide UpperBound, IndexOf, Insert, NextId, DistinctIds;
    var t := WorkerStep(s);
    if s.mode == Executing {
      FinishBag(s.q, s.now);
    } else if t.mode.ParkedUntil? {
      forall e | e in t.q.tasks ensures t.mode.until <= e.due {
        var i :| 0 <= i < |t.q.tasks| && t.q.tasks[i] == e;
      }
    }
  }

  lemma SafeStep(s: Sys, a: Action)
    requires Core(s) && Safe(s) && Enabled(s, a)
    ensures Safe(Next(s, a))
  {
    hide UpperBound, IndexOf, Insert, NextId;
    match a
    case At(begin, exec, interval, times) => SubmitSafe(s, begin, exec, interval, times);
    case Reset(id, interval) => ResetSafe(s, id, interval);
    case Clean =>
    case Remove(caller, id, wait) => RemoveSafe(s, id);
    case Retry(caller) => RemoveSafe(s.(waiters := s.waiters - {caller}), s.waiters[caller].id);
    case Tick(to) =>
    case Worker => WorkerSafe(s);
    case Destructor => if s.phase == Cleaned { FarewellSafe(s); }
  }

  /** Every reachable state is safe, whatever the interleaving. */
  lemma {:induction false} AlwaysSafe(s: Sys, acts: seq<Action>)
    requires Core(s) && Safe(s) && Legal(s, acts)
    ensures Safe(Run(s, acts))
    decreases |acts|
  {
    hide Next, Enabled, Core, Safe;
    if acts != [] {
      CoreStep(s, acts[0]);
      SafeStep(s, acts[0]);
      AlwaysSafe(Next(s, acts[0]), acts[1..]);
    }
  }

  lemma ReachableSafe(capacity: nat, now: int, acts: seq<Action>)
    requires Legal(Init(capacity, now), acts)
    ensures Safe(Run(Init(capacity, now), acts))
  {
    AlwaysSafe(Init(capacity, now), acts);
  }

  // ---- Capacity ----

  /** A step passes the capacity exactly when the worker, its run over, queues a
      periodic entry again behind a full queue. */
  lemma ExceedsIff(s: Sys, a: Action)
    requires Core(s) && Enabled(s, a) && |s.q.tasks| <= s.q.capacity
    ensures |Next(s, a).q.tasks| > s.q.capacity
            <==> a == Worker && s.mode == Executing && |s.q.tasks| == s.q.capacity
                 && s.q.running.interval != INVALID_INTERVAL && s.q.running.times > 0
  {
    hide UpperBound, IndexOf, Insert, NextId;
    match a
    case At(begin, exec, interval, times) => AtBag(s, begin, exec, interval, times);
    case Reset(id, interval) => var was := ResetBag(s.q, id, interval, s.now);
    case Remove(caller, id, wait) => RemoveBag(s.q, id);
    case Retry(caller) => RemoveBag(s.q, s.waiters[caller].id);
    case Worker => if s.mode == Executing { FinishBag(s.q, s.now); }
    case Destructor => if s.phase == Cleaned { AtBag(s, s.now, NOOP, INVALID_INTERVAL, UNLIMITED_TIMES); }
    case _ =>
  }

  // ---- Dispatch ----

  /** What the worker does when it looks at the queue: it starts something exactly if
      something is due, and on record; otherwise it parks, for work exactly if there is
      none, else until the least due time. Between its looks it leaves exactly when
      destruction has begun. */
  lemma WorkerLooks(s: Sys)
    requires Core(s) && s.mode != Executing && s.mode != Exited
    ensures var t, looks := WorkerStep(s), s.mode == Entering || s.mode.ParkedEmpty?;
            && (t.mode == Executing <==> looks && exists e :: e in s.q.tasks && e.due <= s.now)
            && (if t.mode == Executing
                then t.log == s.log + [Started(t.q.running.id, s.now, t.q.running.interval)]
                else t.log == s.log && t.q == s.q)
            && (looks ==> (t.mode == ParkedEmpty(false) <==> s.q.tasks == []))
            && (looks && s.q.tasks != [] && t.mode != Executing ==>
                  && t.mode == ParkedUntil(s.q.tasks[0].due, false)
                  && forall e :: e in s.q.tasks ==> s.q.tasks[0].due <= e.due)
            && (!looks ==> t.mode == if s.mode != Top then Top else if s.phase == Alive then Entering else Exited)
  {
    if s.q.tasks != [] {
      assert s.q.tasks[0] in s.q.tasks;
      forall e | e in s.q.tasks ensures s.q.tasks[0].due <= e.due {
        var i :| 0 <= i < |s.q.tasks| && s.q.tasks[i] == e;
        SortedDues(s.q.tasks, 0, i);
      }
    }
  }

  /** Whatever starts was queued, is due, and comes before everything else queued, by
      due time and then by insertion; it alone leaves the queue, one run poorer. */
  lemma StartsLeastDue(s: Sys, a: Action) returns (e: Entry)
    requires Core(s) && Enabled(s, a)
    requires |Next(s, a).log| > |s.log| && Next(s, a).log[|s.log|].Started?
    ensures var t := Next(s, a);
            && a == Worker && s.mode != Executing && t.mode == Executing
            && Least(e, Bag(s.q.tasks)) && e.due <= s.now
            && Bag(t.q.tasks) == Bag(s.q.tasks) - {e}
            && t.q.running == e.task.(times := if e.task.times == 0 then UNLIMITED_TIMES else e.task.times - 1)
            && t.log == s.log + [Started(e.task.id, s.now, e.task.interval)]
  {
    hide UpperBound, IndexOf, Insert, NextId;
    var t := Next(s, a);
    TakeBag(s.q);
    e := s.q.tasks[0];
  }

  // ---- The destructor's join ----

  /** The worker sleeps, was not notified, and its time has not come. */
  predicate Stuck(s: Sys) {
    match s.mode
    case ParkedEmpty(woken) => !woken
    case ParkedUntil(t, woken) => !woken && s.now < t
    case _ => false
  }

  function Rank(m: Mode): nat {
    match m
    case Entering => 3
    case ParkedEmpty(_) => 3
    case ParkedUntil(_, _) => 2
    case Executing => 2
    case Top => 1
    case Exited => 0
  }

  function WorkerSteps(acts: seq<Action>): nat {
    if acts == [] then 0 else (if acts[0] == Worker then 1 else 0) + WorkerSteps(acts[1..])
  }

  /** While the destructor joins, the worker is never asleep for good, and each of
      its steps brings it nearer to its exit. */
  lemma JoiningStep(s: Sys, a: Action)
    requires Core(s) && Safe(s) && Enabled(s, a) && s.phase == Joining && s.q.capacity >= 1
    ensures !Stuck(s) && Next(s, a).phase == Joining && Next(s, a).q.capacity == s.q.capacity
    ensures Rank(Next(s, a).mode) + (if a == Worker then 1 else 0) <= Rank(s.mode)
  {
    hide UpperBound, IndexOf, Insert;
    if s.mode.ParkedUntil? && !s.mode.woken {
      assert s.q.tasks[0] in s.q.tasks;
    }
    match a
    case Reset(id, interval) => var was := ResetBag(s.q, id, interval, s.now);
    case _ =>
  }

  /** With room for one task the join comes through: on every continuation the
      worker takes at most three more steps, is never stuck, and has exited when
      they are used up. */
  lemma {:induction false} JoinTerminates(s: Sys, acts: seq<Action>)
    requires Core(s) && Safe(s) && s.phase == Joining && s.q.capacity >= 1 && Legal(s, acts)
    ensures var t := Run(s, acts);
            && !Stuck(t) && t.phase == Joining
            && WorkerSteps(acts) + Rank(t.mode) <= Rank(s.mode) <= 3
            && (WorkerSteps(acts) == 3 ==> t.mode == Exited)
    decreases |acts|
  {
    if acts == [] {
      JoiningStep(s, Tick(s.now));
    } else {
      CoreStep(s, acts[0]);
      SafeStep(s, acts[0]);
      JoiningStep(s, acts[0]);
      JoinTerminates(Next(s, acts[0]), acts[1..]);
    }
  }

  /** Whether some run leaves the joining destructor with a worker asleep for good. */
  ghost predicate CanHang(capacity: nat) {
    exists now: int, acts: seq<Action> ::
      Legal(Init(capacity, now), acts)
      && Run(Init(capacity, now), acts).phase == Joining && Stuck(Run(Init(capacity, now), acts))
  }

  lemma CapacityStep(s: Sys, a: Action)
    ensures Next(s, a).q.capacity == s.q.capacity
  {
  }

  lemma {:induction false} CapacityKept(s: Sys, acts: seq<Action>)
    requires Legal(s, acts)
    ensures Run(s, acts).q.capacity == s.q.capacity
    decreases |acts|
  {
    hide Next, Enabled;
    if acts != [] {
      CapacityStep(s, acts[0]);
      CapacityKept(Next(s, acts[0]), acts[1..]);
    }
  }

  /** Destruction can hang exactly when the scheduler has no room for any task. */
  lemma HangsIffNoCapacity(capacity: nat)
    ensures CanHang(capacity) <==> capacity == 0
  {
    if CanHang(capacity) && capacity >= 1 {
      var now: int, acts: seq<Action> :|
        Legal(Init(capacity, now), acts)
        && Run(Init(capacity, now), acts).phase == Joining && Stuck(Run(Init(capacity, now), acts));
      ReachableSafe(capacity, now, acts);
      RunCore(Init(capacity, now), acts);
      CapacityKept(Init(capacity, now), acts);
      JoinTerminates(Run(Init(capacity, now), acts), []);
      assert false;
    }
    if capacity == 0 {
      HangingRun();
    }
  }

  lemma HangingRun()
    ensures CanHang(0)
  {
    var s0 := Init(0, 0);
    var s1 := s0.(mode := Entering);
    var s2 := s0.(mode := ParkedEmpty(false));
    var s3 := s2.(phase := Stopping);
    var s4 := s2.(phase := Cleaned);
    var s5 := s2.(phase := Joining);
    assert s5.q.tasks == [] && Stuck(s5);
    RunCons(s4, Destructor, []);
    RunCons(s3, Destructor, [Destructor]);
    RunCons(s2, Destructor, [Destructor] + [Destructor]);
    RunCons(s1, Worker, [Destructor] + ([Destructor] + [Destructor]));
    RunCons(s0, Worker, [Worker] + ([Destructor] + ([Destructor] + [Destructor])));
  }
}
