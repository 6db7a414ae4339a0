/** Runs that go as far as the bounds allow: how often a task can run, how full the
    queue can get, and a cancellation that comes too early. */
module SchedulerExtremes {
  import opened TaskQueue
  import opened SchedulerRuns
  import opened SchedulerSafety
  import opened SchedulerHistory

  /** A new scheduler's first task, submitted and taken. */
  lemma StartFirst(capacity: nat, interval: int, times: nat) returns (acts: seq<Action>, t: Sys)
    requires capacity >= 1 && times < U64
    ensures Legal(Init(capacity, 0), acts) && Run(Init(capacity, 0), acts) == t
    ensures t.phase == Alive && t.mode == Executing && t.q.tasks == [] && t.q.capacity == capacity
    ensures t.q.running == Task(1, interval, Decremented(times), NOOP)
    ensures t.given == map[1 := Submission(interval, times)] && t.issued == 1 && t.waiters == map[]
    ensures Runs(t.log, 1) == 1
  {
    hide Legal, Run, UpperBound;
    var s0, a := Init(capacity, 0), At(0, NOOP, interval, times);
    var s1 := FirstQueued(capacity, interval, times);
    var s2 := s1.(mode := Entering);
    t := LockRegion(s2);
    assert t.log == [] + [Started(1, 0, interval)];
    RunsAppend([], Started(1, 0, interval));
    assert Enabled(s1, Worker) && Next(s1, Worker) == s2 && Enabled(s2, Worker) && Next(s2, Worker) == t;
    hide Next, Enabled, LockRegion, Runs;
    RunNil(t);
    RunCons(s2, Worker, []);
    RunCons(s1, Worker, [Worker] + []);
    RunCons(s0, a, [Worker] + ([Worker] + []));
    acts := [a] + ([Worker] + ([Worker] + []));
  }

  lemma FirstQueued(capacity: nat, interval: int, times: nat) returns (s: Sys)
    requires capacity >= 1 && times < U64
    ensures Enabled(Init(capacity, 0), At(0, NOOP, interval, times))
    ensures Next(Init(capacity, 0), At(0, NOOP, interval, times)) == s
    ensures s == Init(capacity, 0).(q := Queue([Entry(0, 0, Task(1, interval, times, NOOP))], IDLE, 1, 1, capacity),
                                    issued := 1, given := map[1 := Submission(interval, times)])
  {
    s := Next(Init(capacity, 0), At(0, NOOP, interval, times));
    assert s.q.tasks == [Entry(0, 0, Task(1, interval, times, NOOP))];
  }

  // ---- How often a task can run ----

  lemma {:induction false} RunsMore(s: Sys, m: nat) returns (acts: seq<Action>, t: Sys)
    requires Core(s) && s.phase == Alive && s.mode == Executing && s.q.tasks == []
    requires s.q.running.interval != INVALID_INTERVAL && m <= s.q.running.times
    ensures Legal(s, acts) && Run(s, acts) == t && t.given == s.given
    ensures Runs(t.log, s.q.running.id) == Runs(s.log, s.q.running.id) + m
    decreases m
  {
    hide Next, Enabled, Core, Runs;
    if m == 0 {
      RunNil(s);
      acts, t := [], s;
    } else {
      var first, s1 := Again(s);
      RunCore(s, first);
      var rest;
      rest, t := RunsMore(s1, m - 1);
      RunAppend(s, first, rest);
      acts := first + rest;
    }
  }

  /** Some run of some scheduler has started the task exactly m times. */
  ghost predicate HasRun(start: Sys, acts: seq<Action>, id: nat, given: Submission, m: nat) {
    Legal(start, acts) && id in Run(start, acts).given && Run(start, acts).given[id] == given
    && Runs(Run(start, acts).log, id) == m
  }

  ghost predicate CanRun(given: Submission, m: nat) {
    exists capacity: nat, now: int, acts: seq<Action>, id: nat :: HasRun(Init(capacity, now), acts, id, given, m)
  }

  /** A task can run any number of times up to its count, and no more; a count of zero
      allows 2^64 runs, and a task without an interval runs once. */
  lemma CanRunIff(given: Submission, m: nat)
    requires given.times < U64
    ensures CanRun(given, m) <==> m <= if given.interval == INVALID_INTERVAL then 1 else Budget(given.times)
  {
    if CanRun(given, m) {
      RunsAtMost(given, m);
    }
    if m <= if given.interval == INVALID_INTERVAL then 1 else Budget(given.times) {
      RunsUpTo(given, m);
    }
  }

  lemma RunsAtMost(given: Submission, m: nat)
    requires CanRun(given, m)
    ensures m <= if given.interval == INVALID_INTERVAL then 1 else Budget(given.times)
  {
    var capacity: nat, now: int, acts: seq<Action>, id: nat :| HasRun(Init(capacity, now), acts, id, given, m);
    ReachableRecorded(capacity, now, acts);
  }

  lemma RunsUpTo(given: Submission, m: nat)
    requires given.times < U64 && m <= if given.interval == INVALID_INTERVAL then 1 else Budget(given.times)
    ensures CanRun(given, m)
  {
    if m == 0 {
      var s0, a := Init(1, 0), At(0, NOOP, given.interval, given.times);
      var s1 := Next(s0, a);
      RunCons(s0, a, []);
      assert HasRun(s0, [a] + [], 1, given, 0);
    } else {
      var acts, s := StartFirst(1, given.interval, given.times);
      RunCore(Init(1, 0), acts);
      if m == 1 {
        assert HasRun(Init(1, 0), acts, 1, given, 1);
      } else {
        var rest, t := RunsMore(s, m - 1);
        RunAppend(Init(1, 0), acts, rest);
        assert HasRun(Init(1, 0), acts + rest, 1, given, m);
      }
    }
  }

  /** Whether a submitted count of n bounds the number of runs. */
  ghost predicate CountBounds(n: nat) {
    forall interval, m: nat :: CanRun(Submission(interval, n), m) ==> m <= n
  }

  /** It does exactly when it is not zero: zero wraps on the first decrement. */
  lemma CountBoundsIff(n: nat)
    ensures CountBounds(n) <==> n >= 1
  {
    hide CanRun;
    if n == 0 {
      CanRunIff(Submission(1, 0), 1);
    } else {
      forall interval, m: nat | CanRun(Submission(interval, n), m) ensures m <= n {
        RunsAtMost(Submission(interval, n), m);
      }
    }
  }

  // ---- A cancellation that comes too early ----

  /** From a new scheduler one gets to a periodic task in the middle of a run with runs
      left; a Remove that does not wait returns, and the task still starts again. */
  lemma RemovedYetRuns(interval: int, times: nat) returns (acts: seq<Action>, s: Sys)
    requires interval != INVALID_INTERVAL && times < U64 && times != 1
    ensures Legal(Init(1, 0), acts) && Run(Init(1, 0), acts) == s
    ensures var a := Remove(0, 1, false);
            Enabled(s, a) && 1 in s.given && Returns(s, a, 1) && !NeverAgain(Next(s, a), 1)
  {
    acts, s := StartFirst(1, interval, times);
    RunCore(Init(1, 0), acts);
    RemoveStopsIff(s, Remove(0, 1, false), 1);
  }

  // ---- How full the queue can get ----

  /** No more entries than ids, and none at all without room for one. */
  ghost predicate Numbered(s: Sys) {
    && |s.q.tasks| + (if s.mode == Executing then 1 else 0) <= s.issued
    && (s.q.capacity == 0 ==> s.issued == 0)
  }

  lemma NumberedStep(s: Sys, a: Action)
    requires Core(s) && Enabled(s, a) && Numbered(s)
    ensures Numbered(Next(s, a))
  {
    hide UpperBound, IndexOf, Insert, NextId, WellFormed, Bag;
    match a
    case At(begin, exec, interval, times) => AtBag(s, begin, exec, interval, times);
    case Reset(id, interval) => var was := ResetBag(s.q, id, interval, s.now);
    case Remove(caller, id, wait) => RemoveBag(s.q, id);
    case Retry(caller) => RemoveBag(s.q, s.waiters[caller].id);
    case Worker => if s.mode == Executing { FinishBag(s.q, s.now); }
    case Destructor => if s.phase == Cleaned { AtBag(s, s.now, NOOP, INVALID_INTERVAL, UNLIMITED_TIMES); }
    case _ =>
  }

  lemma {:induction false} AlwaysNumbered(s: Sys, acts: seq<Action>)
    requires Core(s) && Numbered(s) && Legal(s, acts)
    ensures Numbered(Run(s, acts))
    decreases |acts|
  {
    hide Next, Enabled, Core, Numbered;
    if acts != [] {
      CoreStep(s, acts[0]);
      NumberedStep(s, acts[0]);
      AlwaysNumbered(Next(s, acts[0]), acts[1..]);
    }
  }

  /** Submissions made while a run is on, up to a full queue. */
  lemma {:induction false} Fill(s: Sys, m: nat) returns (acts: seq<Action>, t: Sys)
    requires Core(s) && s.mode == Executing
    requires |s.q.tasks| + m <= s.q.capacity && s.issued + m <= UNLIMITED_TIMES
    ensures Legal(s, acts) && Run(s, acts) == t
    ensures Core(t) && t.mode == Executing && t.q.running == s.q.running
    ensures |t.q.tasks| == |s.q.tasks| + m && t.q.capacity == s.q.capacity
    decreases m
  {
    if m == 0 {
      RunNil(s);
      acts, t := [], s;
    } else {
      var a := At(0, NOOP, INVALID_INTERVAL, 1);
      CoreStep(s, a);
      AtBag(s, 0, NOOP, INVALID_INTERVAL, 1);
      hide Core;
      var rest;
      rest, t := Fill(Next(s, a), m - 1);
      RunCons(s, a, rest);
      acts := [a] + rest;
    }
  }

  /** Whether the queue can ever hold more entries than its capacity. */
  ghost predicate CanExceed(capacity: nat) {
    exists now: int, acts: seq<Action> ::
      Legal(Init(capacity, now), acts) && |Run(Init(capacity, now), acts).q.tasks| > capacity
  }

  /** It can, by one, for every capacity from one on that the ids do not run out for. */
  lemma CanExceedIff(capacity: nat)
    ensures CanExceed(capacity) <==> 1 <= capacity < UNLIMITED_TIMES
  {
    if CanExceed(capacity) {
      var now: int, acts: seq<Action> :|
        Legal(Init(capacity, now), acts) && |Run(Init(capacity, now), acts).q.tasks| > capacity;
      AlwaysNumbered(Init(capacity, now), acts);
      RunCore(Init(capacity, now), acts);
      CapacityKept(Init(capacity, now), acts);
    }
    if 1 <= capacity < UNLIMITED_TIMES {
      Overfull(capacity);
    }
  }

  lemma Overfull(capacity: nat)
    requires 1 <= capacity < UNLIMITED_TIMES
    ensures CanExceed(capacity)
  {
    var first, s := StartFirst(capacity, 1, UNLIMITED_TIMES);
    RunCore(Init(capacity, 0), first);
    var fill, t := Fill(s, capacity);
    FinishBag(t.q, t.now);
    RunCons(t, Worker, []);
    RunAppend(s, fill, [Worker] + []);
    RunAppend(Init(capacity, 0), first, fill + ([Worker] + []));
  }
}
