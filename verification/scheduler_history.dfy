/** What the log of a run says: how often a task ran, how far apart its starts
    are, and what a returned Remove guarantees. */
module SchedulerHistory {
  import opened Common
  import opened TaskQueue
  import opened SchedulerRuns

  predicate IsStart(e: Event, id: nat) {
    e.Started? && e.id == id
  }

  function Runs(log: seq<Event>, id: nat): nat {
    if log == [] then 0
    else Runs(log[..|log| - 1], id) + (if IsStart(log[|log| - 1], id) then 1 else 0)
  }

  lemma RunsAppend(log: seq<Event>, e: Event)
    ensures forall id :: Runs(log + [e], id) == Runs(log, id) + (if IsStart(e, id) then 1 else 0)
  {
  }

  /** The latest start of a task, unless it was rescheduled since. */
  function LastStart(log: seq<Event>, id: nat): Option<Event> {
    if log == [] then None
    else
      var e := log[|log| - 1];
      if e.id != id then LastStart(log[..|log| - 1], id)
      else if e.Started? then Some(e) else None
  }

  lemma LastStartAppend(log: seq<Event>, e: Event)
    ensures forall id :: LastStart(log + [e], id)
                         == if e.id != id then LastStart(log, id) else if e.Started? then Some(e) else None
  {
  }

  /** A count of n allows n runs; a count of zero wraps and allows 2^64. */
  function Budget(times: nat): nat {
    if times == 0 then U64 else times
  }

  // ---- Run counts ----

  /** Runs so far and runs left always add up to what was submitted, and a task
      submitted without an interval is queued only before its single run. */
  ghost predicate Counted(s: Sys) {
    && (forall e :: e in s.q.tasks && e.task.id in s.given ==>
          && Runs(s.log, e.task.id) + Budget(e.task.times) == Budget(s.given[e.task.id].times)
          && (s.given[e.task.id].interval == INVALID_INTERVAL ==>
                e.task.interval == INVALID_INTERVAL && Runs(s.log, e.task.id) == 0))
    && (s.mode == Executing && s.q.running.id in s.given ==>
          && Runs(s.log, s.q.running.id) + s.q.running.times == Budget(s.given[s.q.running.id].times)
          && (s.given[s.q.running.id].interval == INVALID_INTERVAL ==> s.q.running.interval == INVALID_INTERVAL))
    && (forall id :: id in s.given ==>
          && Runs(s.log, id) <= Budget(s.given[id].times)
          && (s.given[id].interval == INVALID_INTERVAL ==> Runs(s.log, id) <= 1))
    && (forall id :: id !in s.given ==> Runs(s.log, id) == 0)
  }

  // ---- Spacing ----

  ghost predicate Spaced(s: Sys) {
    && (forall e :: e in s.q.tasks && LastStart(s.log, e.task.id).Some? ==>
          var last := LastStart(s.log, e.task.id).value;
          last.Started? && last.interval == e.task.interval && last.at + last.interval <= e.due)
    && (s.mode == Executing && LastStart(s.log, s.q.running.id).Some? ==>
          var last := LastStart(s.log, s.q.running.id).value;
          last.Started? && last.interval == s.q.running.interval && last.at <= s.now)
    && (forall id :: LastStart(s.log, id).Some? ==> id in s.given)
    && WellSpaced(s.log)
  }

  /** Every start comes at least one interval after the task's previous start,
      unless a Reset came between. */
  ghost predicate WellSpaced(log: seq<Event>) {
    forall k :: 0 <= k < |log| && log[k].Started? && LastStart(log[..k], log[k].id).Some? ==>
      var last := LastStart(log[..k], log[k].id).value;
      last.Started? && last.interval == log[k].interval && last.at + last.interval <= log[k].at
  }

  lemma WellSpacedAppend(log: seq<Event>, e: Event)
    requires WellSpaced(log)
    requires e.Started? && LastStart(log, e.id).Some? ==>
               var last := LastStart(log, e.id).value;
               last.Started? && last.interval == e.interval && last.at + last.interval <= e.at
    ensures WellSpaced(log + [e])
  {
    forall k | 0 <= k <= |log| ensures (log + [e])[..k] == log[..k] {
    }
  }

  ghost predicate Recorded(s: Sys) {
    Counted(s) && Spaced(s)
  }

  lemma SubmitRecorded(s: Sys, begin: int, exec: nat, interval: int, times: nat)
    requires Core(s) && Recorded(s) && s.issued < UNLIMITED_TIMES && times < U64
    ensures Recorded(Submit(s, begin, exec, interval, times))
  {
    hide UpperBound, Insert, WellSpaced, WellFormed, Runs, LastStart;
    AtBag(s, begin, exec, interval, times);
    var t := Submit(s, begin, exec, interval, times);
    var e := Entry(begin, s.q.stamps, Task(s.issued + 1, interval, times, exec));
    forall x | x in t.q.tasks ensures x in s.q.tasks || (t != s && x == e) {
      assert x in Bag(t.q.tasks);
    }
    assert Runs(s.log, s.issued + 1) == 0 && LastStart(s.log, s.issued + 1).None?;
  }

  /** A step that starts nothing, reschedules nothing and queues nothing. */
  lemma FewerRecorded(s: Sys, t: Sys)
    requires Core(s) && Recorded(s)
    requires t.q.running == s.q.running && (t.mode == Executing <==> s.mode == Executing)
    requires t.log == s.log && t.given == s.given && s.now <= t.now
    requires forall x :: x in t.q.tasks ==> x in s.q.tasks
    ensures Recorded(t)
  {
  }

  lemma RemoveRecorded(s: Sys, id: nat)
    requires Core(s) && Recorded(s)
    ensures Recorded(RemoveNow(s, id))
  {
    hide IndexOf, Recorded;
    RemoveBag(s.q, id);
    var t := RemoveNow(s, id);
    forall x | x in t.q.tasks ensures x in s.q.tasks {
      assert x in Bag(t.q.tasks);
    }
    FewerRecorded(s, t);
  }

  lemma ResetMembers(s: Sys, id: nat, interval: int) returns (was: Entry)
    requires Core(s) && Queued(s.q.tasks, id)
    ensures was in s.q.tasks && was.task.id == id
    ensures var t := Next(s, Action.Reset(id, interval));
            && t.q.running == s.q.running && t.log == s.log + [Rescheduled(id)]
            && forall x :: x in t.q.tasks ==>
                 || x == Entry(s.now + interval, s.q.stamps, Retimed(was.task, interval))
                 || (x in s.q.tasks && x.task.id != id)
  {
    hide UpperBound, Insert, IndexOf;
    was := ResetBag(s.q, id, interval, s.now);
    var t := Next(s, Action.Reset(id, interval));
    forall x | x in t.q.tasks && x != Entry(s.now + interval, s.q.stamps, Retimed(was.task, interval))
      ensures x in s.q.tasks && x.task.id != id
    {
      assert x in Bag(t.q.tasks);
      if x.task.id == id {
        SameId(s.q.tasks, x, was);
      }
    }
  }

  lemma ResetQueuedCounted(s: Sys, id: nat, interval: int)
    requires Core(s) && Counted(s) && Queued(s.q.tasks, id)
    ensures Counted(Next(s, Action.Reset(id, interval)))
  {
    hide UpperBound, Insert, IndexOf, ResetOp, WellFormed, Runs, Queued;
    RunsAppend(s.log, Rescheduled(id));
    var was := ResetMembers(s, id, interval);
  }

  lemma ResetQueuedSpaced(s: Sys, id: nat, interval: int)
    requires Core(s) && Spaced(s) && Queued(s.q.tasks, id)
    ensures Spaced(Next(s, Action.Reset(id, interval)))
  {
    hide UpperBound, Insert, IndexOf, WellSpaced, ResetOp, WellFormed, LastStart, Queued;
    LastStartAppend(s.log, Rescheduled(id));
    WellSpacedAppend(s.log, Rescheduled(id));
    var was := ResetMembers(s, id, interval);
  }

  lemma ResetRunningRecorded(s: Sys, id: nat, interval: int)
    requires Core(s) && Recorded(s) && s.q.running.id == id && s.q.running.interval != INVALID_INTERVAL
    ensures Recorded(Next(s, Action.Reset(id, interval)))
  {
    hide UpperBound, Insert, IndexOf, WellSpaced, WellFormed, Runs, LastStart;
    RunsAppend(s.log, Rescheduled(id));
    LastStartAppend(s.log, Rescheduled(id));
    WellSpacedAppend(s.log, Rescheduled(id));
  }

  lemma ResetRecorded(s: Sys, id: nat, interval: int)
    requires Core(s) && Recorded(s)
    ensures Recorded(Next(s, Action.Reset(id, interval)))
  {
    hide UpperBound, Insert, IndexOf, Counted, Spaced, ResetOp;
    if Queued(s.q.tasks, id) {
      ResetQueuedCounted(s, id, interval);
      ResetQueuedSpaced(s, id, interval);
    } else if s.q.running.id == id && s.q.running.interval != INVALID_INTERVAL {
      ResetRunningRecorded(s, id, interval);
    } else {
      var was := ResetBag(s.q, id, interval, s.now);
      FewerRecorded(s, Next(s, Action.Reset(id, interval)));
    }
  }

  lemma SameId(q: seq<Entry>, x: Entry, y: Entry)
    requires DistinctIds(q) && x in q && y in q && x.task.id == y.task.id
    ensures x == y
  {
  }

  lemma TakeMembers(s: Sys)
    requires Core(s) && s.q.tasks != []
    ensures forall x :: x in TakeOp(s.q).tasks ==> x in s.q.tasks && x.task.id != s.q.tasks[0].task.id
  {
  }

  /** What a start changes, as far as run counts go. */
  lemma TakeChanges(s: Sys) returns (e: Entry)
    requires Core(s) && s.mode != Executing && LockRegion(s).mode == Executing
    ensures var t := LockRegion(s);
            && e in s.q.tasks && e.task.id in s.given && t.given == s.given
            && t.q.running.id == e.task.id && t.q.running.interval == e.task.interval
            && Budget(e.task.times) == t.q.running.times + 1
            && (forall x :: x in t.q.tasks ==> x in s.q.tasks && x.task.id != e.task.id)
            && forall id :: Runs(t.log, id) == Runs(s.log, id) + if id == e.task.id then 1 else 0
  {
    e := s.q.tasks[0];
    TakeMembers(s);
    hide Runs;
    RunsAppend(s.log, Started(e.task.id, s.now, e.task.interval));
  }

  lemma TakeCounted(s: Sys)
    requires Core(s) && Counted(s) && s.mode != Executing && LockRegion(s).mode == Executing
    ensures Counted(LockRegion(s))
  {
    hide LockRegion, Core, Runs, Budget;
    var e := TakeChanges(s);
  }

  lemma TakeSpaced(s: Sys)
    requires Core(s) && Spaced(s) && s.mode != Executing && LockRegion(s).mode == Executing
    ensures Spaced(LockRegion(s))
  {
    var e := s.q.tasks[0];
    assert e in s.q.tasks;
    TakeMembers(s);
    hide WellSpaced, WellFormed, LastStart;
    LastStartAppend(s.log, Started(e.task.id, s.now, e.task.interval));
    WellSpacedAppend(s.log, Started(e.task.id, s.now, e.task.interval));
  }

  lemma TakeRecorded(s: Sys)
    requires Core(s) && Recorded(s) && s.mode != Executing && LockRegion(s).mode == Executing
    ensures Recorded(LockRegion(s))
  {
    hide Counted, Spaced;
    TakeCounted(s);
    TakeSpaced(s);
  }

  lemma FinishRecorded(s: Sys)
    requires Core(s) && Recorded(s) && s.mode == Executing
    ensures Recorded(WorkerStep(s))
  {
    hide UpperBound, Insert, WellSpaced;
    var t := WorkerStep(s);
    FinishBag(s.q, s.now);
    forall x | x in t.q.tasks
      ensures x in s.q.tasks || (x == Entry(s.now + s.q.running.interval, s.q.stamps, s.q.running)
                                 && s.q.running.interval != INVALID_INTERVAL && s.q.running.times > 0)
    {
      assert x in Bag(t.q.tasks);
    }
  }

  lemma RecordedStep(s: Sys, a: Action)
    requires Core(s) && Recorded(s) && Enabled(s, a)
    ensures Recorded(Next(s, a))
  {
    hide Recorded, UpperBound, Insert, IndexOf;
    match a
    case At(begin, exec, interval, times) => SubmitRecorded(s, begin, exec, interval, times);
    case Reset(id, interval) => ResetRecorded(s, id, interval);
    case Remove(caller, id, wait) =>
      RemoveRecorded(s, id);
      FewerRecorded(s, s.(waiters := s.waiters[caller := Waiter(id, false)]));
    case Retry(caller) =>
      FewerRecorded(s, s.(waiters := s.waiters - {caller}));
      FewerRecorded(s, s.(waiters := s.waiters[caller := Waiter(s.waiters[caller].id, false)]));
      RemoveRecorded(s.(waiters := s.waiters - {caller}), s.waiters[caller].id);
    case Worker =>
      if s.mode == Executing {
        FinishRecorded(s);
      } else if Next(s, a).mode == Executing {
        TakeRecorded(s);
      } else {
        FewerRecorded(s, Next(s, a));
      }
    case Destructor =>
      if s.phase == Cleaned {
        SubmitRecorded(s, s.now, NOOP, INVALID_INTERVAL, UNLIMITED_TIMES);
        var t := Submit(s, s.now, NOOP, INVALID_INTERVAL, UNLIMITED_TIMES);
        SubmitCore(s, s.now, NOOP, INVALID_INTERVAL, UNLIMITED_TIMES);
        FewerRecorded(t, t.(phase := Joining));
      } else {
        FewerRecorded(s, Next(s, a));
      }
    case _ => FewerRecorded(s, Next(s, a));
  }

  lemma {:induction false} AlwaysRecorded(s: Sys, acts: seq<Action>)
    requires Core(s) && Recorded(s) && Legal(s, acts)
    ensures Core(Run(s, acts)) && Recorded(Run(s, acts))
    decreases |acts|
  {
    hide Next, Enabled, Core, Recorded;
    if acts != [] {
      CoreStep(s, acts[0]);
      RecordedStep(s, acts[0]);
      AlwaysRecorded(Next(s, acts[0]), acts[1..]);
    }
  }

  /** In every run a task starts at most as often as its budget, at most once if
      submitted without an interval, and never closer than its interval to its
      previous start unless Reset came between. */
  lemma ReachableRecorded(capacity: nat, now: int, acts: seq<Action>)
    requires Legal(Init(capacity, now), acts)
    ensures var t := Run(Init(capacity, now), acts);
            && Core(t) && Recorded(t) && WellSpaced(t.log)
            && forall id :: id in t.given ==>
                 && (t.given[id].times >= 1 ==> Runs(t.log, id) <= t.given[id].times)
                 && (t.given[id].interval == INVALID_INTERVAL ==> Runs(t.log, id) <= 1)
  {
    AlwaysRecorded(Init(capacity, now), acts);
  }

  // ---- Cancellation ----

  /** Nothing is left of the task but, at most, a run that will not be repeated. */
  ghost predicate Spent(s: Sys, id: nat) {
    && id in s.given
    && (forall e :: e in s.q.tasks ==> e.task.id != id)
    && (s.q.running.id == id ==> s.q.running.interval == INVALID_INTERVAL || s.q.running.times == 0)
  }

  ghost predicate Gone(s: Sys, id: nat) {
    Spent(s, id) && s.q.running.id != id
  }

  /** No Reset, whatever its interval and moment, finds the task or changes anything. */
  ghost predicate NotFound(s: Sys, id: nat) {
    forall interval, now :: ResetOp(s.q, id, interval, now) == Outcome(s.q, INVALID_TASK_ID, false)
  }

  /** The worker is on its way out and will look at the queue no more. */
  predicate Ending(s: Sys) {
    s.phase != Alive && (s.mode == Executing || s.mode == Top || s.mode == Exited)
  }

  lemma RemoveMembers(s: Sys, id: nat)
    requires Core(s)
    ensures var t := RemoveNow(s, id);
            && t == s.(q := s.q.(tasks := t.q.tasks), mode := t.mode)
            && (s.mode == Executing || s.mode == Top || s.mode == Exited ==> t.mode == s.mode)
            && forall x :: x in t.q.tasks ==> x in s.q.tasks && x.task.id != id
  {
  }

  lemma SpentStep(s: Sys, a: Action, id: nat)
    requires Core(s) && Enabled(s, a) && Spent(s, id)
    ensures Spent(Next(s, a), id) && Runs(Next(s, a).log, id) == Runs(s.log, id)
    ensures Gone(s, id) ==> Gone(Next(s, a), id) && NotFound(s, id)
  {
    hide UpperBound, Insert, IndexOf, WellFormed;
    var t := Next(s, a);
    assert !Queued(s.q.tasks, id) by {
      assert forall i :: 0 <= i < |s.q.tasks| ==> s.q.tasks[i] in s.q.tasks;
    }
    if s.q.running.id != id {
      ResetAbsent(s, id);
    }
    match a
    case At(begin, exec, interval, times) => SubmitSpent(s, begin, exec, interval, times, id);
    case Reset(r, interval) => ResetSpent(s, r, interval, id);
    case Remove(caller, r, wait) => RemoveMembers(s, r);
    case Retry(caller) => RemoveMembers(s.(waiters := s.waiters - {caller}), s.waiters[caller].id);
    case Worker => WorkerSpent(s, id);
    case Destructor =>
      if s.phase == Cleaned {
        SubmitSpent(s, s.now, NOOP, INVALID_INTERVAL, UNLIMITED_TIMES, id);
      }
    case _ =>
  }

  lemma ResetAbsent(s: Sys, id: nat)
    requires !Queued(s.q.tasks, id) && s.q.running.id != id
    ensures NotFound(s, id)
  {
    assert IndexOf(s.q.tasks, id) == |s.q.tasks|;
  }

  lemma SubmitSpent(s: Sys, begin: int, exec: nat, interval: int, times: nat, id: nat)
    requires Core(s) && Spent(s, id) && s.issued < UNLIMITED_TIMES && times < U64
    ensures var t := Submit(s, begin, exec, interval, times);
            Spent(t, id) && t.log == s.log && t.q.running == s.q.running
  {
    AtBag(s, begin, exec, interval, times);
    var t := Submit(s, begin, exec, interval, times);
    forall x | x in t.q.tasks ensures x.task.id != id {
      assert x in Bag(t.q.tasks);
    }
  }

  lemma ResetSpent(s: Sys, r: nat, interval: int, id: nat)
    requires Core(s) && Spent(s, id)
    ensures var t := Next(s, Action.Reset(r, interval));
            Spent(t, id) && Runs(t.log, id) == Runs(s.log, id) && t.q.running.id == s.q.running.id
  {
    RunsAppend(s.log, Rescheduled(r));
    if Queued(s.q.tasks, r) {
      var was := ResetMembers(s, r, interval);
    } else {
      var was := ResetBag(s.q, r, interval, s.now);
    }
  }

  lemma WorkerSpent(s: Sys, id: nat)
    requires Core(s) && Spent(s, id) && s.mode != Exited
    ensures var t := WorkerStep(s);
            && Spent(t, id) && Runs(t.log, id) == Runs(s.log, id)
            && (Gone(s, id) ==> Gone(t, id))
  {
  }

  lemma EndingStep(s: Sys, a: Action)
    requires Ending(s) && Enabled(s, a)
    ensures Ending(Next(s, a)) && forall id :: Runs(Next(s, a).log, id) == Runs(s.log, id)
  {
  }

  /** A step of a call of Remove for this id, its first or a retry after a wake-up. */
  predicate Calls(s: Sys, a: Action, id: nat) {
    match a
    case Remove(_, r, _) => r == id
    case Retry(caller) => caller in s.waiters && s.waiters[caller].id == id
    case _ => false
  }

  /** The call ends with this step: its caller does not wait any longer. */
  predicate Returns(s: Sys, a: Action, id: nat) {
    Calls(s, a, id) && a.caller !in Next(s, a).waiters
  }

  /** The call waits for the end of a run. */
  predicate Waits(a: Action) {
    a.Retry? || (a.Remove? && a.wait)
  }

  /** A call that waits returns exactly if its task is not running, one that does not wait
      returns at once; while it waits it changes nothing. */
  lemma WaitsForRun(s: Sys, a: Action, id: nat)
    requires Enabled(s, a) && Calls(s, a, id)
    ensures Returns(s, a, id) <==> !(Waits(a) && s.q.running.id == id)
    ensures !Returns(s, a, id) ==> Next(s, a) == s.(waiters := s.waiters[a.caller := Waiter(id, false)])
  {
    hide IndexOf;
  }

  /** Once a Remove that waits has returned, its task is gone: on every continuation it
      starts no more, and no Reset finds it. */
  lemma WaitedRemoveIsFinal(s: Sys, a: Action, id: nat, acts: seq<Action>)
    requires Core(s) && Enabled(s, a) && Waits(a) && Returns(s, a, id) && id in s.given
    requires Legal(Next(s, a), acts)
    ensures var t := Run(Next(s, a), acts);
            Gone(t, id) && Runs(t.log, id) == Runs(s.log, id) && NotFound(t, id)
  {
    WaitsForRun(s, a, id);
    RemoveCancels(s, a, id);
    CoreStep(s, a);
    CancelledForGood(Next(s, a), acts, id);
  }

  /** The task starts in no continuation. */
  ghost predicate NeverAgain(s: Sys, id: nat) {
    forall acts :: Legal(s, acts) ==> Runs(Run(s, acts).log, id) == Runs(s.log, id)
  }

  lemma {:induction false} SpentForGood(s: Sys, acts: seq<Action>, id: nat)
    requires Core(s) && (Spent(s, id) || Ending(s)) && Legal(s, acts)
    ensures Runs(Run(s, acts).log, id) == Runs(s.log, id)
    decreases |acts|
  {
    hide Next, Enabled, Core, Spent;
    if acts != [] {
      CoreStep(s, acts[0]);
      if Ending(s) {
        EndingStep(s, acts[0]);
      } else {
        SpentStep(s, acts[0], id);
      }
      SpentForGood(Next(s, acts[0]), acts[1..], id);
    }
  }

  /** Once Remove has returned for a task that is not running (as a waiting Remove
      always has), the task never starts again and no Reset finds it. */
  lemma {:induction false} CancelledForGood(s: Sys, acts: seq<Action>, id: nat)
    requires Core(s) && Gone(s, id) && Legal(s, acts)
    ensures var t := Run(s, acts);
            && Gone(t, id) && Runs(t.log, id) == Runs(s.log, id)
            && NotFound(t, id)
    decreases |acts|
  {
    hide Next, Enabled, Core, Spent;
    if acts != [] {
      CoreStep(s, acts[0]);
      SpentStep(s, acts[0], id);
      CancelledForGood(Next(s, acts[0]), acts[1..], id);
    } else {
      assert Enabled(s, Tick(s.now)) by { TickEnabled(s); }
      SpentStep(s, Tick(s.now), id);
    }
  }

  lemma TickEnabled(s: Sys)
    ensures Enabled(s, Tick(s.now))
  {
  }

  lemma RemoveCancels(s: Sys, a: Action, id: nat)
    requires Core(s) && Enabled(s, a) && Returns(s, a, id) && id in s.given
    ensures var t := Next(s, a);
            && (forall e :: e in t.q.tasks ==> e.task.id != id)
            && t.q.running == s.q.running && t.log == s.log && t.given == s.given
            && t.phase == s.phase
            && (s.q.running.id != id ==> Gone(t, id))
  {
  }

  /** Exactly when a returned Remove stops the task for good: unless the task is a
      periodic one in the middle of a run that has runs left. */
  lemma RemoveStopsIff(s: Sys, a: Action, id: nat)
    requires Core(s) && Enabled(s, a) && Returns(s, a, id) && id in s.given
    ensures NeverAgain(Next(s, a), id) <==>
            !(s.phase == Alive && s.q.running.id == id
              && s.q.running.interval != INVALID_INTERVAL && s.q.running.times > 0)
  {
    var t := Next(s, a);
    CoreStep(s, a);
    RemoveCancels(s, a, id);
    if s.phase == Alive && s.q.running.id == id
       && s.q.running.interval != INVALID_INTERVAL && s.q.running.times > 0 {
      RunsOnceMore(t, id);
    } else {
      forall acts | Legal(t, acts) ensures Runs(Run(t, acts).log, id) == Runs(t.log, id) {
        SpentForGood(t, acts, id);
      }
    }
  }

  /** A run that ends, queues its task again and is taken again when it falls due. */
  lemma Again(s: Sys) returns (acts: seq<Action>, t: Sys)
    requires Core(s) && s.phase == Alive && s.mode == Executing && s.q.tasks == []
    requires s.q.running.interval != INVALID_INTERVAL && s.q.running.times > 0
    ensures Legal(s, acts) && Run(s, acts) == t
    ensures t.phase == Alive && t.mode == Executing && t.q.tasks == [] && t.given == s.given
    ensures t.q.running == s.q.running.(times := s.q.running.times - 1)
    ensures forall id :: Runs(t.log, id) == Runs(s.log, id) + if id == s.q.running.id then 1 else 0
  {
    var r := s.q.running;
    var due := s.now + r.interval;
    var later := if due < s.now then s.now else due;
    var s1 := Next(s, Worker);
    assert s1.q.tasks == [Entry(due, s.q.stamps, r)];
    var s2 := s1.(now := later);
    var s3 := s2.(mode := Entering);
    t := LockRegion(s3);
    RunsAppend(s.log, Started(r.id, later, r.interval));
    assert Next(s1, Tick(later)) == s2 && Next(s2, Worker) == s3 && Next(s3, Worker) == t;
    assert Enabled(s, Worker) && Enabled(s1, Tick(later)) && Enabled(s2, Worker) && Enabled(s3, Worker);
    hide Next, Enabled, LockRegion, Runs;
    RunNil(t);
    RunCons(s3, Worker, []);
    RunCons(s2, Worker, [Worker] + []);
    RunCons(s1, Tick(later), [Worker] + ([Worker] + []));
    RunCons(s, Worker, [Tick(later)] + ([Worker] + ([Worker] + [])));
    acts := [Worker] + ([Tick(later)] + ([Worker] + ([Worker] + [])));
  }

  /** The continuation that shows it: another caller clears the queue, and the run
      comes round again. */
  lemma RunsOnceMore(s: Sys, id: nat)
    requires Core(s) && s.phase == Alive && s.q.running.id == id && id in s.given
    requires s.q.running.interval != INVALID_INTERVAL && s.q.running.times > 0
    ensures !NeverAgain(s, id)
  {
    var s1 := Next(s, Clean);
    CoreStep(s, Clean);
    var acts, t := Again(s1);
    RunCons(s, Clean, acts);
    hide Legal, Run;
    assert Runs(Run(s, [Clean] + acts).log, id) == Runs(s.log, id) + 1;
  }
}
