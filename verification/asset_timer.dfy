/** The debounce of asset changes: a table from keys to timer tasks, raced by tasks
    that have already left the timer queue. The executor is not part of this model;
    it is given the scheduler's contract, with any number of tasks under way. */
module AssetTimer {
  const ASSET_SEPARATOR: char := '#'
  const INVALID_TASK_ID: nat := 0
  const WAIT_INTERVAL: int := 100

  datatype Pair = Pair(session: string, asset: string)

  function Key(p: Pair): string {
    p.session + [ASSET_SEPARATOR] + p.asset
  }

  /** A task waits in the timer queue, then has begun (its StopTimer still ahead),
      then has stopped its timer (its HandleAssetChanges still ahead). */
  datatype Stage = Queued | Begun | Stopped

  datatype Job = Job(pair: Pair, stage: Stage, due: int)

  /** `tasks` is the table under the timer's mutex, `jobs` the executor's tasks, `handled`
      the log of HandleAssetChanges calls, and `told` the notifications that follow. */
  datatype State = State(tasks: map<string, nat>, jobs: map<nat, Job>, lastId: nat,
                         handled: seq<Pair>, told: seq<Pair>, now: int)

  /** `ok` is whether the service took the changes. */
  datatype Action = Start(pair: Pair) | Begin(id: nat) | Stop(id: nat) | Handle(id: nat, ok: bool) | Tick(to: int)

  const INIT := State(map[], map[], INVALID_TASK_ID, [], [], 0)

  predicate At(s: State, id: nat, stage: Stage) {
    id in s.jobs && s.jobs[id].stage == stage
  }

  /** Reset succeeds exactly for a task still in the timer queue. */
  function ResetResult(s: State, id: nat): nat {
    if At(s, id, Queued) then id else INVALID_TASK_ID
  }

  function Postponed(jobs: map<nat, Job>, id: nat, due: int): map<nat, Job> {
    if id in jobs && jobs[id].stage == Queued then jobs[id := jobs[id].(due := due)] else jobs
  }

  function StartOp(s: State, p: Pair): State {
    if Key(p) !in s.tasks then
      s.(lastId := s.lastId + 1, jobs := s.jobs[s.lastId + 1 := Job(p, Queued, s.now + WAIT_INTERVAL)],
         tasks := s.tasks[Key(p) := s.lastId + 1])
    else
      var id := s.tasks[Key(p)];
      s.(jobs := Postponed(s.jobs, id, s.now + WAIT_INTERVAL), tasks := s.tasks[Key(p) := ResetResult(s, id)])
  }

  function RemoveJob(jobs: map<nat, Job>, id: nat): map<nat, Job> {
    if id in jobs && jobs[id].stage == Queued then jobs - {id} else jobs
  }

  /** Cancels whatever the table holds for the key, then forgets the key. */
  function StopOp(s: State, id: nat): State
    requires id in s.jobs
  {
    var p := s.jobs[id].pair;
    var k := Key(p);
    s.(jobs := RemoveJob(s.jobs, if k in s.tasks then s.tasks[k] else INVALID_TASK_ID)[id := s.jobs[id].(stage := Stopped)],
       tasks := s.tasks - {k})
  }

  predicate Enabled(s: State, a: Action) {
    match a
    case Start(_) => true
    case Begin(id) => At(s, id, Queued) && s.jobs[id].due <= s.now
    case Stop(id) => At(s, id, Begun)
    case Handle(id, _) => At(s, id, Stopped)
    case Tick(to) => s.now <= to
  }

  function Next(s: State, a: Action): State {
    match a
    case Start(p) => StartOp(s, p)
    case Begin(id) => if id !in s.jobs then s else s.(jobs := s.jobs[id := s.jobs[id].(stage := Begun)])
    case Stop(id) => if id !in s.jobs then s else StopOp(s, id)
    case Handle(id, ok) =>
      if id !in s.jobs then s
      else s.(jobs := s.jobs - {id}, handled := s.handled + [s.jobs[id].pair],
              told := if ok then s.told + [s.jobs[id].pair] else s.told)
    case Tick(to) => s.(now := to)
  }

  predicate Legal(s: State, acts: seq<Action>)
    decreases |acts|
  {
    acts == [] || (Enabled(s, acts[0]) && Legal(Next(s, acts[0]), acts[1..]))
  }

  function Run(s: State, acts: seq<Action>): State
    decreases |acts|
  {
    if acts == [] then s else Run(Next(s, acts[0]), acts[1..])
  }

  // ---- The table holds a key exactly while one task for it is under way ----

  /** The task is for the key, and queued or begun without having passed StopTimer. */
  predicate UnderWay(s: State, id: nat, k: string) {
    id in s.jobs && s.jobs[id].stage != Stopped && Key(s.jobs[id].pair) == k
  }

  ghost predicate Inv(s: State) {
    && (forall id :: id in s.jobs ==> 1 <= id <= s.lastId)
    && (forall k :: k in s.tasks <==> exists id :: UnderWay(s, id, k))
    && (forall k :: k in s.tasks ==> s.tasks[k] <= s.lastId)
    && (forall k, i, j :: UnderWay(s, i, k) && UnderWay(s, j, k) ==> i == j)
    && (forall k, id :: UnderWay(s, id, k) && At(s, id, Queued) ==> s.tasks[k] == id)
    && (forall k :: k in s.tasks && At(s, s.tasks[k], Queued) ==> UnderWay(s, s.tasks[k], k))
  }

  lemma StartNewInv(s: State, p: Pair)
    requires Inv(s) && Key(p) !in s.tasks
    ensures var t := StartOp(s, p);
            && Inv(t)
            && forall id, k :: UnderWay(t, id, k) <==> UnderWay(s, id, k) || (id == t.lastId && k == Key(p))
  {
    hide Key;
    var t := StartOp(s, p);
    forall id, k ensures UnderWay(t, id, k) <==> UnderWay(s, id, k) || (id == t.lastId && k == Key(p)) {
    }
    assert UnderWay(t, t.lastId, Key(p));
    forall k ensures k in t.tasks <==> exists id :: UnderWay(t, id, k) {
      if k in s.tasks {
        var id :| UnderWay(s, id, k);
        assert UnderWay(t, id, k);
      }
    }
  }

  lemma StartAgainInv(s: State, p: Pair)
    requires Inv(s) && Key(p) in s.tasks
    ensures var t := StartOp(s, p);
            && Inv(t)
            && forall id, k :: UnderWay(t, id, k) <==> UnderWay(s, id, k)
  {
    hide Key;
    var t := StartOp(s, p);
    forall id, k ensures UnderWay(t, id, k) <==> UnderWay(s, id, k) {
    }
    forall k ensures k in t.tasks <==> exists id :: UnderWay(t, id, k) {
      if k in s.tasks {
        var id :| UnderWay(s, id, k);
        assert UnderWay(t, id, k);
      }
    }
  }

  lemma StartInv(s: State, p: Pair)
    requires Inv(s)
    ensures Inv(StartOp(s, p))
    ensures exists id :: UnderWay(StartOp(s, p), id, Key(p))
  {
    hide Key;
    if Key(p) in s.tasks {
      StartAgainInv(s, p);
      var id :| UnderWay(s, id, Key(p));
      assert UnderWay(StartOp(s, p), id, Key(p));
    } else {
      StartNewInv(s, p);
      assert UnderWay(StartOp(s, p), StartOp(s, p).lastId, Key(p));
    }
  }

  lemma BeginInv(s: State, id: nat)
    requires Inv(s) && At(s, id, Queued)
    ensures Inv(Next(s, Begin(id)))
    ensures forall i, k :: UnderWay(Next(s, Begin(id)), i, k) <==> UnderWay(s, i, k)
  {
    hide Key;
    var t := Next(s, Begin(id));
    forall i, k ensures UnderWay(t, i, k) <==> UnderWay(s, i, k) {
    }
  }

  /** StopTimer cancels nothing that is still to run. */
  lemma StopInv(s: State, id: nat)
    requires Inv(s) && At(s, id, Begun)
    ensures Inv(StopOp(s, id)) && StopOp(s, id).jobs == s.jobs[id := s.jobs[id].(stage := Stopped)]
    ensures forall i, k :: UnderWay(StopOp(s, id), i, k) <==> UnderWay(s, i, k) && i != id
  {
    hide Key;
    var t, key := StopOp(s, id), Key(s.jobs[id].pair);
    assert UnderWay(s, id, key);
    assert !At(s, s.tasks[key], Queued);
    forall i, k ensures UnderWay(t, i, k) <==> UnderWay(s, i, k) && i != id {
    }
    forall k ensures k in t.tasks <==> exists i :: UnderWay(t, i, k) {
      if k != key && k in s.tasks {
        var i :| UnderWay(s, i, k);
        assert UnderWay(t, i, k);
      }
    }
  }

  lemma HandleInv(s: State, id: nat, ok: bool)
    requires Inv(s) && At(s, id, Stopped)
    ensures Inv(Next(s, Handle(id, ok)))
    ensures forall i, k :: UnderWay(Next(s, Handle(id, ok)), i, k) <==> UnderWay(s, i, k)
  {
    hide Key;
    var t := Next(s, Handle(id, ok));
    forall i, k ensures UnderWay(t, i, k) <==> UnderWay(s, i, k) {
    }
  }

  lemma InvStep(s: State, a: Action)
    requires Inv(s) && Enabled(s, a)
    ensures Inv(Next(s, a))
  {
    hide Inv;
    match a
    case Start(p) => StartInv(s, p);
    case Begin(id) => BeginInv(s, id);
    case Stop(id) => StopInv(s, id);
    case Handle(id, ok) => HandleInv(s, id, ok);
    case Tick(to) => TickInv(s, to);
  }

  lemma TickInv(s: State, to: int)
    requires Inv(s)
    ensures Inv(s.(now := to))
  {
    assert forall i, k :: UnderWay(s.(now := to), i, k) <==> UnderWay(s, i, k);
  }

  /** In every reachable state the table holds a key exactly when exactly one task
      for it is queued or has begun without passing StopTimer. */
  lemma {:induction false} TableTracksTasks(s: State, acts: seq<Action>)
    requires Inv(s) && Legal(s, acts)
    ensures var t := Run(s, acts);
            && Inv(t)
            && forall k :: k in t.tasks <==> exists id :: UnderWay(t, id, k) && forall j :: UnderWay(t, j, k) ==> j == id
    decreases |acts|
  {
    hide Next, Enabled;
    if acts != [] {
      InvStep(s, acts[0]);
      TableTracksTasks(Next(s, acts[0]), acts[1..]);
    } else {
      forall k | k in s.tasks ensures exists id :: UnderWay(s, id, k) && forall j :: UnderWay(s, j, k) ==> j == id {
        var id :| UnderWay(s, id, k);
      }
    }
  }

  // ---- No change is lost ----

  /** Some task for the key has its HandleAssetChanges still ahead. */
  ghost predicate Coming(s: State, k: string) {
    exists id :: id in s.jobs && Key(s.jobs[id].pair) == k
  }

  /** A call for the key begins at or after entry n of the log. */
  ghost predicate HandledSince(s: State, k: string, n: nat) {
    exists j :: n <= j < |s.handled| && Key(s.handled[j]) == k
  }

  lemma OwedStep(s: State, a: Action, k: string, n: nat)
    requires Inv(s) && Enabled(s, a) && n <= |s.handled|
    requires Coming(s, k) || HandledSince(s, k, n)
    ensures Coming(Next(s, a), k) || HandledSince(Next(s, a), k, n)
    ensures n <= |Next(s, a).handled|
  {
    hide Key;
    var t := Next(s, a);
    if HandledSince(s, k, n) {
      var j :| n <= j < |s.handled| && Key(s.handled[j]) == k;
      assert t.handled[j] == s.handled[j];
    } else {
      var id :| id in s.jobs && Key(s.jobs[id].pair) == k;
      if a.Stop? {
        StopInv(s, a.id);
      }
      if a.Handle? && a.id == id {
        assert t.handled[|s.handled|] == s.jobs[id].pair;
      } else {
        assert id in t.jobs && t.jobs[id].pair == s.jobs[id].pair;
      }
    }
  }

  lemma {:induction false} OwedRun(s: State, acts: seq<Action>, k: string, n: nat)
    requires Inv(s) && Legal(s, acts) && n <= |s.handled|
    requires Coming(s, k) || HandledSince(s, k, n)
    ensures Coming(Run(s, acts), k) || HandledSince(Run(s, acts), k, n)
    decreases |acts|
  {
    hide Next, Enabled, Inv, Coming, HandledSince;
    if acts != [] {
      InvStep(s, acts[0]);
      OwedStep(s, acts[0], k, n);
      OwedRun(Next(s, acts[0]), acts[1..], k, n);
    }
  }

  /** The pair shares its key with no other pair. */
  ghost predicate OwnKey(p: Pair) {
    forall q :: Key(q) == Key(p) ==> q == p
  }

  /** The debounce loses no change: after StartTimer, also one whose Reset fails on
      a task that has just been dequeued, any run that leaves no task for the key has
      begun a HandleAssetChanges for it, for this very pair if no other has its key. */
  lemma DebounceLosesNothing(s: State, p: Pair, acts: seq<Action>)
    requires Inv(s) && Legal(Next(s, Start(p)), acts)
    ensures var t := Run(Next(s, Start(p)), acts);
            && (Coming(t, Key(p)) || HandledSince(t, Key(p), |s.handled|))
            && (OwnKey(p) && !Coming(t, Key(p)) ==> exists j :: |s.handled| <= j < |t.handled| && t.handled[j] == p)
  {
    var s1 := Next(s, Start(p));
    StartInv(s, p);
    var id :| UnderWay(s1, id, Key(p));
    assert Coming(s1, Key(p));
    OwedRun(s1, acts, Key(p), |s.handled|);
  }

  // ---- And it is answered in time ----

  ghost function LiveIds(jobs: map<nat, Job>): set<nat> {
    set id | id in jobs && jobs[id].stage != Stopped
  }

  ghost function QueuedIds(jobs: map<nat, Job>): set<nat> {
    set id | id in jobs && jobs[id].stage == Queued
  }

  ghost function WorkOf(jobs: map<nat, Job>): nat {
    |jobs.Keys| + |LiveIds(jobs)| + |QueuedIds(jobs)|
  }

  /** The steps that the tasks under way still have ahead of them: a queued one three, a
      begun one two, a stopped one one. */
  ghost function Work(s: State): nat {
    WorkOf(s.jobs)
  }

  lemma BegunWork(jobs: map<nat, Job>, id: nat)
    requires id in jobs && jobs[id].stage == Queued
    ensures WorkOf(jobs[id := jobs[id].(stage := Begun)]) == WorkOf(jobs) - 1
  {
    var after := jobs[id := jobs[id].(stage := Begun)];
    assert after.Keys == jobs.Keys && LiveIds(after) == LiveIds(jobs) && QueuedIds(after) == QueuedIds(jobs) - {id};
  }

  lemma StoppedWork(jobs: map<nat, Job>, id: nat)
    requires id in jobs && jobs[id].stage == Begun
    ensures WorkOf(jobs[id := jobs[id].(stage := Stopped)]) == WorkOf(jobs) - 1
  {
    var after := jobs[id := jobs[id].(stage := Stopped)];
    assert after.Keys == jobs.Keys && LiveIds(after) == LiveIds(jobs) - {id} && QueuedIds(after) == QueuedIds(jobs);
  }

  lemma HandledWork(jobs: map<nat, Job>, id: nat)
    requires id in jobs && jobs[id].stage == Stopped
    ensures WorkOf(jobs - {id}) == WorkOf(jobs) - 1
  {
    var after := jobs - {id};
    assert after.Keys == jobs.Keys - {id} && LiveIds(after) == LiveIds(jobs) && QueuedIds(after) == QueuedIds(jobs);
  }

  /** Time apart, every step but a StartTimer does one of them. */
  lemma WorkStep(s: State, a: Action)
    requires Inv(s) && Enabled(s, a) && !a.Start?
    ensures Work(Next(s, a)) == Work(s) - if a.Tick? then 0 else 1
  {
    hide Inv, Key, WorkOf;
    match a
    case Begin(id) => BegunWork(s.jobs, id);
    case Stop(id) =>
      StopInv(s, id);
      hide StopOp;
      StoppedWork(s.jobs, id);
    case Handle(id, _) => HandledWork(s.jobs, id);
    case Tick(_) =>
  }

  predicate NoStarts(acts: seq<Action>) {
    forall i :: 0 <= i < |acts| ==> !acts[i].Start?
  }

  /** The steps of a run, time apart. */
  function Steps(acts: seq<Action>): nat {
    if acts == [] then 0 else (if acts[0].Tick? then 0 else 1) + Steps(acts[1..])
  }

  lemma {:induction false} WorkRun(s: State, acts: seq<Action>)
    requires Inv(s) && Legal(s, acts) && NoStarts(acts)
    ensures Work(Run(s, acts)) + Steps(acts) == Work(s)
    decreases |acts|
  {
    hide Next, Enabled, Inv, Work;
    if acts != [] {
      InvStep(s, acts[0]);
      WorkStep(s, acts[0]);
      WorkRun(Next(s, acts[0]), acts[1..]);
    }
  }

  /** Some task can take its next step, now or when its time has come. */
  ghost predicate CanGoOn(t: State) {
    exists a: Action, to: int :: t.now <= to && !a.Start? && !a.Tick? && Enabled(t.(now := to), a)
  }

  /** After a StartTimer of a pair with its own key, a run without further StartTimer
      calls ends after a bounded number of steps, can always go on before, and when it
      ends has begun a HandleAssetChanges for the pair. */
  lemma AnsweredInTime(s: State, p: Pair, acts: seq<Action>)
    requires Inv(s) && Legal(Next(s, Start(p)), acts) && NoStarts(acts)
    ensures var s1 := Next(s, Start(p)); var t := Run(s1, acts);
            && Steps(acts) <= Work(s1)
            && (t.jobs != map[] <==> CanGoOn(t))
            && (t.jobs == map[] <==> Steps(acts) == Work(s1))
            && (t.jobs == map[] ==> HandledSince(t, Key(p), |s.handled|))
            && (t.jobs == map[] && OwnKey(p) ==> exists j :: |s.handled| <= j < |t.handled| && t.handled[j] == p)
  {
    assert Enabled(s, Start(p));
    hide Next, Run, Legal, Enabled, Inv, Work, HandledSince, CanGoOn;
    var s1 := Next(s, Start(p));
    var t := Run(s1, acts);
    InvStep(s, Start(p));
    TableTracksTasks(s1, acts);
    WorkRun(s1, acts);
    DebounceLosesNothing(s, p, acts);
    GoesOn(t);
    if t.jobs == map[] {
      assert !Coming(t, Key(p));
    }
  }

  lemma GoesOn(t: State)
    ensures t.jobs != map[] <==> CanGoOn(t)
    ensures t.jobs == map[] <==> Work(t) == 0
  {
    if t.jobs == map[] {
      assert LiveIds(t.jobs) == {} && QueuedIds(t.jobs) == {};
    } else {
      var id :| id in t.jobs;
      assert id in t.jobs.Keys;
      var to := if t.jobs[id].due > t.now then t.jobs[id].due else t.now;
      match t.jobs[id].stage
      case Queued => assert Enabled(t.(now := to), Begin(id));
      case Begun => assert Enabled(t.(now := to), Stop(id));
      case Stopped => assert Enabled(t.(now := to), Handle(id, true));
    }
  }

  // ---- And not too soon ----

  /** What StartTimer does. A key that is not in the table gets a task, due when the wait
      is over. A key whose task is still queued has it postponed to then. Otherwise the
      Reset has failed, and the table holds its answer. */
  lemma StartIs(s: State, p: Pair)
    requires Inv(s)
    ensures var t, k, later := StartOp(s, p), Key(p), s.now + 100;
            && t == s.(tasks := t.tasks, jobs := t.jobs, lastId := t.lastId) && t.tasks.Keys == s.tasks.Keys + {k}
            && (forall q :: q in s.tasks && q != k ==> t.tasks[q] == s.tasks[q])
            && if k !in s.tasks
               then t.tasks[k] == t.lastId == s.lastId + 1 && t.lastId !in s.jobs
                    && t.jobs == s.jobs[t.lastId := Job(p, Queued, later)]
               else if At(s, s.tasks[k], Queued)
               then t.tasks[k] == s.tasks[k] && t.lastId == s.lastId
                    && t.jobs == s.jobs[s.tasks[k] := Job(s.jobs[s.tasks[k]].pair, Queued, later)]
               else t.tasks[k] == INVALID_TASK_ID && t.lastId == s.lastId && t.jobs == s.jobs
  {
    hide Key;
  }

  /** What StopTimer does, in any state: what the table names is cancelled if still queued,
      the key is forgotten, and the task goes on to its HandleAssetChanges. */
  lemma StopIs(s: State, id: nat, i: nat)
    requires At(s, id, Begun) && INVALID_TASK_ID !in s.jobs
    ensures var t, k := StopOp(s, id), Key(s.jobs[id].pair);
            && t.tasks == s.tasks - {k} && t == s.(tasks := t.tasks, jobs := t.jobs)
            && At(t, id, Stopped) && t.jobs[id].pair == s.jobs[id].pair
            && (i != id ==> (i in t.jobs <==> i in s.jobs && !(k in s.tasks && s.tasks[k] == i && At(s, i, Queued))))
            && (i != id && i in t.jobs ==> t.jobs[i] == s.jobs[i])
  {
    hide Key;
  }

  /** A task tells the watcher of its pair exactly if the service took the changes. */
  lemma TellsIff(s: State, a: Action)
    requires Inv(s) && Enabled(s, a)
    ensures Next(s, a).told == s.told + (if a.Handle? && a.ok then [s.jobs[a.id].pair] else [])
    ensures Next(s, a).handled == s.handled + (if a.Handle? then [s.jobs[a.id].pair] else [])
  {
    hide Inv, Key;
  }

  /** Every queued task for the key is due at the given time or later. */
  ghost predicate DueFrom(s: State, k: string, time: int) {
    s.now + WAIT_INTERVAL >= time
    && forall id :: At(s, id, Queued) && Key(s.jobs[id].pair) == k ==> s.jobs[id].due >= time
  }

  lemma DueStep(s: State, a: Action, k: string, time: int)
    requires Inv(s) && Enabled(s, a) && DueFrom(s, k, time)
    ensures DueFrom(Next(s, a), k, time)
  {
    hide Key;
    match a
    case Start(p) =>
      StartIs(s, p);
      hide StartOp, Inv;
    case Stop(id) =>
      StopInv(s, id);
      hide StopOp, Inv;
    case _ => hide Inv;
  }

  lemma {:induction false} DueRun(s: State, acts: seq<Action>, k: string, time: int)
    requires Inv(s) && Legal(s, acts) && DueFrom(s, k, time)
    ensures DueFrom(Run(s, acts), k, time)
    decreases |acts|
  {
    hide Next, Enabled, Inv, DueFrom;
    if acts != [] {
      InvStep(s, acts[0]);
      DueStep(s, acts[0], k, time);
      DueRun(Next(s, acts[0]), acts[1..], k, time);
    }
  }

  /** The debounce waits: whatever follows a StartTimer, no task for its key begins before
      the wait that this call started is over. */
  lemma QuietPeriod(s: State, p: Pair, acts: seq<Action>, id: nat)
    requires Inv(s) && Legal(Next(s, Start(p)), acts)
    requires var t := Run(Next(s, Start(p)), acts);
             Enabled(t, Begin(id)) && Key(t.jobs[id].pair) == Key(p)
    ensures Run(Next(s, Start(p)), acts).now >= s.now + WAIT_INTERVAL
  {
    var s1 := Next(s, Start(p));
    InvStep(s, Start(p));
    StartedDue(s, p);
    hide Inv, Next, Run, Legal, Key;
    DueRun(s1, acts, Key(p), s.now + WAIT_INTERVAL);
  }

  lemma StartedDue(s: State, p: Pair)
    requires Inv(s)
    ensures DueFrom(StartOp(s, p), Key(p), s.now + WAIT_INTERVAL)
  {
    StartIs(s, p);
    hide StartOp, Key;
    var t := StartOp(s, p);
    forall id | At(t, id, Queued) && Key(t.jobs[id].pair) == Key(p) ensures t.jobs[id].due >= s.now + WAIT_INTERVAL {
      if id in s.jobs {
        assert UnderWay(s, id, Key(p));
      }
    }
  }

  // ---- A burst of changes is handled at most once a change ----

  ghost function JobsOf(s: State, k: string): set<nat> {
    set id | id in s.jobs && Key(s.jobs[id].pair) == k
  }

  function TimesHandled(log: seq<Pair>, k: string): nat {
    if log == [] then 0
    else TimesHandled(log[..|log| - 1], k) + if Key(log[|log| - 1]) == k then 1 else 0
  }

  function Starts(acts: seq<Action>, k: string): nat {
    if acts == [] then 0
    else (if acts[0].Start? && Key(acts[0].pair) == k then 1 else 0) + Starts(acts[1..], k)
  }

  lemma OneMoreHandled(log: seq<Pair>, p: Pair, k: string)
    ensures TimesHandled(log + [p], k) == TimesHandled(log, k) + if Key(p) == k then 1 else 0
  {
    assert (log + [p])[..|log|] == log;
  }

  /** Only starting and handling change which tasks there are for a key. */
  lemma SameJobs(s: State, a: Action, k: string)
    requires Inv(s) && Enabled(s, a) && !a.Start?
    ensures JobsOf(Next(s, a), k) == JobsOf(s, k) - if a.Handle? then {a.id} else {}
  {
    hide Key;
    if a.Stop? {
      StopInv(s, a.id);
      hide StopOp, Inv;
    }
  }

  lemma BurstStep(s: State, a: Action, k: string)
    requires Inv(s) && Enabled(s, a)
    ensures var t := Next(s, a);
            TimesHandled(t.handled, k) + |JobsOf(t, k)|
            <= TimesHandled(s.handled, k) + |JobsOf(s, k)| + Starts([a], k)
  {
    TellsIff(s, a);
    assert Starts([a], k) == if a.Start? && Key(a.pair) == k then 1 else 0;
    if a.Start? {
      StartedOne(s, a.pair, k);
      hide StartOp, JobsOf;
    } else {
      SameJobs(s, a, k);
      if a.Handle? {
        OneMoreHandled(s.handled, s.jobs[a.id].pair, k);
        assert a.id in JobsOf(s, k) <==> Key(s.jobs[a.id].pair) == k;
      }
      hide Next, JobsOf, Inv, Key, TimesHandled;
    }
  }

  lemma StartedOne(s: State, p: Pair, k: string)
    requires Inv(s)
    ensures |JobsOf(StartOp(s, p), k)| <= |JobsOf(s, k)| + if Key(p) == k then 1 else 0
  {
    hide Key;
    var t := StartOp(s, p);
    if Key(p) == k && Key(p) !in s.tasks {
      assert JobsOf(t, k) == JobsOf(s, k) + {t.lastId};
    } else {
      assert JobsOf(t, k) == JobsOf(s, k);
    }
  }

  /** Over every run, the HandleAssetChanges calls of a key made and still to come never
      outnumber its StartTimer calls. */
  lemma {:induction false} BurstsAreMerged(s: State, acts: seq<Action>, k: string)
    requires Inv(s) && Legal(s, acts)
    ensures var t := Run(s, acts);
            TimesHandled(t.handled, k) + |JobsOf(t, k)|
            <= TimesHandled(s.handled, k) + |JobsOf(s, k)| + Starts(acts, k)
    decreases |acts|
  {
    hide Next, Enabled, Inv, JobsOf, TimesHandled;
    if acts != [] {
      InvStep(s, acts[0]);
      BurstStep(s, acts[0], k);
      BurstsAreMerged(Next(s, acts[0]), acts[1..], k);
    }
  }

  lemma NeverMoreThanStarts(acts: seq<Action>, k: string)
    requires Legal(INIT, acts)
    ensures TimesHandled(Run(INIT, acts).handled, k) + |JobsOf(Run(INIT, acts), k)| <= Starts(acts, k)
  {
    BurstsAreMerged(INIT, acts, k);
    assert JobsOf(INIT, k) == {};
  }

  /** A separator inside either part can be read as the one between them. */
  lemma OtherSplit(p: Pair) returns (q: Pair)
    requires ASSET_SEPARATOR in p.session || ASSET_SEPARATOR in p.asset
    ensures Key(q) == Key(p) && |q.session| != |p.session|
  {
    if ASSET_SEPARATOR in p.session {
      var i :| 0 <= i < |p.session| && p.session[i] == ASSET_SEPARATOR;
      q := Pair(p.session[..i], p.session[i + 1..] + [ASSET_SEPARATOR] + p.asset);
      assert p.session == p.session[..i] + [ASSET_SEPARATOR] + p.session[i + 1..];
    } else {
      var i :| 0 <= i < |p.asset| && p.asset[i] == ASSET_SEPARATOR;
      q := Pair(p.session + [ASSET_SEPARATOR] + p.asset[..i], p.asset[i + 1..]);
      assert p.asset == p.asset[..i] + [ASSET_SEPARATOR] + p.asset[i + 1..];
    }
  }

  /** A pair has its key to itself exactly when neither part holds a separator. */
  lemma OwnKeyIff(p: Pair)
    ensures OwnKey(p) <==> ASSET_SEPARATOR !in p.session && ASSET_SEPARATOR !in p.asset
  {
    hide Key;
    if ASSET_SEPARATOR in p.session || ASSET_SEPARATOR in p.asset {
      var q := OtherSplit(p);
      assert Key(q) == Key(p) && q != p;
    } else {
      forall q | Key(q) == Key(p) ensures q == p {
        SplitUnique(p, q);
      }
    }
  }

  lemma SplitUnique(p: Pair, q: Pair)
    requires Key(q) == Key(p) && ASSET_SEPARATOR !in p.session && ASSET_SEPARATOR !in p.asset
    ensures q == p
  {
    var k, i, j := Key(p), |p.session|, |q.session|;
    assert k[i] == ASSET_SEPARATOR && k[j] == ASSET_SEPARATOR;
    assert forall x :: 0 <= x < i ==> k[x] == p.session[x];
    assert forall x :: i < x < |k| ==> k[x] == p.asset[x - i - 1];
    assert i == j;
    assert k[..i] == p.session && k[j + 1..] == q.asset && k[..j] == q.session && k[i + 1..] == p.asset;
  }

  /** In every run, each StartTimer of the pair is answered by a HandleAssetChanges of
      the pair that begins later, once no task for its key is left. */
  ghost predicate NeverLost(q: Pair) {
    forall before, after ::
      Legal(INIT, before) && Legal(Next(Run(INIT, before), Start(q)), after)
      && !Coming(Run(Next(Run(INIT, before), Start(q)), after), Key(q))
      ==> AnsweredAfter(Run(INIT, before), Run(Next(Run(INIT, before), Start(q)), after), q)
  }

  ghost predicate AnsweredAfter(s: State, t: State, q: Pair) {
    exists j :: |s.handled| <= j < |t.handled| && t.handled[j] == q
  }

  /** A pair's changes are never lost exactly when neither its session nor its asset
      key holds the separator: otherwise another pair's timer can absorb them. */
  lemma NeverLostIff(q: Pair)
    ensures NeverLost(q) <==> ASSET_SEPARATOR !in q.session && ASSET_SEPARATOR !in q.asset
  {
    OwnKeyIff(q);
    if OwnKey(q) {
      forall before, after |
        Legal(INIT, before) && Legal(Next(Run(INIT, before), Start(q)), after)
        && !Coming(Run(Next(Run(INIT, before), Start(q)), after), Key(q))
        ensures AnsweredAfter(Run(INIT, before), Run(Next(Run(INIT, before), Start(q)), after), q)
      {
        TableTracksTasks(INIT, before);
        DebounceLosesNothing(Run(INIT, before), q, after);
      }
    } else {
      var p :| Key(p) == Key(q) && p != q;
      var before, after, s1, t := SharedKeyRun(p, q);
      assert Run(Next(Run(INIT, before), Start(q)), after) == t;
    }
  }

  /** Two pairs with one key: the second pair's change is absorbed by the first
      pair's timer, and everything quiets down without its HandleAssetChanges. */
  lemma SharedKeyRun(p: Pair, q: Pair) returns (before: seq<Action>, after: seq<Action>, s1: State, t: State)
    requires p != q && Key(p) == Key(q)
    ensures Legal(INIT, before) && Run(INIT, before) == s1
    ensures Legal(Next(s1, Start(q)), after) && Run(Next(s1, Start(q)), after) == t
    ensures !Coming(t, Key(q)) && s1.handled == [] && t.handled == [p]
  {
    hide Key;
    before, after := [Start(p)], [Tick(100), Begin(1), Stop(1), Handle(1, true)];
    s1 := Next(INIT, Start(p));
    var s2 := Next(s1, Start(q));
    assert s2.jobs == map[1 := Job(p, Queued, 100)];
    var s3 := Next(s2, Tick(100));
    var s4 := Next(s3, Begin(1));
    assert s4.jobs == map[1 := Job(p, Begun, 100)] && s4.tasks == map[Key(p) := 1];
    var s5 := Next(s4, Stop(1));
    assert s5.jobs == map[1 := Job(p, Stopped, 100)];
    t := Next(s5, Handle(1, true));
    assert t.jobs == map[] && t.handled == [p];
    var a1, a2, a3 := after[1..], after[1..][1..], after[1..][1..][1..];
    assert a1 == [Begin(1), Stop(1), Handle(1, true)] && a2 == [Stop(1), Handle(1, true)] && a3 == [Handle(1, true)];
    assert Legal(s5, a3) && Run(s5, a3) == t;
    assert Legal(s4, a2) && Run(s4, a2) == t;
    assert Legal(s3, a1) && Run(s3, a1) == t;
  }

  /** What StopTimer finds: the key is in the table, and what it names is not queued. */
  lemma StopFinds(s: State, id: nat)
    requires Inv(s) && At(s, id, Begun)
    ensures var k := Key(s.jobs[id].pair);
            && k in s.tasks && !At(s, s.tasks[k], Queued)
            && StopOp(s, id) == s.(jobs := s.jobs[id := s.jobs[id].(stage := Stopped)], tasks := s.tasks - {k})
  {
    hide Key;
    StopInv(s, id);
    assert UnderWay(s, id, Key(s.jobs[id].pair));
  }

  // ---- The timer object ----

  datatype Timer = Timer(pair: Pair, due: int)

  /** The executor's timer queue. */
  class ExecutorPool {
    var queued: map<nat, Timer>
    var lastId: nat

    constructor ()
      ensures queued == map[] && lastId == INVALID_TASK_ID
    {
      queued, lastId := map[], INVALID_TASK_ID;
    }

    method Schedule(p: Pair, due: int) returns (id: nat)
      modifies this
      ensures id == lastId == old(lastId) + 1 && queued == old(queued)[id := Timer(p, due)]
    {
      lastId := lastId + 1;
      queued := queued[lastId := Timer(p, due)];
      id := lastId;
    }

    method Reset(id: nat, due: int) returns (result: nat)
      modifies this
      ensures lastId == old(lastId) && result == if id in old(queued) then id else INVALID_TASK_ID
      ensures queued == if id in old(queued) then old(queued)[id := old(queued)[id].(due := due)] else old(queued)
    {
      if id !in queued {
        return INVALID_TASK_ID;
      }
      queued := queued[id := queued[id].(due := due)];
      result := id;
    }

    method Remove(id: nat)
      modifies this
      ensures queued == old(queued) - {id} && lastId == old(lastId)
    {
      queued := queued - {id};
    }
  }

  class AssetChangeTimer {
    const executor: ExecutorPool
    var assetChangeTasks: map<string, nat>

    constructor ()
      ensures fresh(executor) && assetChangeTasks == map[]
      ensures executor.queued == map[] && executor.lastId == INVALID_TASK_ID
    {
      executor := new ExecutorPool();
      assetChangeTasks := map[];
    }

    /** The object shows the table and the timer queue of a state. */
    ghost predicate Shows(s: State)
      reads this, executor
    {
      && assetChangeTasks == s.tasks && executor.lastId == s.lastId
      && executor.queued == map id | id in s.jobs && s.jobs[id].stage == Queued :: Timer(s.jobs[id].pair, s.jobs[id].due)
    }

    method StartTimer(p: Pair, now: int, ghost s: State)
      requires Shows(s) && Inv(s) && now == s.now
      modifies this, executor
      ensures Shows(StartOp(s, p))
    {
      StartIs(s, p);
      hide Inv, Key, StartOp;
      var key := Key(p);
      if key !in assetChangeTasks {
        var id := executor.Schedule(p, now + WAIT_INTERVAL);
        assetChangeTasks := assetChangeTasks[key := id];
      } else {
        var id := executor.Reset(assetChangeTasks[key], now + WAIT_INTERVAL);
        assetChangeTasks := assetChangeTasks[key := id];
      }
    }

    method StopTimer(p: Pair, ghost s: State, ghost id: nat)
      requires Shows(s) && Inv(s) && At(s, id, Begun) && s.jobs[id].pair == p
      modifies this, executor
      ensures Shows(StopOp(s, id))
    {
      var key := Key(p);
      if key !in assetChangeTasks {
        assetChangeTasks := assetChangeTasks[key := INVALID_TASK_ID];
      }
      StopFinds(s, id);
      hide Inv, Key, StopOp;
      executor.Remove(assetChangeTasks[key]);
      assetChangeTasks := assetChangeTasks - {key};
    }
  }
}
