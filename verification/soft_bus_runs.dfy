/** Every interleaving of senders, shutdown callbacks, the scheduler's worker and
    its flushes, and the adapter's destructor. A flush holds the socket lock from
    its first device to its last; the cache lock is held per device. */
module SoftBusRuns {
  import opened Common
  import opened TaskQueue
  import opened SoftBus
  import opened SoftBusAdapter
  import R = SchedulerRuns
  import S = SchedulerSafety

  /** The flush the worker is executing, if it is executing one. */
  datatype Sweep = Idle | Begun | Sweeping(todo: set<Device>) | Swept

  /** The one SendData call in progress. */
  datatype Sender = Nobody | Cached(device: Device) | Connected(device: Device)

  /** `started`, `finished` and `cuts` are history: flushes that began and ended, and
      how often a device's socket was removed. */
  datatype State = State(sched: R.Sys, net: Net, sweep: Sweep, sender: Sender, torn: bool,
                         started: nat, finished: nat, cuts: map<Device, nat>)

  datatype Action =
    | SendCache(device: Device, data: Payload, copied: bool)
    | SendSocket(created: int)
    | SendExecute
    | ProbeSocket(device: Device, created: int)
    | ClientShutdown(socket: int)
    | Tick(to: int)
    | Worker
    | SweepLock
    | SweepDevice(device: Device)
    | SweepUnlock
    | TearDown
    | Release(order: seq<Device>)

  function Init(now: int): State {
    State(R.Init(TASK_CAPACITY_MAX, now), Net(map[], map[], 0, multiset{}, map[]), Idle, Nobody, false, 0, 0, map[])
  }

  predicate SocketLockFree(s: State) {
    !s.sweep.Sweeping?
  }

  function Cuts(s: State, d: Device): nat {
    if d in s.cuts then s.cuts[d] else 0
  }

  function Execute(s: State): R.Action {
    R.At(s.sched.now, FLUSH, INVALID_INTERVAL, UNLIMITED_TIMES)
  }

  predicate Enabled(s: State, a: Action) {
    match a
    case SendCache(_, _, _) => s.sender == Nobody && !s.torn
    case SendSocket(_) => s.sender.Cached? && !s.torn && SocketLockFree(s)
    case SendExecute => s.sender.Connected? && !s.torn && R.Enabled(s.sched, Execute(s))
    case ProbeSocket(_, _) => !s.torn && SocketLockFree(s)
    case ClientShutdown(_) => SocketLockFree(s)
    case Tick(to) => R.Enabled(s.sched, R.Tick(to))
    case Worker => R.Enabled(s.sched, R.Worker) && (s.sweep == Idle || s.sweep == Swept)
    case SweepLock => s.sweep == Begun
    case SweepDevice(d) => s.sweep.Sweeping? && d in s.sweep.todo
    case SweepUnlock => s.sweep.Sweeping? && s.sweep.todo == {}
    case TearDown => s.sender == Nobody && (s.torn ==> R.Enabled(s.sched, R.Destructor))
    case Release(order) =>
      s.torn && s.sched.mode == R.Exited && (set d | d in order) == s.net.caches.Keys
  }

  function CutsAfter(s: State, socket: int): map<Device, nat> {
    map d | d in s.cuts.Keys + s.net.sockets.Keys ::
      Cuts(s, d) + (if d in s.net.sockets && s.net.sockets[d] == socket then 1 else 0)
  }

  function Next(s: State, a: Action): State {
    match a
    case SendCache(d, data, copied) =>
      s.(net := CacheOp(s.net, d, data, copied), sender := if copied then Cached(d) else Nobody)
    case SendSocket(created) =>
      if !s.sender.Cached? then s
      else
        var (n, socket) := SocketOp(s.net, s.sender.device, created);
        s.(net := n, sender := if socket == INVALID_SOCKET then Nobody else Connected(s.sender.device))
    case SendExecute => s.(sched := R.Next(s.sched, Execute(s)), sender := Nobody)
    case ProbeSocket(d, created) => s.(net := SocketOp(s.net, d, created).0)
    case ClientShutdown(socket) => s.(net := ShutdownOp(s.net, socket), cuts := CutsAfter(s, socket))
    case Tick(to) => s.(sched := R.Next(s.sched, R.Tick(to)))
    case Worker =>
      var t := R.Next(s.sched, R.Worker);
      if s.sched.mode == R.Executing then
        s.(sched := t, sweep := Idle, finished := s.finished + (if s.sweep == Swept then 1 else 0))
      else if t.mode == R.Executing && t.q.running.exec == FLUSH then
        s.(sched := t, sweep := Begun, started := s.started + 1)
      else s.(sched := t)
    case SweepLock => s.(sweep := Sweeping(s.net.sockets.Keys))
    case SweepDevice(d) =>
      if !s.sweep.Sweeping? then s
      else s.(net := FlushOp(s.net, d), sweep := Sweeping(s.sweep.todo - {d}))
    case SweepUnlock => s.(sweep := Swept)
    case TearDown =>
      if !s.torn then s.(torn := true, sched := R.Next(s.sched, R.Clean))
      else s.(sched := R.Next(s.sched, R.Destructor))
    case Release(order) => s.(net := DrainAll(s.net, order, Discarded).(caches := map[], sockets := map[]))
  }

  predicate Legal(s: State, acts: seq<Action>)
    decreases |acts|
  {
    acts == [] || (Enabled(s, acts[0]) && Legal(Next(s, acts[0]), acts[1..]))
  }

  function Run(s: State, acts: seq<Action>): State
    decreases |acts|
  {
    if acts == [] then s else Run(Next(s, acts[0]), acts[1..])
  }

  lemma RunNil(s: State)
    ensures Legal(s, []) && Run(s, []) == s
  {
  }

  lemma RunCons(s: State, a: Action, rest: seq<Action>)
    requires Enabled(s, a) && Legal(Next(s, a), rest)
    ensures Legal(s, [a] + rest) && Run(s, [a] + rest) == Run(Next(s, a), rest)
  {
    hide Next, Enabled;
    assert ([a] + rest)[1..] == rest;
  }

  /** Every queued task is a one-shot flush that is due, or, once the queue is being
      destroyed, the destructor's empty task. */
  ghost predicate TasksOk(s: State) {
    && (forall e :: e in s.sched.q.tasks ==>
          && e.due <= s.sched.now && e.task.interval == INVALID_INTERVAL
          && (e.task.exec == FLUSH || s.sched.phase == R.Joining))
    && (s.sched.mode == R.Executing ==> s.sched.q.running.interval == INVALID_INTERVAL)
  }

  ghost predicate SweepOk(s: State) {
    && (s.sweep != Idle <==> s.sched.mode == R.Executing && s.sched.q.running.exec == FLUSH)
    && (s.sweep.Sweeping? ==> s.sweep.todo <= s.net.sockets.Keys)
    && s.started == s.finished + (if s.sweep == Idle then 0 else 1)
  }

  ghost predicate Inv(s: State) {
    && R.Core(s.sched) && S.Safe(s.sched) && s.sched.q.capacity == TASK_CAPACITY_MAX
    && TasksOk(s) && SweepOk(s) && NetOk(s.net)
    && (!s.torn ==> s.sched.phase == R.Alive)
  }

  // ---- Operations on the network state keep it in order ----

  lemma NetSocketOk(n: Net, d: Device, created: int)
    requires NetOk(n)
    ensures NetOk(SocketOp(n, d, created).0)
  {
    hide BuffersOk, DeviceOk;
    SameCachesOk(n, SocketOp(n, d, created).0);
  }

  lemma NetShutdownOk(n: Net, socket: int)
    requires NetOk(n)
    ensures NetOk(ShutdownOp(n, socket))
  {
    hide BuffersOk, DeviceOk;
    SameCachesOk(n, ShutdownOp(n, socket));
  }

  lemma SameCachesOk(n: Net, t: Net)
    requires NetOk(n) && SocketsOk(t) && t == n.(sockets := t.sockets)
    ensures NetOk(t)
  {
    forall d ensures DeviceOk(t, d) {
      assert DeviceOk(n, d);
    }
    assert forall d, i: nat, p: nat :: Owns(t, d, i, p) <==> Owns(n, d, i, p);
  }

  lemma NetFlushOk(n: Net, d: Device)
    requires NetOk(n)
    ensures var t := FlushOp(n, d);
            && NetOk(t) && t.sockets == n.sockets
            && (forall e :: Past(t, e).submitted == Past(n, e).submitted && |Past(t, e).fate| >= |Past(n, e).fate|)
            && (d in n.sockets ==> |Past(t, d).fate| == |Past(n, d).submitted|)
  {
    hide NetOk, Drain;
    DrainOk(n, d, Sent);
    assert forall e :: |Past(n, e).fate| <= |Past(n, e).submitted| by {
      forall e {
        DeviceSettled(n, e);
      }
    }
    if d in n.sockets {
      SocketPositive(n, d);
    }
  }

  /** A flush empties the caches of the devices that have a socket, handing over all of
      them in order, and leaves every other cache alone. */
  lemma {:induction false} FlushAllIs(n: Net, order: seq<Device>, d: Device)
    requires NetOk(n) && forall i, j :: 0 <= i < j < |order| ==> order[i] != order[j]
    ensures var t := FlushAll(n, order);
            && NetOk(t) && t.sockets == n.sockets
            && if d in order && d in n.sockets
               then Cache(t, d) == [] && Past(t, d).sent == Past(n, d).sent + Data(Cache(n, d))
               else Cache(t, d) == Cache(n, d) && Past(t, d) == Past(n, d)
  {
    hide NetOk, FlushOp;
    if order != [] {
      var k := |order| - 1;
      assert order == order[..k] + [order[k]];
      FlushAllIs(n, order[..k], d);
      FlushIs(FlushAll(n, order[..k]), order[k], d);
    }
  }

  lemma FlushIs(n: Net, e: Device, d: Device)
    requires NetOk(n)
    ensures var t := FlushOp(n, e);
            && NetOk(t) && t.sockets == n.sockets
            && if d == e && d in n.sockets
               then Cache(t, d) == [] && Past(t, d).sent == Past(n, d).sent + Data(Cache(n, d))
               else Cache(t, d) == Cache(n, d) && Past(t, d) == Past(n, d)
  {
    hide NetOk, Drain;
    DrainOk(n, e, Sent);
    if e in n.sockets {
      SocketPositive(n, e);
    }
  }

  lemma SocketPositive(n: Net, d: Device)
    requires NetOk(n) && d in n.sockets
    ensures n.sockets[d] > INVALID_SOCKET
  {
  }

  lemma {:induction false} DrainAllOk(n: Net, order: seq<Device>, fate: Fate)
    requires NetOk(n)
    ensures var t := DrainAll(n, order, fate);
            && NetOk(t) && t.sockets == n.sockets && t.next == n.next
            && (forall d :: d in order ==> Cache(t, d) == [])
            && (forall d :: Past(t, d).submitted == Past(n, d).submitted)
            && (forall d :: d !in order ==> Cache(t, d) == Cache(n, d))
  {
    hide NetOk, Drain;
    if order != [] {
      var k := |order| - 1;
      DrainAllOk(n, order[..k], fate);
      DrainOk(DrainAll(n, order[..k], fate), order[k], fate);
      assert order == order[..k] + [order[k]];
    }
  }

  /** After the destructor's loop, no buffer is left and each was deleted once. */
  lemma ReleaseOk(n: Net, order: seq<Device>)
    requires NetOk(n) && (set d | d in order) == n.caches.Keys
    ensures var t := DrainAll(n, order, Discarded).(caches := map[], sockets := map[]);
            NetOk(t) && forall p: nat :: t.freed[p] == if p < t.next then 1 else 0
  {
    DrainAllOk(n, order, Discarded);
    var a := DrainAll(n, order, Discarded);
    var t := a.(caches := map[], sockets := map[]);
    forall d ensures Cache(a, d) == [] {
      assert d in order <==> d in (set e | e in order);
    }
    forall d ensures DeviceOk(t, d) {
      assert DeviceOk(a, d);
    }
    assert forall d, i: nat, p: nat :: Owns(a, d, i, p) ==> i < |Cache(a, d)|;
  }

  // ---- The scheduler's tasks ----

  lemma SubmitTasks(s: State, now: int, exec: nat)
    requires Inv(s) && s.sched.issued < UNLIMITED_TIMES && now <= s.sched.now
    ensures var t := R.Submit(s.sched, now, exec, INVALID_INTERVAL, UNLIMITED_TIMES);
            && t.q.running == s.sched.q.running && (t.mode == R.Executing <==> s.sched.mode == R.Executing)
            && t.now == s.sched.now && t.phase == s.sched.phase
            && (forall e :: e in t.q.tasks ==>
                  || e in s.sched.q.tasks
                  || (e.due == now && e.task.interval == INVALID_INTERVAL && e.task.exec == exec))
            && t.q.tasks != []
  {
    hide UpperBound, Insert;
    R.AtBag(s.sched, now, exec, INVALID_INTERVAL, UNLIMITED_TIMES);
    var t := R.Submit(s.sched, now, exec, INVALID_INTERVAL, UNLIMITED_TIMES);
    forall x | x in t.q.tasks ensures x in s.sched.q.tasks
        || (x.due == now && x.task.interval == INVALID_INTERVAL && x.task.exec == exec) {
      assert x in Bag(t.q.tasks);
    }
  }

  lemma WorkerInv(s: State)
    requires Inv(s) && Enabled(s, Worker)
    ensures Inv(Next(s, Worker))
  {
    hide UpperBound, Insert, NetOk, S.Safe, WellFormed;
    R.CoreStep(s.sched, R.Worker);
    S.SafeStep(s.sched, R.Worker);
    S.CapacityStep(s.sched, R.Worker);
    var t := R.Next(s.sched, R.Worker);
    if s.sched.mode == R.Executing {
      FinishBag(s.sched.q, s.sched.now);
    } else if t.mode == R.Executing {
      assert s.sched.q.tasks[0] in s.sched.q.tasks;
      assert s.sched.q.tasks == [s.sched.q.tasks[0]] + t.q.tasks;
    }
  }

  lemma ExecuteInv(s: State)
    requires Inv(s) && Enabled(s, SendExecute)
    ensures Inv(Next(s, SendExecute))
  {
    hide UpperBound, Insert, NetOk, S.Safe, AtOp;
    R.CoreStep(s.sched, Execute(s));
    S.SafeStep(s.sched, Execute(s));
    S.CapacityStep(s.sched, Execute(s));
    SubmitTasks(s, s.sched.now, FLUSH);
  }

  lemma TearDownInv(s: State)
    requires Inv(s) && Enabled(s, TearDown)
    ensures Inv(Next(s, TearDown))
  {
    hide UpperBound, Insert, NetOk, S.Safe, AtOp;
    var a := if s.torn then R.Destructor else R.Clean;
    R.CoreStep(s.sched, a);
    S.SafeStep(s.sched, a);
    S.CapacityStep(s.sched, a);
    if s.torn && s.sched.phase == R.Cleaned {
      SubmitTasks(s, s.sched.now, R.NOOP);
    }
  }

  lemma InvStep(s: State, a: Action)
    requires Inv(s) && Enabled(s, a)
    ensures Inv(Next(s, a))
  {
    hide NetOk, S.Safe, R.Core;
    match a
    case SendCache(d, data, copied) => CacheOk(s.net, d, data, copied); CacheSockets(s.net, d, data, copied);
    case SendSocket(created) => NetSocketOk(s.net, s.sender.device, created);
    case SendExecute => ExecuteInv(s);
    case ProbeSocket(d, created) => NetSocketOk(s.net, d, created);
    case ClientShutdown(socket) => NetShutdownOk(s.net, socket);
    case Tick(to) =>
      R.CoreStep(s.sched, R.Tick(to));
      S.SafeStep(s.sched, R.Tick(to));
    case Worker => WorkerInv(s);
    case SweepLock =>
    case SweepDevice(d) => NetFlushOk(s.net, d);
    case SweepUnlock =>
    case TearDown => TearDownInv(s);
    case Release(order) => ReleaseOk(s.net, order);
  }

  lemma CacheSockets(n: Net, d: Device, data: Payload, copied: bool)
    ensures CacheOp(n, d, data, copied).sockets == n.sockets
  {
  }

  lemma {:induction false} AlwaysInv(s: State, acts: seq<Action>)
    requires Inv(s) && Legal(s, acts)
    ensures Inv(Run(s, acts))
    decreases |acts|
  {
    hide Next, Enabled, Inv;
    if acts != [] {
      InvStep(s, acts[0]);
      AlwaysInv(Next(s, acts[0]), acts[1..]);
    }
  }

  lemma InitInv(now: int)
    ensures Inv(Init(now))
  {
  }

  /** The payloads that a run's senders had copied for a device, in order. */
  function SentTo(acts: seq<Action>, d: Device): seq<Payload> {
    if acts == [] then []
    else
      (if acts[0].SendCache? && acts[0].device == d && acts[0].copied then [acts[0].data] else [])
      + SentTo(acts[1..], d)
  }

  lemma SubmittedStep(s: State, a: Action, d: Device)
    requires Inv(s) && Enabled(s, a)
    ensures Past(Next(s, a).net, d).submitted == Past(s.net, d).submitted + SentTo([a], d)
  {
    hide NetOk, S.Safe, R.Core, CacheOp, FlushOp, DrainAll, R.Next;
    assert [a][1..] == [];
    match a
    case SendCache(e, data, copied) => CacheIs(s.net, e, data, copied);
    case SweepDevice(e) => NetFlushOk(s.net, e);
    case Release(order) => DrainAllOk(s.net, order, Discarded);
    case _ =>
  }

  /** What is on record as submitted is what the senders sent. */
  lemma {:induction false} SubmittedRun(s: State, acts: seq<Action>, d: Device)
    requires Inv(s) && Legal(s, acts)
    ensures Past(Run(s, acts).net, d).submitted == Past(s.net, d).submitted + SentTo(acts, d)
    decreases |acts|
  {
    hide Next, Enabled, Inv, Past;
    if acts != [] {
      InvStep(s, acts[0]);
      SubmittedStep(s, acts[0], d);
      SubmittedRun(Next(s, acts[0]), acts[1..], d);
      assert [acts[0]][1..] == [] && SentTo(acts, d) == SentTo([acts[0]], d) + SentTo(acts[1..], d);
      Regrouped(Past(s.net, d).submitted, SentTo([acts[0]], d), SentTo(acts[1..], d));
    }
  }

  lemma InvConserves(s: State, d: Device)
    requires Inv(s)
    ensures var h := Past(s.net, d);
            && |h.fate| <= |h.submitted| && Survivors(h.submitted, h.fate) == h.sent + Data(Cache(s.net, d))
            && |Cache(s.net, d)| <= CACHE_LIMIT && BuffersOk(s.net)
  {
    hide R.Core, S.Safe;
    Conserves(s.net, d);
    assert DeviceOk(s.net, d);
  }

  /** In every run and for every device: what was sent to it and not lost to eviction
      is what SendBytes was given followed by the cache, in order; the cache is
      bounded; and every buffer is owned once or was deleted once. */
  lemma ReachableConserves(now: int, acts: seq<Action>, d: Device)
    requires Legal(Init(now), acts)
    ensures var n := Run(Init(now), acts).net;
            var h := Past(n, d);
            && h.submitted == SentTo(acts, d) && |h.fate| <= |SentTo(acts, d)|
            && Survivors(SentTo(acts, d), h.fate) == h.sent + Data(Cache(n, d))
            && |Cache(n, d)| <= CACHE_LIMIT
            && BuffersOk(n)
  {
    InitInv(now);
    assert Past(Init(now).net, d).submitted == [];
    hide Run, Legal, Inv, Init, Past, NetOk, BuffersOk, Survivors, SentTo;
    AlwaysInv(Init(now), acts);
    SubmittedRun(Init(now), acts, d);
    assert [] + SentTo(acts, d) == SentTo(acts, d);
    InvConserves(Run(Init(now), acts), d);
  }

  /** A device is counted as cut exactly when it leaves the socket table, which before the
      destructor releases it only a shutdown of its socket brings about. */
  lemma CutsIs(s: State, a: Action, d: Device)
    requires Inv(s) && Enabled(s, a) && !a.Release?
    ensures var t := Next(s, a);
            && Cuts(t, d) == Cuts(s, d) + (if d in s.net.sockets && d !in t.net.sockets then 1 else 0)
            && (d in s.net.sockets && d !in t.net.sockets <==>
                  a.ClientShutdown? && d in s.net.sockets && s.net.sockets[d] == a.socket)
  {
    hide NetOk, S.Safe, R.Core, CacheOp, FlushOp, DrainAll, R.Next;
    match a
    case SendCache(e, data, copied) => CacheIs(s.net, e, data, copied);
    case SweepDevice(e) => NetFlushOk(s.net, e);
    case _ =>
  }

  // ---- A successful SendData is covered by a flush ----

  /** A flush is queued, has not started, and is due. */
  ghost predicate FlushQueued(s: State) {
    && s.sched.q.tasks != []
    && forall e :: e in s.sched.q.tasks ==> e.task.exec == FLUSH && e.due <= s.sched.now
  }

  /** When Execute returns, whether it took the task or refused it for a full queue,
      a flush is queued that has not started. */
  lemma SuccessIsCovered(s: State)
    requires Inv(s) && Enabled(s, SendExecute)
    ensures FlushQueued(Next(s, SendExecute)) && Next(s, SendExecute).started == s.started
  {
    hide NetOk, S.Safe;
    SubmitTasks(s, s.sched.now, FLUSH);
    ExecuteInv(s);
  }

  /** Worker steps until a queued flush starts. */
  function StartRank(m: R.Mode): nat {
    match m
    case Executing => 3
    case ParkedUntil(_, _) => 3
    case Top => 2
    case Entering => 1
    case ParkedEmpty(_) => 1
    case Exited => 0
  }

  /** With a flush queued the worker is not asleep for good, and each of its steps
      starts a flush or brings the start nearer; no other step sets it back. */
  lemma FlushQueuedStep(s: State, a: Action)
    requires Inv(s) && Enabled(s, a) && !s.torn && a != TearDown && FlushQueued(s)
    ensures !S.Stuck(s.sched) && s.sched.mode != R.Exited && s.started <= Next(s, a).started
    ensures Next(s, a).started > s.started
            || (FlushQueued(Next(s, a)) && !Next(s, a).torn
                && StartRank(Next(s, a).sched.mode) + (if a == Worker then 1 else 0) <= StartRank(s.sched.mode))
  {
    hide NetOk, UpperBound, Insert, AtOp, WellFormed;
    assert s.sched.q.tasks[0] in s.sched.q.tasks;
    match a
    case SendExecute =>
      SubmitTasks(s, s.sched.now, FLUSH);
      hide S.Safe;
    case Worker =>
      if s.sched.mode == R.Executing {
        FinishBag(s.sched.q, s.sched.now);
      }
    case _ =>
  }

  function WorkerSteps(acts: seq<Action>): nat {
    if acts == [] then 0 else (if acts[0] == Worker then 1 else 0) + WorkerSteps(acts[1..])
  }

  /** Short of destruction, a queued flush starts within four steps of the worker. */
  lemma {:induction false} QueuedFlushStarts(s: State, acts: seq<Action>)
    requires Inv(s) && !s.torn && FlushQueued(s) && Legal(s, acts) && TearDown !in acts
    ensures s.started < Run(s, acts).started
            || (s.started == Run(s, acts).started && WorkerSteps(acts) <= StartRank(s.sched.mode) <= 3)
    decreases |acts|
  {
    hide Next, Enabled, Inv, FlushQueued;
    if acts != [] {
      InvStep(s, acts[0]);
      FlushQueuedStep(s, acts[0]);
      if Next(s, acts[0]).started > s.started {
        StartedGrows(Next(s, acts[0]), acts[1..]);
      } else {
        QueuedFlushStarts(Next(s, acts[0]), acts[1..]);
      }
    }
  }

  lemma StartedStep(s: State, a: Action)
    ensures s.started <= Next(s, a).started
  {
  }

  lemma {:induction false} StartedGrows(s: State, acts: seq<Action>)
    requires Legal(s, acts)
    ensures s.started <= Run(s, acts).started
    decreases |acts|
  {
    hide Next, Enabled;
    if acts != [] {
      StartedStep(s, acts[0]);
      StartedGrows(Next(s, acts[0]), acts[1..]);
    }
  }

  // ---- Once a later flush has finished, the message has left the cache ----

  /** Message i of the device has left the cache, or the device lost its socket more
      than c times, or no flush after the k-th has got past the device. */
  ghost predicate Pending(s: State, d: Device, i: nat, c: nat, k: nat) {
    || i < |Past(s.net, d).fate|
    || c < Cuts(s, d)
    || (&& d in s.net.sockets && c == Cuts(s, d) && s.finished <= k && i < |Past(s.net, d).submitted|
        && (s.started > k && s.sweep != Idle ==>
              s.sweep == Begun || (s.sweep.Sweeping? && d in s.sweep.todo)))
  }

  lemma PendingStep(s: State, a: Action, d: Device, i: nat, c: nat, k: nat)
    requires Inv(s) && Enabled(s, a) && Pending(s, d, i, c, k) && i < |Past(s.net, d).submitted|
    ensures Pending(Next(s, a), d, i, c, k) && i < |Past(Next(s, a).net, d).submitted|
  {
    hide NetOk, S.Safe, R.Core, TasksOk, CacheOp, FlushOp, DrainAll, R.Next;
    match a
    case SendCache(e, data, copied) => CacheFrame(s.net, e, data, copied, d);
    case SweepDevice(e) => NetFlushOk(s.net, e);
    case Release(order) =>
      DrainAllOk(s.net, order, Discarded);
      ReleaseSettles(s.net, order, d);
    case _ =>
  }

  lemma CacheFrame(n: Net, e: Device, data: Payload, copied: bool, d: Device)
    requires NetOk(n)
    ensures var t := CacheOp(n, e, data, copied);
            && t.sockets == n.sockets
            && |Past(t, d).fate| >= |Past(n, d).fate| && |Past(t, d).submitted| >= |Past(n, d).submitted|
  {
  }

  lemma ReleaseSettles(n: Net, order: seq<Device>, d: Device)
    requires NetOk(n) && (set e | e in order) == n.caches.Keys
    ensures |Past(DrainAll(n, order, Discarded), d).fate| == |Past(n, d).submitted|
  {
    hide NetOk;
    DrainAllOk(n, order, Discarded);
    DeviceSettled(DrainAll(n, order, Discarded), d);
    assert d in order <==> d in (set e | e in order);
  }

  lemma {:induction false} PendingRun(s: State, acts: seq<Action>, d: Device, i: nat, c: nat, k: nat)
    requires Inv(s) && Legal(s, acts) && Pending(s, d, i, c, k) && i < |Past(s.net, d).submitted|
    ensures Pending(Run(s, acts), d, i, c, k)
    decreases |acts|
  {
    hide Next, Enabled, Inv, Pending, Past;
    if acts != [] {
      InvStep(s, acts[0]);
      PendingStep(s, acts[0], d, i, c, k);
      PendingRun(Next(s, acts[0]), acts[1..], d, i, c, k);
    }
  }

  /** A SendData call from its GetSocket on, with anything interleaved: when its
      Execute returns a flush is queued, and once a flush that starts after that has
      finished, the message (like all cached before it) has left the device's cache,
      unless the device's socket was shut down in between. */
  lemma SendDataDelivers(s: State, created: int, before: seq<Action>, after: seq<Action>, d: Device, i: nat)
    requires Inv(s) && s.sender == Cached(d) && Enabled(s, SendSocket(created)) && i < |Past(s.net, d).submitted|
    requires var s1 := Next(s, SendSocket(created));
             && s1.sender == Connected(d) && Legal(s1, before) && Enabled(Run(s1, before), SendExecute)
             && Legal(Next(Run(s1, before), SendExecute), after)
    ensures var s3 := Next(Run(Next(s, SendSocket(created)), before), SendExecute);
            var t := Run(s3, after);
            && FlushQueued(s3)
            && (t.finished > s3.started ==> i < |Past(t.net, d).fate| || Cuts(t, d) > Cuts(s, d))
  {
    hide Next, Run, Legal, Enabled, Inv, Pending;
    var s1 := Next(s, SendSocket(created));
    var s2 := Run(s1, before);
    var s3 := Next(s2, SendExecute);
    var k, c := s3.started, Cuts(s, d);
    InvStep(s, SendSocket(created));
    AlwaysInv(s1, before);
    SuccessIsCovered(s2);
    StartedGrows(s1, before);
    ConnectedPending(s, created, d, i, k);
    PendingRun(s1, before, d, i, c, k);
    SubmittedRun(s1, before, d);
    PendingStep(s2, SendExecute, d, i, c, k);
    InvStep(s2, SendExecute);
    PendingRun(s3, after, d, i, c, k);
    if Run(s3, after).finished > k {
      PendingMeans(Run(s3, after), d, i, c, k);
    }
  }

  lemma PendingMeans(s: State, d: Device, i: nat, c: nat, k: nat)
    requires Pending(s, d, i, c, k) && s.finished > k
    ensures i < |Past(s.net, d).fate| || c < Cuts(s, d)
  {
  }

  lemma ConnectedPending(s: State, created: int, d: Device, i: nat, k: nat)
    requires Inv(s) && s.sender == Cached(d) && i < |Past(s.net, d).submitted|
    requires var s1 := Next(s, SendSocket(created)); s1.sender == Connected(d) && s1.started <= k
    ensures var s1 := Next(s, SendSocket(created));
            Pending(s1, d, i, Cuts(s, d), k) && i < |Past(s1.net, d).submitted|
  {
    hide NetOk, S.Safe, R.Core, TasksOk;
  }
}
