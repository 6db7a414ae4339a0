/** Whether what is cached will be sent: a device with a socket and a non-empty cache
    is covered by a flush to come, until a probe opens its socket and queues none. */
module SoftBusCover {
  import opened TaskQueue
  import opened SoftBus
  import opened SoftBusAdapter
  import opened SoftBusRuns
  import R = SchedulerRuns
  import S = SchedulerSafety

  /** A call for the device, or any call that has its socket, is on its way to Execute; a
      flush is queued; or the one that has begun has the device ahead. */
  ghost predicate FlushComing(s: State, d: Device) {
    || s.sender == Cached(d) || s.sender.Connected?
    || FlushQueued(s)
    || s.sweep == Begun || (s.sweep.Sweeping? && d in s.sweep.todo)
  }

  ghost predicate CoveredAt(s: State, d: Device) {
    d in s.net.sockets && Cache(s.net, d) != [] ==> FlushComing(s, d)
  }

  ghost predicate Covered(s: State) {
    forall d :: CoveredAt(s, d)
  }

  /** A probe that opens the first socket of a device with cached messages while no
      flush is coming for it. */
  ghost predicate Strands(s: State, a: Action) {
    && a.ProbeSocket? && a.device !in s.net.sockets && a.created > INVALID_SOCKET
    && Cache(s.net, a.device) != [] && !FlushComing(s, a.device)
  }

  lemma OtherCaches(s: State, a: Action, d: Device)
    requires Inv(s) && Enabled(s, a) && (a.SendCache? || a.SweepDevice?)
    ensures Next(s, a).net.sockets == s.net.sockets && Next(s, a).sched == s.sched
    ensures a.device != d || (a.SendCache? && !a.copied) ==> Cache(Next(s, a).net, d) == Cache(s.net, d)
    ensures a.SweepDevice? && a.device == d && d in s.net.sockets ==> Cache(Next(s, a).net, d) == []
  {
    hide NetOk, S.Safe, R.Core, Drain;
    if a.SweepDevice? {
      DrainOk(s.net, a.device, Sent);
      if a.device in s.net.sockets {
        SocketPositive(s.net, a.device);
      }
    }
  }

  lemma WorkerCovers(s: State, d: Device)
    requires Inv(s) && Enabled(s, Worker) && !s.torn && CoveredAt(s, d)
    ensures CoveredAt(Next(s, Worker), d)
  {
    hide NetOk, S.Safe, UpperBound, Insert;
    if s.sched.mode == R.Executing {
      FinishBag(s.sched.q, s.sched.now);
    } else if R.Next(s.sched, R.Worker).mode == R.Executing {
      assert s.sched.q.tasks[0] in s.sched.q.tasks;
    }
  }

  /** Short of destruction, a step leaves everything covered if and only if it is not
      such a probe. */
  lemma CoveredStep(s: State, a: Action)
    requires Inv(s) && Enabled(s, a) && !s.torn && a != TearDown && Covered(s)
    ensures Covered(Next(s, a)) <==> !Strands(s, a)
  {
    hide Covered, NetOk, S.Safe, R.Core, Drain, DrainAll, AtOp;
    if Strands(s, a) {
      assert !CoveredAt(Next(s, a), a.device);
      Uncovered(Next(s, a), a.device);
    } else {
      forall d ensures CoveredAt(Next(s, a), d) {
        CoveredEach(s, d);
        match a
        case SendCache(_, _, _) => OtherCaches(s, a, d);
        case SendExecute => SuccessIsCovered(s);
        case Worker => WorkerCovers(s, d);
        case SweepDevice(_) => OtherCaches(s, a, d);
        case SendSocket(_) => if s.sender.device in s.net.sockets { SocketPositive(s.net, s.sender.device); }
        case _ =>
      }
      AllCovered(Next(s, a));
    }
  }

  lemma CoveredEach(s: State, d: Device)
    requires Covered(s)
    ensures CoveredAt(s, d)
  {
  }

  lemma AllCovered(s: State)
    requires forall d :: CoveredAt(s, d)
    ensures Covered(s)
  {
  }

  lemma Uncovered(s: State, d: Device)
    requires !CoveredAt(s, d)
    ensures !Covered(s)
  {
  }

  // ---- Over whole runs ----

  /** No action of the run strands a message. */
  ghost predicate StrandsNone(s: State, acts: seq<Action>)
    decreases |acts|
  {
    acts == [] || (!Strands(s, acts[0]) && StrandsNone(Next(s, acts[0]), acts[1..]))
  }

  ghost predicate AlwaysCovered(s: State, acts: seq<Action>) {
    forall k: nat :: k <= |acts| ==> Covered(Run(s, acts[..k]))
  }

  /** Everything is covered at every moment of a run if and only if no probe strands. */
  lemma {:induction false} AlwaysCoveredIff(s: State, acts: seq<Action>)
    requires Inv(s) && !s.torn && Covered(s) && Legal(s, acts) && TearDown !in acts
    ensures AlwaysCovered(s, acts) <==> StrandsNone(s, acts)
    decreases |acts|
  {
    hide Next, Enabled, Inv, Covered, Strands;
    if acts == [] {
      assert forall k: nat :: k <= 0 ==> acts[..k] == [];
    } else {
      var next, rest := Next(s, acts[0]), acts[1..];
      InvStep(s, acts[0]);
      CoveredStep(s, acts[0]);
      NotTorn(s, acts[0]);
      AlwaysShifted(s, acts);
      if Covered(next) {
        AlwaysCoveredIff(next, rest);
      } else {
        assert Run(next, rest[..0]) == next;
      }
    }
  }

  lemma NotTorn(s: State, a: Action)
    requires !s.torn && a != TearDown
    ensures !Next(s, a).torn
  {
    hide CacheOp, SocketOp, FlushOp, DrainAll, R.Next;
  }

  lemma AlwaysShifted(s: State, acts: seq<Action>)
    requires Covered(s) && acts != []
    ensures AlwaysCovered(s, acts) <==> AlwaysCovered(Next(s, acts[0]), acts[1..])
  {
    hide Next, Covered;
    var next, rest := Next(s, acts[0]), acts[1..];
    assert Run(s, acts[..0]) == s;
    forall k: nat | k <= |rest| ensures Run(s, acts[..k + 1]) == Run(next, rest[..k]) {
      assert acts[..k + 1][1..] == rest[..k];
    }
    if AlwaysCovered(next, rest) {
      forall k: nat | k <= |acts| ensures Covered(Run(s, acts[..k])) {
        if k > 0 {
          assert Covered(Run(next, rest[..k - 1]));
        }
      }
    }
  }

  /** From the start, and short of destruction: every device with a socket and cached
      messages has a flush coming throughout, unless some probe strands. */
  lemma ReachableCoveredIff(now: int, acts: seq<Action>)
    requires Legal(Init(now), acts) && TearDown !in acts
    ensures AlwaysCovered(Init(now), acts) <==> StrandsNone(Init(now), acts)
  {
    InitInv(now);
    AlwaysCoveredIff(Init(now), acts);
  }

  // ---- A stranded message ----

  lemma CachedFirst(now: int, d: Device, data: Payload) returns (s: State)
    ensures var a := SendCache(d, data, true); Enabled(Init(now), a) && Next(Init(now), a) == s
    ensures s == Init(now).(sender := Cached(d), net := s.net)
    ensures s.net.caches == map[d := [Msg(0, data)]] && s.net.sockets == map[]
  {
    s := Next(Init(now), SendCache(d, data, true));
    assert Cache(Init(now).net, d) + [Msg(0, data)] == [Msg(0, data)];
  }

  lemma ProbedThen(s: State, d: Device, data: Payload, socket: int) returns (s1: State, t: State)
    requires socket > INVALID_SOCKET && s.sender == Cached(d) && s.sweep == Idle && !s.torn
    requires s.sched.q.tasks == [] && s.sched.mode != R.Executing
    requires s.net.caches == map[d := [Msg(0, data)]] && s.net.sockets == map[]
    ensures Enabled(s, SendSocket(INVALID_SOCKET)) && Next(s, SendSocket(INVALID_SOCKET)) == s1
    ensures Enabled(s1, ProbeSocket(d, socket)) && Next(s1, ProbeSocket(d, socket)) == t
    ensures Stranded(t, d) && Data(Cache(t.net, d)) == [data] && !CoveredAt(t, d)
  {
    s1 := Next(s, SendSocket(INVALID_SOCKET));
    t := Next(s1, ProbeSocket(d, socket));
  }

  /** A send that finds no socket leaves its message cached; a probe then opens one. */
  lemma StrandedRun(now: int, d: Device, data: Payload, socket: int) returns (acts: seq<Action>, t: State)
    requires socket > INVALID_SOCKET
    ensures Legal(Init(now), acts) && Run(Init(now), acts) == t && TearDown !in acts && Stranded(t, d)
    ensures Data(Cache(t.net, d)) == [data] && !CoveredAt(t, d)
  {
    hide Legal, Run, Next, Enabled, Stranded, CoveredAt, Cache, Data;
    var a0, a1, a2 := SendCache(d, data, true), SendSocket(INVALID_SOCKET), ProbeSocket(d, socket);
    var s1 := CachedFirst(now, d, data);
    var s2;
    s2, t := ProbedThen(s1, d, data, socket);
    RunNil(t);
    RunCons(s2, a2, []);
    RunCons(s1, a1, [a2] + []);
    RunCons(Init(now), a0, [a1] + ([a2] + []));
    acts := [a0] + ([a1] + ([a2] + []));
  }

  /** Something is cached for the device, and no flush is queued or under way. */
  ghost predicate Stranded(s: State, d: Device) {
    !s.torn && Cache(s.net, d) != [] && s.sched.q.tasks == [] && s.sweep == Idle && s.sched.mode != R.Executing
  }

  /** It stays, and nothing is handed to SendBytes for the device, on every continuation
      in which no call reaches Execute. */
  lemma {:induction false} StaysStranded(s: State, acts: seq<Action>, d: Device)
    requires Inv(s) && Stranded(s, d) && Legal(s, acts) && TearDown !in acts && SendExecute !in acts
    ensures Stranded(Run(s, acts), d) && Past(Run(s, acts).net, d).sent == Past(s.net, d).sent
    decreases |acts|
  {
    hide Next, Enabled, Inv, Stranded;
    if acts != [] {
      InvStep(s, acts[0]);
      StrandedStep(s, acts[0], d);
      StaysStranded(Next(s, acts[0]), acts[1..], d);
    }
  }

  lemma StrandedStep(s: State, a: Action, d: Device)
    requires Inv(s) && Stranded(s, d) && Enabled(s, a) && a != TearDown && a != SendExecute
    ensures Stranded(Next(s, a), d) && Past(Next(s, a).net, d).sent == Past(s.net, d).sent
  {
    hide NetOk, S.Safe, CacheOp, Drain, DrainAll, AtOp, UpperBound, Insert;
    if a.SendCache? {
      CacheStays(s.net, a.device, a.data, a.copied, d);
    }
  }

  lemma CacheStays(n: Net, e: Device, data: Payload, copied: bool, d: Device)
    requires Cache(n, d) != []
    ensures Cache(CacheOp(n, e, data, copied), d) != []
    ensures Past(CacheOp(n, e, data, copied), d).sent == Past(n, d).sent
  {
  }

  /** The next call that reaches Execute, for whatever device, covers it again. */
  lemma ExecuteCovers(s: State)
    requires Inv(s) && Enabled(s, SendExecute)
    ensures Covered(Next(s, SendExecute))
  {
    hide Next, Inv, FlushQueued;
    SuccessIsCovered(s);
  }
}
