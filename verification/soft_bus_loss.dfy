/** What becomes of a cached message: only a hundred later ones can push it out, only the
    destructor discards it, and otherwise it is sent. */
module SoftBusLoss {
  import opened SoftBus
  import opened SoftBusAdapter
  import opened SoftBusRuns
  import R = SchedulerRuns
  import S = SchedulerSafety

  /** Every lost message of the device has its reason. */
  ghost predicate LossesExplained(h: History, torn: bool) {
    forall i :: 0 <= i < |h.fate| ==>
      && (h.fate[i] == Evicted ==> i + CACHE_LIMIT < |h.submitted|)
      && (h.fate[i] == Discarded ==> torn)
  }

  ghost predicate Explained(n: Net, torn: bool) {
    forall d :: LossesExplained(Past(n, d), torn)
  }

  lemma OneMore(h: History, h': History, fate: Fate, torn: bool)
    requires LossesExplained(h, torn) && h'.submitted == h.submitted && h'.fate == h.fate + [fate]
    requires fate == Evicted ==> |h.fate| + CACHE_LIMIT < |h.submitted|
    requires fate == Discarded ==> torn
    ensures LossesExplained(h', torn)
  {
  }

  /** One more fate, settled for a reason. */
  lemma DropExplained(n: Net, d: Device, fate: Fate, torn: bool)
    requires Cache(n, d) != [] && Explained(n, torn)
    requires fate == Evicted ==> |Past(n, d).fate| + CACHE_LIMIT < |Past(n, d).submitted|
    requires fate == Discarded ==> torn
    ensures Explained(DropFront(n, d, fate), torn)
  {
    DropFrontFrame(n, d, fate);
    hide DropFront, LossesExplained, Past, Cache, Data;
    var t := DropFront(n, d, fate);
    forall e ensures LossesExplained(Past(t, e), torn) {
      assert LossesExplained(Past(n, e), torn);
      if e == d {
        OneMore(Past(n, d), Past(t, d), fate, torn);
      }
    }
  }

  lemma PushExplained(n: Net, d: Device, data: Payload, torn: bool)
    requires Explained(n, torn)
    ensures Explained(Push(n, d, data), torn)
  {
    forall e ensures LossesExplained(Past(Push(n, d, data), e), torn) {
      assert LossesExplained(Past(n, e), torn);
    }
  }

  lemma SameExplained(n: Net, t: Net, torn: bool, torn': bool)
    requires Explained(n, torn) && t.history == n.history && (torn ==> torn')
    ensures Explained(t, torn')
  {
    forall d ensures LossesExplained(Past(t, d), torn') {
      assert LossesExplained(Past(n, d), torn);
    }
  }

  lemma CacheExplained(n: Net, d: Device, data: Payload, copied: bool, torn: bool)
    requires NetOk(n) && Explained(n, torn)
    ensures Explained(CacheOp(n, d, data, copied), torn)
  {
    hide NetOk, Explained, DropFront;
    if copied {
      var b := Push(n, d, data);
      PushExplained(n, d, data, torn);
      DeviceSettled(n, d);
      if |Cache(b, d)| > CACHE_LIMIT {
        DropExplained(b, d, Evicted, torn);
      }
    } else {
      SameExplained(n, CacheOp(n, d, data, copied), torn, torn);
    }
  }

  lemma {:induction false} DrainExplained(n: Net, d: Device, fate: Fate, torn: bool)
    requires Explained(n, torn) && fate != Evicted && (fate == Discarded ==> torn)
    ensures Explained(Drain(n, d, fate), torn)
    decreases |Cache(n, d)|
  {
    hide Explained, DropFront;
    if Cache(n, d) != [] {
      DropExplained(n, d, fate, torn);
      DropFrontFrame(n, d, fate);
      DrainExplained(DropFront(n, d, fate), d, fate, torn);
    }
  }

  lemma {:induction false} DrainAllExplained(n: Net, order: seq<Device>, torn: bool)
    requires Explained(n, torn) && torn
    ensures Explained(DrainAll(n, order, Discarded), torn)
  {
    hide Explained, Drain;
    if order != [] {
      var k := |order| - 1;
      DrainAllExplained(n, order[..k], torn);
      DrainExplained(DrainAll(n, order[..k], Discarded), order[k], Discarded, torn);
    }
  }

  lemma ExplainedStep(s: State, a: Action)
    requires Inv(s) && Enabled(s, a) && Explained(s.net, s.torn)
    ensures Explained(Next(s, a).net, Next(s, a).torn)
  {
    hide NetOk, S.Safe, R.Core, R.Next, Explained, CacheOp, Drain, DrainAll;
    match a
    case SendCache(d, data, copied) => CacheExplained(s.net, d, data, copied, s.torn);
    case SweepDevice(d) => DrainExplained(s.net, d, Sent, s.torn);
    case Release(order) =>
      DrainAllExplained(s.net, order, true);
      SameExplained(DrainAll(s.net, order, Discarded), Next(s, a).net, true, true);
    case _ => SameExplained(s.net, Next(s, a).net, s.torn, Next(s, a).torn);
  }

  lemma {:induction false} AlwaysExplained(s: State, acts: seq<Action>)
    requires Inv(s) && Explained(s.net, s.torn) && Legal(s, acts)
    ensures Explained(Run(s, acts).net, Run(s, acts).torn)
    decreases |acts|
  {
    hide Next, Enabled, Inv, Explained;
    if acts != [] {
      InvStep(s, acts[0]);
      ExplainedStep(s, acts[0]);
      AlwaysExplained(Next(s, acts[0]), acts[1..]);
    }
  }

  /** In every run: a message was evicted only after a hundred later ones for its device,
      and discarded only by the destructor. */
  lemma ReachableExplained(now: int, acts: seq<Action>, d: Device)
    requires Legal(Init(now), acts)
    ensures LossesExplained(Past(Run(Init(now), acts).net, d), Run(Init(now), acts).torn)
  {
    InitInv(now);
    AlwaysExplained(Init(now), acts);
  }

  /** A successful SendData sends: once a flush that starts after its Execute has finished,
      the message was handed to SendBytes, unless a hundred later messages for the device
      came first, its socket was shut down in between, or destruction has begun. */
  lemma SendDataSends(s: State, created: int, before: seq<Action>, after: seq<Action>, d: Device, i: nat)
    requires Inv(s) && Explained(s.net, s.torn)
    requires s.sender == Cached(d) && Enabled(s, SendSocket(created)) && i < |Past(s.net, d).submitted|
    requires var s1 := Next(s, SendSocket(created));
             && s1.sender == Connected(d) && Legal(s1, before) && Enabled(Run(s1, before), SendExecute)
             && Legal(Next(Run(s1, before), SendExecute), after)
    ensures var s3 := Next(Run(Next(s, SendSocket(created)), before), SendExecute);
            var t := Run(s3, after);
            t.finished > s3.started ==>
              || (i < |Past(t.net, d).fate| && Past(t.net, d).fate[i] == Sent)
              || i + CACHE_LIMIT < |Past(t.net, d).submitted|
              || Cuts(t, d) > Cuts(s, d)
              || t.torn
  {
    SendDataDelivers(s, created, before, after, d, i);
    hide Next, Run, Legal, Enabled, Inv;
    var s1 := Next(s, SendSocket(created));
    var s2 := Run(s1, before);
    var s3 := Next(s2, SendExecute);
    InvStep(s, SendSocket(created));
    ExplainedStep(s, SendSocket(created));
    AlwaysInv(s1, before);
    AlwaysExplained(s1, before);
    InvStep(s2, SendExecute);
    ExplainedStep(s2, SendExecute);
    AlwaysExplained(s3, after);
    assert LossesExplained(Past(Run(s3, after).net, d), Run(s3, after).torn);
  }
}
