/** The send path of the soft-bus adapter: per-device caches of owned buffers and
    the socket table, as values and as the object that updates them in place. */
module SoftBus {
  import opened Common

  type Device = string
  type Payload = Bytes

  const CACHE_LIMIT: nat := 100
  const INVALID_SOCKET: int := 0

  /** A cached message owns the buffer at `ptr`. */
  datatype Msg = Msg(ptr: nat, data: Payload)

  datatype Fate = Sent | Evicted | Discarded

  /** History of a device: what was cached for it, what became of the messages that
      left the cache (they leave from the front), and what SendBytes was given. */
  datatype History = History(submitted: seq<Payload>, fate: seq<Fate>, sent: seq<Payload>)

  const NO_HISTORY := History([], [], [])

  /** `next` numbers the allocations and `freed` counts the deletions per buffer. */
  datatype Net = Net(caches: map<Device, seq<Msg>>, sockets: map<Device, int>,
                     next: nat, freed: multiset<nat>, history: map<Device, History>)

  function Cache(n: Net, d: Device): seq<Msg> {
    if d in n.caches then n.caches[d] else []
  }

  function Past(n: Net, d: Device): History {
    if d in n.history then n.history[d] else NO_HISTORY
  }

  /** The buffer in front of the device's cache is deleted and its message erased. */
  function DropFront(n: Net, d: Device, fate: Fate): Net
    requires Cache(n, d) != []
  {
    var m, h := Cache(n, d)[0], Past(n, d);
    n.(caches := n.caches[d := Cache(n, d)[1..]],
       freed := n.freed + multiset{m.ptr},
       history := n.history[d := History(h.submitted, h.fate + [fate],
                                         if fate == Sent then h.sent + [m.data] else h.sent)])
  }

  /** The cache with a new message pushed, before any eviction. */
  function Push(n: Net, d: Device, data: Payload): Net {
    var h := Past(n, d);
    n.(next := n.next + 1, caches := n.caches[d := Cache(n, d) + [Msg(n.next, data)]],
       history := n.history[d := h.(submitted := h.submitted + [data])])
  }

  /** `copied` is whether copying into the new buffer succeeded. */
  function CacheOp(n: Net, d: Device, data: Payload, copied: bool): Net {
    if !copied then n.(next := n.next + 1, freed := n.freed + multiset{n.next})
    else
      var b := Push(n, d, data);
      if |Cache(b, d)| > CACHE_LIMIT then DropFront(b, d, Evicted) else b
  }

  /** `created` is what opening and binding a socket returned. */
  function SocketOp(n: Net, d: Device, created: int): (Net, int) {
    if d in n.sockets then (n, n.sockets[d])
    else if created <= INVALID_SOCKET then (n, INVALID_SOCKET)
    else (n.(sockets := n.sockets[d := created]), created)
  }

  /** What caching a message caches: the message itself, in a new buffer, behind what is
      there, and at the limit the oldest goes. A failed copy caches nothing, and no call
      touches another device. */
  lemma CacheIs(n: Net, d: Device, data: Payload, copied: bool)
    ensures var t, c := CacheOp(n, d, data, copied), Cache(n, d) + [Msg(n.next, data)];
            && t.sockets == n.sockets && t.next == n.next + 1
            && (forall e :: e != d || !copied ==> Cache(t, e) == Cache(n, e) && Past(t, e) == Past(n, e))
            && (copied ==> Past(t, d).submitted == Past(n, d).submitted + [data])
            && (copied ==> Cache(t, d) == if |c| > CACHE_LIMIT then c[1..] else c)
  {
  }

  /** The socket of the table is the answer, else the one that opening returned. Once
      entered it is the one every later call gets, whatever opening another would have
      returned; a call without a socket leaves no entry; and no call touches another
      device's socket, a cache or a buffer. */
  lemma SocketKept(n: Net, d: Device, created: int, later: int)
    requires forall e :: e in n.sockets ==> n.sockets[e] > INVALID_SOCKET
    ensures var (n1, socket) := SocketOp(n, d, created);
            && (d in n.sockets ==> socket == n.sockets[d] && n1 == n)
            && (d !in n.sockets ==> socket == if created > INVALID_SOCKET then created else INVALID_SOCKET)
            && (socket > INVALID_SOCKET ==> SocketOp(n1, d, later) == (n1, socket) && n1.sockets[d] == socket)
            && (socket <= INVALID_SOCKET ==> d !in n1.sockets && socket == INVALID_SOCKET)
            && n1 == n.(sockets := n1.sockets) && n1.sockets - {d} == n.sockets - {d}
  {
  }

  function Drain(n: Net, d: Device, fate: Fate): Net
    decreases |Cache(n, d)|
  {
    if Cache(n, d) == [] then n else Drain(DropFront(n, d, fate), d, fate)
  }

  /** A flush of one device of the socket table. */
  function FlushOp(n: Net, d: Device): Net {
    if d !in n.sockets || n.sockets[d] <= INVALID_SOCKET then n else Drain(n, d, Sent)
  }

  function DrainAll(n: Net, ds: seq<Device>, fate: Fate): Net {
    if ds == [] then n else Drain(DrainAll(n, ds[..|ds| - 1], fate), ds[|ds| - 1], fate)
  }

  function FlushAll(n: Net, ds: seq<Device>): Net {
    if ds == [] then n else FlushOp(FlushAll(n, ds[..|ds| - 1]), ds[|ds| - 1])
  }

  function ShutdownOp(n: Net, socket: int): Net {
    n.(sockets := map d | d in n.sockets && n.sockets[d] != socket :: n.sockets[d])
  }

  /** Shutting a socket down takes exactly its entries out of the table; then the device
      gets whatever opening a new one returns. */
  lemma ShutdownIs(n: Net, socket: int, d: Device, created: int)
    ensures var t := ShutdownOp(n, socket);
            && t == n.(sockets := t.sockets)
            && (d in t.sockets <==> d in n.sockets && n.sockets[d] != socket)
            && (d in t.sockets ==> t.sockets[d] == n.sockets[d])
            && (d in n.sockets && n.sockets[d] == socket ==>
                  SocketOp(t, d, created).1 == if created > INVALID_SOCKET then created else INVALID_SOCKET)
  {
  }

  // ---- Conservation, order, bounds and buffer ownership ----

  function Data(ms: seq<Msg>): (r: seq<Payload>)
    ensures |r| == |ms| && forall i :: 0 <= i < |ms| ==> r[i] == ms[i].data
  {
    seq(|ms|, i requires 0 <= i < |ms| => ms[i].data)
  }

  /** The messages whose fate is not to be lost, in their order. */
  function Survivors(submitted: seq<Payload>, fate: seq<Fate>): seq<Payload>
    requires |fate| <= |submitted|
    decreases |submitted|
  {
    if submitted == [] then []
    else
      var k := |submitted| - 1;
      if k < |fate| then Survivors(submitted[..k], fate[..k]) + (if fate[k] == Sent then [submitted[k]] else [])
      else Survivors(submitted[..k], fate) + [submitted[k]]
  }

  /** The cache holds what has no fate yet, and SendBytes was given what was sent. */
  ghost predicate Ordered(c: seq<Msg>, h: History) {
    && |h.fate| + |c| == |h.submitted|
    && Data(c) == h.submitted[|h.fate|..]
    && h.sent == Survivors(h.submitted[..|h.fate|], h.fate)
  }

  ghost predicate DeviceOk(n: Net, d: Device) {
    |Cache(n, d)| <= CACHE_LIMIT && Ordered(Cache(n, d), Past(n, d))
  }

  /** The i-th message cached for the device owns buffer p. */
  predicate Owns(n: Net, d: Device, i: nat, p: nat) {
    d in n.caches && i < |n.caches[d]| && n.caches[d][i].ptr == p
  }

  /** Every buffer ever allocated is owned by one cached message and not deleted,
      or is owned by none and was deleted once. */
  ghost predicate BuffersOk(n: Net) {
    && (forall d, i: nat, p: nat :: Owns(n, d, i, p) ==> p < n.next && n.freed[p] == 0)
    && (forall d, i: nat, e, j: nat, p: nat :: Owns(n, d, i, p) && Owns(n, e, j, p) ==> d == e && i == j)
    && (forall p: nat :: p < n.next && n.freed[p] == 0 ==> exists d, i: nat :: Owns(n, d, i, p))
    && (forall p: nat :: n.freed[p] <= if p < n.next then 1 else 0)
  }

  ghost predicate SocketsOk(n: Net) {
    forall d :: d in n.sockets ==> n.sockets[d] > INVALID_SOCKET
  }

  ghost predicate NetOk(n: Net) {
    (forall d :: DeviceOk(n, d)) && BuffersOk(n) && SocketsOk(n)
  }

  /** What was submitted and not lost is what was sent, then what is cached. */
  lemma {:induction false} Conserved(submitted: seq<Payload>, fate: seq<Fate>)
    requires |fate| <= |submitted|
    ensures Survivors(submitted, fate) == Survivors(submitted[..|fate|], fate) + submitted[|fate|..]
    decreases |submitted|
  {
    if |fate| == |submitted| {
      assert submitted[..|fate|] == submitted;
    } else {
      var k := |submitted| - 1;
      Conserved(submitted[..k], fate);
      assert submitted[..k][..|fate|] == submitted[..|fate|];
      assert submitted[|fate|..] == submitted[..k][|fate|..] + [submitted[k]];
    }
  }

  /** For each device: what was submitted and not lost is what SendBytes was given, then
      what is still cached, in order. */
  lemma Conserves(n: Net, d: Device)
    requires NetOk(n)
    ensures var h := Past(n, d);
            && |h.fate| + |Cache(n, d)| == |h.submitted|
            && Survivors(h.submitted, h.fate) == h.sent + Data(Cache(n, d))
  {
    assert DeviceOk(n, d);
    Conserved(Past(n, d).submitted, Past(n, d).fate);
  }

  lemma SurvivorsStep(submitted: seq<Payload>, fate: seq<Fate>, data: Payload, f: Fate)
    requires |fate| == |submitted|
    ensures Survivors(submitted + [data], fate + [f])
         == Survivors(submitted, fate) + if f == Sent then [data] else []
  {
    assert (submitted + [data])[..|submitted|] == submitted && (fate + [f])[..|fate|] == fate;
  }

  lemma OrderedDrop(c: seq<Msg>, h: History, fate: Fate)
    requires Ordered(c, h) && c != []
    ensures Ordered(c[1..], History(h.submitted, h.fate + [fate], if fate == Sent then h.sent + [c[0].data] else h.sent))
  {
    var k := |h.fate|;
    assert Data(c)[0] == h.submitted[k];
    assert h.submitted[..k + 1] == h.submitted[..k] + [h.submitted[k]];
    SurvivorsStep(h.submitted[..k], h.fate, h.submitted[k], fate);
    hide Survivors;
    assert Data(c[1..]) == h.submitted[k + 1..];
  }

  lemma OrderedPush(c: seq<Msg>, h: History, m: Msg)
    requires Ordered(c, h)
    ensures Ordered(c + [m], h.(submitted := h.submitted + [m.data]))
  {
    hide Survivors;
    var k := |h.fate|;
    assert (h.submitted + [m.data])[..k] == h.submitted[..k];
    assert (h.submitted + [m.data])[k..] == h.submitted[k..] + [m.data];
    assert Data(c + [m]) == Data(c) + [m.data];
  }

  lemma DropFrontDevice(n: Net, d: Device, fate: Fate, e: Device)
    requires Cache(n, d) != []
    requires d == e ==> DeviceOk(n, d) || (fate == Evicted && DeviceOk'(n, d))
    requires d != e ==> DeviceOk(n, e)
    ensures DeviceOk(DropFront(n, d, fate), e)
  {
    if d == e {
      OrderedDrop(Cache(n, d), Past(n, d), fate);
    }
    hide Ordered;
  }

  /** A device's state between the push and the eviction: one entry too many. */
  ghost predicate DeviceOk'(n: Net, d: Device) {
    |Cache(n, d)| <= CACHE_LIMIT + 1 && Ordered(Cache(n, d), Past(n, d))
  }

  lemma DropFrontBuffers(n: Net, d: Device, fate: Fate)
    requires Cache(n, d) != [] && BuffersOk(n)
    ensures BuffersOk(DropFront(n, d, fate))
  {
    var t, q := DropFront(n, d, fate), n.caches[d][0].ptr;
    assert Owns(n, d, 0, q);
    forall e, i: nat, p: nat ensures Owns(t, e, i, p) <==> Owns(n, e, if e == d then i + 1 else i, p) {
    }
    forall p: nat | p < t.next && t.freed[p] == 0 ensures exists e, i: nat :: Owns(t, e, i, p) {
      var e, i: nat :| Owns(n, e, i, p);
      assert Owns(t, e, if e == d then i - 1 else i, p);
    }
  }

  lemma PushBuffers(n: Net, d: Device, data: Payload)
    requires BuffersOk(n)
    ensures BuffersOk(Push(n, d, data))
  {
    var t, k := Push(n, d, data), |Cache(n, d)|;
    forall e, i: nat, p: nat
      ensures Owns(t, e, i, p) <==> Owns(n, e, i, p) || (e == d && i == k && p == n.next)
    {
    }
    forall p: nat | p < t.next && t.freed[p] == 0 ensures exists e, i: nat :: Owns(t, e, i, p) {
      if p == n.next {
        assert Owns(t, d, k, p);
      } else {
        var e, i: nat :| Owns(n, e, i, p);
        assert Owns(t, e, i, p);
      }
    }
  }

  lemma CacheOk(n: Net, d: Device, data: Payload, copied: bool)
    requires NetOk(n)
    ensures NetOk(CacheOp(n, d, data, copied))
  {
    hide DeviceOk, DeviceOk', BuffersOk, DropFront;
    var t := CacheOp(n, d, data, copied);
    if !copied {
      FailedCopyOk(n);
    } else {
      var b := Push(n, d, data);
      PushBuffers(n, d, data);
      forall e ensures DeviceOk(t, e) {
        PushDevice(n, d, data, e);
        if |Cache(b, d)| > CACHE_LIMIT {
          DropFrontDevice(b, d, Evicted, e);
        }
      }
      if |Cache(b, d)| > CACHE_LIMIT {
        DropFrontBuffers(b, d, Evicted);
        DropFrontFrame(b, d, Evicted);
      }
    }
  }

  lemma DropFrontFrame(n: Net, d: Device, fate: Fate)
    requires Cache(n, d) != []
    ensures var t := DropFront(n, d, fate);
            && t.sockets == n.sockets && t.next == n.next
            && Cache(t, d) == Cache(n, d)[1..] && Past(t, d).submitted == Past(n, d).submitted
            && Past(t, d).fate == Past(n, d).fate + [fate]
            && (fate == Sent ==> Past(t, d).sent == Past(n, d).sent + [Cache(n, d)[0].data])
            && Data(Cache(n, d)) == [Cache(n, d)[0].data] + Data(Cache(t, d))
            && forall e :: e != d ==> Cache(t, e) == Cache(n, e) && Past(t, e) == Past(n, e)
  {
  }

  lemma FailedCopyOk(n: Net)
    requires NetOk(n)
    ensures NetOk(n.(next := n.next + 1, freed := n.freed + multiset{n.next}))
  {
    var t := n.(next := n.next + 1, freed := n.freed + multiset{n.next});
    forall d ensures DeviceOk(t, d) {
      assert DeviceOk(n, d);
    }
    forall d, i: nat, p: nat ensures Owns(t, d, i, p) <==> Owns(n, d, i, p) {
    }
    forall p: nat | p < t.next && t.freed[p] == 0 ensures exists e, i: nat :: Owns(t, e, i, p) {
      var e, i: nat :| Owns(n, e, i, p);
      assert Owns(t, e, i, p);
    }
  }

  lemma PushDevice(n: Net, d: Device, data: Payload, e: Device)
    requires forall f :: DeviceOk(n, f)
    ensures if e == d && |Cache(n, d)| == CACHE_LIMIT then DeviceOk'(Push(n, d, data), e)
            else DeviceOk(Push(n, d, data), e)
  {
    assert DeviceOk(n, e);
    hide Ordered;
    if e == d {
      OrderedPush(Cache(n, d), Past(n, d), Msg(n.next, data));
    }
  }

  /** From the one state to the other the device's cache was emptied from the front, all
      with one fate, and nothing else but deleted buffers has changed. */
  ghost predicate Emptied(n: Net, t: Net, d: Device, fate: Fate) {
    && Cache(t, d) == [] && t.sockets == n.sockets && t.next == n.next
    && Past(t, d).submitted == Past(n, d).submitted && |Past(t, d).fate| == |Past(n, d).submitted|
    && (forall e :: e != d ==> Cache(t, e) == Cache(n, e) && Past(t, e) == Past(n, e))
    && (fate == Sent ==> Past(t, d).sent == Past(n, d).sent + Data(Cache(n, d)))
  }

  lemma EmptiedStep(n: Net, t: Net, d: Device, fate: Fate)
    requires Cache(n, d) != [] && Emptied(DropFront(n, d, fate), t, d, fate)
    ensures Emptied(n, t, d, fate)
  {
    DropFrontFrame(n, d, fate);
    hide DropFront, Data, Cache, Past;
    var a := DropFront(n, d, fate);
    if fate == Sent {
      Regrouped(Past(n, d).sent, [Cache(n, d)[0].data], Data(Cache(a, d)));
    }
  }

  /** Draining empties the cache and settles the fate of everything submitted,
      touching no other device. */
  lemma {:induction false} DrainOk(n: Net, d: Device, fate: Fate)
    requires NetOk(n)
    ensures NetOk(Drain(n, d, fate)) && Emptied(n, Drain(n, d, fate), d, fate)
    decreases |Cache(n, d)|
  {
    hide NetOk, DropFront, Emptied;
    if Cache(n, d) == [] {
      NothingToDrain(n, d, fate);
    } else {
      var a := DropFront(n, d, fate);
      DropFrontOk(n, d, fate);
      DropFrontFrame(n, d, fate);
      DrainOk(a, d, fate);
      EmptiedStep(n, Drain(a, d, fate), d, fate);
    }
  }

  lemma NothingToDrain(n: Net, d: Device, fate: Fate)
    requires NetOk(n) && Cache(n, d) == []
    ensures Emptied(n, n, d, fate)
  {
    DeviceSettled(n, d);
    hide NetOk;
  }

  lemma DropFrontOk(n: Net, d: Device, fate: Fate)
    requires NetOk(n) && Cache(n, d) != []
    ensures NetOk(DropFront(n, d, fate))
  {
    hide DeviceOk, DeviceOk', BuffersOk, DropFront;
    DropFrontBuffers(n, d, fate);
    DropFrontFrame(n, d, fate);
    forall e ensures DeviceOk(DropFront(n, d, fate), e) {
      DropFrontDevice(n, d, fate, e);
    }
  }

  lemma DeviceSettled(n: Net, d: Device)
    requires NetOk(n)
    ensures |Past(n, d).fate| + |Cache(n, d)| == |Past(n, d).submitted|
  {
    assert DeviceOk(n, d);
  }
}
