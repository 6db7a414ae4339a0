/** The callback list of an event listener: a singly linked list on the heap,
    relinked in place, proved to be a duplicate-free sequence; and the flag that
    says whether the object is being watched. */
module HandlerList {
  /** `callback` is the function that the node's reference resolves to. */
  class EventHandler {
    const callback: nat
    var next: EventHandler?

    constructor (callback: nat, next: EventHandler?)
      ensures this.callback == callback && this.next == next
    {
      this.callback, this.next := callback, next;
    }
  }

  // ---- What the operations do to the list of callbacks ----

  function Removed(hs: seq<nat>, h: nat): seq<nat> {
    if hs == [] then []
    else Removed(hs[..|hs| - 1], h) + (if hs[|hs| - 1] == h then [] else [hs[|hs| - 1]])
  }

  function AddOp(hs: seq<nat>, h: nat): seq<nat> {
    if h in hs then hs else [h] + hs
  }

  /** `failAt` is the first node whose reference cannot be read; the walk stops there. */
  function DelOp(hs: seq<nat>, h: nat, failAt: nat): seq<nat> {
    if failAt < |hs| then Removed(hs[..failAt], h) + hs[failAt..] else Removed(hs, h)
  }

  ghost predicate NoDuplicates(hs: seq<nat>) {
    forall i, j :: 0 <= i < j < |hs| ==> hs[i] != hs[j]
  }

  lemma {:induction false} RemovedAbsent(hs: seq<nat>, h: nat)
    requires h !in hs
    ensures Removed(hs, h) == hs
  {
    if hs != [] {
      RemovedAbsent(hs[..|hs| - 1], h);
    }
  }

  /** On a duplicate-free list a removal takes out the one match and nothing else. */
  lemma {:induction false} RemovedExactly(hs: seq<nat>, p: nat)
    requires NoDuplicates(hs) && p < |hs|
    ensures Removed(hs, hs[p]) == hs[..p] + hs[p + 1..]
  {
    var n := |hs| - 1;
    if p == n {
      RemovedAbsent(hs[..n], hs[n]);
    } else {
      RemovedExactly(hs[..n], p);
      assert hs[..n][..p] + hs[..n][p + 1..] + [hs[n]] == hs[..p] + hs[p + 1..];
    }
  }

  lemma {:induction false} RemovedKeeps(hs: seq<nat>, h: nat)
    ensures forall x :: x in Removed(hs, h) <==> x in hs && x != h
    ensures NoDuplicates(hs) ==> NoDuplicates(Removed(hs, h))
  {
    if hs != [] {
      var n := |hs| - 1;
      RemovedKeeps(hs[..n], h);
      assert hs == hs[..n] + [hs[n]];
      var r := Removed(hs[..n], h);
      if NoDuplicates(hs) {
        forall i | 0 <= i < |r| ensures r[i] != hs[n] {
          assert r[i] in hs[..n];
        }
      }
    }
  }

  class EventListener {
    var handlers: EventHandler?
    ghost var spine: seq<EventHandler>

    /** The nodes hang together in the order of the spine, without a cycle. */
    ghost predicate Valid()
      reads this, spine
    {
      && handlers == Nth(spine, 0)
      && (forall i :: 0 <= i < |spine| ==> spine[i].next == Nth(spine, i + 1))
      && Apart(spine)
    }

    static ghost predicate Apart(nodes: seq<EventHandler>) {
      forall i, j :: 0 <= i < j < |nodes| ==> nodes[i] != nodes[j]
    }

    static ghost function Nth(nodes: seq<EventHandler>, k: nat): EventHandler? {
      if k < |nodes| then nodes[k] else null
    }

    static ghost function Callbacks(nodes: seq<EventHandler>): (hs: seq<nat>)
      ensures |hs| == |nodes| && forall i :: 0 <= i < |nodes| ==> hs[i] == nodes[i].callback
    {
      seq(|nodes|, i requires 0 <= i < |nodes| => nodes[i].callback)
    }

    ghost function Handlers(): seq<nat>
      reads this
    {
      Callbacks(spine)
    }

    constructor ()
      ensures Valid() && Handlers() == [] && spine == []
    {
      handlers, spine := null, [];
    }

    method IsEmpty() returns (empty: bool)
      requires Valid()
      ensures empty <==> Handlers() == []
    {
      empty := handlers == null;
    }

    method Find(handler: nat) returns (result: EventHandler?)
      requires Valid()
      ensures result == null <==> handler !in Handlers()
      ensures result != null ==> result in spine && result.callback == handler
    {
      result := null;
      hide Callbacks, Apart;
      ghost var hs := Handlers();
      assert |hs| == |spine| && forall j :: 0 <= j < |spine| ==> hs[j] == spine[j].callback;
      var i, k := handlers, 0;
      while i != null
        invariant 0 <= k <= |spine| && i == Nth(spine, k)
        invariant result == null <==> handler !in hs[..k]
        invariant result != null ==> result in spine && result.callback == handler
        decreases |spine| - k
      {
        assert hs[..k + 1] == hs[..k] + [i.callback];
        if handler == i.callback {
          result := i;
        }
        i, k := i.next, k + 1;
      }
      assert hs[..k] == hs;
    }

    method Clear()
      requires Valid()
      modifies this
      ensures Valid() && Handlers() == [] && spine == []
    {
      var i := handlers;
      while i != null
        invariant Valid() && i == handlers
        decreases |spine|
      {
        handlers := i.next;
        spine := spine[1..];
        i := handlers;
      }
    }

    method Add(handler: nat) returns (added: bool)
      requires Valid()
      modifies this
      ensures Valid() && fresh(set n | n in spine && n !in old(spine))
      ensures added <==> handler !in old(Handlers())
      ensures Handlers() == AddOp(old(Handlers()), handler)
      ensures Handlers() == (if added then [handler] else []) + old(Handlers())
    {
      var found := Find(handler);
      if found != null {
        return false;
      }
      hide Valid, Apart, Callbacks, Handlers;
      Prepend(handler);
      return true;
    }

    method Prepend(handler: nat)
      requires Valid()
      modifies this
      ensures Valid() && fresh(set n | n in spine && n !in old(spine))
      ensures Handlers() == [handler] + old(Handlers())
    {
      hide Callbacks;
      PrependedApart(spine);
      ghost var was := spine;
      var temp := new EventHandler(handler, handlers);
      assert temp !in was;
      handlers, spine := temp, [temp] + spine;
      assert Callbacks(spine) == [handler] + Callbacks(was);
    }

    static lemma PrependedApart(nodes: seq<EventHandler>)
      requires Apart(nodes)
      ensures forall n: EventHandler :: n !in nodes ==> Apart([n] + nodes)
    {
    }

    /** Relinks the list around the node at position p; `temp` is its predecessor. */
    method Unlink(temp: EventHandler?, delData: EventHandler, ghost p: nat)
      requires Valid() && p < |spine| && delData == spine[p]
      requires temp == if p == 0 then null else spine[p - 1]
      modifies this, if temp == null then {} else {temp}
      ensures Valid() && spine == old(spine)[..p] + old(spine)[p + 1..]
      ensures |spine| == old(|spine|) - 1 && forall n :: n in spine ==> n in old(spine)
      ensures spine[..p] == old(spine)[..p] && Nth(spine, p) == old(Nth(spine, p + 1))
      ensures Handlers() == old(Handlers())[..p] + old(Handlers())[p + 1..]
    {
      SpineErased(spine, p);
      hide Callbacks, Nth, Valid, Apart;
      if temp == null {
        UnlinkFirst(delData);
      } else {
        UnlinkAfter(temp, delData, p);
      }
    }

    method UnlinkFirst(delData: EventHandler)
      requires Valid() && |spine| > 0 && delData == spine[0]
      modifies this
      ensures Valid() && spine == old(spine)[..0] + old(spine)[1..]
    {
      handlers := delData.next;
      spine := spine[1..];
    }

    method UnlinkAfter(temp: EventHandler, delData: EventHandler, ghost p: nat)
      requires Valid() && 0 < p < |spine| && delData == spine[p] && temp == spine[p - 1]
      modifies this, temp
      ensures Valid() && spine == old(spine)[..p] + old(spine)[p + 1..]
    {
      SpineErased(spine, p);
      NthErased(spine, p);
      OtherNodes(spine, p - 1);
      hide Nth, Callbacks, Apart;
      ghost var now := spine[..p] + spine[p + 1..];
      temp.next := delData.next;
      spine := now;
    }

    static lemma OtherNodes(nodes: seq<EventHandler>, p: nat)
      requires Apart(nodes) && p < |nodes|
      ensures forall j :: 0 <= j < |nodes| && j != p ==> nodes[j] != nodes[p]
    {
    }

    static lemma NthErased(was: seq<EventHandler>, p: nat)
      requires p < |was|
      ensures var now := was[..p] + was[p + 1..];
              forall j: nat :: Nth(now, j) == Nth(was, if j < p then j else j + 1)
    {
    }

    static lemma SpineErased(was: seq<EventHandler>, p: nat)
      requires p < |was| && Apart(was)
      ensures var now := was[..p] + was[p + 1..];
              && now[..p] == was[..p] && Nth(now, p) == Nth(was, p + 1)
              && (forall j :: 0 <= j < |now| ==> now[j] == was[if j < p then j else j + 1])
              && Apart(now)
              && (forall n :: n in now ==> n in was)
              && Callbacks(now) == Callbacks(was)[..p] + Callbacks(was)[p + 1..]
    {
    }

    /** The walk stands before the k-th node of the list it started with, and has
        unlinked the matches in front: `i` is next, `temp` is the last node kept. */
    ghost predicate Walking(all: seq<nat>, h: nat, k: nat, i: EventHandler?, temp: EventHandler?)
      reads this, spine
    {
      var p := |Removed(all[..if k < |all| then k else |all|], h)|;
      && k <= |all| && Valid()
      && Handlers() == Removed(all[..k], h) + all[k..]
      && i == Nth(spine, p) && temp == if 0 < p <= |spine| then spine[p - 1] else null
    }

    /** One turn of the walk: unlinks the node if it matches, or steps over it. */
    method Advance(ghost all: seq<nat>, h: nat, ghost k: nat, node: EventHandler, temp: EventHandler?)
      returns (i: EventHandler?, last: EventHandler?)
      requires Walking(all, h, k, node, temp)
      modifies this, if temp == null then {} else {temp}
      ensures Walking(all, h, k + 1, i, last)
      ensures forall n :: n in spine ==> n in old(spine)
    {
      ghost var p := |Removed(all[..k], h)|;
      RemovedStep(all, k, h);
      hide Removed, Callbacks;
      i := node.next;
      if h == node.callback {
        Unlink(temp, node, p);
        last := temp;
        assert p > 0 ==> spine[p - 1] == spine[..p][p - 1];
      } else {
        last := node;
      }
    }

    /** Unlinks every node of the callback, up to a node that cannot be read. */
    method Del(handler: nat, failAt: nat) returns (empty: bool)
      requires Valid()
      modifies this, spine
      ensures Valid() && forall n :: n in spine ==> n in old(spine)
      ensures Handlers() == DelOp(old(Handlers()), handler, failAt)
      ensures empty <==> failAt >= |old(Handlers())| && Handlers() == []
    {
      hide Walking, Removed, Callbacks, Valid, Handlers;
      ghost var all := Handlers();
      var temp: EventHandler? := null;
      var i := handlers;
      var k: nat := 0;
      WalkStarts(handler);
      hide Nth, Apart;
      while i != null
        invariant k <= failAt && Walking(all, handler, k, i, temp)
        invariant forall n :: n in spine ==> n in old(spine)
        decreases |all| - k
      {
        WalkStands(all, handler, k, i, temp);
        if k == failAt {
          return false;
        }
        i, temp := Advance(all, handler, k, i, temp);
        k := k + 1;
      }
      WalkStands(all, handler, k, i, temp);
      assert all[..k] == all;
      return handlers == null;
    }

    lemma WalkStarts(h: nat)
      requires Valid()
      ensures Walking(Handlers(), h, 0, handlers, null)
    {
    }

    lemma WalkStands(all: seq<nat>, h: nat, k: nat, i: EventHandler?, temp: EventHandler?)
      requires Walking(all, h, k, i, temp)
      ensures k <= |all| && Valid() && Handlers() == Removed(all[..k], h) + all[k..]
      ensures i == null <==> k == |all|
      ensures temp != null ==> temp in spine
      ensures handlers == null <==> Handlers() == []
    {
    }
  }

  /** One step of the walk, on the list as it is: what is kept, then what is ahead. */
  lemma RemovedStep(all: seq<nat>, k: nat, h: nat)
    requires k < |all|
    ensures var kept, now := Removed(all[..k], h), Removed(all[..k], h) + all[k..];
            var p := |kept|;
            && now[p] == all[k]
            && (all[k] == h ==> Removed(all[..k + 1], h) == kept && now[..p] + now[p + 1..] == kept + all[k + 1..])
            && (all[k] != h ==> Removed(all[..k + 1], h) == kept + [all[k]]
                                && now == kept + [all[k]] + all[k + 1..])
  {
    assert all[..k + 1][..k] == all[..k];
  }

  // ---- The change listener: the list and the flag that the store watches the object ----

  datatype Listener = Listener(callbacks: seq<nat>, watched: bool)

  /** A call; `ok` is the answer of the store, should the call ask it to watch or unwatch. */
  datatype Call = Add(h: nat, ok: bool) | Del(h: nat, failAt: nat, ok: bool) | Clear(ok: bool)

  function ListenOp(l: Listener, c: Call): Listener {
    match c
    case Add(h, ok) => Listener(AddOp(l.callbacks, h), l.watched || ok)
    case Del(h, failAt, ok) =>
      var rest := DelOp(l.callbacks, h, failAt);
      Listener(rest, l.watched && !(rest == [] && failAt >= |l.callbacks| && ok))
    case Clear(ok) => Listener([], l.watched && !ok)
  }

  class ChangeEventListener {
    const listener: EventListener
    const hasObject: bool
    var isWatched: bool

    ghost predicate Valid()
      reads this, listener, listener.spine
    {
      listener.Valid()
    }

    ghost function View(): Listener
      reads this, listener
    {
      Listener(listener.Handlers(), isWatched)
    }

    constructor (hasObject: bool)
      ensures Valid() && this.hasObject == hasObject && View() == Listener([], false) && listener.spine == []
    {
      this.hasObject := hasObject;
      listener := new EventListener();
      isWatched := false;
    }

    /** Without an object the store is never asked: that is an answer of `false`. */
    method DoAdd(handler: nat, ok: bool) returns (added: bool)
      requires Valid()
      modifies this, listener
      ensures Valid() && View() == ListenOp(old(View()), Add(handler, hasObject && ok))
      ensures added <==> handler !in old(View()).callbacks
    {
      if !isWatched && hasObject {
        if ok {
          isWatched := true;
        }
      }
      added := listener.Add(handler);
    }

    method DoDel(handler: nat, failAt: nat, ok: bool) returns (isEmpty: bool)
      requires Valid()
      modifies this, listener, listener.spine
      ensures Valid() && View() == ListenOp(old(View()), Del(handler, failAt, hasObject && ok))
      ensures isEmpty <==> failAt >= |old(View()).callbacks| && View().callbacks == []
    {
      isEmpty := listener.Del(handler, failAt);
      if isEmpty && isWatched && hasObject {
        if ok {
          isWatched := false;
        }
      }
    }

    method DoClear(ok: bool)
      requires Valid()
      modifies this, listener
      ensures Valid() && View() == ListenOp(old(View()), Clear(hasObject && ok))
    {
      listener.Clear();
      if isWatched && hasObject {
        if ok {
          isWatched := false;
        }
      }
    }
  }

  /** As a set: a call adds its one callback, takes out its one callback, or empties;
      a removal cut short leaves the callbacks from the unreadable node on. */
  ghost function Members(l: Listener): iset<nat> {
    iset h | h in l.callbacks
  }

  lemma ListensAsSet(l: Listener, c: Call)
    requires NoDuplicates(l.callbacks)
    ensures NoDuplicates(ListenOp(l, c).callbacks)
    ensures c.Add? ==> Members(ListenOp(l, c)) == Members(l) + iset{c.h}
    ensures c.Del? && (c.failAt >= |l.callbacks| || c.h !in l.callbacks[c.failAt..])
            ==> Members(ListenOp(l, c)) == Members(l) - iset{c.h}
    ensures c.Del? && c.failAt < |l.callbacks| && c.h in l.callbacks[c.failAt..]
            ==> ListenOp(l, c).callbacks == l.callbacks
    ensures c.Clear? ==> Members(ListenOp(l, c)) == iset{}
  {
    if c.Del? {
      if c.failAt < |l.callbacks| {
        DeletedPart(l.callbacks, c.h, c.failAt);
      } else {
        RemovedKeeps(l.callbacks, c.h);
      }
    }
  }

  lemma DeletedPart(hs: seq<nat>, h: nat, failAt: nat)
    requires NoDuplicates(hs) && failAt < |hs|
    ensures NoDuplicates(DelOp(hs, h, failAt))
    ensures if h in hs[failAt..] then DelOp(hs, h, failAt) == hs
            else forall x :: x in DelOp(hs, h, failAt) <==> x in hs && x != h
  {
    hide Removed;
    var front, back := hs[..failAt], hs[failAt..];
    assert hs == front + back;
    forall x | x in front ensures x !in back {
      var i :| 0 <= i < |front| && front[i] == x;
      forall j | 0 <= j < |back| ensures back[j] != x {
        assert hs[i] == x && hs[failAt + j] == back[j];
      }
    }
    RemovedKeeps(front, h);
    if h in back {
      RemovedAbsent(front, h);
    }
    KeptBefore(Removed(front, h), front, back);
  }

  lemma KeptBefore(kept: seq<nat>, front: seq<nat>, back: seq<nat>)
    requires NoDuplicates(kept) && NoDuplicates(back)
    requires (forall x :: x in kept ==> x in front) && forall x :: x in front ==> x !in back
    ensures NoDuplicates(kept + back)
  {
    var all := kept + back;
    forall i, j | 0 <= i < j < |all| ensures all[i] != all[j] {
      if i < |kept| <= j {
        assert all[i] in front && all[j] in back;
      }
    }
  }

  /** The flag holds exactly when there is someone to call, and nobody is called twice. */
  ghost predicate Consistent(l: Listener) {
    NoDuplicates(l.callbacks) && (l.watched <==> l.callbacks != [])
  }

  /** The calls that change whether there is someone to call, and so need the store. */
  predicate Turns(l: Listener, c: Call) {
    match c
    case Add(_, _) => l.callbacks == []
    case Del(h, failAt, _) => l.callbacks == [h] && failAt > 0
    case Clear(_) => l.callbacks != []
  }

  lemma EmptiedIff(hs: seq<nat>, h: nat)
    requires NoDuplicates(hs)
    ensures Removed(hs, h) == [] <==> hs == [] || hs == [h]
  {
  }

  /** From any duplicate-free list, whatever went wrong before: a call leaves flag and
      list in agreement if and only if it leaves nobody and the store is not watching or
      agrees to stop, or it leaves someone and the store is watching or agrees to start. */
  lemma AgreesAfterIff(l: Listener, c: Call)
    requires NoDuplicates(l.callbacks)
    ensures Consistent(ListenOp(l, c))
       <==> if ListenOp(l, c).callbacks == [] then l.watched ==> c.ok else l.watched || (c.Add? && c.ok)
  {
    ListensAsSet(l, c);
  }

  lemma ConsistentIff(l: Listener, c: Call)
    requires Consistent(l)
    ensures Consistent(ListenOp(l, c)) <==> (Turns(l, c) ==> c.ok)
  {
    AgreesAfterIff(l, c);
    if c.Del? {
      EmptiedIff(l.callbacks, c.h);
    }
  }

  function Listened(l: Listener, calls: seq<Call>): Listener
    decreases |calls|
  {
    if calls == [] then l else Listened(ListenOp(l, calls[0]), calls[1..])
  }

  /** Every call on the way that needs the store finds it willing. */
  predicate StoreWilling(l: Listener, calls: seq<Call>)
    decreases |calls|
  {
    calls == [] || ((Turns(l, calls[0]) ==> calls[0].ok) && StoreWilling(ListenOp(l, calls[0]), calls[1..]))
  }

  /** The flag and the list agree after every prefix of the run. */
  ghost predicate AlwaysConsistent(l: Listener, calls: seq<Call>) {
    forall k: nat :: k <= |calls| ==> Consistent(Listened(l, calls[..k]))
  }

  /** They do so if and only if the store agrees to every call that needs it. */
  lemma {:induction false} AlwaysConsistentIff(l: Listener, calls: seq<Call>)
    requires Consistent(l)
    ensures AlwaysConsistent(l, calls) <==> StoreWilling(l, calls)
    decreases |calls|
  {
    if calls == [] {
      assert AlwaysConsistent(l, calls) by {
        assert forall k: nat :: k <= 0 ==> calls[..k] == [];
      }
    } else {
      var next, rest := ListenOp(l, calls[0]), calls[1..];
      ConsistentIff(l, calls[0]);
      AlwaysShifted(l, calls);
      if Consistent(next) {
        AlwaysConsistentIff(next, rest);
      } else {
        assert Listened(next, rest[..0]) == next;
        assert !AlwaysConsistent(next, rest);
      }
    }
  }

  lemma AlwaysShifted(l: Listener, calls: seq<Call>)
    requires Consistent(l) && calls != []
    ensures AlwaysConsistent(l, calls) <==> AlwaysConsistent(ListenOp(l, calls[0]), calls[1..])
  {
    hide Consistent, ListenOp;
    var next, rest := ListenOp(l, calls[0]), calls[1..];
    assert Listened(l, calls[..0]) == l;
    forall k: nat | k <= |rest| ensures Listened(l, calls[..k + 1]) == Listened(next, rest[..k]) {
      assert calls[..k + 1][1..] == rest[..k];
    }
    if AlwaysConsistent(next, rest) {
      forall k: nat | k <= |calls| ensures Consistent(Listened(l, calls[..k])) {
        if k > 0 {
          assert Consistent(Listened(next, rest[..k - 1]));
        }
      }
    }
  }
}
