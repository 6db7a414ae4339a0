/** The callbacks of the object service: retrieved data overwrites, data sent by a peer
    only fills what is missing, and the session is announced as restored once. */
module DataCallbacks {
  import opened StorageEngine

  /** A call of the engine's NotifyStatus or NotifyChange. */
  datatype Notice = Restored(s: Session) | Changed(s: Session, data: Table)

  datatype Store = Store(engine: Engine, retrieved: seq<Session>, told: seq<Notice>)

  /** A callback as one step; `Local` is whatever else happens to the tables meanwhile. */
  datatype Action =
    | Retrieve(s: Session, data: Table, allReady: bool, putOk: bool)
    | DataChange(s: Session, data: Table, allReady: bool, readOk: bool, failure: nat, putOk: bool)
    | Check(s: Session)
    | Local(engine: Engine)

  function Announce(st: Store, s: Session, allReady: bool): Store {
    if allReady && s !in st.retrieved
    then st.(retrieved := st.retrieved + [s], told := st.told + [Restored(s)])
    else st
  }

  function RetrieveOp(st: Store, s: Session, data: Table, allReady: bool, putOk: bool): Store {
    if data == map[] then st
    else Announce(st.(engine := UpdateItems(st.engine, s, data, putOk).0), s, allReady)
  }

  function Filtered(e: Engine, s: Session, data: Table, readOk: bool, failure: nat): Table {
    data - GetItems(e, s, readOk, failure).1.Keys
  }

  function DataChangeOp(st: Store, s: Session, data: Table, allReady: bool,
                        readOk: bool, failure: nat, putOk: bool): Store
  {
    var rest := Filtered(st.engine, s, data, readOk, failure);
    var st' := if rest == map[] then st
               else st.(engine := UpdateItems(st.engine, s, rest, putOk).0, told := st.told + [Changed(s, rest)]);
    Announce(st', s, allReady)
  }

  function Position(ss: seq<Session>, s: Session): (p: nat)
    ensures p <= |ss| && s !in ss[..p] && (p < |ss| <==> s in ss) && (p < |ss| ==> ss[p] == s)
  {
    if ss == [] || ss[0] == s then 0
    else
      var p := 1 + Position(ss[1..], s);
      assert ss[..p] == [ss[0]] + ss[1..][..p - 1];
      p
  }

  function CheckOp(st: Store, s: Session): Store {
    var p := Position(st.retrieved, s);
    if p == |st.retrieved| then st
    else st.(retrieved := st.retrieved[..p] + st.retrieved[p + 1..], told := st.told + [Restored(s)])
  }

  function Next(st: Store, a: Action): Store {
    match a
    case Retrieve(s, data, allReady, putOk) => RetrieveOp(st, s, data, allReady, putOk)
    case DataChange(s, data, allReady, readOk, failure, putOk) =>
      DataChangeOp(st, s, data, allReady, readOk, failure, putOk)
    case Check(s) => CheckOp(st, s)
    case Local(e) => st.(engine := e)
  }

  function Run(st: Store, actions: seq<Action>): Store {
    if actions == [] then st
    else Next(Run(st, actions[..|actions| - 1]), actions[|actions| - 1])
  }

  // ---- Whose data wins ----

  predicate Live(e: Engine, s: Session) {
    e.isOpen && s in e.delegates
  }

  /** With the local data read, a peer's data adds exactly the missing keys and alters
      none; nothing is written to any other session. */
  lemma LocalDataWins(st: Store, a: Action)
    requires a.DataChange? && Live(st.engine, a.s) && a.readOk
    ensures var was, now := st.engine.delegates, Next(st, a).engine.delegates;
            && now.Keys == was.Keys
            && now[a.s] == (if a.putOk then a.data + was[a.s] else was[a.s])
            && forall other :: other in was && other != a.s ==> now[other] == was[other]
    ensures Next(st, a).engine.observers == st.engine.observers
  {
    var rest, table := Filtered(st.engine, a.s, a.data, a.readOk, a.failure), st.engine.delegates[a.s];
    assert table + rest == a.data + table;
    if rest == map[] {
      forall k | k in a.data ensures k in table {
        assert k !in rest;
      }
    }
  }

  /** Every local value survives if and only if the local data could be read, or the
      write failed, or there was nothing to disagree about. */
  lemma LocalDataWinsIff(st: Store, a: Action)
    requires a.DataChange? && Live(st.engine, a.s)
    ensures var was, now := st.engine.delegates[a.s], Next(st, a).engine.delegates;
            (a.s in now && forall k :: k in was ==> k in now[a.s] && now[a.s][k] == was[k])
            <==> a.readOk || !a.putOk || forall k :: k in was && k in a.data ==> was[k] == a.data[k]
  {
    if a.readOk {
      LocalDataWins(st, a);
    } else {
      assert a.data - {} == a.data;
      if a.putOk && a.data != map[] {
        assert Next(st, a).engine.delegates[a.s] == st.engine.delegates[a.s] + a.data;
      }
    }
  }

  /** The same data a second time changes no table and reports no change. */
  lemma DataChangeIdempotent(st: Store, a: Action)
    requires a.DataChange? && Live(st.engine, a.s) && a.readOk && a.putOk
    ensures var once := Next(st, a); Next(once, a) == once
  {
  }

  lemma RetrieveOverwrites(st: Store, a: Action)
    requires a.Retrieve? && Live(st.engine, a.s)
    ensures var was, now := st.engine.delegates, Next(st, a).engine.delegates;
            && now.Keys == was.Keys
            && now[a.s] == (if a.putOk then was[a.s] + a.data else was[a.s])
            && forall other :: other in was && other != a.s ==> now[other] == was[other]
  {
  }

  /** A run of peers' data for one session, each read and written. */
  ghost predicate Peers(actions: seq<Action>, s: Session) {
    forall i :: 0 <= i < |actions| ==> actions[i].DataChange? && actions[i].s == s && actions[i].readOk && actions[i].putOk
  }

  /** Where a key first appears in what the peers sent; the number of actions if nowhere. */
  ghost predicate FirstSender(actions: seq<Action>, k: string, p: nat)
    requires forall i :: 0 <= i < |actions| ==> actions[i].DataChange?
  {
    && p <= |actions| && (p < |actions| ==> k in actions[p].data)
    && forall i :: 0 <= i < p ==> k !in actions[i].data
  }

  /** Whatever the number and order of the peers, a key keeps its local value, or takes
      the value of the first peer that sent it. */
  lemma {:induction false} FirstWriterWins(st: Store, actions: seq<Action>, s: Session, k: string, p: nat)
    requires Live(st.engine, s) && Peers(actions, s) && FirstSender(actions, k, p)
    ensures var now := Run(st, actions).engine;
            && Live(now, s)
            && (k in now.delegates[s] <==> k in st.engine.delegates[s] || p < |actions|)
            && (k in now.delegates[s] ==>
                  now.delegates[s][k] == if k in st.engine.delegates[s] then st.engine.delegates[s][k]
                                         else actions[p].data[k])
  {
    if actions != [] {
      var n := |actions| - 1;
      var before := Run(st, actions[..n]);
      FirstWriterWins(st, actions[..n], s, k, if p <= n then p else n);
      LocalDataWins(before, actions[n]);
      assert Next(before, actions[n]).engine.isOpen;
    }
  }

  // ---- What is reported ----

  /** The entries of the data that the local table, if it could be read, does not have. */
  function Missing(st: Store, a: Action): Table
    requires a.DataChange?
  {
    map k | k in a.data && !(Live(st.engine, a.s) && a.readOk && k in st.engine.delegates[a.s]) :: a.data[k]
  }

  /** A data change reports exactly the missing entries, in one call, if there are any,
      whether or not they could be written; then the session, if it completes now. */
  lemma ReportsMissing(st: Store, a: Action)
    requires a.DataChange?
    ensures Next(st, a).told
         == st.told + (if Missing(st, a) == map[] then [] else [Changed(a.s, Missing(st, a))])
            + (if a.allReady && a.s !in st.retrieved then [Restored(a.s)] else [])
  {
    assert Filtered(st.engine, a.s, a.data, a.readOk, a.failure) == Missing(st, a);
  }

  /** A retrieval reports no change: only the session, if it completes now. */
  lemma RetrieveReports(st: Store, a: Action)
    requires a.Retrieve?
    ensures Next(st, a).told
         == st.told + (if a.data != map[] && a.allReady && a.s !in st.retrieved then [Restored(a.s)] else [])
  {
  }

  /** The keys reported as changed for a session. */
  ghost function Reported(told: seq<Notice>, s: Session): set<string> {
    if told == [] then {}
    else
      var n := told[|told| - 1];
      Reported(told[..|told| - 1], s) + (if n.Changed? && n.s == s then n.data.Keys else {})
  }

  lemma ReportedMore(told: seq<Notice>, n: Notice, s: Session)
    ensures Reported(told + [n], s) == Reported(told, s) + if n.Changed? && n.s == s then n.data.Keys else {}
  {
    assert (told + [n])[..|told|] == told;
  }

  lemma ReportedTail(told: seq<Notice>, x: Session, m: Table, restored: bool, s: Session)
    ensures Reported(told + (if m == map[] then [] else [Changed(x, m)]) + (if restored then [Restored(x)] else []), s)
         == Reported(told, s) + if x == s then m.Keys else {}
  {
    var changed := told + if m == map[] then [] else [Changed(x, m)];
    ReportedMore(told, Changed(x, m), s);
    ReportedMore(changed, Restored(x), s);
    hide Reported;
    assert told + [] == told && changed + [] == changed;
  }

  lemma TableGains(st: Store, a: Action, s: Session)
    requires a.DataChange? && a.readOk && a.putOk && Live(st.engine, s)
    ensures var now := Next(st, a).engine;
            && Live(now, s)
            && now.delegates[s].Keys == st.engine.delegates[s].Keys + (if a.s == s then Missing(st, a).Keys else {})
            && (a.s == s ==> Missing(st, a).Keys !! st.engine.delegates[s].Keys)
  {
    if a.s == s {
      LocalDataWins(st, a);
    }
  }

  lemma ReportedStep(st: Store, a: Action, s: Session)
    requires a.DataChange? && a.readOk && a.putOk && Live(st.engine, s)
    ensures var now := Next(st, a);
            && Live(now.engine, s)
            && Reported(now.told, s)
               == Reported(st.told, s) + (now.engine.delegates[s].Keys - st.engine.delegates[s].Keys)
            && st.engine.delegates[s].Keys <= now.engine.delegates[s].Keys
  {
    hide Reported, Next, Missing;
    ReportsMissing(st, a);
    ReportedTail(st.told, a.s, Missing(st, a), a.allReady && a.s !in st.retrieved, s);
    TableGains(st, a, s);
  }

  /** Over any run of peers' data, read and written, for whatever sessions: the keys
      reported for a session are exactly those that its table has gained. */
  lemma {:induction false} ReportsWhatItAdds(st: Store, actions: seq<Action>, s: Session)
    requires Live(st.engine, s)
    requires forall i :: 0 <= i < |actions| ==> actions[i].DataChange? && actions[i].readOk && actions[i].putOk
    ensures var now := Run(st, actions);
            && Live(now.engine, s)
            && Reported(now.told, s)
               == Reported(st.told, s) + (now.engine.delegates[s].Keys - st.engine.delegates[s].Keys)
            && st.engine.delegates[s].Keys <= now.engine.delegates[s].Keys
  {
    hide Reported, Next;
    if actions != [] {
      var n := |actions| - 1;
      ReportsWhatItAdds(st, actions[..n], s);
      ReportedStep(Run(st, actions[..n]), actions[n], s);
    }
  }

  // ---- How often a session is announced ----

  predicate Distinct(ss: seq<Session>) {
    forall i, j :: 0 <= i < j < |ss| ==> ss[i] != ss[j]
  }

  function Announcements(told: seq<Notice>, s: Session): nat {
    if told == [] then 0
    else Announcements(told[..|told| - 1], s) + if told[|told| - 1] == Restored(s) then 1 else 0
  }

  /** The checks of a run that find the session in the cache. */
  function Hits(st: Store, actions: seq<Action>, s: Session): nat {
    if actions == [] then 0
    else
      var before, a := actions[..|actions| - 1], actions[|actions| - 1];
      Hits(st, before, s) + if a == Check(s) && s in Run(st, before).retrieved then 1 else 0
  }

  function Cached(st: Store, s: Session): nat {
    if s in st.retrieved then 1 else 0
  }

  lemma ToldMore(told: seq<Notice>, n: Notice, s: Session)
    ensures Announcements(told + [n], s) == Announcements(told, s) + if n == Restored(s) then 1 else 0
  {
  }

  lemma AnnounceStep(st: Store, s: Session, allReady: bool, t: Session)
    requires Distinct(st.retrieved)
    ensures var now := Announce(st, s, allReady);
            && Distinct(now.retrieved)
            && (t in now.retrieved <==> t in st.retrieved || (allReady && t == s))
            && Announcements(now.told, t) - Announcements(st.told, t) == Cached(now, t) - Cached(st, t)
  {
  }

  lemma CheckStep(st: Store, s: Session, t: Session)
    requires Distinct(st.retrieved)
    ensures var now := CheckOp(st, s);
            && Distinct(now.retrieved)
            && (t in now.retrieved <==> t in st.retrieved && t != s)
            && Announcements(now.told, t) - Announcements(st.told, t)
               == if t == s && s in st.retrieved then 1 else 0
  {
  }

  /** The session completes in this callback. */
  predicate Completes(a: Action, s: Session) {
    match a
    case Retrieve(t, data, allReady, _) => t == s && allReady && data != map[]
    case DataChange(t, _, allReady, _, _, _) => t == s && allReady
    case _ => false
  }

  lemma AnnouncedStep(st: Store, a: Action, s: Session)
    requires Distinct(st.retrieved)
    ensures var now := Next(st, a);
            && Distinct(now.retrieved)
            && (s in now.retrieved <==> Completes(a, s) || (s in st.retrieved && a != Check(s)))
            && Announcements(now.told, s) - Announcements(st.told, s)
               == Cached(now, s) - Cached(st, s) + if a == Check(s) && s in st.retrieved then 2 else 0
  {
    hide Announce, CheckOp, Announcements, UpdateItems, GetItems;
    match a
    case Retrieve(t, data, allReady, putOk) =>
      if data != map[] {
        AnnounceStep(st.(engine := UpdateItems(st.engine, t, data, putOk).0), t, allReady, s);
      }
    case DataChange(t, data, allReady, readOk, failure, putOk) =>
      var rest := Filtered(st.engine, t, data, readOk, failure);
      if rest == map[] {
        AnnounceStep(st, t, allReady, s);
      } else {
        ToldMore(st.told, Changed(t, rest), s);
        AnnounceStep(st.(engine := UpdateItems(st.engine, t, rest, putOk).0, told := st.told + [Changed(t, rest)]),
                     t, allReady, s);
      }
    case Check(t) => CheckStep(st, t, s);
    case Local(_) =>
  }

  /** Over every run: the cache holds no session twice, and a session was announced twice
      for each check that found it, and once more if it is cached now. */
  lemma {:induction false} AnnouncementsBalance(st: Store, actions: seq<Action>, s: Session)
    requires Distinct(st.retrieved)
    ensures var now := Run(st, actions);
            && Distinct(now.retrieved)
            && Announcements(now.told, s) - Announcements(st.told, s)
               == 2 * Hits(st, actions, s) + Cached(now, s) - Cached(st, s)
  {
    if actions != [] {
      var n := |actions| - 1;
      AnnouncementsBalance(st, actions[..n], s);
      AnnouncedStep(Run(st, actions[..n]), actions[n], s);
    }
  }

  ghost predicate SomeCompletes(actions: seq<Action>, s: Session) {
    exists i :: 0 <= i < |actions| && Completes(actions[i], s)
  }

  /** Between two checks of a session, the callbacks announce it at most once: exactly
      once if one of them completes it and it was not already cached. */
  lemma {:induction false} AnnouncedOnceBetweenChecks(st: Store, actions: seq<Action>, s: Session)
    requires Distinct(st.retrieved) && Check(s) !in actions
    ensures Announcements(Run(st, actions).told, s) - Announcements(st.told, s)
         == if s !in st.retrieved && SomeCompletes(actions, s) then 1 else 0
    ensures s in Run(st, actions).retrieved <==> s in st.retrieved || SomeCompletes(actions, s)
  {
    if actions != [] {
      var n := |actions| - 1;
      var before := actions[..n];
      assert actions == before + [actions[n]];
      AnnouncedOnceBetweenChecks(st, before, s);
      AnnouncementsBalance(st, before, s);
      AnnouncedStep(Run(st, before), actions[n], s);
      SomeCompletesStep(actions, s);
    }
  }

  lemma SomeCompletesStep(actions: seq<Action>, s: Session)
    requires actions != []
    ensures SomeCompletes(actions, s)
       <==> SomeCompletes(actions[..|actions| - 1], s) || Completes(actions[|actions| - 1], s)
  {
  }
}
