/** The per-session orchestrator cache (internal/exec/factory_cache.go). Orchestrators are numbered in
    the order the inner factory builds them. */
module FactoryCache {
  import opened Options

  /** The items map, the orchestrators that are closed, and the next one to be built. */
  datatype Shared = Shared(items: map<string, nat>, closed: set<nat>, next: nat)

  /** The open orchestrator cached for a session. */
  function Cached(x: Shared, s: string): Option<nat> {
    if s in x.items && x.items[s] !in x.closed then Some(x.items[s]) else None
  }

  /** For's re-check: drop the entry only if it is still the one found closed. */
  function DropStale(x: Shared, s: string, e: nat): Shared {
    if s in x.items && x.items[s] == e then x.(items := x.items - {s}) else x
  }

  /** For's last critical section: keep an open entry and close the newcomer, or install it. */
  function Store(x: Shared, s: string, o: nat): Shared {
    if Cached(x, s).Some? then x.(closed := x.closed + {o}) else x.(items := x.items[s := o])
  }

  /** Only orchestrators that have been built are cached or closed. */
  ghost predicate Numbered(x: Shared) {
    && (forall s :: s in x.items ==> x.items[s] < x.next)
    && (forall o :: o in x.closed ==> o < x.next)
  }

  class Cache {
    var items: map<string, nat>
    var closed: set<nat>
    var next: nat

    constructor ()
      ensures Now() == Shared(map[], {}, 0)
    {
      items, closed, next := map[], {}, 0;
    }

    function Now(): Shared
      reads this
    {
      Shared(items, closed, next)
    }

    /** The inner factory, called without the lock: others says what the other callers make of the cache by
        the time it returns a new orchestrator, or nil. */
    method Inner(builds: bool, others: Shared -> Shared) returns (o: Option<nat>)
      modifies this
      ensures builds ==> o == Some(others(old(Now())).next) && Now() == others(old(Now())).(next := others(old(Now())).next + 1)
      ensures !builds ==> o == None && Now() == others(old(Now()))
    {
      var met := others(Now());
      items, closed, next, o := met.items, met.closed, met.next, None;
      if builds {
        o, next := Some(next), next + 1;
      }
    }

    method CloseOrchestrator(o: nat)
      modifies this`closed
      ensures closed == old(closed) + {o}
    {
      closed := closed + {o};
    }

    /** The cached orchestrator while it is open. Else a stale entry is dropped and a new one built, which is then
        the cached one unless another caller installed its own meanwhile: then that one is returned and the new
        one closed. */
    method For(sessionID: string, builds: bool, others: Shared -> Shared) returns (r: Option<nat>)
      requires Numbered(Now()) && forall x :: Numbered(x) ==> Numbered(others(x))
      modifies this
      ensures Numbered(Now())
      ensures sessionID == "" ==>
                var met := others(old(Now()));
                r == (if builds then Some(met.next) else None) && items == met.items && closed == met.closed
      ensures sessionID != "" && Cached(old(Now()), sessionID).Some? ==>
                r == Cached(old(Now()), sessionID) && Now() == old(Now())
      ensures sessionID != "" && Cached(old(Now()), sessionID).None? ==>
                var met := others(old(Now()).(items := old(items) - {sessionID}));
                && (builds <==> r.Some?)
                && (r.Some? ==> Cached(Now(), sessionID) == r)
                && (!builds ==> Now() == met)
                && (Cached(met, sessionID).Some? && builds ==>
                      r == Cached(met, sessionID) && items == met.items && closed == met.closed + {met.next})
                && (Cached(met, sessionID).None? && builds ==> r == Some(met.next) && closed == met.closed)
                && (forall s :: s in items && s != sessionID ==> s in met.items && items[s] == met.items[s])
                && (forall s :: s in met.items ==> s in items)
    {
      if sessionID == "" {
        r := Inner(builds, others);
        return;
      }
      if sessionID in items {
        var existing := items[sessionID];
        if existing !in closed {
          return Some(existing);
        }
        items := items - {sessionID};
      }
      assert items == old(items) - {sessionID};
      assert Numbered(Now());
      r := Inner(builds, others);
      if r.None? {
        return;
      }
      if sessionID in items && items[sessionID] !in closed {
        CloseOrchestrator(r.value);
        return Some(items[sessionID]);
      }
      items := items[sessionID := r.value];
    }

    method Peek(sessionID: string) returns (r: Option<nat>)
      ensures r == Cached(Now(), sessionID)
    {
      if sessionID !in items || items[sessionID] in closed {
        return None;
      }
      return Some(items[sessionID]);
    }

    /** Removes the entry, then closes its orchestrator; a second Close changes nothing. */
    method CloseSession(sessionID: string)
      modifies this`items, this`closed
      ensures sessionID in old(items) ==> closed == old(closed) + {old(items)[sessionID]}
      ensures sessionID !in old(items) ==> closed == old(closed)
      ensures items == old(items) - {sessionID}
    {
      if sessionID in items {
        var orch := items[sessionID];
        items := items - {sessionID};
        CloseOrchestrator(orch);
      }
    }

    method CloseAll()
      modifies this`items, this`closed
      ensures items == map[] && closed == old(closed) + old(items).Values
    {
      var snapshot := items.Values;
      items := map[];
      var left := snapshot;
      while left != {}
        invariant items == map[] && left <= snapshot && closed == old(closed) + (snapshot - left)
        decreases |left|
      {
        var o :| o in left;
        CloseOrchestrator(o);
        left := left - {o};
      }
      assert snapshot - left == snapshot;
    }
  }

  // ------------------------------------------------------------------- concurrent callers

  /** Where a thread has got to: the critical sections above are one step each, and so are the checks,
      the build and the closes between them. */
  datatype Place =
    | Found(session: string, entry: nat)
    | Stale(session: string, entry: nat)
    | Building(session: string)
    | Built(session: string, orch: nat)
    | Closing(left: set<nat>)
    | Done(result: Option<nat>)

  datatype Sys = Sys(shared: Shared, at: map<nat, Place>, session: map<nat, string>,
                     returned: set<nat>, losers: set<nat>, installed: set<nat>)

  datatype Action =
    | CallFor(t: nat, s: string)
    | CheckOpen(t: nat)
    | Recheck(t: nat)
    | Build(t: nat, ok: bool)
    | Install(t: nat)
    | CallClose(t: nat, s: string)
    | CallCloseAll(t: nat)
    | CloseNext(t: nat, o: nat)
    | CloseOutside(o: nat)

  predicate Enabled(x: Sys, a: Action) {
    match a
    case CallFor(t, s) => t !in x.at && s != ""
    case CheckOpen(t) => t in x.at && x.at[t].Found?
    case Recheck(t) => t in x.at && x.at[t].Stale?
    case Build(t, _) => t in x.at && x.at[t].Building?
    case Install(t) => t in x.at && x.at[t].Built?
    case CallClose(t, _) => t !in x.at
    case CallCloseAll(t) => t !in x.at
    case CloseNext(t, o) => t in x.at && x.at[t].Closing? && o in x.at[t].left
    case CloseOutside(o) => o in x.returned
  }

  function Shut(x: Sys, o: nat): Sys {
    x.(shared := x.shared.(closed := x.shared.closed + {o}))
  }

  function Handed(x: Sys, t: nat, o: nat): Sys {
    x.(at := x.at[t := Done(Some(o))], returned := x.returned + {o})
  }

  function Apply(x: Sys, a: Action): Sys
    requires Enabled(x, a)
  {
    match a
    case CallFor(t, s) =>
      x.(at := x.at[t := if s in x.shared.items then Found(s, x.shared.items[s]) else Building(s)])
    case CheckOpen(t) =>
      var e := x.at[t].entry;
      if e in x.shared.closed then x.(at := x.at[t := Stale(x.at[t].session, e)]) else Handed(x, t, e)
    case Recheck(t) =>
      var s := x.at[t].session;
      x.(at := x.at[t := Building(s)], shared := DropStale(x.shared, s, x.at[t].entry))
    case Build(t, ok) =>
      var o := x.shared.next;
      if ok then
        x.(at := x.at[t := Built(x.at[t].session, o)], shared := x.shared.(next := o + 1),
           session := x.session[o := x.at[t].session])
      else x.(at := x.at[t := Done(None)])
    case Install(t) =>
      var s, o := x.at[t].session, x.at[t].orch;
      var y := x.(shared := Store(x.shared, s, o));
      (match Cached(x.shared, s)
       case Some(e) => Handed(y.(losers := y.losers + {o}), t, e)
       case None => Handed(y.(installed := y.installed + {o}), t, o))
    case CallClose(t, s) =>
      var taken := if s in x.shared.items then {x.shared.items[s]} else {};
      x.(at := x.at[t := Closing(taken)], shared := x.shared.(items := x.shared.items - {s}))
    case CallCloseAll(t) =>
      x.(at := x.at[t := Closing(x.shared.items.Values)], shared := x.shared.(items := map[]))
    case CloseNext(t, o) => Shut(x, o).(at := x.at[t := Closing(x.at[t].left - {o})])
    case CloseOutside(o) => Shut(x, o)
  }

  const START: Sys := Sys(Shared(map[], {}, 0), map[], map[], {}, {}, {})

  ghost predicate Runs(x: Sys, acts: seq<Action>, y: Sys)
    decreases |acts|
  {
    if acts == [] then x == y else Enabled(x, acts[0]) && Runs(Apply(x, acts[0]), acts[1..], y)
  }

  /** A Close or CloseAll in progress has taken o out and is going to close it. */
  predicate AboutToClose(x: Sys, o: nat) {
    exists t | t in x.at :: x.at[t].Closing? && o in x.at[t].left
  }

  /** Still cached, or closed, or about to be. */
  ghost predicate Kept(x: Sys, o: nat) {
    && o in x.session && o < x.shared.next
    && (o in x.shared.closed || AboutToClose(x, o)
        || (x.session[o] in x.shared.items && x.shared.items[x.session[o]] == o))
  }

  ghost predicate AllKept(x: Sys) {
    forall o :: o in x.installed ==> Kept(x, o)
  }

  ghost predicate Sorted(x: Sys) {
    && x.returned == x.installed && x.losers !! x.installed
    && x.losers <= x.shared.closed <= x.installed + x.losers
    && (forall o :: o in x.losers ==> o < x.shared.next)
    && (forall o :: o in x.installed ==> o < x.shared.next)
  }

  ghost predicate ItemsInstalled(x: Sys) {
    forall s :: s in x.shared.items ==>
      x.shared.items[s] in x.installed && x.shared.items[s] in x.session && x.session[x.shared.items[s]] == s
  }

  ghost predicate PlaceOk(x: Sys, p: Place) {
    match p
    case Found(s, e) => e in x.installed && e in x.session && x.session[e] == s
    case Stale(s, e) => e in x.installed && e in x.shared.closed && e in x.session && x.session[e] == s
    case Building(_) => true
    case Built(s, o) => o < x.shared.next && o !in x.installed && o !in x.losers && o in x.session && x.session[o] == s
    case Closing(left) => left <= x.installed
    case Done(r) => r.Some? ==> r.value in x.returned
  }

  ghost predicate PlacesOk(x: Sys) {
    forall t :: t in x.at ==> PlaceOk(x, x.at[t])
  }

  ghost predicate OneBuilder(x: Sys) {
    forall t, u :: t in x.at && u in x.at && t != u && x.at[t].Built? && x.at[u].Built? ==> x.at[t].orch != x.at[u].orch
  }

  ghost predicate Inv(x: Sys) {
    AllKept(x) && Sorted(x) && ItemsInstalled(x) && PlacesOk(x) && OneBuilder(x)
  }

  lemma KeptStep(x: Sys, a: Action, o: nat)
    requires Inv(x) && Enabled(x, a) && o in x.installed
    ensures Kept(Apply(x, a), o)
  {
    var y := Apply(x, a);
    assert Kept(x, o);
    if o !in x.shared.closed {
      if AboutToClose(x, o) {
        var t :| t in x.at && x.at[t].Closing? && o in x.at[t].left;
        if !(a.CloseNext? && a.t == t && a.o == o) {
          assert t in y.at && y.at[t].Closing? && o in y.at[t].left;
        }
      } else if a.CallClose? && a.s == x.session[o] {
        assert a.t in y.at && y.at[a.t].Closing? && o in y.at[a.t].left;
      } else if a.CallCloseAll? {
        assert o in x.shared.items.Values;
        assert a.t in y.at && y.at[a.t].Closing? && o in y.at[a.t].left;
      } else if a.Recheck? {
        assert PlaceOk(x, x.at[a.t]);
      } else if a.Build? {
        assert y.session[o] == x.session[o];
      }
    }
  }

  lemma InstallKept(x: Sys, a: Action, o: nat)
    requires Inv(x) && Enabled(x, a) && o in Apply(x, a).installed && o !in x.installed
    ensures Kept(Apply(x, a), o)
  {
    assert PlaceOk(x, x.at[a.t]);
  }

  lemma SortedStep(x: Sys, a: Action)
    requires Inv(x) && Enabled(x, a)
    ensures Sorted(Apply(x, a))
  {
    if !a.CloseOutside? && a.t in x.at { assert PlaceOk(x, x.at[a.t]); }
  }

  lemma ItemsStep(x: Sys, a: Action)
    requires Inv(x) && Enabled(x, a)
    ensures ItemsInstalled(Apply(x, a))
  {
    var y := Apply(x, a);
    if !a.CloseOutside? && a.t in x.at { assert PlaceOk(x, x.at[a.t]); }
    forall s | s in y.shared.items
      ensures y.shared.items[s] in y.installed && y.shared.items[s] in y.session && y.session[y.shared.items[s]] == s
    {
      if s in x.shared.items { assert x.shared.items[s] in x.installed; }
    }
  }

  lemma PlaceStep(x: Sys, a: Action, t: nat)
    requires Inv(x) && Enabled(x, a) && t in Apply(x, a).at
    ensures PlaceOk(Apply(x, a), Apply(x, a).at[t])
  {
    var y := Apply(x, a);
    hide AllKept, OneBuilder;
    if t in x.at { assert PlaceOk(x, x.at[t]); }
    if !a.CloseOutside? && a.t in x.at { assert PlaceOk(x, x.at[a.t]); }
    if !a.CloseOutside? && a.t == t {
      forall s | s in x.shared.items ensures x.shared.items[s] in x.installed {}
    }
    hide PlacesOk, ItemsInstalled;
  }

  lemma BuilderStep(x: Sys, a: Action)
    requires Inv(x) && Enabled(x, a)
    ensures OneBuilder(Apply(x, a))
  {
    forall t | t in x.at && x.at[t].Built? ensures x.at[t].orch < x.shared.next { assert PlaceOk(x, x.at[t]); }
  }

  lemma {:induction false} RunKeeps(x: Sys, acts: seq<Action>, y: Sys)
    requires Inv(x) && Runs(x, acts, y)
    ensures Inv(y) && x.losers <= y.losers && x.returned <= y.returned
    decreases |acts|
  {
    if acts != [] {
      var a := acts[0];
      var z := Apply(x, a);
      forall o | o in z.installed ensures Kept(z, o) {
        if o in x.installed { KeptStep(x, a, o); } else { InstallKept(x, a, o); }
      }
      forall t | t in z.at ensures PlaceOk(z, z.at[t]) { PlaceStep(x, a, t); }
      SortedStep(x, a);
      ItemsStep(x, a);
      BuilderStep(x, a);
      RunKeeps(z, acts[1..], y);
    }
  }

  /** In every interleaving, an open orchestrator that For has returned is the cached one of its session,
      or a Close in progress is about to close it. */
  lemma OpenIsCachedOrClosing(acts: seq<Action>, y: Sys, o: nat)
    requires Runs(START, acts, y) && o in y.returned && o !in y.shared.closed
    ensures o in y.session
    ensures AboutToClose(y, o) || Cached(y.shared, y.session[o]) == Some(o)
  {
    RunKeeps(START, acts, y);
    assert Kept(y, o);
  }

  /** In every interleaving, what Peek finds for a session is open, was handed out by For for that very session,
      and never lost a race. */
  lemma PeekSeesReturned(acts: seq<Action>, y: Sys, s: string, o: nat)
    requires Runs(START, acts, y) && Cached(y.shared, s) == Some(o)
    ensures o in y.returned && o !in y.shared.closed && o !in y.losers
    ensures o in y.session && y.session[o] == s
  {
    RunKeeps(START, acts, y);
  }

  /** So no two are open for one session while no Close is in progress. */
  lemma OneOpenPerSession(acts: seq<Action>, y: Sys, o: nat, p: nat)
    requires Runs(START, acts, y) && o in y.returned && p in y.returned
    requires o !in y.shared.closed && p !in y.shared.closed && !AboutToClose(y, o) && !AboutToClose(y, p)
    requires o in y.session && p in y.session && y.session[o] == y.session[p]
    ensures o == p
  {
    OpenIsCachedOrClosing(acts, y, o);
    OpenIsCachedOrClosing(acts, y, p);
  }

  /** A race loser is closed, and no For ever returns it, then or later. */
  lemma LosersAreClosed(acts: seq<Action>, y: Sys, more: seq<Action>, z: Sys, o: nat)
    requires Runs(START, acts, y) && Runs(y, more, z) && o in y.losers
    ensures o in y.shared.closed && o !in y.returned && o !in z.returned
  {
    RunKeeps(START, acts, y);
    RunKeeps(y, more, z);
  }

  // ------------------------------------------------------------------- what each call comes to

  predicate InFor(p: Place) {
    p.Found? || p.Stale? || p.Building? || p.Built?
  }

  function SessionOf(p: Place): string
    requires InFor(p)
  {
    match p
    case Found(s, _) => s
    case Stale(s, _) => s
    case Building(s) => s
    case Built(s, _) => s
  }

  /** In every interleaving a For hands out an orchestrator of its session that is open at that moment. */
  lemma HandsOutOpen(acts: seq<Action>, x: Sys, a: Action, t: nat, o: nat)
    requires Runs(START, acts, x) && Enabled(x, a) && t in Apply(x, a).at && Apply(x, a).at[t] == Done(Some(o))
    requires t in x.at ==> x.at[t] != Done(Some(o))
    ensures t in x.at && InFor(x.at[t]) && o !in Apply(x, a).shared.closed
    ensures o in Apply(x, a).session && Apply(x, a).session[o] == SessionOf(x.at[t])
  {
    RunKeeps(START, acts, x);
    assert PlaceOk(x, x.at[t]);
  }

  /** A For that is under way can finish by at most four steps of its own, with a build that succeeds; what it
      then returns is open, and the cached one unless it was found in the cache at once. */
  lemma {:induction false} ForFinishes(x: Sys, t: nat) returns (acts: seq<Action>, y: Sys, o: nat)
    requires Inv(x) && t in x.at && InFor(x.at[t])
    ensures Runs(x, acts, y) && |acts| <= Steps(x.at[t]) <= 4 && forall i :: 0 <= i < |acts| ==> Own(acts[i], t)
    ensures t in y.at && y.at[t] == Done(Some(o)) && o !in y.shared.closed
    ensures o in y.session && y.session[o] == SessionOf(x.at[t])
    ensures x.at[t].Found? && x.at[t].entry !in x.shared.closed ==> o == x.at[t].entry && y.shared == x.shared
    ensures !(x.at[t].Found? && x.at[t].entry !in x.shared.closed) ==> Cached(y.shared, SessionOf(x.at[t])) == Some(o)
    decreases Steps(x.at[t])
  {
    assert PlaceOk(x, x.at[t]);
    var a := match x.at[t]
             case Found(_, _) => CheckOpen(t)
             case Stale(_, _) => Recheck(t)
             case Building(_) => Build(t, true)
             case _ => Install(t);
    var z := Apply(x, a);
    if z.at[t].Done? {
      acts, y, o := [a], z, z.at[t].result.value;
      assert [a][1..] == [];
    } else {
      StepKeepsInv(x, a);
      var rest;
      rest, y, o := ForFinishes(z, t);
      acts := [a] + rest;
      assert acts[0] == a && acts[1..] == rest;
    }
  }

  function Steps(p: Place): nat {
    match p
    case Found(_, _) => 4
    case Stale(_, _) => 3
    case Building(_) => 2
    case Built(_, _) => 1
    case _ => 0
  }

  predicate Own(a: Action, t: nat) {
    match a
    case CallFor(u, _) => u == t
    case CheckOpen(u) => u == t
    case Recheck(u) => u == t
    case Build(u, _) => u == t
    case Install(u) => u == t
    case CallClose(u, _) => u == t
    case CallCloseAll(u) => u == t
    case CloseNext(u, _) => u == t
    case CloseOutside(_) => false
  }

  lemma StepKeepsInv(x: Sys, a: Action)
    requires Inv(x) && Enabled(x, a)
    ensures Inv(Apply(x, a))
  {
    assert [a][1..] == [];
    RunKeeps(x, [a], Apply(x, a));
  }

  /** While a session's orchestrator is cached and open, a new call returns it and builds nothing. */
  lemma CacheHit(x: Sys, t: nat, s: string, o: nat) returns (y: Sys)
    requires t !in x.at && s != "" && Cached(x.shared, s) == Some(o)
    ensures Runs(x, [CallFor(t, s), CheckOpen(t)], y)
    ensures t in y.at && y.at[t] == Done(Some(o)) && y.shared == x.shared && y.session == x.session
  {
    var z := Apply(x, CallFor(t, s));
    y := Apply(z, CheckOpen(t));
    var acts := [CallFor(t, s), CheckOpen(t)];
    assert acts[1..] == [CheckOpen(t)] && acts[1..][1..] == [];
    assert Runs(z, [CheckOpen(t)], y);
  }

  /** Without an entry it builds a new one, which is then cached. */
  lemma CacheMiss(x: Sys, t: nat, s: string) returns (y: Sys)
    requires Inv(x) && t !in x.at && s != "" && s !in x.shared.items
    ensures Runs(x, [CallFor(t, s), Build(t, true), Install(t)], y)
    ensures t in y.at && y.at[t] == Done(Some(x.shared.next)) && y.shared.closed == x.shared.closed
    ensures y.shared.items == x.shared.items[s := x.shared.next]
  {
    var x1 := Apply(x, CallFor(t, s));
    var x2 := Apply(x1, Build(t, true));
    y := Apply(x2, Install(t));
    var acts := [CallFor(t, s), Build(t, true), Install(t)];
    assert acts[1..] == [Build(t, true), Install(t)] && acts[1..][1..] == [Install(t)] && acts[1..][1..][1..] == [];
    assert Runs(x2, [Install(t)], y);
    assert Runs(x1, [Build(t, true), Install(t)], y);
  }

  /** A closed entry is dropped before the build, so that a failed build leaves nothing behind. */
  lemma StaleIsDropped(x: Sys, t: nat, s: string) returns (x3: Sys, y: Sys)
    requires Inv(x) && t !in x.at && s != "" && s in x.shared.items && x.shared.items[s] in x.shared.closed
    ensures Runs(x, [CallFor(t, s), CheckOpen(t), Recheck(t)], x3) && x3.shared.items == x.shared.items - {s}
    ensures Runs(x3, [Build(t, true), Install(t)], y)
    ensures t in y.at && y.at[t] == Done(Some(x.shared.next)) && y.shared.closed == x.shared.closed
    ensures y.shared.items == x.shared.items[s := x.shared.next]
  {
    var x1 := Apply(x, CallFor(t, s));
    var x2 := Apply(x1, CheckOpen(t));
    x3 := Apply(x2, Recheck(t));
    RunsThree(x, x1, x2, x3, [CallFor(t, s), CheckOpen(t), Recheck(t)]);
    NewIsOpen(x);
    y := Rebuilt(x3, t, s);
    assert x.shared.items - {s} + map[s := x.shared.next] == x.shared.items[s := x.shared.next];
  }

  lemma Rebuilt(x: Sys, t: nat, s: string) returns (y: Sys)
    requires t in x.at && x.at[t] == Building(s) && s !in x.shared.items
    ensures Runs(x, [Build(t, true), Install(t)], y)
    ensures t in y.at && y.at[t] == Done(Some(x.shared.next)) && y.shared.closed == x.shared.closed
    ensures y.shared.items == x.shared.items[s := x.shared.next]
  {
    var x1 := Apply(x, Build(t, true));
    y := Apply(x1, Install(t));
    var acts := [Build(t, true), Install(t)];
    assert acts[1..] == [Install(t)] && acts[1..][1..] == [];
    assert Runs(x1, [Install(t)], y);
  }

  lemma NewIsOpen(x: Sys)
    requires Inv(x)
    ensures x.shared.next !in x.shared.closed
  {
  }

  lemma RunsThree(x: Sys, x1: Sys, x2: Sys, y: Sys, acts: seq<Action>)
    requires |acts| == 3 && Enabled(x, acts[0]) && x1 == Apply(x, acts[0]) && Enabled(x1, acts[1]) && x2 == Apply(x1, acts[1])
    requires Enabled(x2, acts[2]) && y == Apply(x2, acts[2])
    ensures Runs(x, acts, y)
  {
    hide Enabled, Apply;
    assert acts[1..][1..] == acts[2..] && acts[2..][1..] == [];
    assert Runs(x2, acts[2..], y);
    assert Runs(x1, acts[1..], y);
  }

  /** Close takes its session out at once, CloseAll everything; each then closes what it took, one by one, and
      nothing else. */
  lemma CloseTakes(x: Sys, t: nat, s: string)
    requires t !in x.at
    ensures var y := Apply(x, CallClose(t, s));
            && s !in y.shared.items && (forall u :: u in x.shared.items && u != s ==> u in y.shared.items)
            && t in y.at && y.at[t].Closing? && forall o :: o in y.at[t].left <==> s in x.shared.items && o == x.shared.items[s]
    ensures var y := Apply(x, CallCloseAll(t));
            && y.shared.items == map[]
            && t in y.at && y.at[t].Closing?
            && forall o :: o in y.at[t].left <==> exists u :: u in x.shared.items && o == x.shared.items[u]
  {
  }

  /** An orchestrator that somebody else closes is no longer served. */
  lemma ClosedOutside(x: Sys, o: nat, s: string)
    requires o in x.returned
    ensures o in Apply(x, CloseOutside(o)).shared.closed && Cached(Apply(x, CloseOutside(o)).shared, s) != Some(o)
  {
  }

  lemma {:induction false} CloseFinishes(x: Sys, t: nat) returns (acts: seq<Action>, y: Sys)
    requires t in x.at && x.at[t].Closing?
    ensures Runs(x, acts, y) && |acts| == |x.at[t].left| && forall i :: 0 <= i < |acts| ==> acts[i].CloseNext? && acts[i].t == t
    ensures t in y.at && y.at[t] == Closing({}) && y.shared == x.shared.(closed := x.shared.closed + x.at[t].left)
    decreases |x.at[t].left|
  {
    var left := x.at[t].left;
    if left == {} {
      acts, y := [], x;
    } else {
      var o :| o in left;
      var z := Apply(x, CloseNext(t, o));
      var rest;
      rest, y := CloseFinishes(z, t);
      acts := [CloseNext(t, o)] + rest;
      assert acts[1..] == rest;
      assert x.shared.closed + {o} + (left - {o}) == x.shared.closed + left;
    }
  }
}
