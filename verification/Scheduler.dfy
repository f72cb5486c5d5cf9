/** Kahn's algorithm over the declared steps (internal/exec/scheduler.go). */
module Scheduler {
  import opened Graph

  datatype TopoResult = Order(ids: seq<Id>) | CycleError(nodes: seq<Id>)

  /** Reading a Go map of slices: a missing key is the empty slice. */
  function Get(m: map<Id, seq<Id>>, k: Id): seq<Id> {
    if k in m then m[k] else []
  }

  /** How often adj lists x as a dependent of d. */
  ghost function Occurs(adj: map<Id, seq<Id>>, d: Id, x: Id): nat {
    multiset(Get(adj, d))[x]
  }

  /** The adjacency lists invert the dependency lists, occurrence by occurrence. */
  ghost predicate Inverts(adj: map<Id, seq<Id>>, g: Deps) {
    forall d, x :: Occurs(adj, d, x) == if x in g then multiset(g[x])[d] else 0
  }

  /** A step that can never be ordered while nodes are not. */
  ghost predicate Waits(g: Deps, x: Id, nodes: seq<Id>) {
    x in g && exists d :: d in g[x] && (d in nodes || d !in g)
  }

  ghost predicate ExactlyWaiting(g: Deps, nodes: seq<Id>) {
    forall x {:trigger Waits(g, x, nodes)} :: x in nodes <==> Waits(g, x, nodes)
  }

  /** c keeps x from ever being ordered: it is undeclared or on a cycle, and x is c or depends on it. */
  ghost predicate Blames(g: Deps, c: Id, x: Id) {
    (c !in g || Reaches(g, c, c)) && (c == x || Reaches(g, c, x))
  }

  /** x lies on a cycle, below one, or below an undeclared step. */
  ghost predicate Unorderable(g: Deps, x: Id) {
    x in g && exists c :: Blames(g, c, x)
  }

  ghost function SetOf(xs: seq<Id>): set<Id> {
    set x | x in xs
  }

  lemma SetOfAppend(xs: seq<Id>, x: Id)
    ensures SetOf(xs + [x]) == SetOf(xs) + {x}
  {}

  ghost predicate CountsOpen(g: Deps, inDegree: map<Id, int>, done: set<Id>) {
    inDegree.Keys == g.Keys && forall s :: s in g ==> inDegree[s] == Outside(g[s], done)
  }

  /** The steps that are ordered or queued are exactly those with in-degree zero. */
  ghost predicate Exposed(g: Deps, inDegree: map<Id, int>, order: seq<Id>, queue: seq<Id>) {
    && NoDuplicates(order) && NoDuplicates(queue) && SetOf(order) !! SetOf(queue)
    && forall s :: s in SetOf(order) + SetOf(queue) <==> s in g && s in inDegree && inDegree[s] == 0
  }

  ghost predicate DepsPrecede(g: Deps, order: seq<Id>) {
    forall i, d :: 0 <= i < |order| && order[i] in g && d in g[order[i]] ==> d in order[..i]
  }

  /** Kahn's invariant. */
  ghost predicate Kahn(g: Deps, inDegree: map<Id, int>, order: seq<Id>, queue: seq<Id>) {
    && CountsOpen(g, inDegree, SetOf(order))
    && Exposed(g, inDegree, order, queue)
    && DepsPrecede(g, order)
  }

  /** adj lists s under its dependencies deps, beside what adj0 lists. */
  ghost predicate Added(adj0: map<Id, seq<Id>>, adj: map<Id, seq<Id>>, s: Id, deps: seq<Id>) {
    forall d, x :: Occurs(adj, d, x) == Occurs(adj0, d, x) + if x == s then multiset(deps)[d] else 0
  }

  lemma NothingAdded(adj: map<Id, seq<Id>>, s: Id)
    ensures forall deps: seq<Id> :: deps == [] ==> Added(adj, adj, s, deps)
  {
  }

  lemma OneAdded(adj0: map<Id, seq<Id>>, adj: map<Id, seq<Id>>, s: Id, deps: seq<Id>, dep: Id)
    requires Added(adj0, adj, s, deps)
    ensures Added(adj0, adj[dep := Get(adj, dep) + [s]], s, deps + [dep])
  {
    var adj1 := adj[dep := Get(adj, dep) + [s]];
    forall d, x ensures Occurs(adj1, d, x) == Occurs(adj, d, x) + if x == s && d == dep then 1 else 0 {}
  }

  lemma AddedMeans(adj0: map<Id, seq<Id>>, adj: map<Id, seq<Id>>, s: Id, deps: seq<Id>)
    requires Added(adj0, adj, s, deps)
    ensures forall d, x :: Occurs(adj, d, x) == Occurs(adj0, d, x) + if x == s then multiset(deps)[d] else 0
  {
  }

  /** Adds one step's dependency list to the adjacency lists and in-degrees. */
  method IndexStep(s: Step, inDegree0: map<Id, int>, adj0: map<Id, seq<Id>>)
    returns (inDegree: map<Id, int>, adj: map<Id, seq<Id>>)
    requires s.id in inDegree0
    ensures inDegree == inDegree0[s.id := inDegree0[s.id] + |s.dependsOn|]
    ensures forall d, x :: Occurs(adj, d, x) ==
              Occurs(adj0, d, x) + if x == s.id then multiset(s.dependsOn)[d] else 0
  {
    hide Added;
    NothingAdded(adj0, s.id);
    inDegree, adj := inDegree0, adj0;
    for j := 0 to |s.dependsOn|
      invariant inDegree == inDegree0[s.id := inDegree0[s.id] + j]
      invariant Added(adj0, adj, s.id, s.dependsOn[..j])
    {
      var dep := s.dependsOn[j];
      OneAdded(adj0, adj, s.id, s.dependsOn[..j], dep);
      adj := adj[dep := Get(adj, dep) + [s.id]];
      inDegree := inDegree[s.id := inDegree[s.id] + 1];
      assert s.dependsOn[..j + 1] == s.dependsOn[..j] + [dep];
    }
    assert s.dependsOn[..|s.dependsOn|] == s.dependsOn;
    AddedMeans(adj0, adj, s.id, s.dependsOn);
  }

  method ZeroDegrees(steps: seq<Step>) returns (inDegree: map<Id, int>)
    requires UniqueIds(steps)
    ensures inDegree.Keys == IdsOf(steps)
    ensures forall x :: x in inDegree ==> inDegree[x] == 0
  {
    inDegree := map[];
    for i := 0 to |steps|
      invariant inDegree.Keys == IdsOf(steps[..i])
      invariant forall x :: x in inDegree ==> inDegree[x] == 0
    {
      inDegree := inDegree[steps[i].id := 0];
      IdsGrow(steps, i);
    }
    assert steps[..|steps|] == steps;
  }

  method BuildIndex(steps: seq<Step>) returns (inDegree: map<Id, int>, adj: map<Id, seq<Id>>)
    requires UniqueIds(steps)
    ensures Indexed(DepsOf(steps), DepsOf(steps).Keys, inDegree, adj)
  {
    inDegree := ZeroDegrees(steps);
    adj := map[];
    IndexedStart(steps, inDegree);
    for i := 0 to |steps|
      invariant Indexed(DepsOf(steps), IdsOf(steps[..i]), inDegree, adj)
    {
      assert steps[i] in steps;
      ghost var inDegree0, adj0 := inDegree, adj;
      inDegree, adj := IndexStep(steps[i], inDegree, adj);
      IndexedGrows(steps, i, inDegree0, adj0, inDegree, adj);
    }
    assert steps[..|steps|] == steps;
  }

  /** In-degrees and adjacency lists account for the dependency lists of exactly the steps in done. */
  ghost predicate Indexed(g: Deps, done: set<Id>, inDegree: map<Id, int>, adj: map<Id, seq<Id>>) {
    && done <= g.Keys == inDegree.Keys
    && (forall x :: x in g ==> inDegree[x] == if x in done then |g[x]| else 0)
    && (forall d, x :: Occurs(adj, d, x) == if x in done then multiset(g[x])[d] else 0)
  }

  lemma IndexedStart(steps: seq<Step>, inDegree: map<Id, int>)
    requires UniqueIds(steps) && inDegree.Keys == IdsOf(steps)
    requires forall x :: x in inDegree ==> inDegree[x] == 0
    ensures Indexed(DepsOf(steps), IdsOf(steps[..0]), inDegree, map[])
  {
    assert steps[..0] == [];
  }

  lemma IndexedGrows(steps: seq<Step>, i: nat, inDegree0: map<Id, int>, adj0: map<Id, seq<Id>>,
                     inDegree: map<Id, int>, adj: map<Id, seq<Id>>)
    requires UniqueIds(steps) && i < |steps|
    requires Indexed(DepsOf(steps), IdsOf(steps[..i]), inDegree0, adj0)
    requires inDegree == inDegree0[steps[i].id := inDegree0[steps[i].id] + |steps[i].dependsOn|]
    requires forall d, x :: Occurs(adj, d, x) ==
               Occurs(adj0, d, x) + if x == steps[i].id then multiset(steps[i].dependsOn)[d] else 0
    ensures Indexed(DepsOf(steps), IdsOf(steps[..i + 1]), inDegree, adj)
  {
    IdsGrow(steps, i);
    assert DepsOf(steps)[steps[i].id] == steps[i].dependsOn;
  }

  lemma IdsGrow(steps: seq<Step>, i: nat)
    requires UniqueIds(steps) && i < |steps|
    ensures IdsOf(steps[..i + 1]) == IdsOf(steps[..i]) + {steps[i].id}
    ensures steps[i].id !in IdsOf(steps[..i])
    ensures steps[i].id in IdsOf(steps) && IdsOf(steps[..i]) <= IdsOf(steps)
  {
    assert steps[..i + 1] == steps[..i] + [steps[i]];
  }

  /** Marks node as ordered: decrements every dependent, queueing those that reach zero. */
  method Release(ghost g: Deps, adj: map<Id, seq<Id>>, node: Id, ghost order: seq<Id>,
                 inDegree0: map<Id, int>, queue0: seq<Id>)
    returns (inDegree: map<Id, int>, queue: seq<Id>)
    requires Inverts(adj, g) && Kahn(g, inDegree0, order, [node] + queue0)
    ensures Kahn(g, inDegree, order + [node], queue) && queue0 <= queue
  {
    inDegree, queue := inDegree0, queue0;
    var ns := Get(adj, node);
    ghost var grown := order + [node];
    NodeMoves(g, adj, node, order, inDegree0, queue0);
    for k := 0 to |ns|
      invariant Lowered(g, inDegree0, inDegree, ns[..k])
      invariant Exposed(g, inDegree, grown, queue) && queue0 <= queue
    {
      var neighbor := ns[k];
      LoweredGrows(g, adj, node, SetOf(order), inDegree0, inDegree, k);
      DropOne(g, inDegree, grown, queue, neighbor);
      inDegree := inDegree[neighbor := inDegree[neighbor] - 1];
      if inDegree[neighbor] == 0 {
        queue := queue + [neighbor];
      }
    }
    assert ns[..|ns|] == ns;
  }

  /** inDegree is inDegree0 after one decrement per entry of ns. */
  ghost predicate Lowered(g: Deps, inDegree0: map<Id, int>, inDegree: map<Id, int>, ns: seq<Id>) {
    && inDegree0.Keys == inDegree.Keys == g.Keys
    && forall s :: s in g ==> inDegree[s] == inDegree0[s] - multiset(ns)[s]
  }

  lemma LoweredGrows(g: Deps, adj: map<Id, seq<Id>>, node: Id, done: set<Id>,
                     inDegree0: map<Id, int>, inDegree: map<Id, int>, k: nat)
    requires Inverts(adj, g) && CountsOpen(g, inDegree0, done) && node !in done
    requires k < |Get(adj, node)| && Lowered(g, inDegree0, inDegree, Get(adj, node)[..k])
    ensures var nb := Get(adj, node)[k];
            nb in g && inDegree[nb] > 0 &&
            Lowered(g, inDegree0, inDegree[nb := inDegree[nb] - 1], Get(adj, node)[..k + 1])
  {
    var ns := Get(adj, node);
    PrefixCount(ns, k);
    assert Occurs(adj, node, ns[k]) > 0;
    OutsideSettle(g[ns[k]], done, node);
    OccIsMultiplicity(g[ns[k]], node);
  }

  lemma DropOne(g: Deps, inDegree: map<Id, int>, order: seq<Id>, queue: seq<Id>, nb: Id)
    requires inDegree.Keys == g.Keys && nb in g && inDegree[nb] > 0
    requires Exposed(g, inDegree, order, queue)
    ensures Exposed(g, inDegree[nb := inDegree[nb] - 1], order, if inDegree[nb] == 1 then queue + [nb] else queue)
  {
    SetOfAppend(queue, nb);
    assert nb !in SetOf(queue);
  }

  lemma PrefixCount(ns: seq<Id>, k: nat)
    requires k < |ns|
    ensures multiset(ns[..k + 1]) == multiset(ns[..k])[ns[k] := multiset(ns[..k])[ns[k]] + 1]
    ensures multiset(ns)[ns[k]] >= multiset(ns[..k])[ns[k]] + 1
  {
    assert ns[..k + 1] == ns[..k] + [ns[k]];
    assert ns == ns[..k + 1] + ns[k + 1..];
  }

  /** Moving the head of the queue to the order settles it: its occurrences close. */
  lemma NodeMoves(g: Deps, adj: map<Id, seq<Id>>, node: Id, order: seq<Id>, inDegree: map<Id, int>, rest: seq<Id>)
    requires Inverts(adj, g) && Kahn(g, inDegree, order, [node] + rest)
    ensures Exposed(g, inDegree, order + [node], rest)
    ensures DepsPrecede(g, order + [node])
    ensures forall s :: s in g ==> Outside(g[s], SetOf(order + [node])) == inDegree[s] - multiset(Get(adj, node))[s]
  {
    var queue := [node] + rest;
    assert queue[0] == node;
    assert forall i :: 0 <= i < |rest| ==> rest[i] == queue[i + 1];
    assert SetOf(queue) == {node} + SetOf(rest);
    SetOfAppend(order, node);
    forall s | s in g
      ensures Outside(g[s], SetOf(order + [node])) == inDegree[s] - multiset(Get(adj, node))[s]
    {
      OutsideSettle(g[s], SetOf(order), node);
      OccIsMultiplicity(g[s], node);
      assert Occurs(adj, node, s) == multiset(g[s])[node];
    }
    OutsideZero(g[node], SetOf(order));
    var grown := order + [node];
    forall i, d | 0 <= i < |grown| && grown[i] in g && d in g[grown[i]] ensures d in grown[..i] {
      assert grown[..|order|] == order;
      if i < |order| { assert grown[..i] == order[..i]; }
    }
  }

  /** x is one level above the highest of its dependencies, and at the bottom when it has none. */
  ghost predicate AtItsLevel(g: Deps, level: map<Id, nat>, x: Id) {
    && x in g && x in level
    && (forall d :: d in g[x] ==> d in level && level[d] < level[x])
    && (if g[x] == [] then level[x] == 0 else exists d :: d in g[x] && d in level && level[d] + 1 == level[x])
  }

  /** The ids come level by level. */
  ghost predicate ByLevels(g: Deps, level: map<Id, nat>, ids: seq<Id>) {
    && (forall i :: 0 <= i < |ids| ==> AtItsLevel(g, level, ids[i]))
    && (forall i, j :: 0 <= i < j < |ids| ==> ids[i] in level && ids[j] in level && level[ids[i]] <= level[ids[j]])
  }

  /** What is ordered and queued comes level by level, and the queue spans two levels at most. */
  ghost predicate Leveled(g: Deps, level: map<Id, nat>, order: seq<Id>, queue: seq<Id>) {
    && ByLevels(g, level, order + queue)
    && (queue != [] ==> queue[0] in level && queue[|queue| - 1] in level && level[queue[|queue| - 1]] <= level[queue[0]] + 1)
  }

  /** The steps without dependencies, in declaration order. */
  function Roots(steps: seq<Step>): seq<Id> {
    if steps == [] then []
    else
      var n := |steps| - 1;
      Roots(steps[..n]) + if steps[n].dependsOn == [] then [steps[n].id] else []
  }

  lemma RootsAreLevel(g: Deps, inDegree: map<Id, int>, queue: seq<Id>) returns (level: map<Id, nat>)
    requires Kahn(g, inDegree, [], queue)
    ensures Leveled(g, level, [], queue)
  {
    level := map x | x in SetOf(queue) :: 0;
    assert [] + queue == queue;
    assert SetOf([]) == {};
    forall x | x in SetOf(queue) ensures AtItsLevel(g, level, x) {
      OutsideLength(g[x]);
    }
    hide Kahn, AtItsLevel;
    forall i | 0 <= i < |queue| ensures AtItsLevel(g, level, queue[i]) {
      assert queue[i] in SetOf(queue);
    }
  }

  /** What a node releases is one level above it. */
  lemma ReleasedAreNext(g: Deps, inDegree0: map<Id, int>, inDegree: map<Id, int>, order: seq<Id>, node: Id,
                        rest: seq<Id>, queue: seq<Id>, level: map<Id, nat>) returns (next: map<Id, nat>)
    requires Kahn(g, inDegree0, order, [node] + rest) && Kahn(g, inDegree, order + [node], queue) && rest <= queue
    requires Leveled(g, level, order, [node] + rest)
    ensures Leveled(g, next, order + [node], queue)
  {
    hide Kahn, AtItsLevel, NoDuplicates;
    var all, released := order + [node] + rest, queue[|rest|..];
    assert order + ([node] + rest) == all && order + [node] + queue == all + released && queue == rest + released;
    assert all[|order|] == node && AtItsLevel(g, level, node);
    LevelsAreThere(g, level, all);
    var up := level[node] + 1;
    next := map x | x in level.Keys + SetOf(released) :: if x in SetOf(released) then up else level[x];
    NotReleased(g, inDegree, order, node, rest, queue);
    forall x | x in all ensures AtItsLevel(g, next, x) {
      OldKeepsLevel(g, inDegree0, order, node, rest, level, next, x);
    }
    forall x | x in released ensures AtItsLevel(g, next, x) {
      assert x in SetOf(released);
      NewIsAbove(g, inDegree0, inDegree, order, node, rest, queue, level, next, x);
    }
    LastIsUp(level, order, node, rest);
    SpansTwo(level, next, all, order, node, rest, released, up);
    AllLeveled(g, next, all, released, order + [node], queue);
    hide Leveled, ByLevels;
  }

  lemma AllLeveled(g: Deps, level: map<Id, nat>, all: seq<Id>, released: seq<Id>, order: seq<Id>, queue: seq<Id>)
    requires order + queue == all + released
    requires forall x :: x in all || x in released ==> AtItsLevel(g, level, x) && x in level
    requires var more := all + released; forall i, j :: 0 <= i < j < |more| ==> level[more[i]] <= level[more[j]]
    requires queue != [] ==> queue[0] in level && queue[|queue| - 1] in level && level[queue[|queue| - 1]] <= level[queue[0]] + 1
    ensures Leveled(g, level, order, queue)
  {
    hide AtItsLevel;
    var more := all + released;
    assert forall i :: 0 <= i < |more| ==> more[i] in all || more[i] in released;
  }

  lemma LastIsUp(level: map<Id, nat>, order: seq<Id>, node: Id, rest: seq<Id>)
    requires var queue := [node] + rest; queue[|queue| - 1] in level && node in level && level[queue[|queue| - 1]] <= level[node] + 1
    ensures var all := order + [node] + rest; all[|all| - 1] in level && level[all[|all| - 1]] <= level[node] + 1
  {
    var all, queue := order + [node] + rest, [node] + rest;
    assert all[|all| - 1] == queue[|queue| - 1];
  }

  lemma LevelsAreThere(g: Deps, level: map<Id, nat>, ids: seq<Id>)
    requires forall i :: 0 <= i < |ids| ==> AtItsLevel(g, level, ids[i])
    ensures forall x :: x in ids ==> x in level
  {
  }

  lemma OldKeepsLevel(g: Deps, inDegree: map<Id, int>, order: seq<Id>, node: Id, rest: seq<Id>, level: map<Id, nat>,
                      next: map<Id, nat>, x: Id)
    requires Kahn(g, inDegree, order, [node] + rest) && x in order + [node] + rest
    requires forall y :: y in order + [node] + rest ==> AtItsLevel(g, level, y) && y in level && y in next && next[y] == level[y]
    ensures AtItsLevel(g, next, x)
  {
    var all := order + [node] + rest;
    assert order + ([node] + rest) == all;
    DepsAreThere(g, inDegree, order, [node] + rest, x);
    hide Kahn;
    assert order <= all && AtItsLevel(g, level, x);
    forall d | d in g[x] ensures d in all && d in level && d in next && next[d] == level[d] { assert d in order; }
  }

  lemma NewIsAbove(g: Deps, inDegree0: map<Id, int>, inDegree: map<Id, int>, order: seq<Id>, node: Id, rest: seq<Id>,
                   queue: seq<Id>, level: map<Id, nat>, next: map<Id, nat>, x: Id)
    requires Kahn(g, inDegree0, order, [node] + rest) && Kahn(g, inDegree, order + [node], queue) && rest <= queue
    requires x in queue[|rest|..] && x !in order + [node] + rest && node in level && x in next && next[x] == level[node] + 1
    requires forall y :: y in order + [node] + rest ==> y in level && y in next && next[y] == level[y]
    requires var all := order + [node] + rest; forall i, j :: 0 <= i < j < |all| ==> level[all[i]] <= level[all[j]]
    ensures AtItsLevel(g, next, x)
  {
    var all := order + [node] + rest;
    assert all[|order|] == node && node in all;
    ReleasedWaitsFor(g, inDegree0, inDegree, order, node, rest, queue, x);
    hide Kahn;
    forall d | d in g[x] ensures d in next && next[d] <= level[node] {
      var i :| 0 <= i < |order + [node]| && (order + [node])[i] == d;
      assert all[i] == d && d in all;
    }
  }

  lemma SpansTwo(level: map<Id, nat>, next: map<Id, nat>, all: seq<Id>, order: seq<Id>, node: Id, rest: seq<Id>,
                 released: seq<Id>, up: nat)
    requires all == order + [node] + rest && (forall x :: x in all ==> x in level && x in next && next[x] == level[x])
    requires forall i, j :: 0 <= i < j < |all| ==> level[all[i]] <= level[all[j]]
    requires up == level[node] + 1 && level[all[|all| - 1]] <= up
    requires forall x :: x in released ==> x in next && next[x] == up
    ensures var more := all + released;
            && (forall i, j :: 0 <= i < j < |more| ==> next[more[i]] <= next[more[j]])
            && var queue := rest + released;
               queue != [] ==> next[queue[|queue| - 1]] <= next[queue[0]] + 1
  {
    var more, queue := all + released, rest + released;
    assert all[|order|] == node;
    forall i | 0 <= i < |all| ensures level[all[i]] <= up {
      if i < |all| - 1 { assert level[all[i]] <= level[all[|all| - 1]]; }
    }
    forall i, j | 0 <= i < j < |more| ensures next[more[i]] <= next[more[j]] {
      if i < |all| { assert more[i] == all[i] && all[i] in all; } else { assert more[i] in released; }
      if j < |all| { assert more[j] == all[j] && all[j] in all; } else { assert more[j] in released; }
    }
    if queue != [] {
      if rest != [] {
        assert all[|order| + 1] == rest[0] && rest[0] in all && level[node] <= level[rest[0]];
        if released == [] { assert queue[|queue| - 1] == all[|all| - 1]; } else { assert queue[|queue| - 1] in released; }
      } else {
        assert queue[0] in released && queue[|queue| - 1] in released;
      }
    }
  }

  lemma DepsAreThere(g: Deps, inDegree: map<Id, int>, order: seq<Id>, queue: seq<Id>, x: Id)
    requires Kahn(g, inDegree, order, queue) && x in order + queue
    ensures x in g && forall d :: d in g[x] ==> d in order
  {
    assert x in SetOf(order) + SetOf(queue);
    OutsideZero(g[x], SetOf(order));
  }

  lemma NotReleased(g: Deps, inDegree: map<Id, int>, order: seq<Id>, node: Id, rest: seq<Id>, queue: seq<Id>)
    requires Kahn(g, inDegree, order + [node], queue) && rest <= queue
    ensures forall x :: x in order + [node] + rest ==> x !in SetOf(queue[|rest|..])
  {
    forall i | |rest| <= i < |queue| ensures queue[i] !in order + [node] + rest {
      assert queue[i] in SetOf(queue);
      assert queue[i] in order + [node] <==> queue[i] in SetOf(order + [node]);
      assert forall j :: 0 <= j < |rest| ==> rest[j] == queue[j];
    }
  }

  lemma ReleasedWaitsFor(g: Deps, inDegree0: map<Id, int>, inDegree: map<Id, int>, order: seq<Id>, node: Id,
                         rest: seq<Id>, queue: seq<Id>, x: Id)
    requires Kahn(g, inDegree0, order, [node] + rest) && Kahn(g, inDegree, order + [node], queue) && rest <= queue
    requires x in queue[|rest|..] && x !in order + [node] + rest
    ensures x in g && node in g[x] && forall d :: d in g[x] ==> d in order + [node]
  {
    assert x in queue && x in SetOf(order + [node]) + SetOf(queue);
    OutsideZero(g[x], SetOf(order + [node]));
    assert x !in SetOf(order) + SetOf([node] + rest);
    OutsideZero(g[x], SetOf(order));
    var d :| d in g[x] && d !in SetOf(order);
    assert d in order + [node];
  }

  /** The queue starts with the roots; each node in turn goes to the order and releases what it was the last to
      hold back. */
  method SortByLevels(steps: seq<Step>) returns (order: seq<Id>, ghost inDegree: map<Id, int>, ghost level: map<Id, nat>)
    requires UniqueIds(steps)
    ensures Kahn(DepsOf(steps), inDegree, order, []) && Roots(steps) <= order && ByLevels(DepsOf(steps), level, order)
  {
    hide Kahn, Leveled, ByLevels, Inverts, RootsFirst;
    ghost var g := DepsOf(steps);
    var degrees, adj := BuildIndex(steps);
    var queue := InitialQueue(steps, degrees);
    order, inDegree := [], degrees;
    KahnStarts(steps, degrees, queue);
    level := RootsAreLevel(g, degrees, queue);
    RootsBegin(steps);
    while queue != []
      invariant inDegree == degrees && Kahn(g, degrees, order, queue)
      invariant Leveled(g, level, order, queue) && RootsFirst(steps, order, queue)
      decreases |steps| - |order|
    {
      var node := queue[0];
      ghost var rest := queue[1..];
      assert queue == [node] + rest;
      degrees, queue := Release(g, adj, node, order, degrees, queue[1..]);
      level := ReleasedAreNext(g, inDegree, degrees, order, node, rest, queue, level);
      RootsStay(steps, order, node, rest, queue);
      order, inDegree := order + [node], degrees;
      OrderFits(steps, degrees, order, queue);
    }
    LeveledAll(g, level, order);
    RootsEnd(steps, order);
  }

  ghost predicate RootsFirst(steps: seq<Step>, order: seq<Id>, queue: seq<Id>) {
    Roots(steps) <= order + queue
  }

  lemma RootsBegin(steps: seq<Step>)
    ensures RootsFirst(steps, [], Roots(steps))
  {
    assert [] + Roots(steps) == Roots(steps);
  }

  lemma RootsStay(steps: seq<Step>, order: seq<Id>, node: Id, rest: seq<Id>, queue: seq<Id>)
    requires RootsFirst(steps, order, [node] + rest) && rest <= queue
    ensures RootsFirst(steps, order + [node], queue)
  {
    assert order + [node] + queue == order + ([node] + rest) + queue[|rest|..];
  }

  lemma RootsEnd(steps: seq<Step>, order: seq<Id>)
    requires RootsFirst(steps, order, [])
    ensures Roots(steps) <= order
  {
    assert order + [] == order;
  }

  lemma KahnStarts(steps: seq<Step>, inDegree: map<Id, int>, queue: seq<Id>)
    requires UniqueIds(steps) && inDegree.Keys == DepsOf(steps).Keys && NoDuplicates(queue)
    requires forall x :: x in inDegree ==> inDegree[x] == |DepsOf(steps)[x]|
    requires forall x :: x in SetOf(queue) <==> x in inDegree && inDegree[x] == 0
    ensures Kahn(DepsOf(steps), inDegree, [], queue)
  {
    InitialCount(DepsOf(steps), inDegree);
  }

  lemma OrderFits(steps: seq<Step>, inDegree: map<Id, int>, order: seq<Id>, queue: seq<Id>)
    requires UniqueIds(steps) && Kahn(DepsOf(steps), inDegree, order, queue)
    ensures |order| <= |steps|
  {
    AtMostDeclared(steps, order);
  }

  lemma LeveledAll(g: Deps, level: map<Id, nat>, order: seq<Id>)
    requires Leveled(g, level, order, [])
    ensures ByLevels(g, level, order)
  {
    assert order + [] == order;
  }

  /** Returns a topological order iff the declared dependencies are closed and acyclic; otherwise the
      reported steps are exactly those on a cycle, below one, or below an undeclared step, and for closed
      dependencies a real cycle runs through them. */
  method TopoSort(steps: seq<Step>) returns (r: TopoResult)
    requires UniqueIds(steps)
    ensures r.Order? <==> Closed(DepsOf(steps)) && Acyclic(DepsOf(steps))
    ensures r.Order? ==> TopoOrder(DepsOf(steps), r.ids)
    ensures r.Order? ==> Roots(steps) <= r.ids && exists level :: ByLevels(DepsOf(steps), level, r.ids)
    ensures r.CycleError? ==> r.nodes != [] && r.nodes == UnorderableOf(steps, DepsOf(steps))
    ensures r.CycleError? ==> forall x :: x in r.nodes <==> Unorderable(DepsOf(steps), x)
    ensures r.CycleError? && Closed(DepsOf(steps)) ==>
              exists a :: a in r.nodes && Reaches(DepsOf(steps), a, a)
  {
    ghost var g := DepsOf(steps);
    var order: seq<Id>;
    ghost var inDegree, level;
    order, inDegree, level := SortByLevels(steps);
    if |order| != |steps| {
      var cycleNodes := CycleNodes(steps, order);
      SomethingLeft(steps, order, cycleNodes);
      LeftoversAreStuck(g, inDegree, order, cycleNodes);
      LeftoversAreUnorderable(g, inDegree, order, cycleNodes);
      forall s | s in steps ensures s.id in order <==> !Unorderable(g, s.id) { LeftMeans(steps, order, cycleNodes, s); }
      LeftOverAreUnorderable(steps, order, g);
      NoOrderExists(g, cycleNodes);
      return CycleError(cycleNodes);
    }
    FullOrder(steps, inDegree, order);
    OrderedIsAcyclic(g, order);
    return Order(order);
  }

  lemma NoOrderExists(g: Deps, nodes: seq<Id>)
    requires nodes != [] && ExactlyWaiting(g, nodes)
    requires Closed(g) ==> exists a :: a in nodes && Reaches(g, a, a)
    ensures !(Closed(g) && Acyclic(g))
  {
    if Closed(g) {
      var a :| a in nodes && Reaches(g, a, a);
      assert Waits(g, a, nodes);
    }
  }

  lemma RootJoins(steps: seq<Step>, inDegree: map<Id, int>, i: nat, queue: seq<Id>)
    requires UniqueIds(steps) && i < |steps| && steps[i].id in inDegree
    requires inDegree[steps[i].id] == 0 <==> steps[i].dependsOn == []
    requires RootsSoFar(steps[..i], inDegree, queue)
    ensures RootsSoFar(steps[..i + 1], inDegree,
                       queue + if inDegree[steps[i].id] == 0 then [steps[i].id] else [])
  {
    IdsGrow(steps, i);
    assert steps[..i + 1][..i] == steps[..i];
    SetOfAppend(queue, steps[i].id);
    assert queue + [] == queue;
    assert steps[i].id !in SetOf(queue);
  }

  /** queue holds the steps of in-degree zero, each once and as declared. */
  ghost predicate RootsSoFar(steps: seq<Step>, inDegree: map<Id, int>, queue: seq<Id>) {
    && NoDuplicates(queue) && queue == Roots(steps)
    && forall x :: x in SetOf(queue) <==> x in IdsOf(steps) && x in inDegree && inDegree[x] == 0
  }

  method InitialQueue(steps: seq<Step>, inDegree: map<Id, int>) returns (queue: seq<Id>)
    requires UniqueIds(steps) && inDegree.Keys == IdsOf(steps)
    requires forall s :: s in steps ==> (inDegree[s.id] == 0 <==> s.dependsOn == [])
    ensures NoDuplicates(queue) && queue == Roots(steps)
    ensures forall x :: x in SetOf(queue) <==> x in inDegree && inDegree[x] == 0
  {
    queue := [];
    for i := 0 to |steps|
      invariant RootsSoFar(steps[..i], inDegree, queue)
    {
      assert steps[i] in steps;
      RootJoins(steps, inDegree, i, queue);
      if inDegree[steps[i].id] == 0 {
        queue := queue + [steps[i].id];
      } else {
        assert queue + [] == queue;
      }
    }
    assert steps[..|steps|] == steps;
  }

  method CycleNodes(steps: seq<Step>, order: seq<Id>) returns (nodes: seq<Id>)
    requires UniqueIds(steps)
    ensures SetOf(nodes) == IdsOf(steps) - SetOf(order)
    ensures nodes == LeftOver(steps, order)
  {
    nodes := [];
    for i := 0 to |steps|
      invariant nodes == LeftOver(steps[..i], order)
      invariant SetOf(nodes) == IdsOf(steps[..i]) - SetOf(order)
    {
      IdsGrow(steps, i);
      assert steps[..i + 1][..i] == steps[..i];
      SetOfAppend(nodes, steps[i].id);
      if steps[i].id !in order {
        nodes := nodes + [steps[i].id];
      }
    }
    assert steps[..|steps|] == steps;
  }

  lemma LeftMeans(steps: seq<Step>, order: seq<Id>, nodes: seq<Id>, s: Step)
    requires s in steps && SetOf(nodes) == IdsOf(steps) - SetOf(order)
    ensures s.id in nodes <==> s.id !in order
  {
    assert s.id in IdsOf(steps);
    assert s.id in nodes <==> s.id in SetOf(nodes);
  }

  /** The ids that are not ordered, in declaration order. */
  function LeftOver(steps: seq<Step>, order: seq<Id>): seq<Id> {
    if steps == [] then []
    else
      var n := |steps| - 1;
      LeftOver(steps[..n], order) + if steps[n].id in order then [] else [steps[n].id]
  }

  /** The steps that can never be ordered, in declaration order. */
  ghost function UnorderableOf(steps: seq<Step>, g: Deps): seq<Id> {
    if steps == [] then []
    else
      var n := |steps| - 1;
      UnorderableOf(steps[..n], g) + if Unorderable(g, steps[n].id) then [steps[n].id] else []
  }

  lemma {:induction false} LeftOverAreUnorderable(steps: seq<Step>, order: seq<Id>, g: Deps)
    requires forall s :: s in steps ==> (s.id in order <==> !Unorderable(g, s.id))
    ensures LeftOver(steps, order) == UnorderableOf(steps, g)
  {
    hide Unorderable;
    if steps != [] { LeftOverAreUnorderable(steps[..|steps| - 1], order, g); }
  }

  lemma InitialCount(g: Deps, inDegree: map<Id, int>)
    requires inDegree.Keys == g.Keys && forall x :: x in inDegree ==> inDegree[x] == |g[x]|
    ensures CountsOpen(g, inDegree, SetOf([])) && SetOf([]) == {}
  {
    assert SetOf([]) == {};
    forall s | s in g ensures inDegree[s] == Outside(g[s], {}) { OutsideLength(g[s]); }
  }

  lemma {:induction false} DeclaredSize(steps: seq<Step>)
    requires UniqueIds(steps)
    ensures |IdsOf(steps)| == |steps|
  {
    if steps != [] {
      var n := |steps| - 1;
      DeclaredSize(steps[..n]);
      IdsGrow(steps, n);
      assert steps[..n + 1] == steps;
    }
  }

  lemma AtMostDeclared(steps: seq<Step>, order: seq<Id>)
    requires UniqueIds(steps)
    requires NoDuplicates(order) && SetOf(order) <= IdsOf(steps)
    ensures |order| <= |steps|
  {
    DeclaredSize(steps);
    assert forall x :: x in order ==> x in SetOf(order);
    Pigeonhole(order, IdsOf(steps));
  }

  lemma {:induction false} SizeOf(xs: seq<Id>)
    requires NoDuplicates(xs)
    ensures |SetOf(xs)| == |xs|
  {
    if xs != [] {
      var n := |xs| - 1;
      SizeOf(xs[..n]);
      assert xs == xs[..n] + [xs[n]];
      SetOfAppend(xs[..n], xs[n]);
    }
  }

  lemma SubsetOfSameSize(a: set<Id>, b: set<Id>)
    requires a <= b && |a| == |b|
    ensures a == b
  {
    assert |b - a| == 0;
  }

  /** An order as long as the declaration list mentions every step. */
  lemma FullOrder(steps: seq<Step>, inDegree: map<Id, int>, order: seq<Id>)
    requires UniqueIds(steps) && |order| == |steps|
    requires Kahn(DepsOf(steps), inDegree, order, [])
    ensures Closed(DepsOf(steps)) && TopoOrder(DepsOf(steps), order)
  {
    DeclaredSize(steps);
    SizeOf(order);
    SubsetOfSameSize(SetOf(order), DepsOf(steps).Keys);
    OrderIsTopological(DepsOf(steps), order);
  }

  lemma OrderIsTopological(g: Deps, order: seq<Id>)
    requires NoDuplicates(order) && SetOf(order) == g.Keys && DepsPrecede(g, order)
    ensures Closed(g) && TopoOrder(g, order)
  {
    assert forall x :: x in order <==> x in SetOf(order);
    forall s, d | s in g && d in g[s] ensures d in g {
      assert s in order;
      var i :| 0 <= i < |order| && order[i] == s;
      assert d in order[..i];
    }
  }

  lemma SomethingLeft(steps: seq<Step>, order: seq<Id>, nodes: seq<Id>)
    requires UniqueIds(steps) && |order| != |steps| && NoDuplicates(order)
    requires SetOf(nodes) == IdsOf(steps) - SetOf(order) && SetOf(order) <= IdsOf(steps)
    ensures nodes != []
  {
    DeclaredSize(steps);
    SizeOf(order);
    assert SetOf(order) != IdsOf(steps);
    assert !(IdsOf(steps) <= SetOf(order));
    var x :| x in IdsOf(steps) && x !in SetOf(order);
    assert x in SetOf(nodes);
  }

  lemma LeftoversAreStuck(g: Deps, inDegree: map<Id, int>, order: seq<Id>, nodes: seq<Id>)
    requires Kahn(g, inDegree, order, [])
    requires nodes != [] && SetOf(nodes) == g.Keys - SetOf(order)
    ensures ExactlyWaiting(g, nodes)
    ensures Closed(g) ==> exists a :: a in nodes && Reaches(g, a, a)
  {
    assert forall x :: x in nodes <==> x in SetOf(nodes);
    forall x ensures x in nodes <==> Waits(g, x, nodes) {
      if x in g { OutsideZero(g[x], SetOf(order)); }
    }
    if Closed(g) {
      StuckCycle(g, nodes);
    }
  }

  /** What stands before position j of the order includes everything that order[j] depends on. */
  lemma {:induction false} AncestorsPrecede(g: Deps, order: seq<Id>, p: seq<Id>, a: Id, j: nat)
    requires DepsPrecede(g, order) && j < |order| && Connects(g, p, a, order[j])
    ensures a in order[..j]
    decreases |p|
  {
    var c := p[|p| - 2];
    assert Edge(g, p, |p| - 2);
    assert c in order[..j];
    if |p| > 2 {
      ChainPrefix(g, p);
      var i :| 0 <= i < j && order[i] == c;
      AncestorsPrecede(g, order, p[..|p| - 1], a, i);
    }
  }

  /** Whatever depends on a step that is left over, or on an undeclared one, is left over. */
  lemma {:induction false} BelowIsWaiting(g: Deps, nodes: seq<Id>, p: seq<Id>, a: Id, x: Id)
    requires ExactlyWaiting(g, nodes) && (a in nodes || a !in g) && Connects(g, p, a, x)
    ensures x in nodes
    decreases |p|
  {
    var c := p[|p| - 2];
    assert Edge(g, p, |p| - 2);
    if |p| > 2 {
      ChainPrefix(g, p);
      BelowIsWaiting(g, nodes, p[..|p| - 1], a, c);
    }
    assert Waits(g, x, nodes);
  }

  /** A step that is left over has a cycle or an undeclared step above it. */
  lemma WaitingIsBlamed(g: Deps, nodes: seq<Id>, x: Id) returns (c: Id)
    requires ExactlyWaiting(g, nodes) && x in nodes
    ensures Blames(g, c, x)
  {
    var above := set y | y in nodes && (y == x || Reaches(g, y, x));
    if y, d :| y in above && y in g && d in g[y] && d !in g {
      if y == x { ReachDirect(g, d, x); } else { ReachPrepend(g, d, y, x); }
      c := d;
    } else {
      assert x in above;
      forall s | s in above ensures HasDependencyIn(g, s, above) {
        assert Waits(g, s, nodes);
        var d :| d in g[s] && (d in nodes || d !in g);
        if s == x { ReachDirect(g, d, x); } else { ReachPrepend(g, d, s, x); }
        assert d in above;
      }
      c := StuckSetHasCycle(g, above);
    }
  }

  lemma LeftoversAreUnorderable(g: Deps, inDegree: map<Id, int>, order: seq<Id>, nodes: seq<Id>)
    requires Kahn(g, inDegree, order, []) && ExactlyWaiting(g, nodes)
    requires SetOf(nodes) == g.Keys - SetOf(order)
    ensures forall x :: x in nodes <==> Unorderable(g, x)
  {
    assert forall x :: x in nodes <==> x in SetOf(nodes);
    forall x ensures x in nodes <==> Unorderable(g, x) {
      if x in nodes { var c := WaitingIsBlamed(g, nodes, x); }
      if c :| x in g && Blames(g, c, x) {
        if Reaches(g, c, c) { CyclesAreLeft(g, order, c); }
        if Reaches(g, c, x) {
          var p :| Connects(g, p, c, x);
          BelowIsWaiting(g, nodes, p, c, x);
        }
      }
    }
  }

  lemma CyclesAreLeft(g: Deps, order: seq<Id>, c: Id)
    requires DepsPrecede(g, order) && NoDuplicates(order) && Reaches(g, c, c)
    ensures c !in order && c in g
  {
    var p :| Connects(g, p, c, c);
    assert Edge(g, p, |p| - 2);
    forall j | 0 <= j < |order| && order[j] == c ensures c in order[..j] { AncestorsPrecede(g, order, p, c, j); }
  }

  lemma StuckCycle(g: Deps, nodes: seq<Id>)
    requires nodes != [] && ExactlyWaiting(g, nodes) && Closed(g)
    ensures exists a :: a in nodes && Reaches(g, a, a)
  {
    var stuck := SetOf(nodes);
    assert nodes[0] in stuck;
    forall s | s in stuck ensures HasDependencyIn(g, s, stuck) {
      assert Waits(g, s, nodes);
      var d :| d in g[s] && (d in nodes || d !in g);
      assert d in stuck;
    }
    var a := StuckSetHasCycle(g, stuck);
  }
}
