/** Workflow steps and the dependency relation between them.

    A dependency list may name the same step more than once, and every count below is a
    count of occurrences. */
module Graph {

  type Id = string

  datatype Step = Step(id: Id, dependsOn: seq<Id>, agent: string)

  /** Each step's dependency list. */
  type Deps = map<Id, seq<Id>>

  predicate UniqueIds(steps: seq<Step>) {
    forall i, j :: 0 <= i < j < |steps| ==> steps[i].id != steps[j].id
  }

  function IdsOf(steps: seq<Step>): set<Id> {
    set s | s in steps :: s.id
  }

  function DepsOf(steps: seq<Step>): (g: Deps)
    requires UniqueIds(steps)
    ensures g.Keys == IdsOf(steps)
    ensures forall s :: s in steps ==> s.id in g && g[s.id] == s.dependsOn
  {
    map s | s in steps :: s.id := s.dependsOn
  }

  /** Every dependency is itself a declared step. */
  ghost predicate Closed(g: Deps) {
    forall s, d :: s in g && d in g[s] ==> d in g
  }

  // ---------------------------------------------------------------- paths

  /** The i-th entry of p is a direct dependency of the entry after it. */
  ghost predicate Edge(g: Deps, p: seq<Id>, i: nat)
    requires i + 1 < |p|
  {
    p[i + 1] in g && p[i] in g[p[i + 1]]
  }

  ghost predicate Chain(g: Deps, p: seq<Id>) {
    forall i: nat :: i + 1 < |p| ==> Edge(g, p, i)
  }

  ghost predicate Connects(g: Deps, p: seq<Id>, a: Id, b: Id) {
    |p| >= 2 && p[0] == a && p[|p| - 1] == b && Chain(g, p)
  }

  /** b depends on a, directly or through other steps. */
  ghost predicate Reaches(g: Deps, a: Id, b: Id) {
    exists p :: Connects(g, p, a, b)
  }

  ghost predicate Acyclic(g: Deps) {
    forall a :: a in g ==> !Reaches(g, a, a)
  }

  lemma ChainPrefix(g: Deps, p: seq<Id>)
    requires p != [] && Chain(g, p)
    ensures Chain(g, p[..|p| - 1])
  {
    var q := p[..|p| - 1];
    forall i: nat | i + 1 < |q| ensures Edge(g, q, i) {
      assert Edge(g, p, i);
    }
  }

  lemma ReachDirect(g: Deps, a: Id, b: Id)
    requires b in g && a in g[b]
    ensures Reaches(g, a, b)
  {
    assert Connects(g, [a, b], a, b);
  }

  lemma ReachExtend(g: Deps, a: Id, b: Id, c: Id)
    requires Reaches(g, a, b) && c in g && b in g[c]
    ensures Reaches(g, a, c)
  {
    var p :| Connects(g, p, a, b);
    var q := p + [c];
    forall i: nat | i + 1 < |q| ensures Edge(g, q, i) {
      if i + 1 < |p| { assert Edge(g, p, i); }
    }
    assert Connects(g, q, a, c);
  }

  lemma ReachPrepend(g: Deps, a: Id, b: Id, c: Id)
    requires b in g && a in g[b] && Reaches(g, b, c)
    ensures Reaches(g, a, c)
  {
    var p :| Connects(g, p, b, c);
    var q := [a] + p;
    forall i: nat | i + 1 < |q| ensures Edge(g, q, i) {
      if i > 0 { assert Edge(g, p, i - 1); }
    }
    assert Connects(g, q, a, c);
  }

  /** The last edge of a path. */
  lemma ReachLast(g: Deps, a: Id, c: Id) returns (b: Id)
    requires Reaches(g, a, c)
    ensures c in g && b in g[c] && (b == a || Reaches(g, a, b))
  {
    var p :| Connects(g, p, a, c);
    b := p[|p| - 2];
    assert Edge(g, p, |p| - 2);
    if |p| > 2 { ChainPrefix(g, p); assert Connects(g, p[..|p| - 1], a, b); }
  }

  // ----------------------------------------------------- topological orders

  ghost predicate NoDuplicates(s: seq<Id>) {
    forall i, j :: 0 <= i < j < |s| ==> s[i] != s[j]
  }

  /** A permutation of the steps with every dependency before its dependents. */
  ghost predicate TopoOrder(g: Deps, order: seq<Id>) {
    && NoDuplicates(order)
    && (forall x :: x in order <==> x in g)
    && forall i, d :: 0 <= i < |order| && d in g[order[i]] ==> d in order[..i]
  }

  ghost function Rank(order: seq<Id>, x: Id): (i: nat)
    requires x in order
    ensures i < |order| && order[i] == x
  {
    var i :| 0 <= i < |order| && order[i] == x;
    i
  }

  lemma DependencyRanksLower(g: Deps, order: seq<Id>, d: Id, s: Id)
    requires TopoOrder(g, order) && s in g && d in g[s]
    ensures d in order && Rank(order, d) < Rank(order, s)
  {
    assert d in order[..Rank(order, s)];
  }

  lemma {:induction false} ReachRanksLower(g: Deps, order: seq<Id>, p: seq<Id>, a: Id, b: Id)
    requires TopoOrder(g, order) && Connects(g, p, a, b)
    ensures a in order && b in order && Rank(order, a) < Rank(order, b)
    decreases |p|
  {
    var c := p[|p| - 2];
    assert Edge(g, p, |p| - 2);
    DependencyRanksLower(g, order, c, b);
    if |p| > 2 {
      ChainPrefix(g, p);
      ReachRanksLower(g, order, p[..|p| - 1], a, c);
    }
  }

  /** A graph that can be laid out in a topological order has no cycle. */
  lemma OrderedIsAcyclic(g: Deps, order: seq<Id>)
    requires TopoOrder(g, order)
    ensures Acyclic(g)
  {
    forall a | a in g ensures !Reaches(g, a, a) {
      if Reaches(g, a, a) {
        var p :| Connects(g, p, a, a);
        ReachRanksLower(g, order, p, a, a);
      }
    }
  }

  // ----------------------------------------------------- finding a cycle

  ghost predicate HasDependencyIn(g: Deps, s: Id, within: set<Id>) {
    s in g && exists d :: d in within && d in g[s]
  }

  ghost predicate Stuck(g: Deps, stuck: set<Id>) {
    forall s {:trigger HasDependencyIn(g, s, stuck)} :: s in stuck ==> HasDependencyIn(g, s, stuck)
  }

  /** A backward walk inside a set whose every member has a dependency in the set. */
  lemma {:induction false} WalkInside(g: Deps, stuck: set<Id>, n: nat) returns (p: seq<Id>)
    requires stuck != {} && Stuck(g, stuck)
    ensures |p| == n + 1 && Chain(g, p) && forall x :: x in p ==> x in stuck
  {
    if n == 0 {
      var s :| s in stuck;
      p := [s];
    } else {
      var q := WalkInside(g, stuck, n - 1);
      assert HasDependencyIn(g, q[0], stuck);
      var d :| d in stuck && d in g[q[0]];
      p := [d] + q;
      forall i: nat | i + 1 < |p| ensures Edge(g, p, i) {
        if i > 0 { assert Edge(g, q, i - 1); }
      }
    }
  }

  lemma {:induction false} Pigeonhole(p: seq<Id>, s: set<Id>)
    requires NoDuplicates(p) && forall x :: x in p ==> x in s
    ensures |p| <= |s|
  {
    if p != [] {
      Pigeonhole(p[1..], s - {p[0]});
    }
  }

  /** Kahn's leftovers really contain a cycle. */
  lemma StuckSetHasCycle(g: Deps, stuck: set<Id>) returns (a: Id)
    requires stuck != {} && Stuck(g, stuck)
    ensures a in stuck && Reaches(g, a, a)
  {
    var p := WalkInside(g, stuck, |stuck|);
    if NoDuplicates(p) { Pigeonhole(p, stuck); }
    var i, j :| 0 <= i < j < |p| && p[i] == p[j];
    var q := p[i..j + 1];
    a := p[i];
    forall k: nat | k + 1 < |q| ensures Edge(g, q, k) {
      assert Edge(g, p, i + k);
    }
    assert Connects(g, q, a, a);
  }

  // ------------------------------------------- counting open dependencies

  /** Number of occurrences in xs that lie outside the set done. */
  ghost function Outside(xs: seq<Id>, done: set<Id>): nat {
    if xs == [] then 0 else (if xs[0] in done then 0 else 1) + Outside(xs[1..], done)
  }

  lemma {:induction false} OutsideZero(xs: seq<Id>, done: set<Id>)
    ensures Outside(xs, done) == 0 <==> forall x :: x in xs ==> x in done
  {
    if xs != [] {
      OutsideZero(xs[1..], done);
      assert xs == [xs[0]] + xs[1..];
    }
  }

  /** Number of occurrences of d in xs. */
  function Occ(xs: seq<Id>, d: Id): nat {
    if xs == [] then 0 else (if xs[0] == d then 1 else 0) + Occ(xs[1..], d)
  }

  lemma {:induction false} OccIsMultiplicity(xs: seq<Id>, d: Id)
    ensures Occ(xs, d) == multiset(xs)[d]
  {
    if xs != [] {
      OccIsMultiplicity(xs[1..], d);
      assert xs == [xs[0]] + xs[1..];
    }
  }

  /** Settling d removes exactly its occurrences. */
  lemma {:induction false} OutsideSettle(xs: seq<Id>, done: set<Id>, d: Id)
    requires d !in done
    ensures Outside(xs, done + {d}) == Outside(xs, done) - Occ(xs, d)
  {
    if xs != [] {
      OutsideSettle(xs[1..], done, d);
    }
  }

  lemma {:induction false} OutsideLength(xs: seq<Id>)
    ensures Outside(xs, {}) == |xs|
  {
    if xs != [] { OutsideLength(xs[1..]); }
  }
}
