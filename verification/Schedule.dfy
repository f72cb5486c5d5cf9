/** Marking the dependents of a failed step, and the round-robin launch order
    (internal/exec/executor_schedule.go). */
module Schedule {
  import opened Graph
  import opened Scheduler

  // ------------------------------------------------------ marking dependents

  /** A set of step ids shared by reference, as a Go map is. */
  class Marks {
    var members: set<Id>
    constructor ()
      ensures members == {}
    {
      members := {};
    }
  }

  ghost function Descendants(g: Deps, s: Id): set<Id> {
    set u | u in g && Reaches(g, s, u)
  }

  /** Every direct dependent of a member is a member. */
  ghost predicate ClosedUnderDependents(g: Deps, m: set<Id>) {
    forall x, u :: x in m && u in g && x in g[u] ==> u in m
  }

  /** Every direct dependent of x is in m. */
  ghost predicate Covered(g: Deps, x: Id, m: set<Id>) {
    forall u :: u in g && x in g[u] ==> u in m
  }

  /** What one traversal from s adds to before: only descendants of s, and everything
      newly reached has all its dependents reached too. */
  ghost predicate Traversed(g: Deps, s: Id, before: set<Id>, after: set<Id>) {
    && before <= after <= before + Descendants(g, s)
    && Covered(g, s, after)
    && forall x :: x in after - before ==> Covered(g, x, after)
  }

  /** Recursive marking.  It stops at already marked steps, terminates on cyclic graphs, and from
      a set closed under dependents reaches exactly the old members and all descendants. */
  method MarkDependents(stepID: Id, dependents: map<Id, seq<Id>>, marks: Marks, ghost g: Deps)
    requires Inverts(dependents, g)
    modifies marks
    ensures Traversed(g, stepID, old(marks.members), marks.members)
    ensures ClosedUnderDependents(g, old(marks.members)) ==>
              && marks.members == old(marks.members) + Descendants(g, stepID)
              && ClosedUnderDependents(g, marks.members)
    decreases |g.Keys - marks.members|
  {
    hide Descendants, Reaches;
    var deps := Get(dependents, stepID);
    ghost var before := marks.members;
    for i := 0 to |deps|
      invariant before <= marks.members <= before + Descendants(g, stepID)
      invariant forall j :: 0 <= j < i ==> deps[j] in marks.members
      invariant forall x :: x in marks.members - before ==> Covered(g, x, marks.members)
    {
      var dep := deps[i];
      assert Occurs(dependents, stepID, dep) > 0;
      DescendantsNest(g, stepID, dep);
      if dep !in marks.members {
        ghost var m0 := marks.members;
        FewerLeft(g.Keys, before, m0, dep);
        marks.members := marks.members + {dep};
        MarkDependents(dep, dependents, marks, g);
        ghost var m1 := marks.members;
        forall x | x in m1 - before ensures Covered(g, x, m1) {
          if x in m0 { assert Covered(g, x, m0); }
        }
      }
    }
    forall u | u in g && stepID in g[u] ensures u in marks.members {
      assert Occurs(dependents, stepID, u) > 0;
      assert u in deps;
    }
    if ClosedUnderDependents(g, before) {
      TraversalIsExact(g, stepID, before, marks.members);
    }
  }

  lemma FewerLeft(all: set<Id>, before: set<Id>, m0: set<Id>, dep: Id)
    requires before <= m0 && dep in all && dep !in m0
    ensures |all - (m0 + {dep})| < |all - before|
  {
    var left := all - (m0 + {dep});
    assert left + {dep} <= all - before;
    assert |left + {dep}| == |left| + 1;
    SubsetIsSmaller(left + {dep}, all - before);
  }

  lemma SubsetIsSmaller(a: set<Id>, b: set<Id>)
    requires a <= b
    ensures |a| <= |b|
  {
    assert b == a + (b - a);
  }

  lemma DescendantsNest(g: Deps, s: Id, d: Id)
    requires d in g && s in g[d]
    ensures d in Descendants(g, s) && Descendants(g, d) <= Descendants(g, s)
  {
    ReachDirect(g, s, d);
    forall u | u in Descendants(g, d) ensures u in Descendants(g, s) {
      ReachPrepend(g, s, d, u);
    }
  }

  lemma {:induction false} CoveredReach(g: Deps, s: Id, m: set<Id>, p: seq<Id>, u: Id)
    requires Covered(g, s, m) && ClosedUnderDependents(g, m)
    requires Connects(g, p, s, u)
    ensures u in m
    decreases |p|
  {
    var c := p[|p| - 2];
    assert Edge(g, p, |p| - 2);
    if |p| > 2 {
      ChainPrefix(g, p);
      CoveredReach(g, s, m, p[..|p| - 1], c);
    }
  }

  lemma TraversalIsExact(g: Deps, s: Id, before: set<Id>, after: set<Id>)
    requires ClosedUnderDependents(g, before) && Traversed(g, s, before, after)
    ensures after == before + Descendants(g, s)
    ensures ClosedUnderDependents(g, after)
  {
    forall x, u | x in after && u in g && x in g[u] ensures u in after {
      if x !in before { assert Covered(g, x, after); }
    }
    forall u | u in Descendants(g, s) ensures u in after {
      var p :| Connects(g, p, s, u);
      CoveredReach(g, s, after, p, u);
    }
  }

  // ------------------------------------------------------------- round robin

  /** The steps of one agent, in order. */
  function Of(xs: seq<Step>, agent: string): seq<Step> {
    if xs == [] then [] else
    var n := |xs| - 1;
    Of(xs[..n], agent) + if xs[n].agent == agent then [xs[n]] else []
  }

  function Min(a: nat, b: nat): nat { if a < b then a else b }

  /** Counts of two agents in a prefix of the order differ by at most one, unless the
      agent that lags has no step left. */
  ghost predicate Fair(ready: seq<Step>, prefix: seq<Step>) {
    forall a, b :: |Of(prefix, a)| <= |Of(prefix, b)| + 1 || Of(prefix, b) == Of(ready, b)
  }

  ghost predicate FairSoFar(ready: seq<Step>, result: seq<Step>) {
    forall k :: 0 <= k <= |result| ==> Fair(ready, result[..k])
  }

  lemma OfAppend(xs: seq<Step>, s: Step, agent: string)
    ensures Of(xs + [s], agent) == Of(xs, agent) + if s.agent == agent then [s] else []
  {
    assert (xs + [s])[..|xs|] == xs;
  }

  lemma {:induction false} OfCounts(xs: seq<Step>, s: Step)
    ensures multiset(xs)[s] == multiset(Of(xs, s.agent))[s]
  {
    if xs != [] {
      var n := |xs| - 1;
      OfCounts(xs[..n], s);
      assert xs == xs[..n] + [xs[n]];
    }
  }

  /** Two orders with the same subsequence for every agent are permutations of each other. */
  lemma SameAgentsSameSteps(xs: seq<Step>, ys: seq<Step>)
    requires forall a :: Of(xs, a) == Of(ys, a)
    ensures multiset(xs) == multiset(ys) && |xs| == |ys|
  {
    forall s ensures multiset(xs)[s] == multiset(ys)[s] {
      OfCounts(xs, s);
      OfCounts(ys, s);
    }
    assert multiset(xs) == multiset(ys);
    assert |xs| == |multiset(xs)| && |ys| == |multiset(ys)|;
  }

  ghost predicate Grouped(ready: seq<Step>, buckets: map<string, seq<Step>>, agents: seq<string>) {
    && (forall a :: a in agents <==> a in buckets)
    && (forall i, j :: 0 <= i < j < |agents| ==> agents[i] != agents[j])
    && (forall a :: a in buckets ==> buckets[a] == Of(ready, a))
    && (forall a :: a !in buckets ==> Of(ready, a) == [])
  }

  lemma GroupedGrows(ready: seq<Step>, buckets: map<string, seq<Step>>, agents: seq<string>, s: Step)
    requires Grouped(ready, buckets, agents)
    ensures Grouped(ready + [s],
                    buckets[s.agent := (if s.agent in buckets then buckets[s.agent] else []) + [s]],
                    if s.agent in buckets then agents else agents + [s.agent])
  {
    hide Of;
    forall a ensures Of(ready + [s], a) == Of(ready, a) + if s.agent == a then [s] else [] {
      OfAppend(ready, s, a);
    }
  }

  /** a occurs among the first n steps. */
  ghost predicate Seen(ready: seq<Step>, a: string, n: nat) {
    exists i :: 0 <= i < n && i < |ready| && ready[i].agent == a
  }

  /** agents are the agents of ready, in the order of their first appearance. */
  ghost predicate FirstSeen(ready: seq<Step>, agents: seq<string>) {
    && (forall m :: 0 <= m < |agents| ==> Seen(ready, agents[m], |ready|))
    && (forall m, n, k: nat :: 0 <= m < n < |agents| && k < |ready| && ready[k].agent == agents[n] ==>
          Seen(ready, agents[m], k))
  }

  lemma StillSeen(ready: seq<Step>, s: Step, a: string, n: nat)
    requires n <= |ready| && Seen(ready, a, n)
    ensures Seen(ready + [s], a, n) && Seen(ready + [s], a, |ready| + 1)
  {
    var i :| 0 <= i < n && ready[i].agent == a;
    assert (ready + [s])[i].agent == a;
  }

  lemma SeenLast(ready: seq<Step>, s: Step)
    ensures Seen(ready + [s], s.agent, |ready| + 1)
  {
    assert (ready + [s])[|ready|].agent == s.agent;
  }

  lemma FirstSeenGrows(ready: seq<Step>, agents: seq<string>, s: Step)
    requires FirstSeen(ready, agents)
    requires s.agent !in agents ==> !Seen(ready, s.agent, |ready|)
    ensures FirstSeen(ready + [s], if s.agent in agents then agents else agents + [s.agent])
  {
    var more := ready + [s];
    var all := if s.agent in agents then agents else agents + [s.agent];
    forall m | 0 <= m < |all| ensures Seen(more, all[m], |more|) {
      if m < |agents| {
        StillSeen(ready, s, agents[m], |ready|);
      } else {
        SeenLast(ready, s);
      }
    }
    forall m, n, k: nat | 0 <= m < n < |all| && k < |more| && more[k].agent == all[n]
      ensures Seen(more, all[m], k)
    {
      if k < |ready| {
        assert n < |agents|;
        StillSeen(ready, s, agents[m], k);
      } else {
        StillSeen(ready, s, agents[m], |ready|);
      }
    }
  }

  lemma {:induction false} SeenHasSteps(ready: seq<Step>, a: string)
    ensures Seen(ready, a, |ready|) <==> Of(ready, a) != []
  {
    if ready != [] {
      var k := |ready| - 1;
      SeenHasSteps(ready[..k], a);
      assert ready == ready[..k] + [ready[k]];
      OfAppend(ready[..k], ready[k], a);
      if Seen(ready[..k], a, k) {
        var i :| 0 <= i < k && ready[..k][i].agent == a;
        assert ready[i].agent == a;
      }
    }
  }

  method GroupByAgent(ready: seq<Step>) returns (buckets: map<string, seq<Step>>, agents: seq<string>)
    ensures Grouped(ready, buckets, agents) && FirstSeen(ready, agents)
  {
    hide Of, FirstSeen;
    buckets, agents := map[], [];
    NothingSeen();
    for i := 0 to |ready|
      invariant Grouped(ready[..i], buckets, agents) && FirstSeen(ready[..i], agents)
    {
      var s := ready[i];
      assert ready[..i + 1] == ready[..i] + [s];
      SeenHasSteps(ready[..i], s.agent);
      FirstSeenGrows(ready[..i], agents, s);
      GroupedGrows(ready[..i], buckets, agents, s);
      if s.agent !in buckets {
        agents := agents + [s.agent];
      }
      buckets := buckets[s.agent := (if s.agent in buckets then buckets[s.agent] else []) + [s]];
    }
    assert ready[..|ready|] == ready;
  }

  lemma NothingSeen()
    ensures Grouped([], map[], []) && FirstSeen([], [])
  {
  }

  /** The round in which position i was emitted: how many steps of its agent came before. */
  ghost function Round(result: seq<Step>, i: nat): nat
    requires i < |result|
  {
    |Of(result[..i], result[i].agent)|
  }

  ghost predicate Earlier(agents: seq<string>, a: string, b: string) {
    exists m, n :: 0 <= m < n < |agents| && agents[m] == a && agents[n] == b
  }

  /** Rounds come one after the other, and within a round the agents in their order: together with the
      agents' own order this leaves exactly one result. */
  ghost predicate InRounds(result: seq<Step>, agents: seq<string>) {
    forall i: nat, j: nat :: i < j < |result| ==>
      || Round(result, i) < Round(result, j)
      || (Round(result, i) == Round(result, j) && Earlier(agents, result[i].agent, result[j].agent))
  }

  /** Nothing has been emitted beyond the first j agents of round r. */
  ghost predicate UpTo(result: seq<Step>, agents: seq<string>, r: nat, j: nat) {
    forall i: nat :: i < |result| ==>
      || Round(result, i) < r
      || (Round(result, i) == r && exists m :: 0 <= m < j && m < |agents| && agents[m] == result[i].agent)
  }

  lemma EmitInRounds(result: seq<Step>, agents: seq<string>, r: nat, j: nat, s: Step)
    requires InRounds(result, agents) && UpTo(result, agents, r, j) && j < |agents|
    requires s.agent == agents[j] && |Of(result, agents[j])| == r
    ensures InRounds(result + [s], agents) && UpTo(result + [s], agents, r, j + 1)
  {
    hide Of;
    var more := result + [s];
    forall i: nat | i < |more| ensures Round(more, i) == if i < |result| then Round(result, i) else r {
      assert more[..i] == if i < |result| then result[..i] else result;
    }
  }

  lemma SkipUpTo(result: seq<Step>, agents: seq<string>, r: nat, j: nat)
    requires UpTo(result, agents, r, j)
    ensures UpTo(result, agents, r, j + 1)
  {
  }

  lemma NextRound(result: seq<Step>, agents: seq<string>, r: nat)
    requires UpTo(result, agents, r, |agents|)
    ensures UpTo(result, agents, r + 1, 0)
  {
  }

  /** During round r, the first j agents have already been served. */
  ghost predicate Served(ready: seq<Step>, result: seq<Step>, agents: seq<string>, r: nat, j: nat)
    requires j <= |agents|
  {
    && (forall i :: 0 <= i < j ==> Prefix(ready, result, agents[i], r + 1))
    && (forall i :: j <= i < |agents| ==> Prefix(ready, result, agents[i], r))
    && (forall a :: a !in agents ==> Of(result, a) == Of(ready, a) == [])
  }

  /** result holds the first n steps of agent a, or all of them when it has fewer. */
  ghost predicate Prefix(ready: seq<Step>, result: seq<Step>, a: string, n: nat) {
    Of(result, a) == Of(ready, a)[..Min(n, |Of(ready, a)|)]
  }

  lemma ServedIsFair(ready: seq<Step>, result: seq<Step>, agents: seq<string>, r: nat, j: nat)
    requires j <= |agents| && Served(ready, result, agents, r, j)
    ensures Fair(ready, result)
  {
    forall a, b ensures |Of(result, a)| <= |Of(result, b)| + 1 || Of(result, b) == Of(ready, b) {
      assert |Of(result, a)| <= r + 1 by {
        if a in agents {
          var i :| 0 <= i < |agents| && agents[i] == a;
          assert Prefix(ready, result, agents[i], if i < j then r + 1 else r);
        }
      }
      if b in agents {
        var i :| 0 <= i < |agents| && agents[i] == b;
        assert Prefix(ready, result, agents[i], if i < j then r + 1 else r);
      }
    }
  }

  lemma PrefixSame(ready: seq<Step>, result: seq<Step>, a: string, n: nat, s: Step)
    requires Prefix(ready, result, a, n) && s.agent != a
    ensures Prefix(ready, result + [s], a, n)
  {
    OfAppend(result, s, a);
  }

  lemma PrefixNext(ready: seq<Step>, result: seq<Step>, a: string, n: nat, s: Step)
    requires Prefix(ready, result, a, n) && s.agent == a
    requires n < |Of(ready, a)| && s == Of(ready, a)[n]
    ensures Prefix(ready, result + [s], a, n + 1)
  {
    OfAppend(result, s, a);
    assert Of(ready, a)[..n + 1] == Of(ready, a)[..n] + [s];
  }

  lemma ServeNext(ready: seq<Step>, result: seq<Step>, agents: seq<string>, r: nat, j: nat, s: Step)
    requires j < |agents| && Served(ready, result, agents, r, j)
    requires forall i, k :: 0 <= i < k < |agents| ==> agents[i] != agents[k]
    requires r < |Of(ready, agents[j])| && s == Of(ready, agents[j])[r] && s.agent == agents[j]
    ensures Served(ready, result + [s], agents, r, j + 1)
  {
    PrefixNext(ready, result, agents[j], r, s);
    forall i | 0 <= i < j ensures Prefix(ready, result + [s], agents[i], r + 1) {
      PrefixSame(ready, result, agents[i], r + 1, s);
    }
    forall i | j < i < |agents| ensures Prefix(ready, result + [s], agents[i], r) {
      PrefixSame(ready, result, agents[i], r, s);
    }
    forall a | a !in agents ensures Of(result + [s], a) == Of(ready, a) == [] {
      OfAppend(result, s, a);
    }
  }

  lemma SkipNext(ready: seq<Step>, result: seq<Step>, agents: seq<string>, r: nat, j: nat)
    requires j < |agents| && Served(ready, result, agents, r, j)
    requires |Of(ready, agents[j])| <= |Of(result, agents[j])|
    ensures Served(ready, result, agents, r, j + 1)
  {
    assert Prefix(ready, result, agents[j], r);
  }

  lemma {:induction false} OfAgent(xs: seq<Step>, a: string, k: nat)
    requires k < |Of(xs, a)|
    ensures Of(xs, a)[k].agent == a
  {
    var n := |xs| - 1;
    if k < |Of(xs[..n], a)| { OfAgent(xs[..n], a, k); }
  }

  /** When a full round adds nothing, every agent is exhausted. */
  lemma NothingLeft(ready: seq<Step>, result: seq<Step>, agents: seq<string>, r: nat)
    requires Served(ready, result, agents, r, 0) && Served(ready, result, agents, r, |agents|)
    ensures |result| == |ready|
  {
    forall a ensures Of(result, a) == Of(ready, a) {
      if a in agents {
        var i :| 0 <= i < |agents| && agents[i] == a;
        assert Prefix(ready, result, agents[i], r + 1);
        assert Prefix(ready, result, agents[i], r);
        PrefixLength(ready, result, a, r);
        PrefixLength(ready, result, a, r + 1);
      }
    }
    SameAgentsSameSteps(result, ready);
  }

  lemma PrefixLength(ready: seq<Step>, result: seq<Step>, a: string, n: nat)
    requires Prefix(ready, result, a, n)
    ensures |Of(result, a)| == Min(n, |Of(ready, a)|)
    ensures |Of(result, a)| == |Of(ready, a)| ==> Of(result, a) == Of(ready, a)
  {}

  /** The index map holds how many steps of each agent have been emitted. */
  ghost predicate Positions(idx: map<string, nat>, result: seq<Step>, agents: seq<string>) {
    forall a :: a in agents ==> (if a in idx then idx[a] else 0) == |Of(result, a)|
  }

  lemma EmitStep(ready: seq<Step>, result: seq<Step>, agents: seq<string>, idx: map<string, nat>,
                 r: nat, j: nat)
    requires j < |agents| && Served(ready, result, agents, r, j)
    requires forall i, k :: 0 <= i < k < |agents| ==> agents[i] != agents[k]
    requires Positions(idx, result, agents) && FairSoFar(ready, result)
    requires |Of(result, agents[j])| < |Of(ready, agents[j])|
    ensures |Of(result, agents[j])| == r
    ensures var s := Of(ready, agents[j])[r];
            && Served(ready, result + [s], agents, r, j + 1)
            && FairSoFar(ready, result + [s])
            && Positions(idx[agents[j] := r + 1], result + [s], agents)
  {
    assert Prefix(ready, result, agents[j], r);
    PrefixLength(ready, result, agents[j], r);
    var s := Of(ready, agents[j])[r];
    OfAgent(ready, agents[j], r);
    ServeNext(ready, result, agents, r, j, s);
    ServedIsFair(ready, result + [s], agents, r, j + 1);
    FairGrows(ready, result, s);
    forall a | a in agents ensures |Of(result + [s], a)| == |Of(result, a)| + if s.agent == a then 1 else 0 {
      OfAppend(result, s, a);
    }
  }

  /** Interleaves ready steps by agent: a permutation that keeps each agent's relative order, is fair in
      every prefix, and serves the agents in the order of their first appearance. */
  method ScheduleRoundRobin(ready: seq<Step>) returns (result: seq<Step>, ghost agents: seq<string>)
    ensures multiset(result) == multiset(ready)
    ensures forall a :: Of(result, a) == Of(ready, a)
    ensures FairSoFar(ready, result)
    ensures FirstSeen(ready, agents) && InRounds(result, agents)
  {
    if |ready| <= 1 {
      ShortIsFair(ready);
      agents := if |ready| == 0 then [] else [ready[0].agent];
      assert |ready| == 1 ==> Seen(ready, ready[0].agent, 1);
      return ready, agents;
    }
    hide FirstSeen;
    var buckets, agentOrder := GroupByAgent(ready);
    agents := agentOrder;
    result := [];
    var idx: map<string, nat> := map[];
    ghost var r := 0;
    StartServing(ready, agentOrder, buckets);
    while |result| < |ready|
      invariant |result| <= |ready|
      invariant Serving(ready, result, agentOrder, idx, r, 0)
      invariant InRounds(result, agentOrder) && UpTo(result, agentOrder, r, 0)
      decreases |ready| - |result|
    {
      result, idx := ServeRound(ready, buckets, agentOrder, result, idx, r);
      NotTooLong(ready, result, agentOrder, r);
      NextRound(result, agentOrder, r);
      r := r + 1;
    }
    SameLengthDone(ready, result, agentOrder, r);
  }

  ghost predicate Serving(ready: seq<Step>, result: seq<Step>, agents: seq<string>, idx: map<string, nat>,
                          r: nat, j: nat)
    requires j <= |agents|
  {
    Served(ready, result, agents, r, j) && FairSoFar(ready, result) && Positions(idx, result, agents)
  }

  /** One pass over the agents: each agent with a step left emits its next one. */
  method ServeRound(ready: seq<Step>, buckets: map<string, seq<Step>>, agentOrder: seq<string>,
                    result0: seq<Step>, idx0: map<string, nat>, ghost r: nat)
    returns (result: seq<Step>, idx: map<string, nat>)
    requires Grouped(ready, buckets, agentOrder)
    requires Serving(ready, result0, agentOrder, idx0, r, 0) && |result0| < |ready|
    requires InRounds(result0, agentOrder) && UpTo(result0, agentOrder, r, 0)
    ensures Serving(ready, result, agentOrder, idx, r, |agentOrder|) && |result0| < |result|
    ensures InRounds(result, agentOrder) && UpTo(result, agentOrder, r, |agentOrder|)
  {
    hide Served, FairSoFar, Of, InRounds, UpTo;
    result, idx := result0, idx0;
    for j := 0 to |agentOrder|
      invariant |result0| <= |result| && (|result| == |result0| ==> result == result0)
      invariant Serving(ready, result, agentOrder, idx, r, j)
      invariant InRounds(result, agentOrder) && UpTo(result, agentOrder, r, j)
    {
      var agent := agentOrder[j];
      var i := if agent in idx then idx[agent] else 0;
      if i < |buckets[agent]| {
        EmitStep(ready, result, agentOrder, idx, r, j);
        OfAgent(ready, agent, r);
        EmitInRounds(result, agentOrder, r, j, buckets[agent][i]);
        result := result + [buckets[agent][i]];
        idx := idx[agent := i + 1];
      } else {
        SkipNext(ready, result, agentOrder, r, j);
        SkipUpTo(result, agentOrder, r, j);
      }
    }
    if |result| == |result0| {
      NothingLeft(ready, result, agentOrder, r);
    }
  }

  lemma ShortIsFair(ready: seq<Step>)
    requires |ready| <= 1
    ensures FairSoFar(ready, ready)
  {
    forall k | 0 <= k <= |ready| ensures Fair(ready, ready[..k]) {
      forall a ensures |Of(ready[..k], a)| <= 1 {
        if k == 1 { assert |Of(ready[..0], a)| == 0; assert ready[..1][..0] == ready[..0]; }
      }
    }
  }

  lemma StartServing(ready: seq<Step>, agents: seq<string>, buckets: map<string, seq<Step>>)
    requires Grouped(ready, buckets, agents)
    ensures Served(ready, [], agents, 0, 0) && FairSoFar(ready, [])
  {
    ServedIsFair(ready, [], agents, 0, 0);
    var none: seq<Step> := [];
    assert none[..0] == none;
  }

  lemma FairGrows(ready: seq<Step>, result: seq<Step>, s: Step)
    requires FairSoFar(ready, result) && Fair(ready, result + [s])
    ensures FairSoFar(ready, result + [s])
  {
    var grown := result + [s];
    forall k | 0 <= k <= |grown| ensures Fair(ready, grown[..k]) {
      if k <= |result| { assert grown[..k] == result[..k]; } else { assert grown[..k] == grown; }
    }
  }

  lemma MultisetBelow(ready: seq<Step>, result: seq<Step>, agents: seq<string>, r: nat)
    requires Served(ready, result, agents, r, 0)
    ensures multiset(result) <= multiset(ready)
  {
    hide Of;
    forall s ensures multiset(result)[s] <= multiset(ready)[s] {
      OfCounts(result, s);
      OfCounts(ready, s);
      if s.agent in agents {
        var i :| 0 <= i < |agents| && agents[i] == s.agent;
        assert Prefix(ready, result, agents[i], r);
        PrefixBelow(Of(ready, s.agent), Min(r, |Of(ready, s.agent)|), s);
      }
    }
  }

  lemma PrefixBelow(all: seq<Step>, m: nat, s: Step)
    requires m <= |all|
    ensures multiset(all[..m])[s] <= multiset(all)[s]
  {
    assert all == all[..m] + all[m..];
  }

  lemma NotTooLong(ready: seq<Step>, result: seq<Step>, agents: seq<string>, r: nat)
    requires Served(ready, result, agents, r, |agents|)
    ensures |result| <= |ready|
    ensures Served(ready, result, agents, r + 1, 0)
  {
    MultisetBelow(ready, result, agents, r + 1);
    assert multiset(ready) == multiset(result) + (multiset(ready) - multiset(result));
    assert |multiset(result)| <= |multiset(ready)|;
  }

  lemma OfLength(xs: seq<Step>, ys: seq<Step>, a: string)
    requires multiset(xs) == multiset(ys)
    ensures |Of(xs, a)| == |Of(ys, a)|
  {
    var u, v := multiset(Of(xs, a)), multiset(Of(ys, a));
    forall s ensures u[s] == v[s] {
      if s.agent == a {
        OfCounts(xs, s);
        OfCounts(ys, s);
      } else {
        NotOf(xs, a, s);
        NotOf(ys, a, s);
      }
    }
    assert u == v;
    assert |u| == |Of(xs, a)| && |v| == |Of(ys, a)|;
  }

  lemma NotOf(xs: seq<Step>, a: string, s: Step)
    requires s.agent != a
    ensures s !in Of(xs, a)
  {
    forall k | 0 <= k < |Of(xs, a)| ensures Of(xs, a)[k] != s { OfAgent(xs, a, k); }
  }

  lemma SameLengthDone(ready: seq<Step>, result: seq<Step>, agents: seq<string>, r: nat)
    requires Served(ready, result, agents, r, 0) && |result| == |ready|
    ensures forall a :: Of(result, a) == Of(ready, a)
    ensures multiset(result) == multiset(ready)
  {
    MultisetBelow(ready, result, agents, r);
    var rest := multiset(ready) - multiset(result);
    assert multiset(ready) == multiset(result) + rest;
    assert |rest| == 0;
    forall a ensures Of(result, a) == Of(ready, a) {
      if a in agents {
        var i :| 0 <= i < |agents| && agents[i] == a;
        assert Prefix(ready, result, agents[i], r);
        PrefixLength(ready, result, a, r);
        OfLength(result, ready, a);
      }
    }
  }

  // -------------------------------------------------------------- least busy

  function LoadOf(load: map<string, nat>, s: Step): nat {
    if s.agent in load then load[s.agent] else 0
  }

  ghost predicate SortedByLoad(xs: seq<Step>, load: map<string, nat>) {
    forall i, j :: 0 <= i < j < |xs| ==> LoadOf(load, xs[i]) <= LoadOf(load, xs[j])
  }

  /** The steps whose agent has load n, in order. */
  ghost function WithLoad(xs: seq<Step>, load: map<string, nat>, n: nat): seq<Step> {
    if xs == [] then [] else
    var k := |xs| - 1;
    WithLoad(xs[..k], load, n) + if LoadOf(load, xs[k]) == n then [xs[k]] else []
  }

  /** One step of a stable sort: s goes behind everything that is not busier. */
  function Insert(xs: seq<Step>, load: map<string, nat>, s: Step): seq<Step> {
    if xs == [] || LoadOf(load, xs[|xs| - 1]) <= LoadOf(load, s) then xs + [s]
    else Insert(xs[..|xs| - 1], load, s) + [xs[|xs| - 1]]
  }

  lemma {:induction false} InsertPermutes(xs: seq<Step>, load: map<string, nat>, s: Step)
    ensures multiset(Insert(xs, load, s)) == multiset(xs) + multiset{s}
  {
    if xs != [] {
      var k := |xs| - 1;
      assert xs == xs[..k] + [xs[k]];
      InsertPermutes(xs[..k], load, s);
    }
  }

  lemma {:induction false} InsertKeepsSorted(xs: seq<Step>, load: map<string, nat>, s: Step)
    requires SortedByLoad(xs, load)
    ensures SortedByLoad(Insert(xs, load, s), load)
  {
    if xs != [] && LoadOf(load, xs[|xs| - 1]) > LoadOf(load, s) {
      InsertKeepsSorted(xs[..|xs| - 1], load, s);
      InsertPermutes(xs[..|xs| - 1], load, s);
      InsertSorted(xs, load, s, Insert(xs[..|xs| - 1], load, s));
    }
  }

  /** Among steps of equal load the order is kept, s being the latest. */
  lemma {:induction false} InsertIsStable(xs: seq<Step>, load: map<string, nat>, s: Step)
    ensures forall n :: WithLoad(Insert(xs, load, s), load, n) ==
                        WithLoad(xs, load, n) + if LoadOf(load, s) == n then [s] else []
  {
    InsertLast(xs, load, s);
    if xs != [] && LoadOf(load, xs[|xs| - 1]) > LoadOf(load, s) {
      var k := |xs| - 1;
      InsertIsStable(xs[..k], load, s);
      InsertLast(Insert(xs[..k], load, s), load, xs[k]);
    }
  }

  lemma InsertLast(xs: seq<Step>, load: map<string, nat>, s: Step)
    ensures forall n :: WithLoad(xs + [s], load, n) == WithLoad(xs, load, n) + if LoadOf(load, s) == n then [s] else []
  {
    assert (xs + [s])[..|xs|] == xs;
  }

  lemma InsertSorted(xs: seq<Step>, load: map<string, nat>, s: Step, front: seq<Step>)
    requires xs != [] && LoadOf(load, s) < LoadOf(load, xs[|xs| - 1]) && SortedByLoad(xs, load)
    requires multiset(front) == multiset(xs[..|xs| - 1]) + multiset{s}
    requires SortedByLoad(front, load)
    ensures SortedByLoad(front + [xs[|xs| - 1]], load)
  {
    var k := |xs| - 1;
    forall i | 0 <= i < |front| ensures LoadOf(load, front[i]) <= LoadOf(load, xs[k]) {
      assert front[i] in multiset(front);
      if front[i] != s {
        assert front[i] in multiset(xs[..k]);
        var j :| 0 <= j < k && xs[..k][j] == front[i];
      }
    }
  }

  /** How many running steps belong to agent. */
  ghost function RunningOf(running: set<Id>, agentOf: map<Id, string>, agent: string): nat {
    |set id | id in running && (if id in agentOf then agentOf[id] else "") == agent|
  }

  ghost predicate CountsRunning(load: map<string, nat>, running: set<Id>, agentOf: map<Id, string>) {
    forall a :: (if a in load then load[a] else 0) == RunningOf(running, agentOf, a)
  }

  function AgentOf(steps: seq<Step>): map<Id, string>
    requires UniqueIds(steps)
  {
    map s | s in steps :: s.id := s.agent
  }

  method CountLoad(running: set<Id>, agentOf: map<Id, string>) returns (load: map<string, nat>)
    ensures CountsRunning(load, running, agentOf)
  {
    load := map[];
    var left := running;
    assert running - left == {};
    while left != {}
      invariant left <= running
      invariant forall a :: (if a in load then load[a] else 0) == RunningOf(running - left, agentOf, a)
      decreases left
    {
      var id :| id in left;
      var agent := if id in agentOf then agentOf[id] else "";
      forall a ensures RunningOf(running - (left - {id}), agentOf, a) ==
                       RunningOf(running - left, agentOf, a) + if a == agent then 1 else 0
      {
        RunningGrows(running, left, agentOf, id, a);
      }
      load := load[agent := (if agent in load then load[agent] else 0) + 1];
      left := left - {id};
    }
    assert running - {} == running;
  }

  lemma RunningGrows(running: set<Id>, left: set<Id>, agentOf: map<Id, string>, id: Id, a: string)
    requires id in left && left <= running
    ensures RunningOf(running - (left - {id}), agentOf, a) ==
            RunningOf(running - left, agentOf, a) + if (if id in agentOf then agentOf[id] else "") == a then 1 else 0
  {
    var before := set i | i in running - left && (if i in agentOf then agentOf[i] else "") == a;
    var after := set i | i in running - (left - {id}) && (if i in agentOf then agentOf[i] else "") == a;
    if (if id in agentOf then agentOf[id] else "") == a {
      assert after == before + {id};
    } else {
      assert after == before;
    }
  }

  /** How many running steps the agent of s has. */
  ghost function Busy(running: set<Id>, allSteps: seq<Step>, s: Step): nat
    requires UniqueIds(allSteps)
  {
    RunningOf(running, AgentOf(allSteps), s.agent)
  }

  lemma {:induction false} AsManyIds(ss: set<Step>, ids: set<Id>)
    requires forall s, t :: s in ss && t in ss && s != t ==> s.id != t.id
    requires forall id :: id in ids <==> exists s :: s in ss && s.id == id
    ensures |ss| == |ids|
    decreases |ss|
  {
    if s :| s in ss {
      assert s.id in ids;
      AsManyIds(ss - {s}, ids - {s.id});
    } else {
      assert forall id :: id !in ids;
      assert ids == {};
    }
  }

  /** In terms of the steps themselves. */
  lemma BusyCounts(running: set<Id>, allSteps: seq<Step>, s: Step)
    requires UniqueIds(allSteps) && s in allSteps && running <= IdsOf(allSteps)
    ensures Busy(running, allSteps, s) == |set t | t in allSteps && t.id in running && t.agent == s.agent|
  {
    var ss := set t | t in allSteps && t.id in running && t.agent == s.agent;
    var agentOf := AgentOf(allSteps);
    var ids := set id | id in running && (if id in agentOf then agentOf[id] else "") == s.agent;
    forall id ensures id in ids <==> exists t :: t in ss && t.id == id {
      if id in ids {
        var t :| t in allSteps && t.id == id;
        assert t in ss;
      }
    }
    AsManyIds(ss, ids);
  }

  /** The steps whose agent has n running steps, in order. */
  ghost function WithBusy(xs: seq<Step>, running: set<Id>, allSteps: seq<Step>, n: nat): seq<Step>
    requires UniqueIds(allSteps)
  {
    if xs == [] then [] else
    var k := |xs| - 1;
    WithBusy(xs[..k], running, allSteps, n) + if Busy(running, allSteps, xs[k]) == n then [xs[k]] else []
  }

  /** Sorted by how busy the agents are; steps of equally busy agents stay in order. */
  ghost predicate ByLoad(ready: seq<Step>, running: set<Id>, allSteps: seq<Step>, result: seq<Step>)
    requires UniqueIds(allSteps)
  {
    && (forall i, j :: 0 <= i < j < |result| ==> Busy(running, allSteps, result[i]) <= Busy(running, allSteps, result[j]))
    && forall n :: WithBusy(result, running, allSteps, n) == WithBusy(ready, running, allSteps, n)
  }

  lemma LoadIsBusy(load: map<string, nat>, running: set<Id>, allSteps: seq<Step>, s: Step)
    requires UniqueIds(allSteps) && CountsRunning(load, running, AgentOf(allSteps))
    ensures LoadOf(load, s) == Busy(running, allSteps, s)
  {
  }

  lemma {:induction false} WithLoadIsWithBusy(xs: seq<Step>, load: map<string, nat>, running: set<Id>,
                                              allSteps: seq<Step>, n: nat)
    requires UniqueIds(allSteps) && CountsRunning(load, running, AgentOf(allSteps))
    ensures WithLoad(xs, load, n) == WithBusy(xs, running, allSteps, n)
  {
    hide CountsRunning, UniqueIds, Busy, LoadOf;
    if xs != [] {
      LoadIsBusy(load, running, allSteps, xs[|xs| - 1]);
      WithLoadIsWithBusy(xs[..|xs| - 1], load, running, allSteps, n);
    }
  }

  lemma SortedIsByLoad(ready: seq<Step>, load: map<string, nat>, running: set<Id>, allSteps: seq<Step>,
                       result: seq<Step>)
    requires UniqueIds(allSteps) && CountsRunning(load, running, AgentOf(allSteps)) && SortedByLoad(result, load)
    requires forall n :: WithLoad(result, load, n) == WithLoad(ready, load, n)
    ensures ByLoad(ready, running, allSteps, result)
  {
    hide CountsRunning, UniqueIds, Busy, LoadOf;
    forall i, j | 0 <= i < j < |result| ensures Busy(running, allSteps, result[i]) <= Busy(running, allSteps, result[j]) {
      LoadIsBusy(load, running, allSteps, result[i]);
      LoadIsBusy(load, running, allSteps, result[j]);
    }
    forall n ensures WithBusy(result, running, allSteps, n) == WithBusy(ready, running, allSteps, n) {
      WithLoadIsWithBusy(result, load, running, allSteps, n);
      WithLoadIsWithBusy(ready, load, running, allSteps, n);
    }
  }

  /** Orders ready steps by their agents' current load: a sorted, stable permutation. */
  method ScheduleLeastBusy(ready: seq<Step>, running: set<Id>, allSteps: seq<Step>) returns (result: seq<Step>)
    requires UniqueIds(allSteps)
    ensures multiset(result) == multiset(ready) && ByLoad(ready, running, allSteps, result)
  {
    if |ready| <= 1 {
      return ready;
    }
    var agentLoad := CountLoad(running, AgentOf(allSteps));
    ghost var load := agentLoad;
    result := [];
    for i := 0 to |ready|
      invariant multiset(result) == multiset(ready[..i])
      invariant SortedByLoad(result, load)
      invariant forall n :: WithLoad(result, load, n) == WithLoad(ready[..i], load, n)
    {
      assert ready[..i + 1] == ready[..i] + [ready[i]];
      InsertLast(ready[..i], load, ready[i]);
      InsertPermutes(result, load, ready[i]);
      InsertKeepsSorted(result, load, ready[i]);
      InsertIsStable(result, load, ready[i]);
      result := Insert(result, agentLoad, ready[i]);
    }
    assert ready[..|ready|] == ready;
    SortedIsByLoad(ready, load, running, allSteps, result);
  }

  datatype SchedulerKind = DependencyFirst | RoundRobin | LeastBusy

  ghost predicate ByRounds(ready: seq<Step>, result: seq<Step>, agents: seq<string>) {
    FairSoFar(ready, result) && FirstSeen(ready, agents) && InRounds(result, agents)
  }

  /** result is the order in which the strategy launches the ready steps. */
  ghost predicate Scheduled(kind: SchedulerKind, ready: seq<Step>, running: set<Id>, allSteps: seq<Step>,
                            result: seq<Step>)
    requires UniqueIds(allSteps)
  {
    && multiset(result) == multiset(ready)
    && match kind {
         case DependencyFirst => result == ready
         case RoundRobin => exists agents :: ByRounds(ready, result, agents)
         case LeastBusy => ByLoad(ready, running, allSteps, result)
       }
  }

  /** Whatever the strategy, the launch order is a permutation of the ready steps; each strategy gives its own. */
  method ScheduleOrder(kind: SchedulerKind, ready: seq<Step>, running: set<Id>, allSteps: seq<Step>)
    returns (result: seq<Step>)
    requires UniqueIds(allSteps)
    ensures Scheduled(kind, ready, running, allSteps, result)
  {
    hide FirstSeen, InRounds, FairSoFar, SortedByLoad, CountsRunning;
    match kind
    case RoundRobin =>
      ghost var agents;
      result, agents := ScheduleRoundRobin(ready);
      assert ByRounds(ready, result, agents);
    case LeastBusy => result := ScheduleLeastBusy(ready, running, allSteps);
    case DependencyFirst => result := ready;
  }
}
