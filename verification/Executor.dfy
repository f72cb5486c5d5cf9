/** The imperative run state of Executor.Run: the maps and counters its closures share, and
    the critical sections that update them (internal/exec/executor.go). */
module Executor {
  import opened Graph
  import opened Scheduler
  import opened Schedule
  import opened RunCore
  import opened RunSystem
  import opened RunTheorems

  const DEFAULT_MAX_CONCURRENCY: nat := 5

  /** Workflow option, then executor option, then the default. */
  function MaxConcurrency(workflowOption: int, executorOption: int): (slots: nat)
    ensures slots >= 1
    ensures workflowOption > 0 ==> slots == workflowOption
    ensures workflowOption <= 0 && executorOption > 0 ==> slots == executorOption
    ensures workflowOption <= 0 && executorOption <= 0 ==> slots == 5
  {
    if workflowOption > 0 then workflowOption
    else if executorOption > 0 then executorOption
    else DEFAULT_MAX_CONCURRENCY
  }

  function IdList(steps: seq<Step>): (ids: seq<Id>)
    ensures |ids| == |steps| && forall i :: 0 <= i < |steps| ==> ids[i] == steps[i].id
  {
    if steps == [] then [] else [steps[0].id] + IdList(steps[1..])
  }

  function PlanOf(steps: seq<Step>, order: seq<Id>, strategy: Strategy, slots: nat, parent: map<Id, Result>): Plan
    requires UniqueIds(steps)
  {
    Plan(IdList(steps), DepsOf(steps), order, strategy, slots, parent)
  }

  /** What validation establishes is what the engine relies on. */
  lemma ValidatedPlan(steps: seq<Step>, order: seq<Id>, strategy: Strategy, slots: nat, parent: map<Id, Result>)
    requires UniqueIds(steps) && Closed(DepsOf(steps)) && TopoOrder(DepsOf(steps), order) && slots >= 1
    ensures ValidPlan(PlanOf(steps, order, strategy, slots, parent))
  {
    IdListMembers(steps);
    assert forall x :: x in SetOf(order) <==> x in order;
    assert SetOf(order) == IdsOf(steps);
    SizeOf(order);
    DeclaredSize(steps);
  }

  lemma {:induction false} IdListMembers(steps: seq<Step>)
    requires UniqueIds(steps)
    ensures NoDuplicates(IdList(steps))
    ensures forall s :: s in IdList(steps) <==> s in IdsOf(steps)
  {
    if steps != [] {
      IdListMembers(steps[1..]);
      assert IdList(steps) == [steps[0].id] + IdList(steps[1..]);
      assert steps == [steps[0]] + steps[1..];
      assert IdsOf(steps) == {steps[0].id} + IdsOf(steps[1..]);
    }
  }

  /** One decrement per entry of a dependents list. */
  method DecrementAll(inDegree0: map<Id, int>, ns: seq<Id>) returns (inDegree: map<Id, int>)
    requires forall u :: u in ns ==> u in inDegree0
    ensures inDegree.Keys == inDegree0.Keys
    ensures forall u :: u in inDegree0 ==> inDegree[u] == inDegree0[u] - multiset(ns)[u]
  {
    inDegree := inDegree0;
    for i := 0 to |ns|
      invariant inDegree.Keys == inDegree0.Keys
      invariant forall u :: u in inDegree0 ==> inDegree[u] == inDegree0[u] - multiset(ns[..i])[u]
    {
      PrefixCount(ns, i);
      inDegree := inDegree[ns[i] := inDegree[ns[i]] - 1];
    }
    assert ns[..|ns|] == ns;
  }

  lemma DecrementedOnce(g: Deps, dependents: map<Id, seq<Id>>, s: Id, before: map<Id, int>, after: map<Id, int>)
    requires Inverts(dependents, g) && before.Keys == after.Keys == g.Keys
    requires forall u :: u in before ==> after[u] == before[u] - multiset(Get(dependents, s))[u]
    ensures after == Decrement(g, before, s)
  {
    forall u | u in before ensures multiset(Get(dependents, s))[u] == Occ(g[u], s) {
      OccIsMultiplicity(g[u], s);
      assert Occurs(dependents, s, u) == multiset(Get(dependents, s))[u];
    }
  }

  lemma DependentsDeclared(g: Deps, dependents: map<Id, seq<Id>>, s: Id)
    requires Inverts(dependents, g)
    ensures forall u :: u in Get(dependents, s) ==> u in g
  {
    forall u | u in Get(dependents, s) ensures u in g {
      assert Occurs(dependents, s, u) > 0;
    }
  }

  ghost predicate Lists(ids: seq<Id>, keys: set<Id>) {
    NoDuplicates(ids) && forall s :: s in keys ==> s in ids
  }

  /** The ids in some order. */
  ghost function Listed(ids: set<Id>): (s: seq<Id>)
    ensures NoDuplicates(s) && forall x :: x in s <==> x in ids
  {
    if ids == {} then [] else
    var x :| x in ids;
    [x] + Listed(ids - {x})
  }

  lemma DisjointListing(a: seq<Id>, b: seq<Id>)
    requires NoDuplicates(a) && NoDuplicates(b) && forall s :: s in b ==> s !in a
    ensures NoDuplicates(a + b)
  {
    var c := a + b;
    forall i, j | 0 <= i < j < |c| ensures c[i] != c[j] {
      if j >= |a| { assert c[j] in b; }
    }
  }

  /** What taking over computes is the initial state, but for the stray tokens. */
  lemma TakenOverIsInitial(p: Plan, resume: map<Id, Result>, c: Core)
    requires ValidPlan(p) && c.results == map s | s in resume :: Settled(resume[s])
    requires c.inDegree == map s | s in p.deps :: Outside(p.deps[s], resume.Keys)
    requires c.skipped == c.cascaded == c.running == {} && !c.aborted
    requires c.tokens == SumTokens(WithStrays(p, resume.Keys), c.results)
    ensures c == Initial(p, resume).(tokens := SumTokens(WithStrays(p, resume.Keys), c.results))
    ensures resume.Keys <= p.deps.Keys ==> c == Initial(p, resume)
  {
    StraysAreListed(p, resume.Keys);
    hide SumTokens, ValidPlan, WithStrays;
  }

  /** The declared steps and then the stray ones of an earlier run. */
  ghost function WithStrays(p: Plan, resumed: set<Id>): seq<Id> {
    p.ids + Listed(resumed - p.deps.Keys)
  }

  lemma StraysAreListed(p: Plan, resumed: set<Id>)
    requires ValidPlan(p)
    ensures Lists(WithStrays(p, resumed), resumed)
    ensures resumed <= p.deps.Keys ==> WithStrays(p, resumed) == p.ids
  {
    var strays := resumed - p.deps.Keys;
    assert resumed <= p.deps.Keys ==> strays == {};
    assert forall s :: s in Listed(strays) ==> s !in p.ids;
    DisjointListing(p.ids, Listed(strays));
    forall s | s in resumed ensures s in WithStrays(p, resumed) {
      assert s in p.deps || s in Listed(resumed - p.deps.Keys);
    }
  }

  /** The resumed results not in left have been taken over. */
  ghost predicate TakenOver(p: Plan, ids: seq<Id>, resume: map<Id, Result>, left: set<Id>,
                            results: map<Id, Entry>, inDegree: map<Id, int>, tokens: nat) {
    && left <= resume.Keys
    && results.Keys == resume.Keys - left
    && (forall s :: s in results ==> results[s] == Settled(resume[s]))
    && inDegree.Keys == p.deps.Keys
    && (forall s :: s in p.deps ==> inDegree[s] == Outside(p.deps[s], resume.Keys - left))
    && tokens == SumTokens(ids, results)
  }

  lemma TakeOverStarts(p: Plan, ids: seq<Id>, resume: map<Id, Result>, inDegree: map<Id, int>)
    requires inDegree.Keys == p.deps.Keys && forall s :: s in p.deps ==> inDegree[s] == |p.deps[s]|
    ensures TakenOver(p, ids, resume, resume.Keys, map[], inDegree, 0)
  {
    NoTokens(ids);
    assert resume.Keys - resume.Keys == {};
    forall s | s in p.deps ensures inDegree[s] == Outside(p.deps[s], {}) { OutsideLength(p.deps[s]); }
  }

  lemma TakeOverGrows(p: Plan, ids: seq<Id>, resume: map<Id, Result>, left: set<Id>,
                      results: map<Id, Entry>, inDegree: map<Id, int>, tokens: nat, s: Id)
    requires Lists(ids, resume.Keys)
    requires TakenOver(p, ids, resume, left, results, inDegree, tokens) && s in left
    ensures TakenOver(p, ids, resume, left - {s}, results[s := Settled(resume[s])],
                      Decrement(p.deps, inDegree, s), tokens + resume[s].tokens)
  {
    SumSettle(ids, results, s, resume[s]);
    hide SumTokens, Outside, Decrement;
    DegreesTaken(p, resume.Keys, left, inDegree, s);
  }

  lemma DegreesTaken(p: Plan, resumed: set<Id>, left: set<Id>, inDegree: map<Id, int>, s: Id)
    requires s in left && left <= resumed
    requires inDegree.Keys == p.deps.Keys
    requires forall t :: t in p.deps ==> inDegree[t] == Outside(p.deps[t], resumed - left)
    ensures Decrement(p.deps, inDegree, s).Keys == p.deps.Keys
    ensures forall t :: t in p.deps ==>
              Decrement(p.deps, inDegree, s)[t] == Outside(p.deps[t], resumed - (left - {s}))
  {
    assert resumed - (left - {s}) == (resumed - left) + {s};
    forall t | t in p.deps
      ensures Outside(p.deps[t], resumed - (left - {s})) == Outside(p.deps[t], resumed - left) - Occ(p.deps[t], s)
    {
      OutsideSettle(p.deps[t], resumed - left, s);
    }
  }

  class RunState {
    const p: Plan
    const steps: seq<Step>
    const dependents: map<Id, seq<Id>>
    var inDegree: map<Id, int>
    var results: map<Id, Entry>
    const skipped: Marks
    const cascaded: Marks
    var running: set<Id>
    var totalTokens: nat
    var aborted: bool

    ghost predicate Valid()
      reads this
    {
      && skipped != cascaded
      && ValidPlan(p) && Inverts(dependents, p.deps)
      && UniqueIds(steps) && p.ids == IdList(steps) && p.deps == DepsOf(steps)
    }

    ghost function View(): Core
      reads this, skipped, cascaded
    {
      Core(results, inDegree, skipped.members, cascaded.members, running, totalTokens, aborted)
    }

    /** Indexes the workflow and takes over the results of an earlier run. Those of undeclared steps stay as
        stray entries, whose tokens count. */
    constructor (steps: seq<Step>, order: seq<Id>, strategy: Strategy, slots: nat,
                 parent: map<Id, Result>, resume: map<Id, Result>)
      requires UniqueIds(steps) && Closed(DepsOf(steps)) && TopoOrder(DepsOf(steps), order) && slots >= 1
      ensures Valid() && fresh(skipped) && fresh(cascaded)
      ensures p == PlanOf(steps, order, strategy, slots, parent)
      ensures View() == Initial(p, resume).(tokens := SumTokens(WithStrays(p, resume.Keys), results))
      ensures resume.Keys <= p.deps.Keys ==> View() == Initial(p, resume)
    {
      hide ValidPlan, UniqueIds, Closed, TopoOrder, Inverts, Indexed, IdList, DepsOf, IdsOf, SumTokens, Outside,
           WithStrays, Initial, Lists;
      var degrees, adjacent := BuildIndex(steps);
      var plan := PlanOf(steps, order, strategy, slots, parent);
      ValidatedPlan(steps, order, strategy, slots, parent);
      IndexedInverts(DepsOf(steps), degrees, adjacent);
      StraysAreListed(plan, resume.Keys);
      this.p := plan;
      this.steps := steps;
      dependents := adjacent;
      skipped := new Marks();
      cascaded := new Marks();
      running := {};
      aborted := false;
      var degreesLeft, taken, tokens := TakeOver(plan, WithStrays(plan, resume.Keys), adjacent, degrees, resume);
      inDegree := degreesLeft;
      results := taken;
      totalTokens := tokens;
      TakenOverIsInitial(plan, resume, Core(taken, degreesLeft, {}, {}, {}, tokens, false));
    }

    method HandleFailure(stepID: Id)
      requires Valid() && MarksClosed(p, View())
      modifies this, skipped, cascaded
      ensures View() == OnFailure(p, old(View()), stepID)
    {
      hide ValidPlan, UniqueIds;
      match p.strategy
      case Abort => aborted := true;
      case Cascade => MarkDependents(stepID, dependents, cascaded, p.deps);
      case SkipDependents => MarkDependents(stepID, dependents, skipped, p.deps);
    }

    /** Decrements the in-degree of every dependent of a settled step. */
    method DecrementDependents(stepID: Id)
      requires Valid() && inDegree.Keys == p.deps.Keys
      modifies this
      ensures View() == old(View()).(inDegree := Decrement(p.deps, old(inDegree), stepID))
    {
      hide ValidPlan, UniqueIds;
      DependentsDeclared(p.deps, dependents, stepID);
      ghost var before := inDegree;
      inDegree := DecrementAll(inDegree, Get(dependents, stepID));
      DecrementedOnce(p.deps, dependents, stepID, before, inDegree);
    }

    /** The critical section at the end of a step. */
    method FinishStep(stepID: Id, sr: Result)
      requires Valid() && CoreInv(p, View()) && stepID in running
      modifies this, skipped, cascaded
      ensures View() == Finished(p, old(View()), stepID, sr)
      ensures CoreInv(p, View())
    {
      hide ValidPlan, UniqueIds, Inverts, CoreInv, ClosedUnderDependents, Decrement;
      FinishedInv(p, View(), stepID, sr);
      CoreInvParts(p, View());
      results := results[stepID := Settled(sr)];
      running := running - {stepID};
      totalTokens := totalTokens + sr.tokens;
      if sr.status == Failed {
        HandleFailure(stepID);
      }
      DecrementDependents(stepID);
    }

    /** The critical section of a step that gives up waiting for a slot. */
    method CancelWaitingStep(stepID: Id)
      requires Valid() && CoreInv(p, View()) && stepID in running && aborted
      modifies this
      ensures View() == CancelledWaiting(old(View()), stepID)
      ensures CoreInv(p, View())
    {
      hide ValidPlan, UniqueIds, Inverts, CoreInv;
      CancelledInv(p, View(), stepID);
      results := results[stepID := Settled(Blank(Cancelled))];
      running := running - {stepID};
    }

    // ------------------------------------------------------------------ dispatch

    /** Marks the direct dependents of a propagated step in the step's own set. */
    method MarkDirect(stepID: Id)
      requires Valid() && Marked(View(), stepID)
      modifies skipped, cascaded
      ensures skipped.members == old(skipped.members) +
                (if stepID in old(skipped.members) then DirectDependents(p.deps, stepID) else {})
      ensures cascaded.members == old(cascaded.members) +
                (if stepID in old(skipped.members) then {} else DirectDependents(p.deps, stepID))
    {
      hide ValidPlan, UniqueIds;
      var deps := Get(dependents, stepID);
      ListsDependents(p.deps, dependents, stepID);
      var bySkip := stepID in skipped.members;
      for i := 0 to |deps|
        invariant skipped.members == old(skipped.members) + (if bySkip then SetOf(deps[..i]) else {})
        invariant cascaded.members == old(cascaded.members) + (if bySkip then {} else SetOf(deps[..i]))
      {
        assert deps[..i + 1] == deps[..i] + [deps[i]];
        SetOfAppend(deps[..i], deps[i]);
        if bySkip {
          skipped.members := skipped.members + {deps[i]};
        } else {
          cascaded.members := cascaded.members + {deps[i]};
        }
      }
      assert deps[..|deps|] == deps;
    }

    /** Settles one ready, marked step and passes its mark on. */
    method PropagateStep(stepID: Id)
      requires Valid() && Ready(View(), stepID) && Marked(View(), stepID) && inDegree.Keys == p.deps.Keys
      modifies this, skipped, cascaded
      ensures View() == Propagated(p, old(View()), stepID)
    {
      hide ValidPlan, UniqueIds, Inverts, DirectDependents, Decrement;
      var status := if stepID in cascaded.members then Cancelled else Skipped;
      results := results[stepID := Settled(Blank(status))];
      DecrementDependents(stepID);
      MarkDirect(stepID);
    }

    /** One pass of the propagation loop over the declared steps. */
    method PropagatePass(w: World, ghost x: Sys, ghost acts0: seq<Action>, ghost y0: Sys)
      returns (progress: bool, ghost acts: seq<Action>, ghost y: Sys)
      requires Valid() && Propagates(p, w, x, acts0, y0) && y0.core == View()
      modifies this, skipped, cascaded
      ensures Propagates(p, w, x, acts, y) && y.core == View()
      ensures !progress ==> View() == old(View()) && NoMarkedReady(p, View())
      ensures progress ==> Unhandled(p, results) < Unhandled(p, old(results))
    {
      hide ValidPlan, UniqueIds, Inverts, Propagates, Propagated, Marked, Unhandled, NoMarkedReady, NoneSoFar, Inv,
           CoreInv, ClosedUnderDependents;
      NoneSoFarStarts(p, View());
      progress, acts, y := false, acts0, y0;
      for i := 0 to |p.ids|
        invariant Valid() && Propagates(p, w, x, acts, y) && y.core == View()
        invariant !progress ==> View() == old(View()) && NoneSoFar(p, View(), i)
        invariant progress ==> Unhandled(p, results) < Unhandled(p, old(results))
      {
        var handled;
        handled, acts, y := PropagateAt(w, x, acts, y, i);
        progress := progress || handled;
      }
      if !progress { NoneLeft(p, View()); }
    }

    /** The body of that pass for one declared step. */
    method PropagateAt(w: World, ghost x: Sys, ghost acts0: seq<Action>, ghost y0: Sys, i: nat)
      returns (handled: bool, ghost acts: seq<Action>, ghost y: Sys)
      requires Valid() && Propagates(p, w, x, acts0, y0) && y0.core == View() && i < |p.ids|
      modifies this, skipped, cascaded
      ensures Propagates(p, w, x, acts, y) && y.core == View()
      ensures !handled ==> View() == old(View()) && (NoneSoFar(p, View(), i) ==> NoneSoFar(p, View(), i + 1))
      ensures handled ==> Unhandled(p, results) < Unhandled(p, old(results))
    {
      hide ValidPlan, UniqueIds, Inverts, Propagates, Propagated, Marked, Unhandled, NoneSoFar;
      handled, acts, y := false, acts0, y0;
      var s := p.ids[i];
      PropagatesKeys(p, w, x, acts, y, i);
      if inDegree[s] != 0 || s in results || (s !in skipped.members && s !in cascaded.members) {
        if NoneSoFar(p, View(), i) { NoneSoFarExtends(p, View(), i); }
        return;
      }
      IsMarked(View(), s);
      PropagateExtends(p, w, x, acts, y, s);
      acts, y := acts + [Propagate(s)], y.(core := Propagated(p, y.core, s));
      PropagateStep(s);
      handled := true;
    }

    /** The propagation loop: repeated passes until one changes nothing. */
    method PropagateFailures(w: World, ghost x: Sys) returns (ghost acts: seq<Action>, ghost y: Sys)
      requires Valid() && Inv(p, x) && x.core == View() && x.main.Propagating?
      modifies this, skipped, cascaded
      ensures Propagates(p, w, x, acts, y) && y.core == View() && NoMarkedReady(p, View())
    {
      acts, y := [], x;
      var progress := true;
      hide ValidPlan, UniqueIds, Inverts, Propagates, NoMarkedReady, Unhandled, Inv;
      PropagatesNothing(p, w, x);
      while progress
        invariant Valid() && Propagates(p, w, x, acts, y) && y.core == View()
        invariant !progress ==> NoMarkedReady(p, View())
        decreases Unhandled(p, results), progress
      {
        progress, acts, y := PropagatePass(w, x, acts, y);
      }
    }

    /** The dependency results handed to a starting step. */
    method CaptureInputs(stepID: Id) returns (depResults: map<Id, Result>)
      requires stepID in p.deps
      ensures depResults == DepResults(p, results, stepID)
    {
      depResults := map[];
      var deps := p.deps[stepID];
      for i := 0 to |deps|
        invariant forall d :: d in depResults <==> d in deps[..i] && IsSettled(results, d)
        invariant forall d :: d in depResults ==> d in results && results[d] == Settled(depResults[d])
      {
        assert deps[..i + 1] == deps[..i] + [deps[i]];
        if deps[i] in results && results[deps[i]].Settled? {
          depResults := depResults[deps[i] := results[deps[i]].result];
        }
      }
      assert deps[..|deps|] == deps;
      if |deps| == 0 {
        depResults := p.parent;
      }
    }

    /** Evaluates the condition of one ready step, then skips, fails or starts it. */
    method LaunchOne(stepID: Id, w: World) returns (started: bool, input: map<Id, Result>)
      requires Valid() && CoreInv(p, View()) && Ready(View(), stepID) && stepID in p.deps
      modifies this, skipped, cascaded
      ensures View() == Dispatched(p, w, old(View()), stepID)
      ensures started == w.verdict(stepID, SettledResults(old(results))).Proceed?
      ensures input == DepResults(p, old(results), stepID)
    {
      hide ValidPlan, UniqueIds, Inverts, CoreInv, Decrement, DepResults, Ready, ClosedUnderDependents, Descendants,
           SettledResults, OnFailure, ConditionBroken;
      CoreInvParts(p, View());
      BrokenInSteps(p, View(), stepID);
      input := CaptureInputs(stepID);
      started := false;
      match w.verdict(stepID, SettledResults(results))
      case Proceed =>
        results := results[stepID := InFlight];
        running := running + {stepID};
        started := true;
      case Broken =>
        results := results[stepID := Settled(Result(Failed, "condition eval", 0))];
        HandleFailure(stepID);
        DecrementDependents(stepID);
      case _ =>
        results := results[stepID := Settled(Blank(Skipped))];
        DecrementDependents(stepID);
    }

    /** The ready steps, in declaration order. */
    method CollectReady() returns (ready: seq<Step>)
      requires Valid() && inDegree.Keys == p.deps.Keys
      ensures ready == ReadyAmong(steps, View())
    {
      hide ValidPlan, Inverts, UniqueIds, ReadyAmong;
      ready := [];
      NoneReadyYet(View());
      for i := 0 to |steps|
        invariant ready == ReadyAmong(steps[..i], View())
      {
        ReadyAmongNext(steps, i, View());
        assert steps[i] in steps;
        if inDegree[steps[i].id] == 0 && steps[i].id !in results {
          ready := ready + [steps[i]];
        }
      }
      assert steps[..|steps|] == steps;
    }

    /** One round of launching: orders the ready steps, then handles each in turn. */
    method LaunchRound(w: World, kind: SchedulerKind, ghost x: Sys, launched0: seq<(Id, map<Id, Result>)>,
                       ghost acts0: seq<Action>, ghost y0: Sys)
      returns (again: bool, launched: seq<(Id, map<Id, Result>)>, ghost more: seq<Action>, ghost y: Sys)
      requires Valid() && Launches(p, w, x, acts0, y0, launched0) && y0.core == View()
      modifies this, skipped, cascaded
      ensures Launches(p, w, x, acts0 + more, y, launched) && y.core == View()
      ensures (more == [] && y == y0) || OneRound(p, w, kind, steps, y0, more, y)
      ensures !again ==> NothingReady(p, View()) && Unhandled(p, results) <= Unhandled(p, old(results))
      ensures again ==> Unhandled(p, results) < Unhandled(p, old(results))
    {
      hide ValidPlan, Inverts, Launches, Dispatched, Unhandled, NothingReady, CoreInv, UniqueIds,
           DistinctReady, RoundSoFar, Apply, Ready, Runs, Follows, Scheduled;
      again, launched, more, y := false, launched0, [], y0;
      assert acts0 + more == acts0;
      LaunchesCore(p, w, x, acts0, y, launched);
      CoreInvParts(p, View());
      var ready := CollectReady();
      ReadyIsDistinct(p, steps, View());
      if ready == [] {
        AllReadyHandled(p, steps, View(), [], View());
        return;
      }
      var ordered := ScheduleOrder(kind, ready, running, steps);
      ScheduledPermutes(kind, ready, running, steps, ordered);
      OrderedStaysReady(View(), ready, ordered);
      again, launched, more, y := LaunchOrdered(w, ordered, x, launched, acts0, y);
      assert RoundOf(p, w, kind, steps, y0, more, y, ordered);
      if !again { AllReadyHandled(p, steps, old(View()), ordered, View()); }
    }

    /** Handles the ordered ready steps one after the other. */
    method LaunchOrdered(w: World, ordered: seq<Step>, ghost x: Sys, launched0: seq<(Id, map<Id, Result>)>,
                         ghost acts0: seq<Action>, ghost y0: Sys)
      returns (again: bool, launched: seq<(Id, map<Id, Result>)>, ghost more: seq<Action>, ghost y: Sys)
      requires Valid() && Launches(p, w, x, acts0, y0, launched0) && y0.core == View()
      requires DistinctReady(View(), ordered, 0)
      modifies this, skipped, cascaded
      ensures Launches(p, w, x, acts0 + more, y, launched) && y.core == View()
      ensures Runs(p, w, y0, more, y) && Follows(more, ordered)
      ensures !again ==> RoundSoFar(old(View()), View(), ordered, |ordered|)
      ensures Unhandled(p, results) + |ordered| <= Unhandled(p, old(results))
    {
      hide ValidPlan, Inverts, Launches, Dispatched, Unhandled, CoreInv, UniqueIds, DistinctReady, RoundSoFar,
           Apply, Ready, Runs, Follows, Enabled, LaunchAction, ClosedUnderDependents;
      again, launched, more, y := false, launched0, [], y0;
      assert acts0 + more == acts0;
      RoundStarts(View(), ordered);
      NothingFollowed(p, w, y0, ordered);
      for i := 0 to |ordered|
        invariant Valid() && Launches(p, w, x, acts0 + more, y, launched) && y.core == View()
        invariant Runs(p, w, y0, more, y) && Follows(more, ordered[..i])
        invariant DistinctReady(View(), ordered, i)
        invariant !again ==> RoundSoFar(old(View()), View(), ordered, i)
        invariant Unhandled(p, results) + i <= Unhandled(p, old(results))
      {
        ghost var a := LaunchAction(w, y, ordered[i].id);
        LaunchesCore(p, w, x, acts0 + more, y, launched);
        LaunchExtends(p, w, x, acts0 + more, y, launched, ordered, i);
        RoundExtends(p, w, old(View()), View(), ordered, i);
        OneFollowed(p, w, y0, more, y, ordered, i);
        OneMore(acts0, more, a);
        more, y := more + [a], Apply(p, w, y, a);
        var started, input := LaunchOne(ordered[i].id, w);
        if started {
          launched := launched + [(ordered[i].id, input)];
        } else {
          again := true;
        }
      }
      assert ordered[..|ordered|] == ordered;
    }

    /** The dispatch critical section: propagate failures, then launch until nothing is ready.
        It is a run of the transition system that launches in rounds, each in the strategy's order, and launched
        lists what it started. */
    method Dispatch(w: World, kind: SchedulerKind, ghost x: Sys)
      returns (launched: seq<(Id, map<Id, Result>)>, ghost acts: seq<Action>, ghost y: Sys)
      requires Valid() && Inv(p, x) && x.core == View() && x.main.Entering?
      modifies this, skipped, cascaded
      ensures Runs(p, w, x, acts, y) && Inv(p, y) && y.core == View()
      ensures y.main == AfterDispatch(p, y)
      ensures Matches(launched, acts, y)
      ensures old(aborted) ==> View() == old(View()) && launched == [] && acts == [BeginDispatch]
      ensures !old(aborted) ==> NothingReady(p, View()) && InOrder(p, w, kind, steps, acts)
    {
      hide ValidPlan, Inverts, UniqueIds, Inv, Runs, Enabled, Propagates, Launches, Matches, NothingReady,
           NoMarkedReady, AfterDispatch, Unhandled, OneRound, Rounds, PropagatesOnly;
      launched := [];
      EntersDispatch(p, w, x);
      acts, y := [BeginDispatch], Apply(p, w, x, BeginDispatch);
      if aborted {
        return;
      }
      ghost var phase1, y1 := PropagateFailures(w, y);
      PhaseTwo(p, w, x, acts, y, phase1, y1);
      PropagatesOnlyThat(p, w, y, phase1, y1);
      acts, y := acts + phase1 + [EndPropagation], Apply(p, w, y1, EndPropagation);
      ghost var prep, z, more := acts, y, [];
      NoRounds(p, w, kind, steps, z);
      assert prep + more == prep;
      var again := true;
      while again
        invariant Valid() && Launches(p, w, x, prep + more, y, launched) && y.core == View()
        invariant Rounds(p, w, kind, steps, z, more, y)
        invariant !again ==> NothingReady(p, View())
        decreases Unhandled(p, results), again
      {
        ghost var next, y0 := [], y;
        again, launched, next, y := LaunchRound(w, kind, x, launched, prep + more, y);
        RoundsGrow(p, w, kind, steps, z, more, y0, next, y);
        assert prep + more + next == prep + (more + next);
        more := more + next;
      }
      LeavesDispatch(p, w, x, prep + more, y, launched);
      assert ByPhases(p, w, kind, steps, prep + more + [EndDispatch], phase1, more, z, y);
      acts, y := prep + more + [EndDispatch], Apply(p, w, y, EndDispatch);
    }

    method CountRemaining() returns (n: int)
      requires Valid()
      ensures n == 0 <==> AllSettled(p, results)
      ensures 0 <= n <= |p.order|
    {
      hide AllSettled, ValidPlan, Inverts, UniqueIds, FirstSettled;
      IdsAreSteps(p, results);
      n := |p.order|;
      for i := 0 to |p.ids|
        invariant |p.ids| - i <= n <= |p.ids|
        invariant n == |p.ids| - i <==> FirstSettled(p.ids, results, i)
      {
        OneMoreSettled(p.ids, results, i);
        if p.ids[i] in results && results[p.ids[i]].Settled? {
          n := n - 1;
        }
      }
    }

    /** Copies the results for the caller, replacing what never finished. */
    method Snapshot(timedOut: bool) returns (final: map<Id, Entry>, tokens: nat)
      requires Valid() && CoreInv(p, View()) && (timedOut || running == {})
      ensures final == FinalResults(p, View(), timedOut) && tokens == totalTokens
      ensures AllSettled(p, final) && tokens == SumTokens(p.ids, final)
    {
      hide CoreInv, Inverts, UniqueIds, ValidPlan, AllSettled, FinalResults;
      FinalIsTotal(p, View(), timedOut);
      RunningHasEntries(p, View());
      final := results;
      if timedOut {
        final := CancelRunning(results, running);
      }
      final := FillMissing(p.ids, final);
      FilledIsFinal(p, View(), timedOut, final);
      tokens := totalTokens;
    }
  }

  ghost predicate FirstSettled(ids: seq<Id>, results: map<Id, Entry>, n: nat)
    requires n <= |ids|
  {
    forall j :: 0 <= j < n ==> IsSettled(results, ids[j])
  }

  lemma OneMoreSettled(ids: seq<Id>, results: map<Id, Entry>, n: nat)
    requires n < |ids|
    ensures FirstSettled(ids, results, n + 1) <==> FirstSettled(ids, results, n) && IsSettled(results, ids[n])
  {
  }

  lemma IdsAreSteps(p: Plan, results: map<Id, Entry>)
    requires ValidPlan(p)
    ensures |p.order| == |p.ids|
    ensures FirstSettled(p.ids, results, 0)
    ensures AllSettled(p, results) <==> FirstSettled(p.ids, results, |p.ids|)
  {
    if FirstSettled(p.ids, results, |p.ids|) {
      forall s | s in p.deps ensures IsSettled(results, s) {
        var j :| 0 <= j < |p.ids| && p.ids[j] == s;
      }
    }
  }

  lemma ListsDependents(g: Deps, dependents: map<Id, seq<Id>>, s: Id)
    requires Inverts(dependents, g)
    ensures SetOf(Get(dependents, s)) == DirectDependents(g, s)
  {
    forall u ensures u in Get(dependents, s) <==> u in g && s in g[u] {
      assert u in Get(dependents, s) <==> Occurs(dependents, s, u) > 0;
      if u in g { assert s in g[u] <==> multiset(g[u])[s] > 0; }
    }
  }

  ghost function Unhandled(p: Plan, results: map<Id, Entry>): nat {
    |p.deps.Keys - results.Keys|
  }

  /** acts is a run of propagations from x to y. */
  ghost predicate Propagates(p: Plan, w: World, x: Sys, acts: seq<Action>, y: Sys) {
    && Inv(p, y) && y.main.Propagating? && Runs(p, w, x, acts, y)
    && forall i :: 0 <= i < |acts| ==> acts[i].Propagate?
  }

  lemma PropagatesNothing(p: Plan, w: World, x: Sys)
    requires Inv(p, x) && x.main.Propagating?
    ensures Propagates(p, w, x, [], x)
  {}

  lemma PropagatesKeys(p: Plan, w: World, x: Sys, acts: seq<Action>, y: Sys, i: nat)
    requires ValidPlan(p) && Propagates(p, w, x, acts, y) && i < |p.ids|
    ensures y.core.inDegree.Keys == p.deps.Keys && p.ids[i] in p.deps
  {
    hide GoInv, InputInv, WakeInv, MainInv, Runs, TopoOrder;
  }

  ghost predicate MarkedReady(c: Core, s: Id) {
    Ready(c, s) && Marked(c, s)
  }

  /** None of the first i declared steps is ready and marked. */
  ghost predicate NoneSoFar(p: Plan, c: Core, i: nat) {
    i <= |p.ids| && forall j :: 0 <= j < i ==> !MarkedReady(c, p.ids[j])
  }

  lemma NoneSoFarStarts(p: Plan, c: Core)
    ensures NoneSoFar(p, c, 0)
  {}

  lemma NoneSoFarExtends(p: Plan, c: Core, i: nat)
    requires NoneSoFar(p, c, i) && i < |p.ids| && p.ids[i] in c.inDegree
    requires c.inDegree[p.ids[i]] != 0 || p.ids[i] in c.results || (p.ids[i] !in c.skipped && p.ids[i] !in c.cascaded)
    ensures NoneSoFar(p, c, i + 1)
  {}

  lemma IsMarked(c: Core, s: Id)
    requires s in c.skipped || s in c.cascaded
    ensures Marked(c, s)
  {}

  lemma PropagateExtends(p: Plan, w: World, x: Sys, acts: seq<Action>, y: Sys, s: Id)
    requires ValidPlan(p) && Propagates(p, w, x, acts, y) && s in p.deps
    requires Ready(y.core, s) && Marked(y.core, s)
    ensures Propagates(p, w, x, acts + [Propagate(s)], y.(core := Propagated(p, y.core, s)))
    ensures Unhandled(p, Propagated(p, y.core, s).results) < Unhandled(p, y.core.results)
  {
    hide Inv, Runs, ValidPlan, Ready, Marked, Propagates, Unhandled;
    PropagateMoves(p, w, y, s) by { PropagatesParts(p, w, x, acts, y); }
    PropagatesParts(p, w, x, acts, y);
    hide Enabled, Apply, Propagated;
    StepKeeps(p, w, y, Propagate(s));
    RunsExtend(p, w, x, acts, y, Propagate(s));
    FewerUnhandled(p, y.core.results, Propagated(p, y.core, s).results, s);
    PropagatesAll(p, w, x, acts + [Propagate(s)], y.(core := Propagated(p, y.core, s)));
  }

  lemma PropagatesParts(p: Plan, w: World, x: Sys, acts: seq<Action>, y: Sys)
    requires Propagates(p, w, x, acts, y)
    ensures Inv(p, y) && y.main.Propagating? && Runs(p, w, x, acts, y)
    ensures forall i :: 0 <= i < |acts| ==> acts[i].Propagate?
  {}

  lemma PropagatesAll(p: Plan, w: World, x: Sys, acts: seq<Action>, y: Sys)
    requires Inv(p, y) && y.main.Propagating? && Runs(p, w, x, acts, y)
    requires forall i :: 0 <= i < |acts| ==> acts[i].Propagate?
    ensures Propagates(p, w, x, acts, y)
  {}

  lemma PropagateMoves(p: Plan, w: World, y: Sys, s: Id)
    requires y.main.Propagating? && Ready(y.core, s) && Marked(y.core, s)
    ensures Enabled(p, w, y, Propagate(s))
    ensures Apply(p, w, y, Propagate(s)) == y.(core := Propagated(p, y.core, s))
    ensures s !in y.core.results && Propagated(p, y.core, s).results.Keys == y.core.results.Keys + {s}
  {}

  lemma FewerUnhandled(p: Plan, before: map<Id, Entry>, after: map<Id, Entry>, s: Id)
    requires s in p.deps && s !in before && after.Keys == before.Keys + {s}
    ensures Unhandled(p, after) < Unhandled(p, before)
  {
    assert p.deps.Keys - before.Keys == (p.deps.Keys - after.Keys) + {s};
  }

  lemma NoneLeft(p: Plan, c: Core)
    requires ValidPlan(p)
    requires NoneSoFar(p, c, |p.ids|)
    ensures NoMarkedReady(p, c)
  {
    forall s | s in p.deps && Marked(c, s) ensures !Ready(c, s) {
      assert s in p.ids;
      var j :| 0 <= j < |p.ids| && p.ids[j] == s;
      assert !MarkedReady(c, p.ids[j]);
    }
  }

  /** What the dispatcher does with a ready step, by its condition. */
  ghost function Dispatched(p: Plan, w: World, c: Core, s: Id): Core {
    match w.verdict(s, SettledResults(c.results))
    case Proceed => Started(c, s)
    case Broken => ConditionBroken(p, c, s)
    case _ => ConditionSkipped(p, c, s)
  }

  /** A broken condition stores the failure, marks, and only then decrements. */
  lemma BrokenInSteps(p: Plan, c: Core, s: Id)
    ensures var marked := OnFailure(p, c.(results := c.results[s := Settled(Result(Failed, "condition eval", 0))]), s);
            ConditionBroken(p, c, s) == marked.(inDegree := Decrement(p.deps, c.inDegree, s))
            && marked.inDegree == c.inDegree
  {
    hide Decrement, Descendants;
  }

  function ReadyAmong(steps: seq<Step>, c: Core): seq<Step> {
    if steps == [] then [] else
    var n := |steps| - 1;
    ReadyAmong(steps[..n], c) + if Ready(c, steps[n].id) then [steps[n]] else []
  }

  lemma NoneReadyYet(c: Core)
    ensures ReadyAmong([], c) == []
  {
  }

  lemma ReadyAmongNext(steps: seq<Step>, i: nat, c: Core)
    requires i < |steps|
    ensures ReadyAmong(steps[..i + 1], c)
         == if Ready(c, steps[i].id) then ReadyAmong(steps[..i], c) + [steps[i]] else ReadyAmong(steps[..i], c)
  {
    assert steps[..i + 1][..i] == steps[..i];
  }

  lemma {:induction false} ReadyAmongMembers(steps: seq<Step>, c: Core)
    ensures forall st :: st in ReadyAmong(steps, c) <==> st in steps && Ready(c, st.id)
  {
    if steps != [] {
      var n := |steps| - 1;
      assert steps == steps[..n] + [steps[n]];
      ReadyAmongMembers(steps[..n], c);
    }
  }

  lemma {:induction false} ReadyAmongDistinct(steps: seq<Step>, c: Core)
    requires UniqueIds(steps)
    ensures UniqueIds(ReadyAmong(steps, c))
  {
    if steps != [] {
      var n := |steps| - 1;
      ReadyAmongDistinct(steps[..n], c);
      ReadyAmongMembers(steps[..n], c);
    }
  }

  /** From index i on, ready lists distinct steps that are all still ready. */
  ghost predicate DistinctReady(c: Core, ready: seq<Step>, i: nat) {
    && (forall j, k :: 0 <= j < k < |ready| ==> ready[j].id != ready[k].id)
    && (forall j :: i <= j < |ready| ==> Ready(c, ready[j].id))
  }

  ghost function LaunchAction(w: World, y: Sys, s: Id): Action {
    match VerdictOn(w, y, s)
    case Proceed => Start(s)
    case Broken => FailOnCondition(s)
    case _ => SkipOnCondition(s)
  }

  /** The steps a run starts, in order. */
  ghost function StartedBy(acts: seq<Action>): seq<Id> {
    if acts == [] then [] else
    var n := |acts| - 1;
    StartedBy(acts[..n]) + if acts[n].Start? then [acts[n].s] else []
  }

  /** launched lists exactly the started steps with the inputs they were given. */
  ghost predicate Matches(launched: seq<(Id, map<Id, Result>)>, acts: seq<Action>, y: Sys) {
    && |launched| == |StartedBy(acts)|
    && forall k :: 0 <= k < |launched| ==>
         && launched[k].0 == StartedBy(acts)[k]
         && launched[k].0 in y.phase && launched[k].0 in y.inputs && y.inputs[launched[k].0] == launched[k].1
  }

  // ------------------------------------------------------------------- the order of launches

  /** a launches s, or settles it by its condition. */
  predicate Handles(a: Action, s: Id) {
    (a.Start? || a.SkipOnCondition? || a.FailOnCondition?) && a.s == s
  }

  /** One action for each step, in this order. */
  predicate Follows(acts: seq<Action>, ordered: seq<Step>) {
    |acts| == |ordered| && forall i :: 0 <= i < |acts| ==> Handles(acts[i], ordered[i].id)
  }

  ghost predicate RoundOf(p: Plan, w: World, kind: SchedulerKind, steps: seq<Step>, x: Sys, acts: seq<Action>, y: Sys,
                          ordered: seq<Step>)
    requires UniqueIds(steps)
  {
    && Runs(p, w, x, acts, y) && Follows(acts, ordered)
    && Scheduled(kind, ReadyAmong(steps, x.core), x.core.running, steps, ordered)
  }

  /** acts handles everything that is ready in x, in the strategy's order. */
  ghost predicate OneRound(p: Plan, w: World, kind: SchedulerKind, steps: seq<Step>, x: Sys, acts: seq<Action>, y: Sys)
    requires UniqueIds(steps)
  {
    exists ordered :: RoundOf(p, w, kind, steps, x, acts, y, ordered)
  }

  ghost predicate Rounds(p: Plan, w: World, kind: SchedulerKind, steps: seq<Step>, x: Sys, acts: seq<Action>, y: Sys)
    requires UniqueIds(steps)
    decreases |acts|
  {
    if acts == [] then x == y else exists k: nat, z :: LastRound(p, w, kind, steps, x, acts, y, k, z)
  }

  /** The round that begins at position k, in state z, is the last. */
  ghost predicate LastRound(p: Plan, w: World, kind: SchedulerKind, steps: seq<Step>, x: Sys, acts: seq<Action>, y: Sys,
                            k: nat, z: Sys)
    requires UniqueIds(steps)
    decreases |acts|, 0
  {
    k < |acts| && Rounds(p, w, kind, steps, x, acts[..k], z) && OneRound(p, w, kind, steps, z, acts[k..], y)
  }

  predicate PropagatesOnly(acts: seq<Action>) {
    forall i :: 0 <= i < |acts| ==> acts[i].Propagate?
  }

  /** A dispatch propagates first, then launches in rounds, and then ends. */
  ghost predicate ByPhases(p: Plan, w: World, kind: SchedulerKind, steps: seq<Step>, acts: seq<Action>,
                           first: seq<Action>, more: seq<Action>, z: Sys, y: Sys)
    requires UniqueIds(steps)
  {
    && acts == [BeginDispatch] + first + [EndPropagation] + more + [EndDispatch]
    && PropagatesOnly(first) && Rounds(p, w, kind, steps, z, more, y)
  }

  ghost predicate InOrder(p: Plan, w: World, kind: SchedulerKind, steps: seq<Step>, acts: seq<Action>)
    requires UniqueIds(steps)
  {
    exists first, more, z, y :: ByPhases(p, w, kind, steps, acts, first, more, z, y)
  }

  lemma OneMore(acts0: seq<Action>, more: seq<Action>, a: Action)
    ensures acts0 + more + [a] == acts0 + (more + [a])
  {
  }

  lemma NothingFollowed(p: Plan, w: World, y: Sys, ordered: seq<Step>)
    ensures Runs(p, w, y, [], y) && Follows([], ordered[..0])
  {
  }

  lemma OneFollowed(p: Plan, w: World, y0: Sys, more: seq<Action>, y: Sys, ordered: seq<Step>, i: nat)
    requires Runs(p, w, y0, more, y) && i < |ordered| && Follows(more, ordered[..i])
    requires Enabled(p, w, y, LaunchAction(w, y, ordered[i].id))
    ensures var a := LaunchAction(w, y, ordered[i].id);
            Runs(p, w, y0, more + [a], Apply(p, w, y, a)) && Follows(more + [a], ordered[..i + 1])
  {
    hide Enabled, Apply, Runs;
    RunsExtend(p, w, y0, more, y, LaunchAction(w, y, ordered[i].id));
    assert ordered[..i + 1] == ordered[..i] + [ordered[i]];
  }

  lemma ScheduledPermutes(kind: SchedulerKind, ready: seq<Step>, running: set<Id>, steps: seq<Step>, ordered: seq<Step>)
    requires UniqueIds(steps) && Scheduled(kind, ready, running, steps, ordered)
    ensures multiset(ordered) == multiset(ready)
  {
  }

  lemma NoRounds(p: Plan, w: World, kind: SchedulerKind, steps: seq<Step>, z: Sys)
    requires UniqueIds(steps)
    ensures Rounds(p, w, kind, steps, z, [], z)
  {
  }

  lemma RoundsGrow(p: Plan, w: World, kind: SchedulerKind, steps: seq<Step>, x: Sys, acts: seq<Action>, z: Sys,
                   more: seq<Action>, y: Sys)
    requires UniqueIds(steps) && Rounds(p, w, kind, steps, x, acts, z)
    requires (more == [] && y == z) || OneRound(p, w, kind, steps, z, more, y)
    ensures Rounds(p, w, kind, steps, x, acts + more, y)
  {
    hide UniqueIds, OneRound;
    if more == [] {
      assert acts + more == acts;
      if y != z { EmptyRound(p, w, kind, steps, z, y); }
    } else {
      var all := acts + more;
      assert all[..|acts|] == acts && all[|acts|..] == more;
      assert LastRound(p, w, kind, steps, x, all, y, |acts|, z);
    }
  }

  lemma EmptyRound(p: Plan, w: World, kind: SchedulerKind, steps: seq<Step>, x: Sys, y: Sys)
    requires UniqueIds(steps) && OneRound(p, w, kind, steps, x, [], y)
    ensures x == y
  {
  }

  lemma PropagatesOnlyThat(p: Plan, w: World, x: Sys, acts: seq<Action>, y: Sys)
    requires Propagates(p, w, x, acts, y)
    ensures PropagatesOnly(acts)
  {
  }

  /** acts is a run from x to y inside the launching part of a dispatch. */
  ghost predicate Launches(p: Plan, w: World, x: Sys, acts: seq<Action>, y: Sys, launched: seq<(Id, map<Id, Result>)>) {
    Inv(p, y) && y.main.Launching? && Runs(p, w, x, acts, y) && Matches(launched, acts, y)
  }

  lemma LaunchesCore(p: Plan, w: World, x: Sys, acts: seq<Action>, y: Sys, launched: seq<(Id, map<Id, Result>)>)
    requires Launches(p, w, x, acts, y, launched)
    ensures CoreInv(p, y.core)
  {}

  lemma LaunchMoves(p: Plan, w: World, y: Sys, s: Id)
    requires y.main.Launching? && Ready(y.core, s) && s in p.deps
    ensures var a, y1 := LaunchAction(w, y, s), Apply(p, w, y, LaunchAction(w, y, s));
            && Enabled(p, w, y, a)
            && y1 == y.(core := Dispatched(p, w, y.core, s), phase := y1.phase, inputs := y1.inputs)
            && y1.core.results.Keys == y.core.results.Keys + {s}
            && (if a.Start? then y1.phase == y.phase[s := WaitingSlot] &&
                                 y1.inputs == y.inputs[s := DepResults(p, y.core.results, s)]
                else y1.phase == y.phase && y1.inputs == y.inputs)
  {
    hide Decrement, Descendants, DepResults, SettledResults, AllSettled, FinalResults;
  }

  lemma {:induction false} OccZero(xs: seq<Id>, d: Id)
    requires d !in xs
    ensures Occ(xs, d) == 0
  {
    if xs != [] { assert xs == [xs[0]] + xs[1..]; OccZero(xs[1..], d); }
  }

  /** Handling one ready step leaves the other ready steps ready. */
  lemma OthersStayReady(p: Plan, w: World, c: Core, s: Id, t: Id)
    requires Degrees(p, c) && Ready(c, s) && Ready(c, t) && s != t
    ensures Ready(Dispatched(p, w, c, s), t)
  {
    ReadyHasDeps(p, c, t);
    OccZero(p.deps[t], s);
  }

  lemma LaunchParts(p: Plan, w: World, x: Sys, acts: seq<Action>, y: Sys, launched: seq<(Id, map<Id, Result>)>, s: Id)
    requires ValidPlan(p) && Launches(p, w, x, acts, y, launched) && Ready(y.core, s)
    ensures s in p.deps && Degrees(p, y.core) && GoInv(p, y) && y.core.inDegree.Keys == p.deps.Keys
  {
    hide ValidPlan, Matches, Runs, InputInv, WakeInv, MainInv, GoInv;
  }

  lemma LaunchGrows(p: Plan, w: World, x: Sys, acts: seq<Action>, y: Sys, launched: seq<(Id, map<Id, Result>)>, s: Id)
    requires ValidPlan(p) && Launches(p, w, x, acts, y, launched) && Ready(y.core, s)
    ensures var a := LaunchAction(w, y, s);
            var y1 := Apply(p, w, y, a);
            && s in p.deps && Enabled(p, w, y, a)
            && y1 == y.(core := Dispatched(p, w, y.core, s), phase := y1.phase, inputs := y1.inputs)
            && Launches(p, w, x, acts + [a], y1,
                        if VerdictOn(w, y, s).Proceed? then launched + [(s, DepResults(p, y.core.results, s))] else launched)
            && Unhandled(p, y1.core.results) < Unhandled(p, y.core.results)
  {
    var a := LaunchAction(w, y, s);
    var y1 := Apply(p, w, y, a);
    hide ValidPlan, Degrees, Ready, Matches, Inv, GoInv, Runs, Dispatched, Apply, Enabled, Unhandled, DepResults;
    LaunchParts(p, w, x, acts, y, launched, s);
    LaunchMoves(p, w, y, s);
    StartIsNew(p, y, s);
    MatchesGrows(launched, acts, y, a, y1, DepResults(p, y.core.results, s));
    StepKeeps(p, w, y, a);
    RunsExtend(p, w, x, acts, y, a);
    FewerUnhandled(p, y.core.results, y1.core.results, s);
  }

  lemma RestStaysReady(p: Plan, w: World, c: Core, ordered: seq<Step>, i: nat)
    requires Degrees(p, c) && i < |ordered| && DistinctReady(c, ordered, i)
    ensures DistinctReady(Dispatched(p, w, c, ordered[i].id), ordered, i + 1)
  {
    hide Degrees, Ready, Dispatched;
    forall j | i + 1 <= j < |ordered| ensures Ready(Dispatched(p, w, c, ordered[i].id), ordered[j].id) {
      OthersStayReady(p, w, c, ordered[i].id, ordered[j].id);
    }
  }

  lemma LaunchExtends(p: Plan, w: World, x: Sys, acts: seq<Action>, y: Sys, launched: seq<(Id, map<Id, Result>)>,
                      ordered: seq<Step>, i: nat)
    requires ValidPlan(p) && Launches(p, w, x, acts, y, launched)
    requires i < |ordered| && DistinctReady(y.core, ordered, i)
    ensures var s := ordered[i].id;
            var a := LaunchAction(w, y, s);
            var y1 := Apply(p, w, y, a);
            && s in p.deps && Ready(y.core, s) && Enabled(p, w, y, a)
            && y1 == y.(core := Dispatched(p, w, y.core, s), phase := y1.phase, inputs := y1.inputs)
            && Launches(p, w, x, acts + [a], y1,
                        if VerdictOn(w, y, s).Proceed? then launched + [(s, DepResults(p, y.core.results, s))] else launched)
            && Unhandled(p, y1.core.results) < Unhandled(p, y.core.results)
            && DistinctReady(y1.core, ordered, i + 1)
  {
    hide ValidPlan, Degrees, Launches, Dispatched, Apply, Enabled, Unhandled, DepResults, LaunchAction, VerdictOn;
    assert Ready(y.core, ordered[i].id);
    hide Ready;
    LaunchParts(p, w, x, acts, y, launched, ordered[i].id);
    LaunchGrows(p, w, x, acts, y, launched, ordered[i].id);
    RestStaysReady(p, w, y.core, ordered, i);
  }

  lemma StartIsNew(p: Plan, y: Sys, s: Id)
    requires GoInv(p, y) && Ready(y.core, s)
    ensures s !in y.phase && s !in y.core.results
  {}

  lemma MatchesGrows(launched: seq<(Id, map<Id, Result>)>, acts: seq<Action>, y: Sys, a: Action, y1: Sys,
                     input: map<Id, Result>)
    requires Matches(launched, acts, y)
    requires a.Start? ==> a.s !in y.phase && y1.phase == y.phase[a.s := WaitingSlot] && y1.inputs == y.inputs[a.s := input]
    requires !a.Start? ==> y1.phase == y.phase && y1.inputs == y.inputs
    ensures Matches(if a.Start? then launched + [(a.s, input)] else launched, acts + [a], y1)
  {
    assert (acts + [a])[..|acts|] == acts;
    assert StartedBy(acts + [a]) == StartedBy(acts) + if a.Start? then [a.s] else [];
  }

  lemma ReadyIsDistinct(p: Plan, steps: seq<Step>, c: Core)
    requires UniqueIds(steps)
    ensures DistinctReady(c, ReadyAmong(steps, c), 0)
  {
    ReadyAmongDistinct(steps, c);
    ReadyAmongMembers(steps, c);
  }

  lemma {:induction false} DistinctCounts(xs: seq<Step>, s: Step)
    requires UniqueIds(xs)
    ensures multiset(xs)[s] <= 1
  {
    if xs != [] {
      var n := |xs| - 1;
      assert xs == xs[..n] + [xs[n]];
      DistinctCounts(xs[..n], s);
      if s == xs[n] {
        assert s !in xs[..n];
      }
    }
  }

  lemma TwiceCounts(xs: seq<Step>, j: nat, k: nat)
    requires j < k < |xs|
    ensures xs[j] == xs[k] ==> multiset(xs)[xs[j]] >= 2
  {
    assert xs == xs[..j] + [xs[j]] + xs[j + 1..k] + [xs[k]] + xs[k + 1..];
  }

  lemma OrderedStaysReady(c: Core, ready: seq<Step>, ordered: seq<Step>)
    requires DistinctReady(c, ready, 0) && multiset(ordered) == multiset(ready)
    ensures DistinctReady(c, ordered, 0)
  {
    forall j | 0 <= j < |ordered| ensures Ready(c, ordered[j].id) {
      assert ordered[j] in multiset(ready);
    }
    forall j, k | 0 <= j < k < |ordered| ensures ordered[j].id != ordered[k].id {
      var u, v := ordered[j], ordered[k];
      assert u in multiset(ready) && v in multiset(ready);
      DistinctCounts(ready, u);
      TwiceCounts(ordered, j, k);
    }
  }

  /** While every condition so far said to proceed, only starts have happened. */
  ghost predicate RoundSoFar(c0: Core, c: Core, ordered: seq<Step>, i: nat) {
    && i <= |ordered| && c.inDegree == c0.inDegree && c0.results.Keys <= c.results.Keys
    && forall j :: 0 <= j < i ==> ordered[j].id in c.results
  }

  lemma RoundStarts(c: Core, ordered: seq<Step>)
    ensures RoundSoFar(c, c, ordered, 0)
  {}

  lemma RoundExtends(p: Plan, w: World, c0: Core, c: Core, ordered: seq<Step>, i: nat)
    requires i < |ordered|
    ensures RoundSoFar(c0, c, ordered, i) && w.verdict(ordered[i].id, SettledResults(c.results)).Proceed? ==>
              RoundSoFar(c0, Dispatched(p, w, c, ordered[i].id), ordered, i + 1)
  {}

  lemma AllReadyHandled(p: Plan, steps: seq<Step>, c0: Core, ordered: seq<Step>, c: Core)
    requires UniqueIds(steps) && p.deps == DepsOf(steps)
    requires multiset(ordered) == multiset(ReadyAmong(steps, c0))
    requires RoundSoFar(c0, c, ordered, |ordered|)
    ensures NothingReady(p, c)
  {
    ReadyAmongMembers(steps, c0);
    forall s | s in p.deps ensures !Ready(c, s) {
      var st :| st in steps && st.id == s;
      if Ready(c0, s) {
        assert st in multiset(ordered);
        var j :| 0 <= j < |ordered| && ordered[j] == st;
        assert ordered[j].id in c.results;
      }
    }
  }

  lemma EntersDispatch(p: Plan, w: World, x: Sys)
    requires ValidPlan(p) && Inv(p, x) && x.main.Entering?
    ensures var y := Apply(p, w, x, BeginDispatch);
            && Inv(p, y) && y.core == x.core && Runs(p, w, x, [BeginDispatch], y)
            && (if x.core.aborted then y.main == AfterDispatch(p, y) else y.main.Propagating?)
            && Matches([], [BeginDispatch], y)
  {
    StepKeeps(p, w, x, BeginDispatch);
    RunsExtend(p, w, x, [], x, BeginDispatch);
    assert [] + [BeginDispatch] == [BeginDispatch];
    assert [BeginDispatch][..0] == [];
  }

  lemma {:induction false} NoneStarted(acts: seq<Action>)
    requires forall i :: 0 <= i < |acts| ==> !acts[i].Start?
    ensures StartedBy(acts) == []
  {
    if acts != [] { NoneStarted(acts[..|acts| - 1]); }
  }

  lemma PhaseTwo(p: Plan, w: World, x: Sys, acts: seq<Action>, y: Sys, phase1: seq<Action>, y1: Sys)
    requires ValidPlan(p) && acts == [BeginDispatch] && Runs(p, w, x, acts, y)
    requires Propagates(p, w, y, phase1, y1) && NoMarkedReady(p, y1.core)
    ensures var z := Apply(p, w, y1, EndPropagation);
            Launches(p, w, x, acts + phase1 + [EndPropagation], z, []) && z.core == y1.core
  {
    var z := Apply(p, w, y1, EndPropagation);
    var all := acts + phase1 + [EndPropagation];
    assert Enabled(p, w, y1, EndPropagation);
    hide ValidPlan, Inv, Enabled, Runs, NoMarkedReady;
    RunsCompose(p, w, x, acts, y, phase1, y1);
    RunsExtend(p, w, x, acts + phase1, y1, EndPropagation);
    StepKeeps(p, w, y1, EndPropagation);
    forall i | 0 <= i < |all| ensures !all[i].Start? {
      if 1 <= i < |all| - 1 { assert all[i] == phase1[i - 1]; }
    }
    NoneStarted(all);
  }

  lemma LeavesDispatch(p: Plan, w: World, x: Sys, acts: seq<Action>, y: Sys, launched: seq<(Id, map<Id, Result>)>)
    requires ValidPlan(p) && Launches(p, w, x, acts, y, launched) && NothingReady(p, y.core)
    ensures var z := Apply(p, w, y, EndDispatch);
            && Inv(p, z) && z.core == y.core && z.main == AfterDispatch(p, z)
            && Runs(p, w, x, acts + [EndDispatch], z) && Matches(launched, acts + [EndDispatch], z)
  {
    var z := Apply(p, w, y, EndDispatch);
    hide ValidPlan, Inv, Runs, NothingReady, AllSettled, Matches;
    assert Enabled(p, w, y, EndDispatch);
    hide Enabled;
    RunsExtend(p, w, x, acts, y, EndDispatch);
    StepKeeps(p, w, y, EndDispatch);
    MatchesGrows(launched, acts, y, EndDispatch, z, map[]);
  }

  lemma CoreInvParts(p: Plan, c: Core)
    requires CoreInv(p, c)
    ensures c.inDegree.Keys == p.deps.Keys && MarksClosed(p, c)
  {}

  lemma RunningHasEntries(p: Plan, c: Core)
    requires CoreInv(p, c)
    ensures c.running <= c.results.Keys
  {}

  lemma FilledIsFinal(p: Plan, c: Core, timedOut: bool, final: map<Id, Entry>)
    requires ValidPlan(p) && final.Keys == c.results.Keys + SetOf(p.ids)
    requires forall s :: s in final ==>
               final[s] == if s !in c.results then Settled(Blank(Cancelled))
                           else if timedOut && s in c.running && c.results[s].InFlight? then Settled(Blank(Cancelled))
                           else c.results[s]
    ensures final == FinalResults(p, c, timedOut)
  {
    assert SetOf(p.ids) == p.deps.Keys;
  }

  /** Takes over the results of an earlier run: entries, tokens (summed in the order of any listing ids) and
      in-degrees. */
  method TakeOver(p: Plan, ghost ids: seq<Id>, dependents: map<Id, seq<Id>>, degrees: map<Id, int>, resume: map<Id, Result>)
    returns (inDegree: map<Id, int>, results: map<Id, Entry>, tokens: nat)
    requires Inverts(dependents, p.deps) && Lists(ids, resume.Keys)
    requires degrees.Keys == p.deps.Keys && forall s :: s in p.deps ==> degrees[s] == |p.deps[s]|
    ensures results == map s | s in resume :: Settled(resume[s])
    ensures inDegree == map s | s in p.deps :: Outside(p.deps[s], resume.Keys)
    ensures tokens == SumTokens(ids, results)
  {
    hide Inverts, TakenOver, Decrement, Lists;
    inDegree, results, tokens := degrees, map[], 0;
    var left := resume.Keys;
    TakeOverStarts(p, ids, resume, degrees);
    while left != {}
      invariant TakenOver(p, ids, resume, left, results, inDegree, tokens)
      decreases left
    {
      var s :| s in left;
      TakenOverKeys(p, ids, resume, left, results, inDegree, tokens);
      TakeOverGrows(p, ids, resume, left, results, inDegree, tokens, s);
      results := results[s := Settled(resume[s])];
      tokens := tokens + resume[s].tokens;
      DependentsDeclared(p.deps, dependents, s);
      ghost var before := inDegree;
      inDegree := DecrementAll(inDegree, Get(dependents, s));
      DecrementedOnce(p.deps, dependents, s, before, inDegree);
      left := left - {s};
    }
    TakenOverAll(p, ids, resume, results, inDegree, tokens);
  }

  lemma TakenOverAll(p: Plan, ids: seq<Id>, resume: map<Id, Result>, results: map<Id, Entry>,
                     inDegree: map<Id, int>, tokens: nat)
    requires TakenOver(p, ids, resume, {}, results, inDegree, tokens)
    ensures results == map s | s in resume :: Settled(resume[s])
    ensures inDegree == map s | s in p.deps :: Outside(p.deps[s], resume.Keys)
    ensures tokens == SumTokens(ids, results)
  {
    assert resume.Keys - {} == resume.Keys;
  }

  lemma TakenOverKeys(p: Plan, ids: seq<Id>, resume: map<Id, Result>, left: set<Id>, results: map<Id, Entry>,
                      inDegree: map<Id, int>, tokens: nat)
    requires TakenOver(p, ids, resume, left, results, inDegree, tokens)
    ensures inDegree.Keys == p.deps.Keys && left <= resume.Keys
  {}


  /** Reports every step still in flight as cancelled. */
  method CancelRunning(results: map<Id, Entry>, running: set<Id>) returns (final: map<Id, Entry>)
    requires running <= results.Keys
    ensures final == map s | s in results ::
              if s in running && results[s].InFlight? then Settled(Blank(Cancelled)) else results[s]
  {
    final := results;
    var left := running;
    while left != {}
      invariant left <= running && final.Keys == results.Keys
      invariant forall s :: s in results ==>
                  final[s] == if s in running && s !in left && results[s].InFlight? then Settled(Blank(Cancelled)) else results[s]
      decreases left
    {
      var s :| s in left;
      if s !in final || final[s].InFlight? {
        final := final[s := Settled(Blank(Cancelled))];
      }
      left := left - {s};
    }
  }

  /** Reports every step without an entry as cancelled. */
  method FillMissing(ids: seq<Id>, base: map<Id, Entry>) returns (final: map<Id, Entry>)
    ensures final.Keys == base.Keys + SetOf(ids)
    ensures forall s :: s in final ==> final[s] == if s in base then base[s] else Settled(Blank(Cancelled))
  {
    final := base;
    for i := 0 to |ids|
      invariant final.Keys == base.Keys + SetOf(ids[..i])
      invariant forall s :: s in final ==> final[s] == if s in base then base[s] else Settled(Blank(Cancelled))
    {
      assert ids[..i + 1] == ids[..i] + [ids[i]];
      SetOfAppend(ids[..i], ids[i]);
      if ids[i] !in final {
        final := final[ids[i] := Settled(Blank(Cancelled))];
      }
    }
    assert ids[..|ids|] == ids;
  }

  lemma IndexedInverts(g: Deps, inDegree: map<Id, int>, adj: map<Id, seq<Id>>)
    requires Indexed(g, g.Keys, inDegree, adj)
    ensures Inverts(adj, g) && inDegree.Keys == g.Keys
    ensures forall s :: s in g ==> inDegree[s] == |g[s]|
  {}

  lemma {:induction false} NoTokens(ids: seq<Id>)
    ensures SumTokens(ids, map[]) == 0
  {
    if ids != [] { NoTokens(ids[1..]); }
  }

  datatype RunStatus = RunCompleted | RunPartial | RunFailed

  predicate HasStatus(final: map<Id, Entry>, s: Id, status: Status) {
    IsSettled(final, s) && final[s].result.status == status
  }

  /** Some step of ids ended with one of the statuses. */
  ghost predicate Some(ids: seq<Id>, final: map<Id, Entry>, statuses: set<Status>) {
    exists s, st :: s in ids && st in statuses && HasStatus(final, s, st)
  }

  /** The run's status from its final results. */
  method DeriveStatus(ids: seq<Id>, final: map<Id, Entry>) returns (status: RunStatus)
    requires forall s :: s in ids ==> IsSettled(final, s)
    ensures status == RunCompleted <==> !Some(ids, final, {Failed, Cancelled})
    ensures status == RunPartial <==> Some(ids, final, {Failed, Cancelled}) && Some(ids, final, {Completed})
  {
    var hasCompleted, hasFailed := false, false;
    for i := 0 to |ids|
      invariant hasCompleted <==> Some(ids[..i], final, {Completed})
      invariant hasFailed <==> Some(ids[..i], final, {Failed, Cancelled})
    {
      assert ids[..i + 1] == ids[..i] + [ids[i]];
      assert ids[i] in ids;
      var st := final[ids[i]].result.status;
      assert HasStatus(final, ids[i], st);
      if st == Completed { hasCompleted := true; }
      if st == Failed || st == Cancelled { hasFailed := true; }
    }
    assert ids[..|ids|] == ids;
    return if hasFailed && hasCompleted then RunPartial else if hasFailed then RunFailed else RunCompleted;
  }
}
