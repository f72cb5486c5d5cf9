/** Which workflows start a step below a broken condition. One step d has a condition, it is broken, and nothing
    else goes wrong: t, which depends on d directly, is marked when d fails. Whether it is started all the same
    depends on the shape of the workflow only: iff the launch that fails d can come when everything else that t
    waits for is settled (internal/exec/executor.go:943-1041). */
module BrokenConditions {
  import opened Graph
  import opened Schedule
  import opened RunCore
  import opened RunSystem
  import opened RunTheorems
  import opened Evaluator
  import opened Determinism
  import opened Divergence
  import Conditions

  /** No step fails, and only d has a condition, which is broken. */
  ghost predicate LoneBreak(w: World, d: Id) {
    && (forall s, m :: w.outcome(s, m).status != Failed)
    && (forall s, m :: w.verdict(s, m) == if s == d then Broken else Proceed)
  }

  /** t depends on d, and neither is resumed. */
  predicate Dependent(p: Plan, prior: set<Id>, d: Id, t: Id) {
    d in p.deps && t in p.deps && d in p.deps[t] && d !in prior && t !in prior
  }

  predicate LiveDep(p: Plan, prior: set<Id>, g: Id, s: Id) {
    s in p.deps && g in p.deps[s] && g !in prior
  }

  /** Nothing else that t waits for lies below g. */
  ghost predicate SparesRest(p: Plan, prior: set<Id>, d: Id, t: Id, g: Id) {
    forall e :: LiveDep(p, prior, e, t) && e != d ==> !Reaches(Live(p.deps, prior), g, e)
  }

  /** Some dependency of d can be held back until everything else that t waits for is settled; or neither of
      them waits for anything but t for d. */
  ghost predicate Slips(p: Plan, prior: set<Id>, d: Id, t: Id) {
    || (exists g :: LiveDep(p, prior, g, d) && SparesRest(p, prior, d, t, g))
    || ((forall g :: !LiveDep(p, prior, g, d)) && forall e :: LiveDep(p, prior, e, t) ==> e == d)
  }

  // ------------------------------------------------------------------- otherwise t is never started

  predicate InDispatch(x: Sys) {
    x.main.Propagating? || x.main.Launching?
  }

  /** The first dispatch has not ended: only resumed steps are settled. */
  ghost predicate FirstDispatch(prior: set<Id>, x: Sys) {
    !MutexFree(x) && forall s :: IsSettled(x.core.results, s) ==> s in prior
  }

  /** g was not settled when the latest dispatch began, so nothing below it is. */
  ghost predicate Untouched(p: Plan, prior: set<Id>, x: Sys, g: Id) {
    forall u :: Reaches(Live(p.deps, prior), g, u) ==>
      !IsSettled(x.core.results, u) && (!InDispatch(x) ==> u !in x.core.results)
  }

  ghost predicate Timing(p: Plan, prior: set<Id>, x: Sys, d: Id) {
    if forall g :: !LiveDep(p, prior, g, d) then FirstDispatch(prior, x)
    else exists g :: LiveDep(p, prior, g, d) && Untouched(p, prior, x, g)
  }

  /** An abort has ended the launching for good. */
  predicate Over(x: Sys) {
    x.core.aborted && !InDispatch(x)
  }

  /** d's condition is still to come, and nothing is marked. */
  ghost predicate Pending(p: Plan, prior: set<Id>, x: Sys, d: Id) {
    d !in x.core.results && x.core.skipped + x.core.cascaded == {} && Timing(p, prior, x, d)
  }

  /** d has failed, and no launch finds t ready before it is propagated to. */
  predicate Barred(x: Sys, d: Id, t: Id) {
    d in x.core.results && Marked(x.core, t) && (x.main.Launching? ==> !Ready(x.core, t))
  }

  ghost predicate NeverStarts(p: Plan, prior: set<Id>, x: Sys, d: Id, t: Id) {
    t !in x.phase && (Over(x) || Pending(p, prior, x, d) || Barred(x, d, t))
  }

  lemma OverStep(p: Plan, w: World, x: Sys, a: Action, t: Id)
    requires Over(x) && Enabled(p, w, x, a) && t !in x.phase && PhaseInv(x)
    ensures Over(Apply(p, w, x, a)) && t !in Apply(p, w, x, a).phase
  {
    hide Descendants, Decrement, AllSettled, FinalResults, DepResults, NothingReady, NoMarkedReady;
  }

  lemma BarredStep(p: Plan, w: World, x: Sys, a: Action, d: Id, t: Id)
    requires Barred(x, d, t) && t in p.deps && LoneBreak(w, d) && Enabled(p, w, x, a) && t !in x.phase && PhaseInv(x)
    ensures Barred(Apply(p, w, x, a), d, t) && t !in Apply(p, w, x, a).phase
  {
    hide Descendants, Decrement, AllSettled, FinalResults, DepResults, NothingReady;
    assert !a.SkipOnCondition? && !a.FailOnCondition?;
  }

  /** What can happen before d's condition, short of it: no mark, and settling only by a step's own success. */
  lemma QuietStep(p: Plan, w: World, x: Sys, a: Action, d: Id)
    requires LoneBreak(w, d) && Enabled(p, w, x, a) && Inv(p, x) && !Over(x) && a != FailOnCondition(d)
    requires d !in x.core.results && x.core.skipped + x.core.cascaded == {}
    ensures var y := Apply(p, w, x, a);
            && d !in y.core.results && y.core.skipped + y.core.cascaded == {}
            && (!a.Finish? && !a.Start? ==> y.core.results == x.core.results)
  {
    hide CoreInv, SlotInv, QueueInv, InputInv, WakeInv, MainInv;
    hide Descendants, Decrement, AllSettled, FinalResults, DepResults, NothingReady;
    assert !a.SkipOnCondition? && !a.Propagate?;
    if a.Finish? { assert a.s in x.phase && !x.core.aborted; }
  }

  lemma FirstStep(p: Plan, w: World, prior: set<Id>, x: Sys, a: Action, d: Id)
    requires ValidPlan(p) && Inv(p, x) && Pending(p, prior, x, d) && FirstDispatch(prior, x) && LoneBreak(w, d)
    requires Enabled(p, w, x, a) && a != FailOnCondition(d) && !Over(x)
    requires d in p.deps && (forall e :: e in p.deps[d] ==> IsSettled(x.core.results, e))
    ensures Over(Apply(p, w, x, a)) || FirstDispatch(prior, Apply(p, w, x, a))
  {
    var y := Apply(p, w, x, a);
    if a.EndDispatch? {
      if !x.core.aborted { DepsDecide(p, x, d); }
    } else {
      hide Timing;
      QuietStep(p, w, x, a, d);
      FirstMain(p, w, x, a);
      forall s | IsSettled(y.core.results, s) ensures s in prior { OnlyFinishSettles(p, w, x, a, d, s); }
      hide Inv, ValidPlan, Enabled, Apply;
    }
  }

  /** Without an abort an unhandled step is ready as soon as its dependencies are settled. */
  lemma DepsDecide(p: Plan, x: Sys, d: Id)
    requires Inv(p, x) && !x.core.aborted && d in p.deps && d !in x.core.results
    ensures Ready(x.core, d) || exists e :: e in p.deps[d] && !IsSettled(x.core.results, e)
  {
    InvParts(p, x);
    if forall e :: e in p.deps[d] ==> IsSettled(x.core.results, e) { SettledDepsMeansZero(p, x.core, d); }
  }

  lemma FirstMain(p: Plan, w: World, x: Sys, a: Action)
    requires Enabled(p, w, x, a) && !MutexFree(x) && !a.EndDispatch?
    ensures !a.Finish? && (Over(Apply(p, w, x, a)) || !MutexFree(Apply(p, w, x, a)))
  {
    hide Descendants, Decrement, AllSettled, FinalResults, DepResults, NothingReady, NoMarkedReady;
  }

  lemma OnlyFinishSettles(p: Plan, w: World, x: Sys, a: Action, d: Id, s: Id)
    requires LoneBreak(w, d) && Enabled(p, w, x, a) && Inv(p, x) && !Over(x) && a != FailOnCondition(d)
    requires d !in x.core.results && x.core.skipped + x.core.cascaded == {}
    ensures var y := Apply(p, w, x, a);
            && (IsSettled(y.core.results, s) ==> IsSettled(x.core.results, s) || (a.Finish? && a.s == s))
            && (s in y.core.results ==> s in x.core.results || (a == Start(s) && x.main.Launching?))
            && (a.Finish? ==> a.s in x.core.results && !InDispatch(x))
            && (InDispatch(x) && !InDispatch(y) ==> a.EndDispatch?)
  {
    hide Inv, LoneBreak;
    QuietStep(p, w, x, a, d);
    if a.Finish? { WorkingIsHandled(p, x, a.s); }
    OneSettles(p, w, x, a);
  }

  lemma OneSettles(p: Plan, w: World, x: Sys, a: Action)
    requires Enabled(p, w, x, a)
    ensures var y := Apply(p, w, x, a);
            && (a.Finish? ==> MutexFree(x) && a.s in x.phase && y.core.results == x.core.results[a.s := Settled(a.r)])
            && (a.Start? ==> x.main.Launching?)
            && (a.Start? ==> y.core == x.core || y.core.results == x.core.results[a.s := InFlight])
            && (InDispatch(x) && !InDispatch(y) ==> a.EndDispatch?)
  {
    hide Descendants, Decrement, AllSettled, FinalResults, DepResults, NothingReady, NoMarkedReady;
  }

  lemma WorkingIsHandled(p: Plan, x: Sys, s: Id)
    requires Inv(p, x) && s in x.phase
    ensures s in x.core.results
  {
  }

  lemma UntouchedStep(p: Plan, w: World, prior: set<Id>, x: Sys, a: Action, d: Id, g: Id)
    requires LoneBreak(w, d) && Enabled(p, w, x, a) && Inv(p, x) && !Over(x) && a != FailOnCondition(d)
    requires d !in x.core.results && x.core.skipped + x.core.cascaded == {}
    requires Untouched(p, prior, x, g) && !a.EndDispatch?
    ensures Untouched(p, prior, Apply(p, w, x, a), g)
  {
    hide Inv, Enabled, Apply, Reaches;
    var y := Apply(p, w, x, a);
    forall u | Reaches(Live(p.deps, prior), g, u)
      ensures !IsSettled(y.core.results, u) && (!InDispatch(y) ==> u !in y.core.results)
    {
      OnlyFinishSettles(p, w, x, a, d, u);
    }
  }

  /** A launch that ends without d leaves a dependency of d unsettled, and what is below that untouched. */
  lemma EndLaunch(p: Plan, w: World, prior: set<Id>, x: Sys, d: Id) returns (g: Id)
    requires ValidPlan(p) && Inv(p, x) && DepsFirst(p, prior, x.core.results) && Enabled(p, w, x, EndDispatch)
    requires d in p.deps && d !in x.core.results && !x.core.aborted
    ensures LiveDep(p, prior, g, d) && Untouched(p, prior, Apply(p, w, x, EndDispatch), g)
  {
    hide Inv, ValidPlan, DepsFirst, Reaches;
    DepsDecide(p, x, d);
    g :| g in p.deps[d] && !IsSettled(x.core.results, g);
    OpenIsLive(p, prior, x.core.results, g, d);
    forall u | Reaches(Live(p.deps, prior), g, u) ensures u !in x.core.results {
      BelowOpen(p, prior, x.core.results, g, u);
    }
  }

  lemma OpenIsLive(p: Plan, prior: set<Id>, results: map<Id, Entry>, g: Id, d: Id)
    requires ValidPlan(p) && DepsFirst(p, prior, results) && d in p.deps && g in p.deps[d] && !IsSettled(results, g)
    ensures g in p.deps && g !in prior
  {
  }

  lemma BelowOpen(p: Plan, prior: set<Id>, results: map<Id, Entry>, g: Id, u: Id)
    requires ValidPlan(p) && DepsFirst(p, prior, results) && !IsSettled(results, g)
    requires Reaches(Live(p.deps, prior), g, u)
    ensures u !in results
  {
    var _ := ReachLast(Live(p.deps, prior), g, u);
    if u in results { AboveIsSettled(p, prior, results, g, u); }
  }

  lemma TimingStep(p: Plan, w: World, prior: set<Id>, x: Sys, a: Action, d: Id)
    requires ValidPlan(p) && Inv(p, x) && DepsFirst(p, prior, x.core.results) && Pending(p, prior, x, d) && !Over(x)
    requires LoneBreak(w, d) && Enabled(p, w, x, a) && a != FailOnCondition(d) && d in p.deps
    ensures Over(Apply(p, w, x, a)) || Timing(p, prior, Apply(p, w, x, a), d)
  {
    hide ValidPlan, Inv, DepsFirst, LoneBreak, Enabled, Apply, FirstDispatch, Untouched, LiveDep;
    if forall g :: !LiveDep(p, prior, g, d) {
      NoLiveDeps(p, prior, x.core.results, d);
      FirstStep(p, w, prior, x, a, d);
    } else if a.EndDispatch? {
      if x.core.aborted { AbortedEnd(p, w, x); } else { var g := EndLaunch(p, w, prior, x, d); }
    } else {
      var g :| LiveDep(p, prior, g, d) && Untouched(p, prior, x, g);
      UntouchedStep(p, w, prior, x, a, d, g);
    }
  }

  lemma NoLiveDeps(p: Plan, prior: set<Id>, results: map<Id, Entry>, d: Id)
    requires ValidPlan(p) && DepsFirst(p, prior, results) && d in p.deps && forall g :: !LiveDep(p, prior, g, d)
    ensures forall e :: e in p.deps[d] ==> IsSettled(results, e)
  {
    forall e | e in p.deps[d] ensures IsSettled(results, e) { assert !LiveDep(p, prior, e, d) && e in p.deps; }
  }

  lemma AbortedEnd(p: Plan, w: World, x: Sys)
    requires x.core.aborted
    ensures Over(Apply(p, w, x, EndDispatch))
  {
  }

  /** While d's condition is to come, something else that t waits for is unsettled, unless t slips. */
  lemma SomethingOpen(p: Plan, prior: set<Id>, x: Sys, d: Id, t: Id) returns (e: Id)
    requires Pending(p, prior, x, d) && x.main.Launching? && !Slips(p, prior, d, t)
    ensures LiveDep(p, prior, e, t) && e != d && !IsSettled(x.core.results, e)
  {
    if forall g :: !LiveDep(p, prior, g, d) {
      e :| LiveDep(p, prior, e, t) && e != d;
    } else {
      var g :| LiveDep(p, prior, g, d) && Untouched(p, prior, x, g);
      assert !SparesRest(p, prior, d, t, g);
      e :| LiveDep(p, prior, e, t) && e != d && Reaches(Live(p.deps, prior), g, e);
    }
  }

  lemma BreakBars(p: Plan, w: World, prior: set<Id>, x: Sys, d: Id, t: Id)
    requires ValidPlan(p) && Inv(p, x) && p.strategy != Abort && Enabled(p, w, x, FailOnCondition(d))
    requires Dependent(p, prior, d, t) && Pending(p, prior, x, d) && !Slips(p, prior, d, t)
    ensures Barred(Apply(p, w, x, FailOnCondition(d)), d, t)
  {
    hide Inv, ValidPlan, Pending, Slips, ConditionBroken;
    var y := Apply(p, w, x, FailOnCondition(d));
    var e := SomethingOpen(p, prior, x, d, t);
    StepKeeps(p, w, x, FailOnCondition(d));
    Conditions.OneEntryChanges(p, x.core, d, Blank(Failed));
    assert e in p.deps[t] && !IsSettled(y.core.results, e);
    OpenIsNotReady(p, y, t, e);
    ReachDirect(p.deps, d, t);
    BreakMarks(p, x.core, d, t);
  }

  lemma OpenIsNotReady(p: Plan, x: Sys, t: Id, e: Id)
    requires Inv(p, x) && t in p.deps && e in p.deps[t] && !IsSettled(x.core.results, e)
    ensures !Ready(x.core, t)
  {
    InvParts(p, x);
    if Ready(x.core, t) { ReadyHasDeps(p, x.core, t); }
  }

  lemma BreakMarks(p: Plan, c: Core, d: Id, t: Id)
    requires p.strategy != Abort && t in p.deps && Reaches(p.deps, d, t)
    ensures Marked(ConditionBroken(p, c, d), t) && d in ConditionBroken(p, c, d).results
  {
    hide Reaches, Decrement;
  }

  /** t waits for d, so it is not launched before d's condition. */
  lemma NotBefore(p: Plan, w: World, prior: set<Id>, x: Sys, a: Action, d: Id, t: Id)
    requires ValidPlan(p) && Inv(p, x) && Dependent(p, prior, d, t) && d !in x.core.results
    requires Enabled(p, w, x, a) && t !in x.phase
    ensures t !in Apply(p, w, x, a).phase
  {
    OpenIsNotReady(p, x, t, d);
    PhasesAreStarted(p, w, x, a, t);
  }

  lemma PhasesAreStarted(p: Plan, w: World, x: Sys, a: Action, t: Id)
    requires Enabled(p, w, x, a) && t !in x.phase && !Ready(x.core, t)
    ensures t !in Apply(p, w, x, a).phase
  {
    hide Descendants, Decrement, AllSettled, FinalResults, DepResults, NothingReady, NoMarkedReady;
  }

  lemma NeverStartsStep(p: Plan, w: World, prior: set<Id>, x: Sys, a: Action, d: Id, t: Id)
    requires ValidPlan(p) && Inv(p, x) && DepsFirst(p, prior, x.core.results) && p.strategy != Abort
    requires Dependent(p, prior, d, t) && !Slips(p, prior, d, t) && LoneBreak(w, d)
    requires NeverStarts(p, prior, x, d, t) && Enabled(p, w, x, a)
    ensures NeverStarts(p, prior, Apply(p, w, x, a), d, t)
  {
    hide Inv, ValidPlan, DepsFirst, Slips, LoneBreak, Enabled, Apply, Timing, Marked, Ready, Dependent;
    assert d in p.deps && t in p.deps by { DependentSteps(p, prior, d, t); }
    InvPhase(p, x);
    if Over(x) {
      OverStep(p, w, x, a, t);
    } else if Barred(x, d, t) {
      BarredStep(p, w, x, a, d, t);
    } else {
      NotBefore(p, w, prior, x, a, d, t);
      if a == FailOnCondition(d) {
        BreakBars(p, w, prior, x, d, t);
      } else {
        TimingStep(p, w, prior, x, a, d);
        QuietStep(p, w, x, a, d);
      }
    }
  }

  lemma DependentSteps(p: Plan, prior: set<Id>, d: Id, t: Id)
    requires Dependent(p, prior, d, t)
    ensures d in p.deps && t in p.deps
  {
  }

  lemma InvPhase(p: Plan, x: Sys)
    requires Inv(p, x)
    ensures PhaseInv(x)
  {
  }

  lemma {:induction false} NeverStartsRun(p: Plan, w: World, prior: set<Id>, x: Sys, acts: seq<Action>, y: Sys, d: Id, t: Id)
    requires ValidPlan(p) && Inv(p, x) && DepsFirst(p, prior, x.core.results) && p.strategy != Abort
    requires Dependent(p, prior, d, t) && !Slips(p, prior, d, t) && LoneBreak(w, d)
    requires NeverStarts(p, prior, x, d, t) && Runs(p, w, x, acts, y)
    ensures NeverStarts(p, prior, y, d, t)
    decreases |acts|
  {
    if acts != [] {
      hide Inv, ValidPlan, DepsFirst, Slips, LoneBreak, Enabled, Apply, NeverStarts;
      StepKeeps(p, w, x, acts[0]);
      DepsFirstStep(p, w, prior, x, acts[0]);
      NeverStartsStep(p, w, prior, x, acts[0], d, t);
      NeverStartsRun(p, w, prior, Apply(p, w, x, acts[0]), acts[1..], y, d, t);
    }
  }

  lemma StartsPending(p: Plan, resume: map<Id, Result>, d: Id, t: Id)
    requires ValidPlan(p) && Dependent(p, resume.Keys, d, t)
    ensures NeverStarts(p, resume.Keys, InitialSys(p, resume), d, t)
  {
    var x := InitialSys(p, resume);
    hide ValidPlan, LiveDep, Untouched, Reaches, SumTokens, Outside;
    if g :| LiveDep(p, resume.Keys, g, d) {
      StartsUntouched(p, resume, x, g);
    }
  }

  lemma StartsUntouched(p: Plan, resume: map<Id, Result>, x: Sys, g: Id)
    requires x.core.results.Keys == resume.Keys
    ensures Untouched(p, resume.Keys, x, g)
  {
    forall u | Reaches(Live(p.deps, resume.Keys), g, u) ensures u !in x.core.results {
      var _ := ReachLast(Live(p.deps, resume.Keys), g, u);
    }
  }

  // ------------------------------------------------------------------- if it slips, some run starts it

  lemma {:induction false} ReachThrough(g: Deps, a: Id, b: Id, q: seq<Id>, c: Id)
    requires Reaches(g, a, b) && Connects(g, q, b, c)
    ensures Reaches(g, a, c)
    decreases |q|
  {
    var l := q[|q| - 2];
    assert Edge(g, q, |q| - 2);
    if |q| > 2 {
      ChainPrefix(g, q);
      ReachThrough(g, a, b, q[..|q| - 1], l);
    }
    ReachExtend(g, a, l, c);
  }

  lemma LiveRanksLower(p: Plan, prior: set<Id>, a: Id, b: Id)
    requires ValidPlan(p) && Reaches(Live(p.deps, prior), a, b)
    ensures a in p.order && b in p.order && Rank(p.order, a) < Rank(p.order, b)
  {
    var q :| Connects(Live(p.deps, prior), q, a, b);
    forall i: nat | i + 1 < |q| ensures Edge(p.deps, q, i) { assert Edge(Live(p.deps, prior), q, i); }
    assert Connects(p.deps, q, a, b);
    ReachRanksLower(p.deps, p.order, q, a, b);
  }

  /** Of the dependencies of d that can be held back, one that no other lies below. */
  lemma {:induction false} LastToHold(p: Plan, prior: set<Id>, d: Id, t: Id, g: Id) returns (h: Id)
    requires ValidPlan(p) && LiveDep(p, prior, g, d) && SparesRest(p, prior, d, t, g)
    ensures LiveDep(p, prior, h, d) && SparesRest(p, prior, d, t, h)
    ensures forall f :: LiveDep(p, prior, f, d) ==> !Reaches(Live(p.deps, prior), h, f)
    decreases if g in p.order then |p.order| - Rank(p.order, g) else 0
  {
    var l := Live(p.deps, prior);
    if f :| LiveDep(p, prior, f, d) && Reaches(l, g, f) {
      LiveRanksLower(p, prior, g, f);
      forall e | LiveDep(p, prior, e, t) && e != d ensures !Reaches(l, f, e) {
        if q :| Connects(l, q, f, e) { ReachThrough(l, g, f, q, e); }
      }
      h := LastToHold(p, prior, d, t, f);
    } else {
      h := g;
    }
  }

  /** h is held back, and nothing has gone wrong. */
  ghost predicate Holding(p: Plan, prior: set<Id>, x: Sys, d: Id, h: Id) {
    && Inv(p, x) && Calm(p, x) && DepsFirst(p, prior, x.core.results)
    && d !in x.core.results && x.core.skipped + x.core.cascaded == {} && Idle(x, h)
  }

  lemma IdleStays(p: Plan, w: World, x: Sys, a: Action, d: Id, h: Id)
    requires LoneBreak(w, d) && Enabled(p, w, x, a) && PhaseInv(x) && RunningIsInFlight(x.core) && !x.core.aborted
    requires x.core.skipped + x.core.cascaded == {} && Idle(x, h) && Allowed({h}, a) && a != FailOnCondition(d)
    ensures Idle(Apply(p, w, x, a), h)
  {
    hide Descendants, Decrement, AllSettled, FinalResults, DepResults, NothingReady, NoMarkedReady;
    assert !a.SkipOnCondition? && !a.FailOnCondition? && !a.Propagate?;
  }

  lemma HoldingStep(p: Plan, w: World, prior: set<Id>, x: Sys, a: Action, d: Id, h: Id)
    requires ValidPlan(p) && p.strategy != Abort && LoneBreak(w, d) && LiveDep(p, prior, h, d)
    requires Holding(p, prior, x, d, h) && Enabled(p, w, x, a) && Allowed({h}, a)
    ensures Holding(p, prior, Apply(p, w, x, a), d, h)
  {
    var y := Apply(p, w, x, a);
    hide ValidPlan, Inv, DepsFirst, Reported, AllSettled, Apply, Enabled, LoneBreak, NoMarkedReady, Idle;
    OpenIsNotReady(p, x, d, h) by { IdleIsOpen(x, h); }
    OnlyReadyFails(p, w, x, a, d);
    QuietStep(p, w, x, a, d);
    StepKeeps(p, w, x, a);
    DepsFirstStep(p, w, prior, x, a);
    ReportedStep(p, w, x, a);
    AllSettledStays(p, x.core.results, y.core.results);
    NoAbortStep(p, w, x, a);
    CalmMain(p, w, x, a);
    UnmarkedIsClean(p, y.core);
    HoldingParts(p, x);
    IdleStays(p, w, x, a, d, h);
  }

  lemma HoldingParts(p: Plan, x: Sys)
    requires Inv(p, x)
    ensures PhaseInv(x) && RunningIsInFlight(x.core)
  {
  }

  lemma OnlyReadyFails(p: Plan, w: World, x: Sys, a: Action, d: Id)
    requires Enabled(p, w, x, a) && !Ready(x.core, d)
    ensures a != FailOnCondition(d)
  {
  }

  lemma UnmarkedIsClean(p: Plan, c: Core)
    requires c.skipped + c.cascaded == {}
    ensures NoMarkedReady(p, c)
  {
  }

  lemma {:induction false} HoldingRun(p: Plan, w: World, prior: set<Id>, x: Sys, acts: seq<Action>, y: Sys, d: Id, h: Id)
    requires ValidPlan(p) && p.strategy != Abort && LoneBreak(w, d) && LiveDep(p, prior, h, d)
    requires Holding(p, prior, x, d, h) && Runs(p, w, x, acts, y) && AllowedRun({h}, acts)
    ensures Holding(p, prior, y, d, h)
    decreases |acts|
  {
    if acts != [] {
      assert Allowed({h}, acts[0]);
      hide ValidPlan, Holding, LoneBreak, Apply, Enabled;
      HoldingStep(p, w, prior, x, acts[0], d, h);
      forall i | 0 <= i < |acts[1..]| ensures Allowed({h}, acts[1..][i]) { assert Allowed({h}, acts[i + 1]); }
      HoldingRun(p, w, prior, Apply(p, w, x, acts[0]), acts[1..], y, d, h);
    }
  }

  /** At the end of the holding run only h and what is below it is open, and every slot is free. */
  lemma HeldState(p: Plan, w: World, prior: set<Id>, y: Sys, d: Id, h: Id)
    requires ValidPlan(p) && Holding(p, prior, y, d, h) && LiveDep(p, prior, h, d) && Exhausted(p, w, {h}, y)
    ensures y.main.Receiving? && !y.core.aborted && InPhase(y, h, WaitingSlot) && y.holders == {} && y.done == []
    ensures forall u :: u in p.deps && !IsSettled(y.core.results, u) ==> u == h || Reaches(Live(p.deps, prior), h, u)
  {
    hide ValidPlan, Inv, DepsFirst, Exhausted, Reaches;
    assert h in p.deps && !IsSettled(y.core.results, h) by { DepIsStep(p, prior, h, d); }
    ExhaustedMain(p, w, {h}, y);
    forall u | u in p.deps && !IsSettled(y.core.results, u) ensures u == h || Reaches(Live(p.deps, prior), h, u) {
      OnlyHeldRemains(p, w, prior, h, y, u);
    }
    PriorIsSettled(p, prior, y.core.results);
    HeldWaits(p, w, prior, y, h);
    NothingElseRuns(p, w, y, h);
  }

  lemma PriorIsSettled(p: Plan, prior: set<Id>, results: map<Id, Entry>)
    requires DepsFirst(p, prior, results)
    ensures forall u :: u in prior && u in p.deps ==> IsSettled(results, u)
  {
  }

  lemma DepIsStep(p: Plan, prior: set<Id>, g: Id, s: Id)
    requires ValidPlan(p) && LiveDep(p, prior, g, s)
    ensures g in p.deps
  {
  }

  lemma HeldWaits(p: Plan, w: World, prior: set<Id>, y: Sys, h: Id)
    requires ValidPlan(p) && Inv(p, y) && y.main.Receiving? && !y.core.aborted && Exhausted(p, w, {h}, y)
    requires h in p.deps && Idle(y, h) && h !in prior && (forall u :: u in prior && u in p.deps ==> IsSettled(y.core.results, u))
    requires forall u :: u in p.deps && !IsSettled(y.core.results, u) ==> u == h || Reaches(Live(p.deps, prior), h, u)
    ensures InPhase(y, h, WaitingSlot)
  {
    NothingPending(p, w, h, y);
    hide Exhausted, Inv;
    if h !in y.core.results {
      DepsDecide(p, y, h);
      var e :| e in p.deps[h] && !IsSettled(y.core.results, e);
      assert e in p.deps && e !in prior;
      DependencyRanksLower(p.deps, p.order, e, h);
      if e != h { LiveRanksLower(p, prior, h, e); }
    }
  }

  lemma NothingElseRuns(p: Plan, w: World, y: Sys, h: Id)
    requires ValidPlan(p) && Inv(p, y) && y.main.Receiving? && Exhausted(p, w, {h}, y)
    ensures y.holders == {} && y.done == []
  {
    assert Allowed({h}, Receive);
    forall s ensures s !in y.holders {
      if s in y.holders { ExhaustedGoroutines(p, w, {h}, y, s); }
    }
  }

  /** h gets its slot and succeeds. */
  lemma Work(p: Plan, w: World, y: Sys, h: Id, r: Result) returns (acts: seq<Action>, z: Sys)
    requires y.main.Receiving? && !y.core.aborted && InPhase(y, h, WaitingSlot) && y.holders == {} && p.slots >= 1
    requires h in y.inputs && r == w.outcome(h, y.inputs[h])
    ensures Runs(p, w, y, acts, z) && z.core == Finished(p, y.core, h, r) && InPhase(z, h, Signalling)
    ensures z.main == y.main && z.done == y.done
  {
    hide Runs, Finished;
    var y1 := Apply(p, w, y, Acquire(h));
    z := Apply(p, w, y1, Finish(h, r));
    Conditions.RunsNothing(p, w, y);
    RunsExtend(p, w, y, [], y, Acquire(h));
    acts := [] + [Acquire(h)];
    RunsExtend(p, w, y, acts, y1, Finish(h, r));
    acts := acts + [Finish(h, r)];
  }

  /** h signals, and the main loop wakes up. */
  lemma Awaken(p: Plan, w: World, y: Sys, h: Id) returns (acts: seq<Action>, z: Sys)
    requires y.main.Receiving? && InPhase(y, h, Signalling) && y.done == [] && |p.order| > 0
    ensures Runs(p, w, y, acts, z) && z.core == y.core && z.main.Entering?
  {
    hide Runs;
    var y1 := Apply(p, w, y, Signal(h));
    z := Apply(p, w, y1, Receive);
    Conditions.RunsNothing(p, w, y);
    RunsExtend(p, w, y, [], y, Signal(h));
    acts := [] + [Signal(h)];
    RunsExtend(p, w, y, acts, y1, Receive);
    acts := acts + [Receive];
  }

  lemma FinishHeld(p: Plan, w: World, y: Sys, h: Id) returns (acts: seq<Action>, z: Sys)
    requires ValidPlan(p) && Inv(p, y) && y.main.Receiving? && !y.core.aborted
    requires InPhase(y, h, WaitingSlot) && y.holders == {} && y.done == []
    ensures Runs(p, w, y, acts, z) && z.main.Entering? && h in y.inputs
    ensures z.core == Finished(p, y.core, h, w.outcome(h, y.inputs[h]))
  {
    WaitingHasInput(p, y, h);
    hide ValidPlan, Inv, Runs, Finished;
    var a1, y1 := Work(p, w, y, h, w.outcome(h, y.inputs[h]));
    var a2;
    a2, z := Awaken(p, w, y1, h);
    RunsCompose(p, w, y, a1, y1, a2, z);
    acts := a1 + a2;
  }

  lemma WaitingHasInput(p: Plan, y: Sys, h: Id)
    requires ValidPlan(p) && Inv(p, y) && InPhase(y, h, WaitingSlot)
    ensures h in y.inputs && h in p.deps && |p.order| > 0 && p.slots >= 1
  {
    assert InputOk(p, y.core.results, y.inputs, h);
  }

  /** The dispatch begins and fails d. */
  lemma LaunchFails(p: Plan, w: World, z: Sys, d: Id) returns (acts: seq<Action>, y: Sys)
    requires z.main.Entering? && !z.core.aborted && NoMarkedReady(p, z.core) && LoneBreak(w, d) && Ready(z.core, d)
    ensures Runs(p, w, z, acts, y) && y.main.Launching? && y.core == ConditionBroken(p, z.core, d)
  {
    hide Runs, ConditionBroken, NoMarkedReady, Ready;
    var z1 := Apply(p, w, z, BeginDispatch);
    var z2 := Apply(p, w, z1, EndPropagation);
    y := Apply(p, w, z2, FailOnCondition(d));
    Conditions.RunsNothing(p, w, z);
    RunsExtend(p, w, z, [], z, BeginDispatch);
    RunsExtend(p, w, z, [] + [BeginDispatch], z1, EndPropagation);
    acts := [] + [BeginDispatch] + [EndPropagation];
    RunsExtend(p, w, z, acts, z2, FailOnCondition(d));
    acts := acts + [FailOnCondition(d)];
  }

  /** And then starts t. */
  lemma LaunchBoth(p: Plan, w: World, z: Sys, d: Id, t: Id) returns (acts: seq<Action>, y: Sys)
    requires z.main.Entering? && !z.core.aborted && z.core.skipped + z.core.cascaded == {} && p.strategy != Abort
    requires d in p.deps && t in p.deps && d != t && LoneBreak(w, d) && Ready(z.core, d) && d in p.deps[t]
    requires t !in z.core.results && t in z.core.inDegree && z.core.inDegree[t] == Occ(p.deps[t], d)
    ensures Runs(p, w, z, acts, y) && Marked(y.core, t) && t in y.core.running
    ensures IsSettled(y.core.results, d) && y.core.results[d].result.status == Failed
  {
    hide Runs, ConditionBroken, NoMarkedReady, Reaches;
    ReachDirect(p.deps, d, t);
    UnmarkedIsClean(p, z.core);
    Conditions.BreaksAndFrees(p, z.core, d, t);
    var z1: Sys;
    acts, z1 := LaunchFails(p, w, z, d);
    y := Apply(p, w, z1, Start(t));
    RunsExtend(p, w, z, acts, z1, Start(t));
    acts := acts + [Start(t)];
  }

  /** Once h has finished, d is ready, and t waits for d alone. */
  lemma HeldFrees(p: Plan, prior: set<Id>, c: Core, d: Id, t: Id)
    requires ValidPlan(p) && Degrees(p, c) && !c.aborted && Dependent(p, prior, d, t) && d !in c.results
    requires forall f :: f in p.deps[d] ==> IsSettled(c.results, f)
    requires forall e :: e in p.deps[t] && e != d ==> IsSettled(c.results, e)
    ensures Ready(c, d) && t in c.inDegree && c.inDegree[t] == Occ(p.deps[t], d)
  {
    SettledDepsMeansZero(p, c, d);
    Conditions.OutsideIsOcc(p.deps[t], SettledIds(c.results), d);
  }

  lemma {:induction false} SlippingRun(p: Plan, w: World, resume: map<Id, Result>, d: Id, t: Id, g: Id)
    returns (acts: seq<Action>, y: Sys)
    requires ValidPlan(p) && resume.Keys <= p.deps.Keys && p.strategy != Abort && LoneBreak(w, d)
    requires Dependent(p, resume.Keys, d, t) && LiveDep(p, resume.Keys, g, d) && SparesRest(p, resume.Keys, d, t, g)
    ensures Runs(p, w, InitialSys(p, resume), acts, y) && Marked(y.core, t) && t in y.core.running
    ensures IsSettled(y.core.results, d) && y.core.results[d].result.status == Failed
  {
    var prior, x := resume.Keys, InitialSys(p, resume);
    var h := LastToHold(p, prior, d, t, g);
    StartState(p, resume);
    hide ValidPlan, Inv, LoneBreak, Runs, Calm, DepsFirst, InitialSys, Degrees, Exhausted;
    var a1, y1 := RunOut(p, w, x, {h});
    HoldingRun(p, w, prior, x, a1, y1, d, h);
    HeldState(p, w, prior, y1, d, h);
    var a2, z := FinishHeld(p, w, y1, h);
    RunKeeps(p, w, y1, a2, z);
    InvParts(p, z);
    assert w.outcome(h, y1.inputs[h]).status != Failed by { OutcomesAreFine(w, d, h, y1.inputs[h]); }
    HeldSettles(p, prior, y1.core, z.core, d, t, h, w.outcome(h, y1.inputs[h]));
    var a3;
    a3, y := LaunchBoth(p, w, z, d, t);
    RunsCompose(p, w, x, a1, y1, a2, z);
    RunsCompose(p, w, x, a1 + a2, z, a3, y);
    acts := a1 + a2 + a3;
  }

  lemma HeldSettles(p: Plan, prior: set<Id>, c: Core, c1: Core, d: Id, t: Id, h: Id, r: Result)
    requires ValidPlan(p) && Degrees(p, c1) && DepsFirst(p, prior, c.results) && Dependent(p, prior, d, t)
    requires forall u :: u in p.deps && !IsSettled(c.results, u) ==> u == h || Reaches(Live(p.deps, prior), h, u)
    requires LiveDep(p, prior, h, d) && SparesRest(p, prior, d, t, h)
    requires forall f :: LiveDep(p, prior, f, d) ==> !Reaches(Live(p.deps, prior), h, f)
    requires c1 == Finished(p, c, h, r) && r.status != Failed && d !in c.results && !c.aborted
    ensures !c1.aborted && c1.skipped == c.skipped && c1.cascaded == c.cascaded && d != t && t !in c1.results
    ensures Ready(c1, d) && t in c1.inDegree && c1.inDegree[t] == Occ(p.deps[t], d)
  {
    hide Finished, ValidPlan, DepsFirst, Reaches, Degrees, IsSettled, LiveDep, SparesRest, Dependent;
    SuccessChanges(p, c, h, r);
    Distinct(p, prior, d, t, h);
    NotHandled(p, prior, c.results, d, t);
    PriorIsSettled(p, prior, c.results);
    RestIsSettled(p, prior, c.results, c1.results, d, t, h);
    HeldFrees(p, prior, c1, d, t);
  }

  /** All that d and t wait for but for each other is above or beside h, or is h. */
  lemma RestIsSettled(p: Plan, prior: set<Id>, before: map<Id, Entry>, after: map<Id, Entry>, d: Id, t: Id, h: Id)
    requires ValidPlan(p) && Dependent(p, prior, d, t)
    requires forall u :: u in p.deps && !IsSettled(before, u) ==> u == h || Reaches(Live(p.deps, prior), h, u)
    requires forall u :: u in prior && u in p.deps ==> IsSettled(before, u)
    requires IsSettled(after, h) && forall u :: IsSettled(before, u) ==> IsSettled(after, u)
    requires SparesRest(p, prior, d, t, h) && forall f :: LiveDep(p, prior, f, d) ==> !Reaches(Live(p.deps, prior), h, f)
    ensures forall f :: f in p.deps[d] ==> IsSettled(after, f)
    ensures forall e :: e in p.deps[t] && e != d ==> IsSettled(after, e)
  {
    hide ValidPlan, Reaches, IsSettled;
    forall f | f in p.deps[d] ensures IsSettled(after, f) {
      DeclaredDep(p, f, d);
      assert f in prior || LiveDep(p, prior, f, d);
    }
    forall e | e in p.deps[t] && e != d ensures IsSettled(after, e) {
      DeclaredDep(p, e, t);
      assert e in prior || LiveDep(p, prior, e, t);
    }
  }

  lemma DeclaredDep(p: Plan, f: Id, d: Id)
    requires ValidPlan(p) && d in p.deps && f in p.deps[d]
    ensures f in p.deps
  {
  }

  lemma Distinct(p: Plan, prior: set<Id>, d: Id, t: Id, h: Id)
    requires ValidPlan(p) && Dependent(p, prior, d, t) && LiveDep(p, prior, h, d)
    ensures d != t && h != d && h != t
  {
    DependencyRanksLower(p.deps, p.order, d, t);
    DependencyRanksLower(p.deps, p.order, h, d);
  }

  /** t waits for d. */
  lemma NotHandled(p: Plan, prior: set<Id>, results: map<Id, Entry>, d: Id, t: Id)
    requires DepsFirst(p, prior, results) && Dependent(p, prior, d, t) && d !in results
    ensures t !in results
  {
    assert !DepsSettled(p, results, t);
  }

  lemma OutcomesAreFine(w: World, d: Id, s: Id, m: map<Id, Result>)
    requires LoneBreak(w, d)
    ensures w.outcome(s, m).status != Failed
  {
  }

  lemma SuccessChanges(p: Plan, c: Core, h: Id, r: Result)
    requires r.status != Failed
    ensures var c1 := Finished(p, c, h, r);
            && c1.results == c.results[h := Settled(r)] && c1.aborted == c.aborted
            && c1.skipped == c.skipped && c1.cascaded == c.cascaded
            && IsSettled(c1.results, h) && forall u :: IsSettled(c.results, u) ==> IsSettled(c1.results, u)
  {
  }

  /** The run reaches y, and has started t. */
  ghost predicate Starts(p: Plan, w: World, resume: map<Id, Result>, acts: seq<Action>, y: Sys, t: Id) {
    Runs(p, w, InitialSys(p, resume), acts, y) && t in y.phase
  }

  /** The exact shape: when d alone has a condition, it is broken and nothing else fails, some run starts its
      direct dependent t although it is marked iff t slips; else no run ever starts t. */
  lemma StartedIffSlips(p: Plan, w: World, resume: map<Id, Result>, d: Id, t: Id)
    requires ValidPlan(p) && resume.Keys <= p.deps.Keys && p.strategy != Abort
    requires LoneBreak(w, d) && Dependent(p, resume.Keys, d, t)
    ensures (exists acts, y :: Starts(p, w, resume, acts, y, t)) <==> Slips(p, resume.Keys, d, t)
  {
    hide ValidPlan, LoneBreak, Dependent, Slips, Runs, InitialSys;
    if Slips(p, resume.Keys, d, t) {
      var acts, y := RunThatStarts(p, w, resume, d, t);
      InitialHolds(p, resume);
      RunKeeps(p, w, InitialSys(p, resume), acts, y);
      RunningHasPhase(p, y, t);
      assert Starts(p, w, resume, acts, y, t);
    } else {
      forall acts, y | Runs(p, w, InitialSys(p, resume), acts, y) ensures !Starts(p, w, resume, acts, y, t) {
        NoRunStarts(p, w, resume, acts, y, d, t);
      }
    }
  }

  lemma RunningHasPhase(p: Plan, y: Sys, t: Id)
    requires Inv(p, y) && t in y.core.running
    ensures t in y.phase
  {
  }

  lemma NoRunStarts(p: Plan, w: World, resume: map<Id, Result>, acts: seq<Action>, y: Sys, d: Id, t: Id)
    requires ValidPlan(p) && resume.Keys <= p.deps.Keys && p.strategy != Abort
    requires LoneBreak(w, d) && Dependent(p, resume.Keys, d, t) && !Slips(p, resume.Keys, d, t)
    requires Runs(p, w, InitialSys(p, resume), acts, y)
    ensures t !in y.phase
  {
    hide ValidPlan, LoneBreak, Dependent, Slips, Runs, InitialSys;
    InitialHolds(p, resume);
    StructureStarts(p, resume);
    StartsPending(p, resume, d, t);
    NeverStartsRun(p, w, resume.Keys, InitialSys(p, resume), acts, y, d, t);
  }

  lemma RunThatStarts(p: Plan, w: World, resume: map<Id, Result>, d: Id, t: Id) returns (acts: seq<Action>, y: Sys)
    requires ValidPlan(p) && resume.Keys <= p.deps.Keys && p.strategy != Abort
    requires LoneBreak(w, d) && Dependent(p, resume.Keys, d, t) && Slips(p, resume.Keys, d, t)
    ensures Runs(p, w, InitialSys(p, resume), acts, y) && Marked(y.core, t) && t in y.core.running
    ensures IsSettled(y.core.results, d) && y.core.results[d].result.status == Failed
  {
    var prior := resume.Keys;
    if g :| LiveDep(p, prior, g, d) && SparesRest(p, prior, d, t, g) {
      acts, y := SlippingRun(p, w, resume, d, t, g);
    } else {
      ReachDirect(p.deps, d, t);
      DependencyRanksLower(p.deps, p.order, d, t);
      forall e | e in p.deps[d] ensures e in prior { assert !LiveDep(p, prior, e, d); }
      forall e | e in p.deps[t] ensures e in prior || e == d { assert LiveDep(p, prior, e, t) || e in prior; }
      acts, y := Conditions.BrokenConditionDoesNotCascade(p, w, resume, d, t);
    }
  }
}
