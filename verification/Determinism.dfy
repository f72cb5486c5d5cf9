/** Every schedule of an uncancelled run computes the sequential evaluator, provided the resumed results are
    safe to start from and the conditions are tame: they read dependency results only, are not broken, and
    skip no step that a blocked step depends on. */
module Determinism {
  import opened Graph
  import opened Schedule
  import opened RunCore
  import opened RunSystem
  import opened RunTheorems
  import opened Evaluator

  ghost predicate ConditionFree(w: World) {
    forall s, m :: w.verdict(s, m) == Proceed
  }

  predicate SameOn(ids: seq<Id>, m: map<Id, Result>, n: map<Id, Result>) {
    forall d :: d in ids ==> (d in m <==> d in n) && (d in m && d in n ==> m[d] == n[d])
  }

  /** A condition reads nothing but the results of the step's own dependencies. */
  ghost predicate ReadsDependencies(p: Plan, w: World) {
    forall s, m, n :: s in p.deps && SameOn(p.deps[s], m, n) ==> w.verdict(s, m) == w.verdict(s, n)
  }

  /** s gets as far as its condition. */
  ghost predicate Asked(p: Plan, w: World, prior: map<Id, Result>, s: Id)
    requires ValidPlan(p)
  {
    s in p.deps && s !in prior && !Blocked(p, w, prior, s)
  }

  /** No condition that is asked is broken, and none skips a step that a blocked one depends on. */
  ghost predicate ConditionsHold(p: Plan, w: World, prior: map<Id, Result>)
    requires ValidPlan(p)
  {
    && (forall s :: Asked(p, w, prior, s) ==> EvalVerdict(p, w, prior, s) != Broken)
    && (forall s, u :: Asked(p, w, prior, s) && u in p.deps && u !in prior && s in p.deps[u] && Blocked(p, w, prior, u) ==>
          EvalVerdict(p, w, prior, s) == Proceed)
  }

  ghost predicate Tame(p: Plan, w: World, prior: map<Id, Result>)
    requires ValidPlan(p)
  {
    ReadsDependencies(p, w) && ConditionsHold(p, w, prior)
  }

  /** Without conditions there is nothing to ask, and without failures nothing is blocked. */
  lemma ConditionFreeIsTame(p: Plan, w: World, prior: map<Id, Result>)
    requires ValidPlan(p) && ConditionFree(w)
    ensures Tame(p, w, prior)
  {
    hide Blocked, EvalDeps;
  }

  lemma {:induction false} NothingBlocked(p: Plan, w: World, prior: map<Id, Result>, s: Id)
    requires ValidPlan(p) && s in p.deps && forall u, m :: w.outcome(u, m).status != Failed
    ensures !Blocked(p, w, prior, s)
    decreases Rank(p.order, s)
  {
    hide Blocked, EvalInputs, EvalVerdict;
    BlockedBy(p, w, prior, s);
    if d :| d in p.deps[s] && Blocks(p, w, prior, d) {
      DependencyRanksLower(p.deps, p.order, d, s);
      NothingBlocked(p, w, prior, d);
    }
  }

  /** Steps that do not fail and conditions that read dependency results and are not broken are tame. */
  lemma FailureFreeIsTame(p: Plan, w: World, prior: map<Id, Result>)
    requires ValidPlan(p) && ReadsDependencies(p, w)
    requires forall s, m :: w.outcome(s, m).status != Failed && w.verdict(s, m) != Broken
    ensures Tame(p, w, prior)
  {
    hide Blocked, EvalDeps;
    forall u | u in p.deps ensures !Blocked(p, w, prior, u) { NothingBlocked(p, w, prior, u); }
  }

  /** t starts no later than d does: all it waits for is above d. */
  ghost predicate WaitsOnlyAbove(p: Plan, prior: set<Id>, d: Id, t: Id)
    requires t in p.deps
  {
    forall e :: e in p.deps[t] && e !in prior ==> Reaches(Live(p.deps, prior), e, d)
  }

  /** A dependency that runs through resumed steps only is harmless when the dependent also
      depends on it directly through live steps, or is launched before it can fail. */
  ghost predicate ResumeSafe(p: Plan, prior: set<Id>) {
    forall d, t :: d in p.deps && t in p.deps && d !in prior && t !in prior && Reaches(p.deps, d, t) ==>
      Reaches(Live(p.deps, prior), d, t) || WaitsOnlyAbove(p, prior, d, t)
  }

  /** Resuming steps whose dependencies are all resumed too is always safe; in particular a
      fresh run is. */
  lemma ClosedResumeIsSafe(p: Plan, prior: set<Id>)
    requires forall s, d :: s in prior && s in p.deps && d in p.deps[s] ==> d in prior
    ensures ResumeSafe(p, prior)
  {
    forall d, t | d in p.deps && t in p.deps && d !in prior && t !in prior && Reaches(p.deps, d, t)
      ensures Reaches(Live(p.deps, prior), d, t)
    {
      var q :| Connects(p.deps, q, d, t);
      LivePath(p, prior, q, d, t);
    }
  }

  lemma {:induction false} LivePath(p: Plan, prior: set<Id>, q: seq<Id>, d: Id, t: Id)
    requires forall s, e :: s in prior && s in p.deps && e in p.deps[s] ==> e in prior
    requires d !in prior && t !in prior && Connects(p.deps, q, d, t)
    ensures Reaches(Live(p.deps, prior), d, t)
    decreases |q|
  {
    var l := Live(p.deps, prior);
    var c := q[|q| - 2];
    assert Edge(p.deps, q, |q| - 2);
    if |q| == 2 {
      ReachDirect(l, d, t);
    } else {
      ChainPrefix(p.deps, q);
      if c in prior { PriorIsClosed(p, prior, q[..|q| - 1], d, c); }
      LivePath(p, prior, q[..|q| - 1], d, c);
      ReachExtend(l, d, c, t);
    }
  }

  lemma {:induction false} PriorIsClosed(p: Plan, prior: set<Id>, q: seq<Id>, d: Id, c: Id)
    requires forall s, e :: s in prior && s in p.deps && e in p.deps[s] ==> e in prior
    requires Connects(p.deps, q, d, c) && c in prior
    ensures d in prior
    decreases |q|
  {
    assert Edge(p.deps, q, |q| - 2);
    if |q| > 2 {
      ChainPrefix(p.deps, q);
      PriorIsClosed(p, prior, q[..|q| - 1], d, q[|q| - 2]);
    }
  }

  // ------------------------------------------- structure kept in every run

  ghost predicate DepsSettled(p: Plan, results: map<Id, Entry>, s: Id)
    requires s in p.deps
  {
    forall d :: d in p.deps[s] ==> IsSettled(results, d)
  }

  /** A step is handled only after all its dependencies, unless it was resumed. */
  ghost predicate DepsFirst(p: Plan, prior: set<Id>, results: map<Id, Entry>) {
    && (forall s :: s in prior && s in p.deps ==> IsSettled(results, s))
    && forall s :: s in results && s in p.deps && s !in prior ==> DepsSettled(p, results, s)
  }

  /** Once a dispatch is over, whatever a running step does not delay has been launched. */
  ghost predicate Launched(p: Plan, prior: set<Id>, x: Sys) {
    MutexFree(x) && !x.core.aborted ==>
      forall d, t :: d in x.core.running && t in p.deps && WaitsOnlyAbove(p, prior, d, t) ==> t in x.core.results
  }

  ghost predicate Structure(p: Plan, prior: set<Id>, x: Sys) {
    DepsFirst(p, prior, x.core.results) && Launched(p, prior, x)
  }

  lemma DepsSettledStays(p: Plan, a: map<Id, Entry>, b: map<Id, Entry>, s: Id)
    requires s in p.deps && DepsSettled(p, a, s) && Grows(a, b)
    ensures DepsSettled(p, b, s)
  {}

  /** Everything live above a handled step is settled. */
  lemma {:induction false} AboveIsSettled(p: Plan, prior: set<Id>, results: map<Id, Entry>, e: Id, s: Id)
    requires ValidPlan(p) && DepsFirst(p, prior, results)
    requires s in results && s in p.deps && s !in prior && Reaches(Live(p.deps, prior), e, s)
    ensures IsSettled(results, e)
    decreases Rank(p.order, s)
  {
    var l := Live(p.deps, prior);
    var b := ReachLast(l, e, s);
    assert b in p.deps[s] && b !in prior;
    assert DepsSettled(p, results, s);
    if b != e {
      DependencyRanksLower(p.deps, p.order, b, s);
      AboveIsSettled(p, prior, results, e, b);
    }
  }

  lemma DepsFirstStep(p: Plan, w: World, prior: set<Id>, x: Sys, a: Action)
    requires ValidPlan(p) && Inv(p, x) && DepsFirst(p, prior, x.core.results) && Enabled(p, w, x, a)
    ensures DepsFirst(p, prior, Apply(p, w, x, a).core.results)
  {
    hide Inv, DepsSettled, ValidPlan;
    StepKeeps(p, w, x, a);
    var old_, new_ := x.core.results, Apply(p, w, x, a).core.results;
    forall s | s in new_ && s in p.deps && s !in prior ensures DepsSettled(p, new_, s) {
      if s !in old_ {
        NewlyHandled(p, w, x, a, s);
      }
      DepsSettledStays(p, old_, new_, s);
    }
  }

  lemma NewlyHandled(p: Plan, w: World, x: Sys, a: Action, s: Id)
    requires ValidPlan(p) && Inv(p, x) && Enabled(p, w, x, a)
    requires s in p.deps && s !in x.core.results && s in Apply(p, w, x, a).core.results
    ensures Ready(x.core, s) && DepsSettled(p, x.core.results, s)
  {
    HandledWasReady(p, w, x, a, s);
    ReadyHasDeps(p, x.core, s);
  }

  lemma HandledWasReady(p: Plan, w: World, x: Sys, a: Action, s: Id)
    requires PhaseInv(x) && Enabled(p, w, x, a) && RunningIsInFlight(x.core)
    requires s !in x.core.results && s in Apply(p, w, x, a).core.results
    ensures Ready(x.core, s)
  {
    hide Descendants, DirectDependents, Decrement, AllSettled, NothingReady, NoMarkedReady, FinalResults, DepResults;
  }

  lemma LaunchedStep(p: Plan, w: World, prior: set<Id>, x: Sys, a: Action)
    requires ValidPlan(p) && Inv(p, x) && Structure(p, prior, x) && Enabled(p, w, x, a)
    ensures Launched(p, prior, Apply(p, w, x, a))
  {
    var y := Apply(p, w, x, a);
    hide ValidPlan, Inv;
    StepKeeps(p, w, x, a);
    if MutexFree(y) && !y.core.aborted {
      hide WaitsOnlyAbove;
      forall d, t | d in y.core.running && t in p.deps && WaitsOnlyAbove(p, prior, d, t)
        ensures t in y.core.results
      {
        if a.EndDispatch? {
          LaunchedAtEnd(p, prior, x, d, t);
        } else {
          OldRunning(p, w, x, a, d);
        }
      }
    }
  }

  lemma OldRunning(p: Plan, w: World, x: Sys, a: Action, d: Id)
    requires Enabled(p, w, x, a) && !a.EndDispatch?
    requires MutexFree(Apply(p, w, x, a)) && !Apply(p, w, x, a).core.aborted
    requires d in Apply(p, w, x, a).core.running
    ensures MutexFree(x) && !x.core.aborted && d in x.core.running
  {
    hide AllSettled, NothingReady, NoMarkedReady, FinalResults, Ready;
  }

  lemma LaunchedAtEnd(p: Plan, prior: set<Id>, x: Sys, d: Id, t: Id)
    requires ValidPlan(p) && Inv(p, x) && DepsFirst(p, prior, x.core.results) && !x.core.aborted
    requires NothingReady(p, x.core) && d in x.core.running && t in p.deps && WaitsOnlyAbove(p, prior, d, t)
    ensures t in x.core.results
  {
    forall e | e in p.deps[t] ensures IsSettled(x.core.results, e) {
      if e !in prior {
        assert d in x.core.results && d in p.deps;
        assert d !in prior;
        AboveIsSettled(p, prior, x.core.results, e, d);
      }
    }
    SettledDepsMeansZero(p, x.core, t);
    assert !Ready(x.core, t);
  }

  lemma StructureStarts(p: Plan, resume: map<Id, Result>)
    requires ValidPlan(p) && resume.Keys <= p.deps.Keys
    ensures Structure(p, resume.Keys, InitialSys(p, resume))
  {
  }

  // ------------------------------------------------------------ the semantics

  ghost predicate Agrees(p: Plan, w: World, prior: map<Id, Result>, results: map<Id, Entry>)
    requires ValidPlan(p)
  {
    forall s :: s in p.deps && IsSettled(results, s) ==> results[s].result == Eval(p, w, prior, s)
  }

  /** Only unblocked steps whose condition holds are ever in flight. */
  ghost predicate FlightIsFree(p: Plan, w: World, prior: map<Id, Result>, c: Core)
    requires ValidPlan(p)
  {
    forall s :: s in c.running && s in p.deps ==>
      s !in prior && !Blocked(p, w, prior, s) && EvalVerdict(p, w, prior, s) == Proceed
  }

  /** A failed step has marked its dependents. */
  ghost predicate FailuresMark(p: Plan, w: World, prior: map<Id, Result>, c: Core)
    requires ValidPlan(p)
  {
    forall s :: s in p.deps && IsSettled(c.results, s) && s !in prior && Eval(p, w, prior, s).status == Failed ==>
      Covered(p.deps, s, c.skipped + c.cascaded)
  }

  /** A mark on a step that is still to be handled means that the step is blocked. */
  ghost predicate MarksMean(p: Plan, w: World, prior: map<Id, Result>, c: Core)
    requires ValidPlan(p)
  {
    forall u :: u in p.deps && Marked(c, u) && u !in c.results ==> Blocked(p, w, prior, u)
  }

  ghost predicate BlockedAreMarked(p: Plan, w: World, prior: map<Id, Result>, c: Core)
    requires ValidPlan(p)
  {
    forall s :: s in p.deps && IsSettled(c.results, s) && s !in prior && Blocked(p, w, prior, s) ==> Marked(c, s)
  }

  ghost predicate CoreMeans(p: Plan, w: World, prior: map<Id, Result>, c: Core)
    requires ValidPlan(p)
  {
    && Agrees(p, w, prior, c.results) && FlightIsFree(p, w, prior, c)
    && FailuresMark(p, w, prior, c) && MarksMean(p, w, prior, c) && BlockedAreMarked(p, w, prior, c)
  }

  ghost predicate MainMeans(p: Plan, w: World, prior: map<Id, Result>, x: Sys)
    requires ValidPlan(p)
  {
    match x.main
    case Launching => NoMarkedReady(p, x.core)
    case AbortDrain => false
    case Snapshot(_) => AllSettled(p, x.core.results)
    case Returned(final, total) =>
      forall s :: s in p.deps ==> s in final && final[s] == Settled(Eval(p, w, prior, s))
    case _ => true
  }

  /** Until an abort, the state is a partial evaluation. */
  ghost predicate Means(p: Plan, w: World, prior: map<Id, Result>, x: Sys)
    requires ValidPlan(p)
  {
    !x.core.aborted ==> CoreMeans(p, w, prior, x.core) && MainMeans(p, w, prior, x)
  }

  /** A settled blocker has marked its direct dependents. */
  lemma BlockerMarks(p: Plan, w: World, prior: map<Id, Result>, c: Core, d: Id, s: Id)
    requires ValidPlan(p) && MarksClosed(p, c) && FailuresMark(p, w, prior, c) && BlockedAreMarked(p, w, prior, c)
    requires s in p.deps && d in p.deps[s] && IsSettled(c.results, d) && Blocks(p, w, prior, d)
    ensures Marked(c, s)
  {
    hide Eval, Blocked;
    if Blocked(p, w, prior, d) {
      assert Marked(c, d);
    } else {
      assert Covered(p.deps, d, c.skipped + c.cascaded);
    }
  }

  /** A ready, unmarked step is not blocked. */
  lemma UnmarkedIsFree(p: Plan, w: World, prior: map<Id, Result>, c: Core, s: Id)
    requires ValidPlan(p) && CoreInv(p, c) && CoreMeans(p, w, prior, c)
    requires s in p.deps && Ready(c, s) && !Marked(c, s)
    ensures !Blocked(p, w, prior, s)
  {
    ReadyHasDeps(p, c, s);
    hide Eval, Blocked, Degrees, TokensAddUp, RunningIsInFlight, Blocks, Agrees, FlightIsFree, MarksMean;
    hide FailuresMark, BlockedAreMarked, MarksClosed, ValidPlan;
    BlockedBy(p, w, prior, s);
    if Blocked(p, w, prior, s) {
      var d :| d in p.deps[s] && Blocks(p, w, prior, d);
      BlockerMarks(p, w, prior, c, d, s);
    }
  }

  /** The inputs captured from settled results are the evaluator's inputs. */
  lemma InputsAgreeWithEval(p: Plan, w: World, prior: map<Id, Result>, results: map<Id, Entry>, s: Id)
    requires ValidPlan(p) && s in p.deps && Agrees(p, w, prior, results) && DepsSettled(p, results, s)
    ensures DepResults(p, results, s) == EvalInputs(p, w, prior, s)
  {
    hide Eval, Blocked;
  }

  /** And so is what the condition reads. */
  lemma VerdictAgreesWithEval(p: Plan, w: World, prior: map<Id, Result>, results: map<Id, Entry>, s: Id)
    requires ValidPlan(p) && s in p.deps && Agrees(p, w, prior, results) && DepsSettled(p, results, s)
    requires ReadsDependencies(p, w)
    ensures w.verdict(s, SettledResults(results)) == EvalVerdict(p, w, prior, s)
  {
    hide Eval, Blocked;
    assert SameOn(p.deps[s], SettledResults(results), EvalDeps(p, w, prior, s));
  }

  /** A failure among the live steps above u blocks it. */
  lemma FailureBlocks(p: Plan, w: World, prior: map<Id, Result>, s: Id, u: Id)
    requires ValidPlan(p) && s in p.deps && u in p.deps && u !in prior
    requires Eval(p, w, prior, s).status == Failed && Reaches(Live(p.deps, prior.Keys), s, u)
    ensures Blocked(p, w, prior, u)
  {
    BlockedIffFailureAbove(p, w, prior, u);
  }

  lemma MeansPropagate(p: Plan, w: World, prior: map<Id, Result>, x: Sys, s: Id)
    requires ValidPlan(p) && Inv(p, x) && Means(p, w, prior, x) && DepsFirst(p, prior.Keys, x.core.results)
    requires Enabled(p, w, x, Propagate(s))
    ensures Means(p, w, prior, Apply(p, w, x, Propagate(s)))
  {
    if !x.core.aborted {
      var c, c1 := x.core, Propagated(p, x.core, s);
      PropagatedMarks(p, c, s);
      assert s in p.deps;
      MarkedIsBlocked(p, w, prior, c, s);
      hide CoreMeans, Blocked, Eval, Inv, DepsFirst, ValidPlan, Marked, Ready;
      BlockedSettles(p, w, prior, c, c1, s);
    }
  }

  lemma MarkedIsBlocked(p: Plan, w: World, prior: map<Id, Result>, c: Core, s: Id)
    requires ValidPlan(p) && MarksClosed(p, c) && MarksMean(p, w, prior, c) && DepsFirst(p, prior.Keys, c.results)
    requires s in p.deps && Marked(c, s) && s !in c.results
    ensures s !in prior && Blocked(p, w, prior, s)
    ensures Eval(p, w, prior, s) == Blank(if s in c.cascaded then Cancelled else Skipped)
  {
    hide Blocked;
  }

  lemma BlockedSettles(p: Plan, w: World, prior: map<Id, Result>, c: Core, c1: Core, s: Id)
    requires ValidPlan(p) && CoreMeans(p, w, prior, c) && s in p.deps && s !in prior && s !in c.results
    requires Blocked(p, w, prior, s) && Marked(c, s) && Eval(p, w, prior, s).status != Failed
    requires c1.results == c.results[s := Settled(Eval(p, w, prior, s))]
    requires c1.skipped == c.skipped && c1.cascaded == c.cascaded && c1.running == c.running
    ensures CoreMeans(p, w, prior, c1)
  {
    hide Eval, Blocked, Covered, ValidPlan;
    assert Agrees(p, w, prior, c1.results);
    assert FlightIsFree(p, w, prior, c1);
    assert FailuresMark(p, w, prior, c1);
    assert MarksMean(p, w, prior, c1);
  }

  /** A step that is launched gets as far as its condition, which says what the evaluator says. */
  lemma LaunchAsks(p: Plan, w: World, prior: map<Id, Result>, x: Sys, s: Id)
    requires ValidPlan(p) && Inv(p, x) && Means(p, w, prior, x) && DepsFirst(p, prior.Keys, x.core.results)
    requires ReadsDependencies(p, w) && !x.core.aborted && x.main.Launching? && Ready(x.core, s)
    ensures Asked(p, w, prior, s) && VerdictOn(w, x, s) == EvalVerdict(p, w, prior, s)
  {
    InvParts(p, x);
    assert s in p.deps;
    ReadyHasDeps(p, x.core, s);
    hide Blocked, EvalDeps, Inv, ValidPlan, Eval, ReadsDependencies;
    assert CoreMeans(p, w, prior, x.core) && NoMarkedReady(p, x.core);
    UnmarkedIsFree(p, w, prior, x.core, s);
    VerdictAgreesWithEval(p, w, prior, x.core.results, s);
  }

  lemma InvParts(p: Plan, x: Sys)
    requires Inv(p, x)
    ensures CoreInv(p, x.core) && Degrees(p, x.core) && x.core.inDegree.Keys == p.deps.Keys
  {
  }

  lemma LaunchingParts(p: Plan, w: World, prior: map<Id, Result>, x: Sys)
    requires ValidPlan(p) && Means(p, w, prior, x) && !x.core.aborted && x.main.Launching?
    ensures CoreMeans(p, w, prior, x.core) && MarksMean(p, w, prior, x.core) && NoMarkedReady(p, x.core)
  {
  }

  lemma StartReadies(p: Plan, c: Core, s: Id)
    requires NoMarkedReady(p, c)
    ensures NoMarkedReady(p, Started(c, s))
  {
  }

  lemma MeansStart(p: Plan, w: World, prior: map<Id, Result>, x: Sys, s: Id)
    requires ValidPlan(p) && Inv(p, x) && Means(p, w, prior, x) && DepsFirst(p, prior.Keys, x.core.results)
    requires ReadsDependencies(p, w) && Enabled(p, w, x, Start(s))
    ensures Means(p, w, prior, Apply(p, w, x, Start(s)))
  {
    hide Eval, Blocked, EvalVerdict, Inv, CoreMeans, ValidPlan, ReadsDependencies, NoMarkedReady;
    if !x.core.aborted {
      LaunchAsks(p, w, prior, x, s);
      LaunchingParts(p, w, prior, x);
      hide Means, DepsFirst;
      StartMeans(p, w, prior, x.core, s);
      StartReadies(p, x.core, s);
      SettledMain(p, w, prior, x, Apply(p, w, x, Start(s)));
    }
  }

  /** A condition that says no skips the step, as the evaluator does, and readies no blocked step. */
  lemma MeansSkip(p: Plan, w: World, prior: map<Id, Result>, x: Sys, s: Id)
    requires ValidPlan(p) && Inv(p, x) && Means(p, w, prior, x) && DepsFirst(p, prior.Keys, x.core.results)
    requires Tame(p, w, prior) && Enabled(p, w, x, SkipOnCondition(s))
    ensures Means(p, w, prior, Apply(p, w, x, SkipOnCondition(s)))
  {
    hide Blocked, EvalVerdict, Inv, ValidPlan, ReadsDependencies, ConditionsHold, CoreMeans, MarksMean, NoMarkedReady,
         ConditionSkipped, Eval;
    if !x.core.aborted {
      LaunchAsks(p, w, prior, x, s);
      InvParts(p, x);
      LaunchingParts(p, w, prior, x);
      hide Means, Tame, DepsFirst;
      SkipMeans(p, w, prior, x.core, s);
      SkipReadies(p, w, prior, x.core, s);
      SettledMain(p, w, prior, x, Apply(p, w, x, SkipOnCondition(s)));
    } else {
      SkipAborts(p, x.core, s);
    }
  }

  lemma SkipAborts(p: Plan, c: Core, s: Id)
    ensures ConditionSkipped(p, c, s).aborted == c.aborted
  {
  }

  lemma SettledMain(p: Plan, w: World, prior: map<Id, Result>, x: Sys, y: Sys)
    requires ValidPlan(p) && x.main.Launching? && y.main == x.main
    requires CoreMeans(p, w, prior, y.core) && NoMarkedReady(p, y.core)
    ensures Means(p, w, prior, y)
  {
    hide ValidPlan, CoreMeans, NoMarkedReady;
  }

  /** A condition that is asked is not broken. */
  lemma NeverBroken(p: Plan, w: World, prior: map<Id, Result>, x: Sys, s: Id)
    requires ValidPlan(p) && Inv(p, x) && Means(p, w, prior, x) && DepsFirst(p, prior.Keys, x.core.results)
    requires Tame(p, w, prior) && !x.core.aborted
    ensures !Enabled(p, w, x, FailOnCondition(s))
  {
    if Enabled(p, w, x, FailOnCondition(s)) {
      hide Blocked, EvalVerdict, Inv, ValidPlan, ReadsDependencies, Means, DepsFirst;
      LaunchAsks(p, w, prior, x, s);
    }
  }

  lemma MeansFail(p: Plan, w: World, prior: map<Id, Result>, x: Sys, s: Id)
    requires ValidPlan(p) && Inv(p, x) && Means(p, w, prior, x) && DepsFirst(p, prior.Keys, x.core.results)
    requires Tame(p, w, prior) && Enabled(p, w, x, FailOnCondition(s))
    ensures Means(p, w, prior, Apply(p, w, x, FailOnCondition(s)))
  {
    hide Blocked, Inv, ValidPlan, Tame, DepsFirst, CoreMeans, MainMeans, Enabled;
    if !x.core.aborted { NeverBroken(p, w, prior, x, s); }
  }

  lemma SkipMeans(p: Plan, w: World, prior: map<Id, Result>, c: Core, s: Id)
    requires ValidPlan(p) && CoreMeans(p, w, prior, c) && Asked(p, w, prior, s) && s !in c.results
    requires EvalVerdict(p, w, prior, s) != Proceed
    ensures CoreMeans(p, w, prior, ConditionSkipped(p, c, s))
  {
    assert Eval(p, w, prior, s) == Blank(Skipped);
    hide Eval, Blocked, Covered, ValidPlan, Decrement, EvalVerdict;
    var c1 := ConditionSkipped(p, c, s);
    assert Agrees(p, w, prior, c1.results);
    assert FlightIsFree(p, w, prior, c1);
    assert FailuresMark(p, w, prior, c1);
    assert MarksMean(p, w, prior, c1);
  }

  lemma SkipReadies(p: Plan, w: World, prior: map<Id, Result>, c: Core, s: Id)
    requires ValidPlan(p) && MarksMean(p, w, prior, c) && NoMarkedReady(p, c) && Asked(p, w, prior, s)
    requires c.inDegree.Keys == p.deps.Keys && (forall u :: u in prior && u in p.deps ==> u in c.results)
    requires ConditionsHold(p, w, prior) && EvalVerdict(p, w, prior, s) != Proceed
    ensures NoMarkedReady(p, ConditionSkipped(p, c, s))
  {
    hide Blocked, ValidPlan, EvalVerdict;
    var c1 := ConditionSkipped(p, c, s);
    forall u | u in p.deps && Marked(c1, u) ensures !Ready(c1, u) {
      if u !in c1.results {
        assert Marked(c, u) && Blocked(p, w, prior, u);
        OccAbsent(p.deps[u], s);
      }
    }
  }

  lemma {:induction false} OccAbsent(xs: seq<Id>, d: Id)
    ensures d !in xs ==> Occ(xs, d) == 0
  {
    if xs != [] { OccAbsent(xs[1..], d); }
  }

  lemma StartMeans(p: Plan, w: World, prior: map<Id, Result>, c: Core, s: Id)
    requires ValidPlan(p) && CoreMeans(p, w, prior, c) && s in p.deps && s !in prior && s !in c.results
    requires !Blocked(p, w, prior, s) && EvalVerdict(p, w, prior, s) == Proceed
    ensures CoreMeans(p, w, prior, Started(c, s))
  {
    hide Eval, Blocked, Covered, ValidPlan, EvalVerdict;
    var c1 := Started(c, s);
    assert forall t :: IsSettled(c1.results, t) <==> IsSettled(c.results, t);
    assert Agrees(p, w, prior, c1.results);
    assert FlightIsFree(p, w, prior, c1);
    assert FailuresMark(p, w, prior, c1);
  }

  lemma MeansFinish(p: Plan, w: World, prior: map<Id, Result>, x: Sys, s: Id, r: Result)
    requires ValidPlan(p) && Inv(p, x) && Means(p, w, prior, x) && Structure(p, prior.Keys, x)
    requires ResumeSafe(p, prior.Keys) && Enabled(p, w, x, Finish(s, r))
    ensures Means(p, w, prior, Apply(p, w, x, Finish(s, r)))
  {
    hide Inv, ValidPlan, Structure, ResumeSafe, CoreMeans, MainMeans, Eval, Apply, Enabled;
    var y := Apply(p, w, x, Finish(s, r));
    if !y.core.aborted {
      WorkingParts(p, w, x, s, r);
      FinishEvals(p, w, prior, x, s, r);
      FinishMeans(p, w, prior, x, s, y.core);
      FinishMain(p, w, prior, x, s, r);
    }
  }

  lemma WorkingParts(p: Plan, w: World, x: Sys, s: Id, r: Result)
    requires Inv(p, x) && Enabled(p, w, x, Finish(s, r)) && !Apply(p, w, x, Finish(s, r)).core.aborted
    ensures !x.core.aborted && s in x.core.running && s in p.deps && InputOk(p, x.core.results, x.inputs, s)
    ensures MutexFree(x) && Apply(p, w, x, Finish(s, r)).core == Finished(p, x.core, s, r)
  {
    hide Finished;
    FinishAborts(p, x.core, s, r);
  }

  lemma FinishAborts(p: Plan, c: Core, s: Id, r: Result)
    ensures c.aborted ==> Finished(p, c, s, r).aborted
    ensures Finished(p, c, s, r).results == c.results[s := Settled(r)]
  {
    hide Descendants, Decrement;
  }

  lemma FinishMain(p: Plan, w: World, prior: map<Id, Result>, x: Sys, s: Id, r: Result)
    requires ValidPlan(p) && MainMeans(p, w, prior, x) && Enabled(p, w, x, Finish(s, r))
    ensures MainMeans(p, w, prior, Apply(p, w, x, Finish(s, r)))
  {
    hide ValidPlan, Eval, Finished;
    FinishAborts(p, x.core, s, r);
  }

  /** The result that a finishing step brings is the evaluator's. */
  lemma FinishEvals(p: Plan, w: World, prior: map<Id, Result>, x: Sys, s: Id, r: Result)
    requires ValidPlan(p) && CoreMeans(p, w, prior, x.core) && !x.core.aborted && s in x.core.running
    requires InputOk(p, x.core.results, x.inputs, s) && Enabled(p, w, x, Finish(s, r))
    ensures r == Eval(p, w, prior, s)
  {
    hide Blocked, EvalVerdict, EvalInputs, ValidPlan;
    InputsAgreeWithEval(p, w, prior, x.core.results, s);
  }

  lemma FinishMeans(p: Plan, w: World, prior: map<Id, Result>, x: Sys, s: Id, c1: Core)
    requires ValidPlan(p) && CoreMeans(p, w, prior, x.core) && Structure(p, prior.Keys, x)
    requires ResumeSafe(p, prior.Keys) && MutexFree(x) && !x.core.aborted
    requires s in x.core.running && s in p.deps
    requires c1 == Finished(p, x.core, s, Eval(p, w, prior, s)) && !c1.aborted
    ensures CoreMeans(p, w, prior, c1)
  {
    var c := x.core;
    hide Eval, Blocked, EvalVerdict, Descendants, Reaches, DepsFirst, Decrement;
    assert s !in prior && !Blocked(p, w, prior, s);
    assert c1.results == c.results[s := Settled(Eval(p, w, prior, s))];
    assert Agrees(p, w, prior, c1.results);
    assert FlightIsFree(p, w, prior, c1);
    if Eval(p, w, prior, s).status == Failed {
      NewMarks(p, w, prior, x, s, c1);
    }
  }

  lemma NewMarks(p: Plan, w: World, prior: map<Id, Result>, x: Sys, s: Id, c1: Core)
    requires ValidPlan(p) && CoreMeans(p, w, prior, x.core) && Structure(p, prior.Keys, x)
    requires ResumeSafe(p, prior.Keys) && MutexFree(x) && !x.core.aborted
    requires s in x.core.running && s in p.deps && Eval(p, w, prior, s).status == Failed
    requires c1 == Finished(p, x.core, s, Eval(p, w, prior, s)) && !c1.aborted
    ensures FailuresMark(p, w, prior, c1) && MarksMean(p, w, prior, c1) && BlockedAreMarked(p, w, prior, c1)
  {
    var c := x.core;
    assert s !in prior && !Blocked(p, w, prior, s);
    hide Eval, Blocked, ValidPlan, Structure, ResumeSafe, Reaches, Decrement, Agrees, FlightIsFree;
    hide Finished;
    FinishedMarks(p, c, s, Eval(p, w, prior, s));
    NewFailureMarks(p, w, prior, c, s, c1);
    forall u | u in p.deps && Marked(c1, u) && u !in c1.results ensures Blocked(p, w, prior, u) {
      if !Marked(c, u) {
        MarkedBelow(p, w, prior, x, s, u);
      }
    }
  }

  lemma FinishedMarks(p: Plan, c: Core, s: Id, r: Result)
    requires r.status == Failed && !Finished(p, c, s, r).aborted
    ensures var c1 := Finished(p, c, s, r);
            && c1.skipped + c1.cascaded == c.skipped + c.cascaded + Descendants(p.deps, s)
            && c1.results == c.results[s := Settled(r)]
  {
    hide Descendants, Decrement;
  }

  lemma NewFailureMarks(p: Plan, w: World, prior: map<Id, Result>, c: Core, s: Id, c1: Core)
    requires ValidPlan(p) && FailuresMark(p, w, prior, c) && s in p.deps
    requires c1.results == c.results[s := Settled(Eval(p, w, prior, s))]
    requires c1.skipped + c1.cascaded == c.skipped + c.cascaded + Descendants(p.deps, s)
    ensures FailuresMark(p, w, prior, c1)
  {
    hide Eval, ValidPlan, Reaches;
    forall u | u in p.deps && s in p.deps[u] ensures u in Descendants(p.deps, s) {
      ReachDirect(p.deps, s, u);
    }
  }

  lemma MarkedBelow(p: Plan, w: World, prior: map<Id, Result>, x: Sys, s: Id, u: Id)
    requires ValidPlan(p) && Structure(p, prior.Keys, x) && ResumeSafe(p, prior.Keys)
    requires MutexFree(x) && !x.core.aborted && s in x.core.running && s in p.deps && s !in prior
    requires Eval(p, w, prior, s).status == Failed
    requires u in p.deps && Reaches(p.deps, s, u) && u !in x.core.results
    ensures Blocked(p, w, prior, u)
  {
    assert u !in prior;
    assert !WaitsOnlyAbove(p, prior.Keys, s, u);
    FailureBlocks(p, w, prior, s, u);
  }

  /** a settles and starts nothing. */
  predicate Elsewhere(a: Action) {
    !a.Propagate? && !a.SkipOnCondition? && !a.FailOnCondition? && !a.Start? && !a.Finish?
  }

  lemma MeansOther(p: Plan, w: World, prior: map<Id, Result>, x: Sys, a: Action)
    requires ValidPlan(p) && Inv(p, x) && Means(p, w, prior, x)
    requires Enabled(p, w, x, a) && Elsewhere(a) && !a.TakeSnapshot?
    ensures Means(p, w, prior, Apply(p, w, x, a))
  {
    hide Inv, ValidPlan, CoreMeans, MainMeans, Enabled, Apply;
    OtherCore(p, w, x, a);
    if !x.core.aborted { OtherMain(p, w, prior, x, a); }
  }

  lemma OtherCore(p: Plan, w: World, x: Sys, a: Action)
    requires Enabled(p, w, x, a) && Elsewhere(a)
    ensures Apply(p, w, x, a).core.aborted || (Apply(p, w, x, a).core == x.core && !a.CancelContext?)
  {
  }

  lemma OtherMain(p: Plan, w: World, prior: map<Id, Result>, x: Sys, a: Action)
    requires ValidPlan(p) && Inv(p, x) && MainMeans(p, w, prior, x) && !x.core.aborted
    requires Enabled(p, w, x, a) && Elsewhere(a) && !a.TakeSnapshot?
    ensures Apply(p, w, x, a).core.aborted || MainMeans(p, w, prior, Apply(p, w, x, a))
  {
    hide Inv, ValidPlan, Eval, AllSettled, NothingReady;
    OtherCore(p, w, x, a);
    DrainedIsSettled(p, x);
  }

  lemma DrainedIsSettled(p: Plan, x: Sys)
    requires Inv(p, x)
    ensures x.main.SuccessDrain? ==> AllSettled(p, x.core.results)
  {
  }

  lemma MeansSnapshot(p: Plan, w: World, prior: map<Id, Result>, x: Sys)
    requires ValidPlan(p) && Inv(p, x) && Means(p, w, prior, x) && Enabled(p, w, x, TakeSnapshot)
    ensures Means(p, w, prior, Apply(p, w, x, TakeSnapshot))
  {
    hide Eval, Blocked, FinalResults, Inv, CoreInv, ValidPlan, FlightIsFree, FailuresMark, MarksMean, BlockedAreMarked;
    SnapshotFaithful(p, w, x);
  }

  lemma MeansStep(p: Plan, w: World, prior: map<Id, Result>, x: Sys, a: Action)
    requires ValidPlan(p) && Inv(p, x) && Means(p, w, prior, x) && Structure(p, prior.Keys, x)
    requires ResumeSafe(p, prior.Keys) && Tame(p, w, prior) && Enabled(p, w, x, a)
    ensures Means(p, w, prior, Apply(p, w, x, a))
  {
    hide Inv, Means, ValidPlan, ResumeSafe, DepsFirst, Launched, ConditionsHold, ReadsDependencies, Enabled, Apply;
    match a
    case Propagate(s) => MeansPropagate(p, w, prior, x, s);
    case Start(s) => MeansStart(p, w, prior, x, s);
    case SkipOnCondition(s) => MeansSkip(p, w, prior, x, s);
    case FailOnCondition(s) => MeansFail(p, w, prior, x, s);
    case Finish(s, r) => MeansFinish(p, w, prior, x, s, r);
    case TakeSnapshot => MeansSnapshot(p, w, prior, x);
    case _ => MeansOther(p, w, prior, x, a);
  }

  lemma {:induction false} RunMeans(p: Plan, w: World, prior: map<Id, Result>, x: Sys, acts: seq<Action>, y: Sys)
    requires ValidPlan(p) && Inv(p, x) && Means(p, w, prior, x) && Structure(p, prior.Keys, x)
    requires ResumeSafe(p, prior.Keys) && Tame(p, w, prior) && Runs(p, w, x, acts, y)
    ensures Means(p, w, prior, y)
    decreases |acts|
  {
    if acts != [] {
      hide Inv, Means, DepsFirst, Launched, ResumeSafe, ValidPlan, Tame;
      StepKeeps(p, w, x, acts[0]);
      MeansStep(p, w, prior, x, acts[0]);
      DepsFirstStep(p, w, prior.Keys, x, acts[0]);
      LaunchedStep(p, w, prior.Keys, x, acts[0]);
      RunMeans(p, w, prior, Apply(p, w, x, acts[0]), acts[1..], y);
    }
  }

  lemma MeansStarts(p: Plan, w: World, resume: map<Id, Result>)
    requires ValidPlan(p) && resume.Keys <= p.deps.Keys
    ensures Means(p, w, resume, InitialSys(p, resume))
  {
    hide Blocked;
  }

  /** Schedule independence: whatever the interleaving, the launch order and the number of slots,
      an uncancelled run that has returned reports the sequential evaluator's results. */
  lemma ScheduleIndependence(p: Plan, w: World, resume: map<Id, Result>, acts: seq<Action>, y: Sys)
    requires ValidPlan(p) && resume.Keys <= p.deps.Keys
    requires Tame(p, w, resume) && ResumeSafe(p, resume.Keys)
    requires Runs(p, w, InitialSys(p, resume), acts, y) && y.main.Returned? && !y.core.aborted
    ensures y.main.final.Keys == p.deps.Keys
    ensures forall s :: s in p.deps ==> y.main.final[s] == Settled(Eval(p, w, resume, s))
    ensures y.main.total == SumTokens(p.ids, y.main.final)
  {
    hide Tame, ResumeSafe, ValidPlan, Runs, CoreMeans;
    var x := InitialSys(p, resume);
    InitialHolds(p, resume);
    MeansStarts(p, w, resume);
    StructureStarts(p, resume);
    RunMeans(p, w, resume, x, acts, y);
    RunKeeps(p, w, x, acts, y);
  }

  /** Two uncancelled runs of the same workflow, under any schedules, launch orders and slot
      counts, return the same results. */
  lemma SameAnswer(p: Plan, q: Plan, w: World, resume: map<Id, Result>,
                   acts: seq<Action>, y: Sys, bcts: seq<Action>, z: Sys)
    requires ValidPlan(p) && ValidPlan(q) && SameQuestion(p, q) && resume.Keys <= p.deps.Keys
    requires Tame(p, w, resume) && ResumeSafe(p, resume.Keys)
    requires Runs(p, w, InitialSys(p, resume), acts, y) && y.main.Returned? && !y.core.aborted
    requires Runs(q, w, InitialSys(q, resume), bcts, z) && z.main.Returned? && !z.core.aborted
    ensures y.main.final == z.main.final
  {
    hide ValidPlan, ResumeSafe, Runs, Tame, Eval;
    ScheduleIndependence(p, w, resume, acts, y);
    SafetyIsIntrinsic(p, q, resume.Keys);
    TameIsIntrinsic(p, q, w, resume);
    ScheduleIndependence(q, w, resume, bcts, z);
    forall s | s in p.deps ensures y.main.final[s] == z.main.final[s] {
      EvalIsIntrinsic(p, q, w, resume, s);
    }
  }

  lemma TameIsIntrinsic(p: Plan, q: Plan, w: World, prior: map<Id, Result>)
    requires ValidPlan(p) && ValidPlan(q) && SameQuestion(p, q) && Tame(p, w, prior)
    ensures Tame(q, w, prior)
  {
    hide ValidPlan, Blocked, EvalVerdict;
    forall s | s in p.deps
      ensures Asked(p, w, prior, s) <==> Asked(q, w, prior, s)
      ensures Blocked(p, w, prior, s) == Blocked(q, w, prior, s)
      ensures EvalVerdict(p, w, prior, s) == EvalVerdict(q, w, prior, s)
    {
      EvalIsIntrinsic(p, q, w, prior, s);
    }
  }

  lemma SafetyIsIntrinsic(p: Plan, q: Plan, prior: set<Id>)
    requires p.deps == q.deps && ResumeSafe(p, prior)
    ensures ResumeSafe(q, prior)
  {
    forall d, t | d in q.deps && t in q.deps && d !in prior && t !in prior && Reaches(q.deps, d, t)
      ensures Reaches(Live(q.deps, prior), d, t) || WaitsOnlyAbove(q, prior, d, t)
    {
      if !Reaches(Live(p.deps, prior), d, t) { assert WaitsOnlyAbove(p, prior, d, t); }
    }
  }
}
