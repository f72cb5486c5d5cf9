/** Whole runs of the executor: safety, progress and termination. */
module RunTheorems {
  import opened Graph
  import opened Schedule
  import opened RunCore
  import opened RunSystem

  /** acts leads from x to y. */
  ghost predicate Runs(p: Plan, w: World, x: Sys, acts: seq<Action>, y: Sys)
    decreases |acts|
  {
    if acts == [] then x == y
    else Enabled(p, w, x, acts[0]) && Runs(p, w, Apply(p, w, x, acts[0]), acts[1..], y)
  }

  lemma {:induction false} RunsCompose(p: Plan, w: World, x: Sys, a: seq<Action>, y: Sys, b: seq<Action>, z: Sys)
    requires Runs(p, w, x, a, y) && Runs(p, w, y, b, z)
    ensures Runs(p, w, x, a + b, z)
    decreases |a|
  {
    if a == [] {
      assert a + b == b;
    } else {
      hide Enabled;
      RunsCompose(p, w, Apply(p, w, x, a[0]), a[1..], y, b, z);
      assert (a + b)[0] == a[0] && (a + b)[1..] == a[1..] + b;
    }
  }

  lemma RunsExtend(p: Plan, w: World, x: Sys, acts: seq<Action>, y: Sys, a: Action)
    requires Runs(p, w, x, acts, y) && Enabled(p, w, y, a)
    ensures Runs(p, w, x, acts + [a], Apply(p, w, y, a))
  {
    hide Enabled, Apply;
    assert [a][0] == a && [a][1..] == [];
    RunsCompose(p, w, x, acts, y, [a], Apply(p, w, y, a));
  }

  /** Everything a run can reach keeps the invariant, never drops an entry and never
      changes a settled result. */
  lemma {:induction false} RunKeeps(p: Plan, w: World, x: Sys, acts: seq<Action>, y: Sys)
    requires ValidPlan(p) && Inv(p, x) && Runs(p, w, x, acts, y)
    ensures Keeps(p, x, y)
    decreases |acts|
  {
    if acts != [] {
      StepKeeps(p, w, x, acts[0]);
      RunKeeps(p, w, Apply(p, w, x, acts[0]), acts[1..], y);
    }
  }

  /** All dependencies of s are settled, and s was handed exactly their results, or, if it has none, what the
      run was given. */
  ghost predicate HandedOver(p: Plan, y: Sys, s: Id) {
    && s in p.deps && s in y.inputs
    && (forall d :: d in p.deps[s] ==>
          IsSettled(y.core.results, d) && d in y.inputs[s] && y.inputs[s][d] == y.core.results[d].result)
    && (if p.deps[s] == [] then y.inputs[s] == p.parent else forall d :: d in y.inputs[s] ==> d in p.deps[s])
  }

  lemma InputsHandedOver(p: Plan, y: Sys, s: Id)
    requires Inv(p, y) && s in y.phase
    ensures HandedOver(p, y, s)
  {
    assert InputOk(p, y.core.results, y.inputs, s);
  }

  /** A step starts only when all its dependencies have settled, and then with exactly their
      results; the number of steps executing never exceeds the slots. */
  lemma StartsAfterDependencies(p: Plan, w: World, resume: map<Id, Result>, acts: seq<Action>, y: Sys)
    requires ValidPlan(p) && resume.Keys <= p.deps.Keys
    requires Runs(p, w, InitialSys(p, resume), acts, y)
    ensures forall s :: s in y.phase ==> HandedOver(p, y, s)
    ensures y.core.inDegree.Keys == p.deps.Keys
    ensures forall s :: s in p.deps ==> y.core.inDegree[s] >= Outside(p.deps[s], SettledIds(y.core.results))
    ensures forall s :: s in p.deps && !y.core.aborted ==>
              y.core.inDegree[s] == Outside(p.deps[s], SettledIds(y.core.results))
    ensures |y.holders| <= p.slots && forall s :: InPhase(y, s, Working) ==> s in y.holders
  {
    InitialHolds(p, resume);
    RunKeeps(p, w, InitialSys(p, resume), acts, y);
    forall s | s in y.phase ensures HandedOver(p, y, s) { InputsHandedOver(p, y, s); }
  }

  lemma {:induction false} NoRestart(p: Plan, w: World, x: Sys, acts: seq<Action>, y: Sys, s: Id)
    requires ValidPlan(p) && Inv(p, x) && Runs(p, w, x, acts, y) && s in x.core.results
    ensures Start(s) !in acts
    decreases |acts|
  {
    hide Inv;
    if acts != [] {
      StepKeeps(p, w, x, acts[0]);
      NoRestart(p, w, Apply(p, w, x, acts[0]), acts[1..], y, s);
      assert acts == [acts[0]] + acts[1..];
    }
  }

  lemma StartHandles(p: Plan, w: World, x: Sys, s: Id)
    requires ValidPlan(p) && Inv(p, x) && Enabled(p, w, x, Start(s))
    ensures s in Apply(p, w, x, Start(s)).core.results
  {
    hide GoInv, InputInv, WakeInv, MainInv, MarksClosed, TokensAddUp;
  }

  /** No run starts a step twice, and none starts a resumed step. */
  lemma {:induction false} StartsAtMostOnce(p: Plan, w: World, x: Sys, acts: seq<Action>, y: Sys, s: Id)
    requires ValidPlan(p) && Inv(p, x) && Runs(p, w, x, acts, y)
    ensures forall i, j :: 0 <= i < j < |acts| && acts[i] == Start(s) ==> acts[j] != Start(s)
    decreases |acts|
  {
    if acts != [] {
      hide Inv, Apply, Enabled;
      StepKeeps(p, w, x, acts[0]);
      var x1 := Apply(p, w, x, acts[0]);
      StartsAtMostOnce(p, w, x1, acts[1..], y, s);
      if acts[0] == Start(s) {
        StartHandles(p, w, x, s);
        NoRestart(p, w, x1, acts[1..], y, s);
      }
      OnceLater(acts, s);
    }
  }

  lemma OnceLater(acts: seq<Action>, s: Id)
    requires acts != [] && (acts[0] == Start(s) ==> Start(s) !in acts[1..])
    requires forall i, j :: 0 <= i < j < |acts| - 1 && acts[1..][i] == Start(s) ==> acts[1..][j] != Start(s)
    ensures forall i, j :: 0 <= i < j < |acts| && acts[i] == Start(s) ==> acts[j] != Start(s)
  {
    forall i, j | 0 <= i < j < |acts| && acts[i] == Start(s) ensures acts[j] != Start(s) {
      assert acts[j] == acts[1..][j - 1];
      if i > 0 { assert acts[i] == acts[1..][i - 1]; }
    }
  }

  /** Once Run has returned, every step has a result, the total counts exactly the reported
      results, and orphaned goroutines cannot change the answer. */
  lemma {:induction false} TotalStableOutcome(p: Plan, w: World, x: Sys, acts: seq<Action>, y: Sys)
    requires ValidPlan(p) && Inv(p, x) && Runs(p, w, x, acts, y) && x.main.Returned?
    ensures y.main == x.main
    ensures x.main.final.Keys == p.deps.Keys && AllSettled(p, x.main.final)
    ensures x.main.total == SumTokens(p.ids, x.main.final)
    decreases |acts|
  {
    if acts != [] {
      StepKeeps(p, w, x, acts[0]);
      TotalStableOutcome(p, w, Apply(p, w, x, acts[0]), acts[1..], y);
    }
  }

  /** The snapshot reports every settled result as it is. */
  lemma SnapshotFaithful(p: Plan, w: World, x: Sys)
    requires ValidPlan(p) && Inv(p, x) && Enabled(p, w, x, TakeSnapshot)
    ensures var y := Apply(p, w, x, TakeSnapshot);
            && y.main.Returned?
            && (forall s :: IsSettled(x.core.results, s) ==> s in y.main.final && y.main.final[s] == x.core.results[s])
            && (forall s :: s in p.deps && !IsSettled(x.core.results, s) ==>
                  s in y.main.final && y.main.final[s] == Settled(Blank(Cancelled)))
  {
    FinalIsTotal(p, x.core, x.main.timedOut);
  }

  // ------------------------------------------------------------------- progress

  /** A goroutine that is not gone, with the mutex free, means some goroutine can move. */
  lemma GoroutineMoves(p: Plan, w: World, x: Sys, s: Id) returns (a: Action)
    requires ValidPlan(p) && GoInv(p, x) && InputInv(p, x) && MutexFree(x)
    requires s in x.phase && x.phase[s] != Gone
    ensures Enabled(p, w, x, a)
    ensures (a == Acquire(s) && x.phase[s] == WaitingSlot) || a.Finish? || a.Signal? || a.Exit?
  {
    if x.phase[s] == WaitingSlot && |x.holders| < p.slots {
      a := Acquire(s);
    } else {
      var h := s;
      if x.phase[s] == WaitingSlot {
        h :| h in x.holders;
      }
      assert InputOk(p, x.core.results, x.inputs, h);
      a := match x.phase[h]
           case Working => Finish(h, w.outcome(h, x.inputs[h]))
           case Signalling => Signal(h)
           case _ => Exit(h);
    }
  }

  /** An unsettled step of least rank has all dependencies settled. */
  lemma {:induction false} FirstUnsettled(p: Plan, results: map<Id, Entry>, s: Id) returns (u: Id)
    requires ValidPlan(p) && s in p.deps && !IsSettled(results, s)
    ensures u in p.deps && !IsSettled(results, u)
    ensures forall d :: d in p.deps[u] ==> IsSettled(results, d)
    decreases Rank(p.order, s)
  {
    if d :| d in p.deps[s] && !IsSettled(results, d) {
      DependencyRanksLower(p.deps, p.order, d, s);
      u := FirstUnsettled(p, results, d);
    } else {
      u := s;
    }
  }

  lemma SettledDepsMeansZero(p: Plan, c: Core, u: Id)
    requires Degrees(p, c) && !c.aborted && u in p.deps
    requires forall d :: d in p.deps[u] ==> IsSettled(c.results, d)
    ensures c.inDegree[u] == 0
  {
    OutsideZero(p.deps[u], SettledIds(c.results));
  }

  /** Deadlock freedom of the main loop: while it waits with steps remaining and no abort,
      a step is in flight or a completion signal is pending. */
  lemma NeverStuckWaiting(p: Plan, x: Sys)
    requires ValidPlan(p) && Inv(p, x)
    requires x.main.Receiving? && !x.core.aborted && !AllSettled(p, x.core.results)
    ensures (exists t :: SignalPending(x, t)) || x.core.running != {}
  {
    if !exists t :: SignalPending(x, t) {
      assert NothingReady(p, x.core);
      var s :| s in p.deps && !IsSettled(x.core.results, s);
      var u := FirstUnsettled(p, x.core.results, s);
      SettledDepsMeansZero(p, x.core, u);
      assert !Ready(x.core, u);
      assert u in x.core.running;
    }
  }

  /** Until Run returns, some action other than an outside cancellation is enabled. */
  lemma Progress(p: Plan, w: World, x: Sys) returns (a: Action)
    requires ValidPlan(p) && Inv(p, x) && !x.main.Returned?
    ensures Enabled(p, w, x, a) && a != CancelContext
    ensures a.Acquire? ==> InPhase(x, a.s, WaitingSlot) && (x.main.Receiving? || x.main.AbortDrain? || x.main.SuccessDrain?)
  {
    match x.main
    case Entering => a := BeginDispatch;
    case Propagating =>
      if s :| s in p.deps && Marked(x.core, s) && Ready(x.core, s) { a := Propagate(s); }
      else { a := EndPropagation; }
    case Launching => a := LaunchMove(p, w, x);
    case Receiving =>
      if x.done != [] { a := Receive; }
      else if x.core.aborted { a := SeeAbort; }
      else { a := WaitingMove(p, w, x); }
    case AbortDrain => a := DrainMove(p, w, x);
    case SuccessDrain => a := DrainMove(p, w, x);
    case Snapshot(_) => a := TakeSnapshot;
  }

  lemma LaunchMove(p: Plan, w: World, x: Sys) returns (a: Action)
    requires x.main.Launching?
    ensures Enabled(p, w, x, a) && a != CancelContext && !a.Acquire?
  {
    if s :| s in p.deps && Ready(x.core, s) {
      a := match VerdictOn(w, x, s)
           case Proceed => Start(s)
           case Broken => FailOnCondition(s)
           case _ => SkipOnCondition(s);
    } else {
      a := EndDispatch;
    }
  }

  lemma WaitingMove(p: Plan, w: World, x: Sys) returns (a: Action)
    requires ValidPlan(p) && Inv(p, x) && x.main.Receiving? && x.done == [] && !x.core.aborted
    ensures Enabled(p, w, x, a) && a != CancelContext && (a.Acquire? ==> InPhase(x, a.s, WaitingSlot))
  {
    if t :| SignalPending(x, t) {
      a := GoroutineMoves(p, w, x, t);
    } else {
      NeverStuckWaiting(p, x);
      var s :| s in x.core.running;
      assert InPhase(x, s, WaitingSlot) || InPhase(x, s, Working);
      a := GoroutineMoves(p, w, x, s);
    }
  }

  lemma DrainMove(p: Plan, w: World, x: Sys) returns (a: Action)
    requires ValidPlan(p) && GoInv(p, x) && InputInv(p, x) && (x.main.AbortDrain? || x.main.SuccessDrain?)
    ensures Enabled(p, w, x, a) && a != CancelContext && (a.Acquire? ==> InPhase(x, a.s, WaitingSlot))
  {
    if AllGone(x) {
      a := Drained(false);
    } else {
      var s :| s in x.phase && x.phase[s] != Gone;
      a := GoroutineMoves(p, w, x, s);
    }
  }

  // ---------------------------------------------------------------- termination

  function StepWeight(x: Sys, s: Id): nat {
    if s !in x.core.results then 9
    else if s !in x.phase then 0
    else match x.phase[s]
         case WaitingSlot => 8
         case Working => 7
         case Signalling => 6
         case Closing => 1
         case Gone => 0
  }

  function MainWeight(m: Main): nat {
    match m
    case Entering => 6
    case Propagating => 5
    case Launching => 4
    case Receiving => 3
    case AbortDrain => 2
    case SuccessDrain => 2
    case Snapshot(_) => 1
    case Returned(_, _) => 0
  }

  function StepWeights(x: Sys, ids: seq<Id>): nat {
    if ids == [] then 0 else StepWeight(x, ids[0]) + StepWeights(x, ids[1..])
  }

  function Measure(p: Plan, x: Sys): nat {
    StepWeights(x, p.ids) + 4 * |x.done| + MainWeight(x.main) + if x.ctxDone then 0 else 1
  }

  lemma {:induction false} WeightsSame(x: Sys, y: Sys, ids: seq<Id>)
    requires forall t :: t in ids ==> StepWeight(y, t) == StepWeight(x, t)
    ensures StepWeights(y, ids) == StepWeights(x, ids)
  {
    if ids != [] {
      assert ids == [ids[0]] + ids[1..];
      WeightsSame(x, y, ids[1..]);
    }
  }

  lemma {:induction false} WeightsDrop(x: Sys, y: Sys, ids: seq<Id>, s: Id)
    requires NoDuplicates(ids) && s in ids
    requires forall t :: t in ids && t != s ==> StepWeight(y, t) == StepWeight(x, t)
    ensures StepWeights(y, ids) == StepWeights(x, ids) - StepWeight(x, s) + StepWeight(y, s)
  {
    if ids[0] == s {
      WeightsSame(x, y, ids[1..]);
    } else {
      WeightsDrop(x, y, ids[1..], s);
    }
  }

  predicate ConcernsStep(a: Action) {
    a.Propagate? || a.SkipOnCondition? || a.FailOnCondition? || a.Start? || a.Acquire? ||
    a.CancelWaiting? || a.Finish? || a.Signal? || a.Exit?
  }

  /** An action about step s moves only s, and s gets lighter. */
  ghost predicate Lightens(x: Sys, y: Sys, s: Id, sent: nat) {
    && (forall t :: t != s ==> StepWeight(y, t) == StepWeight(x, t))
    && StepWeight(y, s) + 1 + 4 * sent <= StepWeight(x, s)
    && |y.done| <= |x.done| + sent
    && y.main == x.main && y.ctxDone == x.ctxDone
  }

  lemma DispatchLightens(p: Plan, w: World, x: Sys, a: Action)
    requires PhaseInv(x) && x.core.inDegree.Keys == p.deps.Keys && Enabled(p, w, x, a)
    requires a.Propagate? || a.SkipOnCondition? || a.FailOnCondition? || a.Start?
    ensures Lightens(x, Apply(p, w, x, a), a.s, 0)
  {
    assert a.s !in x.core.results;
    assert a.s !in x.phase;
  }

  lemma SettlingLightens(p: Plan, w: World, x: Sys, a: Action)
    requires PhaseInv(x) && Enabled(p, w, x, a)
    requires a.CancelWaiting? || a.Finish?
    ensures Lightens(x, Apply(p, w, x, a), a.s, 0)
  {
    assert a.s in x.core.results;
  }

  lemma GoroutineLightens(p: Plan, w: World, x: Sys, a: Action)
    requires PhaseInv(x) && Enabled(p, w, x, a)
    requires a.Acquire? || a.Signal? || a.Exit?
    ensures Lightens(x, Apply(p, w, x, a), a.s, if a.Signal? then 1 else 0)
  {
    assert a.s in x.core.results;
  }

  /** Every action strictly decreases the measure, so a run makes at most Measure(p, x) steps. */
  lemma MeasureDrops(p: Plan, w: World, x: Sys, a: Action)
    requires ValidPlan(p) && Inv(p, x) && Enabled(p, w, x, a)
    ensures Measure(p, Apply(p, w, x, a)) < Measure(p, x)
  {
    var y := Apply(p, w, x, a);
    if ConcernsStep(a) {
      if a.CancelWaiting? || a.Finish? { SettlingLightens(p, w, x, a); }
      else if a.Acquire? || a.Signal? || a.Exit? { GoroutineLightens(p, w, x, a); }
      else { DispatchLightens(p, w, x, a); }
      SubjectDeclared(p, w, x, a);
      WeightsDrop(x, y, p.ids, a.s);
    } else {
      MainMoves(p, w, x, a);
      WeightsSame(x, y, p.ids);
    }
  }

  lemma SubjectDeclared(p: Plan, w: World, x: Sys, a: Action)
    requires ValidPlan(p) && Inv(p, x) && Enabled(p, w, x, a) && ConcernsStep(a)
    ensures a.s in p.ids
  {
    if a.s in x.phase { assert InputOk(p, x.core.results, x.inputs, a.s); }
  }

  lemma MainMoves(p: Plan, w: World, x: Sys, a: Action)
    requires Enabled(p, w, x, a) && !ConcernsStep(a)
    ensures var y := Apply(p, w, x, a);
            && (forall t :: StepWeight(y, t) == StepWeight(x, t))
            && 4 * |y.done| + MainWeight(y.main) + (if y.ctxDone then 0 else 1)
               < 4 * |x.done| + MainWeight(x.main) + if x.ctxDone then 0 else 1
  {
    hide AllSettled, NothingReady, NoMarkedReady, FinalResults;
  }

  /** Every run is finite: its length is bounded by the measure of its start. */
  lemma {:induction false} RunsAreBounded(p: Plan, w: World, x: Sys, acts: seq<Action>, y: Sys)
    requires ValidPlan(p) && Inv(p, x) && Runs(p, w, x, acts, y)
    ensures |acts| + Measure(p, y) <= Measure(p, x)
    decreases |acts|
  {
    if acts != [] {
      MeasureDrops(p, w, x, acts[0]);
      StepKeeps(p, w, x, acts[0]);
      RunsAreBounded(p, w, Apply(p, w, x, acts[0]), acts[1..], y);
    }
  }

  lemma {:induction false} WeightsBound(x: Sys, ids: seq<Id>)
    ensures StepWeights(x, ids) <= 9 * |ids|
  {
    if ids != [] { WeightsBound(x, ids[1..]); }
  }

  /** A run of a workflow of n steps makes at most 9n + 7 steps, and one that can go no
      further without outside cancellation has returned. */
  lemma EveryRunReturns(p: Plan, w: World, resume: map<Id, Result>, acts: seq<Action>, y: Sys)
    requires ValidPlan(p) && resume.Keys <= p.deps.Keys
    requires Runs(p, w, InitialSys(p, resume), acts, y)
    ensures |acts| <= 9 * |p.ids| + 7
    ensures y.main.Returned? || exists a :: a != CancelContext && Enabled(p, w, y, a)
  {
    var x := InitialSys(p, resume);
    InitialHolds(p, resume);
    RunKeeps(p, w, x, acts, y);
    RunsAreBounded(p, w, x, acts, y);
    WeightsBound(x, p.ids);
    if !y.main.Returned? {
      var a := Progress(p, w, y);
    }
  }
}
