/** The converse of schedule independence: when the resumed results are not safe to start from,
    some workflow steps' outcomes make two uncancelled runs return different results. */
module Divergence {
  import opened Graph
  import opened Schedule
  import opened RunCore
  import opened RunSystem
  import opened RunTheorems
  import opened Evaluator
  import opened Determinism

  /** Everything succeeds except d. */
  ghost function OnlyFails(d: Id): World {
    World((s: Id, m: map<Id, Result>) => if s == d then Blank(Failed) else Blank(Completed),
          (s: Id, m: map<Id, Result>) => Proceed)
  }

  /** A schedule that never cancels and keeps the steps in held waiting for a slot. */
  ghost predicate Allowed(held: set<Id>, a: Action) {
    a != CancelContext && (a.Acquire? ==> a.s !in held)
  }

  ghost predicate AllowedRun(held: set<Id>, acts: seq<Action>) {
    forall i :: 0 <= i < |acts| ==> Allowed(held, acts[i])
  }

  ghost predicate Exhausted(p: Plan, w: World, held: set<Id>, y: Sys) {
    forall a :: Allowed(held, a) ==> !Enabled(p, w, y, a)
  }

  /** Run as long as some allowed action is enabled. */
  lemma {:induction false} RunOut(p: Plan, w: World, x: Sys, held: set<Id>) returns (acts: seq<Action>, y: Sys)
    requires ValidPlan(p) && Inv(p, x)
    ensures Runs(p, w, x, acts, y) && AllowedRun(held, acts) && Exhausted(p, w, held, y)
    decreases Measure(p, x)
  {
    hide Inv, ValidPlan, Enabled, Allowed, Measure;
    if a :| Allowed(held, a) && Enabled(p, w, x, a) {
      StepKeeps(p, w, x, a);
      MeasureDrops(p, w, x, a);
      var rest;
      rest, y := RunOut(p, w, Apply(p, w, x, a), held);
      acts := [a] + rest;
      assert acts[0] == a && acts[1..] == rest;
    } else {
      acts, y := [], x;
    }
  }

  // -------------------------------------------- what an exhausted state looks like

  lemma ExhaustedGoroutines(p: Plan, w: World, held: set<Id>, y: Sys, s: Id)
    requires ValidPlan(p) && Inv(p, y) && MutexFree(y) && Exhausted(p, w, held, y)
    requires s in y.phase && y.phase[s] != Gone
    ensures y.phase[s] == WaitingSlot && s in held
  {
    var a := GoroutineMoves(p, w, y, s);
    assert !Allowed(held, a);
    assert a == Acquire(s);
  }

  /** With no abort, an exhausted run waits only for the held steps and what is live below them. */
  lemma {:induction false} OnlyHeldRemains(p: Plan, w: World, prior: set<Id>, h: Id, y: Sys, u: Id)
    requires ValidPlan(p) && Inv(p, y) && DepsFirst(p, prior, y.core.results)
    requires y.main.Receiving? && !y.core.aborted && Exhausted(p, w, {h}, y)
    requires u in p.deps && !IsSettled(y.core.results, u)
    ensures u == h || Reaches(Live(p.deps, prior), h, u)
    decreases Rank(p.order, u)
  {
    assert u !in prior;
    hide ValidPlan, Inv, Reaches, Exhausted, Rank;
    if d :| d in p.deps[u] && !IsSettled(y.core.results, d) {
      assert d in p.deps && d !in prior;
      DependencyRanksLower(p.deps, p.order, d, u);
      OnlyHeldRemains(p, w, prior, h, y, d);
      var l := Live(p.deps, prior);
      if d == h { ReachDirect(l, h, u); } else { ReachExtend(l, h, d, u); }
    } else {
      OpenIsRunning(p, w, h, y, u);
      ExhaustedGoroutines(p, w, {h}, y, u);
    }
  }

  lemma OpenIsRunning(p: Plan, w: World, h: Id, y: Sys, u: Id)
    requires ValidPlan(p) && Inv(p, y) && y.main.Receiving? && !y.core.aborted && Exhausted(p, w, {h}, y)
    requires u in p.deps && !IsSettled(y.core.results, u) && forall d :: d in p.deps[u] ==> IsSettled(y.core.results, d)
    ensures u in y.core.running
  {
    SettledDepsMeansZero(p, y.core, u);
    NothingPending(p, w, h, y);
    hide Exhausted;
    assert !Ready(y.core, u);
  }

  lemma NothingPending(p: Plan, w: World, h: Id, y: Sys)
    requires ValidPlan(p) && Inv(p, y) && y.main.Receiving? && !y.core.aborted && Exhausted(p, w, {h}, y)
    ensures NothingReady(p, y.core)
  {
    assert Allowed({h}, Receive) && y.done == [];
    forall t ensures !SignalPending(y, t) {
      if t in y.phase && y.phase[t] != Gone { ExhaustedGoroutines(p, w, {h}, y, t); }
    }
  }

  // ------------------------------------------------------ invariants of the two runs

  /** What Run has reported is what the results map says. */
  ghost predicate Reported(p: Plan, x: Sys) {
    x.main.Returned? ==>
      forall s :: s in p.deps ==>
        s in x.main.final && IsSettled(x.core.results, s) && x.main.final[s] == x.core.results[s]
  }

  /** No abort has happened, and Run has left its loop only with everything settled. */
  ghost predicate Calm(p: Plan, x: Sys) {
    && !x.core.aborted && !x.main.AbortDrain?
    && (x.main.Launching? ==> NoMarkedReady(p, x.core))
    && (x.main.SuccessDrain? || x.main.Snapshot? ==> AllSettled(p, x.core.results))
    && Reported(p, x)
  }

  lemma ReportedStep(p: Plan, w: World, x: Sys, a: Action)
    requires ValidPlan(p) && Inv(p, x) && Reported(p, x)
    requires x.main.Snapshot? ==> AllSettled(p, x.core.results)
    requires Enabled(p, w, x, a)
    ensures Reported(p, Apply(p, w, x, a))
  {
    hide Inv, ValidPlan, FinalResults;
    StepKeeps(p, w, x, a);
    if a.TakeSnapshot? {
      SnapshotFaithful(p, w, x);
    } else {
      ReturnedOnlyBySnapshot(p, w, x, a);
    }
  }

  lemma ReturnedOnlyBySnapshot(p: Plan, w: World, x: Sys, a: Action)
    requires Enabled(p, w, x, a) && !a.TakeSnapshot?
    ensures Apply(p, w, x, a).main.Returned? ==> x.main.Returned? && Apply(p, w, x, a).main == x.main
  {
  }

  lemma CalmStep(p: Plan, w: World, x: Sys, a: Action, d: Id)
    requires ValidPlan(p) && Inv(p, x) && Calm(p, x) && p.strategy != Abort && w == OnlyFails(d)
    requires Enabled(p, w, x, a) && a != CancelContext
    ensures Calm(p, Apply(p, w, x, a))
  {
    hide ValidPlan, Inv, NoMarkedReady, Reported, AllSettled, Apply, Enabled;
    ReportedStep(p, w, x, a);
    StepKeeps(p, w, x, a);
    AllSettledStays(p, x.core.results, Apply(p, w, x, a).core.results);
    NoAbortStep(p, w, x, a);
    LaunchCleanStep(p, w, x, a, d);
    CalmMain(p, w, x, a);
  }

  /** The loop is left for good only when everything is settled, and never towards the abort drain. */
  lemma CalmMain(p: Plan, w: World, x: Sys, a: Action)
    requires Enabled(p, w, x, a) && !x.core.aborted && !x.main.AbortDrain?
    requires x.main.SuccessDrain? || x.main.Snapshot? ==> AllSettled(p, x.core.results)
    ensures var y := Apply(p, w, x, a);
            && !y.main.AbortDrain?
            && (y.main.SuccessDrain? || y.main.Snapshot? ==> AllSettled(p, x.core.results))
  {
    hide AllSettled, FinalResults, Propagated, Finished, Descendants, ConditionBroken, ConditionSkipped, DepResults,
         NothingReady, NoMarkedReady;
  }

  lemma NoAbortStep(p: Plan, w: World, x: Sys, a: Action)
    requires !x.core.aborted && p.strategy != Abort && a != CancelContext
    ensures !Apply(p, w, x, a).core.aborted
  {
    hide AllSettled, FinalResults, Descendants, DirectDependents;
  }

  lemma LaunchCleanStep(p: Plan, w: World, x: Sys, a: Action, d: Id)
    requires w == OnlyFails(d) && Enabled(p, w, x, a)
    requires x.main.Launching? ==> NoMarkedReady(p, x.core)
    ensures Apply(p, w, x, a).main.Launching? ==> NoMarkedReady(p, Apply(p, w, x, a).core)
  {
    hide AllSettled, FinalResults, Propagated, Finished, Descendants;
  }

  lemma AllSettledStays(p: Plan, a: map<Id, Entry>, b: map<Id, Entry>)
    requires Grows(a, b)
    ensures AllSettled(p, a) ==> AllSettled(p, b)
  {}

  /** Nothing has failed so far. */
  ghost predicate Untroubled(prior: set<Id>, c: Core) {
    && c.skipped == {} && c.cascaded == {}
    && forall s :: IsSettled(c.results, s) && s !in prior ==> c.results[s].result.status == Completed
  }

  /** h has not got a slot. */
  ghost predicate Idle(x: Sys, h: Id) {
    !IsSettled(x.core.results, h) && (h in x.core.results ==> InPhase(x, h, WaitingSlot))
  }

  lemma UntroubledStep(p: Plan, w: World, prior: set<Id>, x: Sys, a: Action, d: Id)
    requires Inv(p, x) && Calm(p, x) && Untroubled(prior, x.core) && w == OnlyFails(d)
    requires Enabled(p, w, x, a) && a != CancelContext && !(a.Finish? && a.s == d)
    ensures Untroubled(prior, Apply(p, w, x, a).core)
  {
    hide Inv, Calm, AllSettled, NothingReady, NoMarkedReady, FinalResults, Descendants, Decrement, DepResults;
    NotAborted(p, x);
  }

  lemma NotAborted(p: Plan, x: Sys)
    requires Calm(p, x)
    ensures !x.core.aborted
  {}

  lemma IdleStep(p: Plan, w: World, prior: set<Id>, x: Sys, a: Action, d: Id, h: Id)
    requires Inv(p, x) && Calm(p, x) && Untroubled(prior, x.core) && Idle(x, h) && w == OnlyFails(d)
    requires Enabled(p, w, x, a) && Allowed({h}, a)
    ensures Idle(Apply(p, w, x, a), h)
  {
    hide AllSettled, NothingReady, NoMarkedReady, FinalResults, Descendants, Decrement, CoreInv, SlotInv,
         QueueInv, InputInv, WakeInv, MainInv;
  }

  /** t is marked and has not run. */
  ghost predicate Doomed(x: Sys, t: Id) {
    && Marked(x.core, t)
    && (t in x.core.results ==> IsSettled(x.core.results, t) && x.core.results[t].result.status != Completed)
  }

  lemma DoomedStep(p: Plan, w: World, x: Sys, a: Action, d: Id, t: Id)
    requires Inv(p, x) && Calm(p, x) && Doomed(x, t) && w == OnlyFails(d) && t in p.deps
    requires Enabled(p, w, x, a) && a != CancelContext
    ensures Doomed(Apply(p, w, x, a), t)
  {
    hide AllSettled, NothingReady, FinalResults, Descendants, Decrement, SlotInv, QueueInv, InputInv, WakeInv,
         MainInv;
    hide Degrees, MarksClosed, TokensAddUp;
  }

  /** The failure of d dooms whatever lies below it and has not been launched. */
  lemma FailureDooms(p: Plan, w: World, prior: set<Id>, x: Sys, a: Action, d: Id, e: Id, t: Id)
    requires ValidPlan(p) && Inv(p, x) && Calm(p, x) && p.strategy != Abort && w == OnlyFails(d)
    requires DepsFirst(p, prior, x.core.results) && t in p.deps && t !in prior && e in p.deps[t]
    requires !IsSettled(x.core.results, e) && Reaches(p.deps, d, t) && e != d && t != d
    requires Enabled(p, w, x, a) && a.Finish? && a.s == d
    ensures Doomed(Apply(p, w, x, a), t) && IsSettled(Apply(p, w, x, a).core.results, d)
  {
    assert t !in x.core.results by {
      assert !DepsSettled(p, x.core.results, t);
    }
    assert t in Descendants(p.deps, d) && d in x.core.running;
    FinishMarks(p, w, x, a, d, t);
  }

  lemma FinishMarks(p: Plan, w: World, x: Sys, a: Action, d: Id, t: Id)
    requires p.strategy != Abort && w == OnlyFails(d) && !x.core.aborted && t !in x.core.results && t != d
    requires Enabled(p, w, x, a) && a.Finish? && a.s == d && t in Descendants(p.deps, d)
    ensures Doomed(Apply(p, w, x, a), t) && IsSettled(Apply(p, w, x, a).core.results, d)
  {
    hide Descendants, Decrement;
  }

  // ------------------------------------------------------------------- the two runs

  ghost predicate Ready1(p: Plan, prior: set<Id>, x: Sys) {
    Inv(p, x) && Calm(p, x) && DepsFirst(p, prior, x.core.results)
  }

  /** While d waits for its slot, nothing goes wrong. */
  lemma {:induction false} HoldingFailure(p: Plan, w: World, prior: set<Id>, x: Sys, acts: seq<Action>, y: Sys, d: Id)
    requires ValidPlan(p) && p.strategy != Abort && w == OnlyFails(d)
    requires Ready1(p, prior, x) && Untroubled(prior, x.core) && Idle(x, d)
    requires Runs(p, w, x, acts, y) && AllowedRun({d}, acts)
    ensures Ready1(p, prior, y) && Untroubled(prior, y.core) && Idle(y, d)
    decreases |acts|
  {
    if acts != [] {
      var a, x1 := acts[0], Apply(p, w, x, acts[0]);
      assert Allowed({d}, a);
      assert !(a.Finish? && a.s == d);
      hide Inv, Calm, DepsFirst, Untroubled, Idle, Apply, Enabled, ValidPlan, OnlyFails;
      StepKeeps(p, w, x, a);
      CalmStep(p, w, x, a, d);
      DepsFirstStep(p, w, prior, x, a);
      UntroubledStep(p, w, prior, x, a, d);
      IdleStep(p, w, prior, x, a, d, d);
      forall i | 0 <= i < |acts[1..]| ensures Allowed({d}, acts[1..][i]) { assert Allowed({d}, acts[i + 1]); }
      HoldingFailure(p, w, prior, x1, acts[1..], y, d);
    }
  }

  /** Before d finishes nothing is marked; after that t is doomed. */
  ghost predicate Race(p: Plan, prior: set<Id>, x: Sys, d: Id, e: Id, t: Id) {
    if IsSettled(x.core.results, d) then Doomed(x, t) else Untroubled(prior, x.core) && Idle(x, e)
  }

  lemma {:induction false} HoldingDependency(p: Plan, w: World, prior: set<Id>, x: Sys, acts: seq<Action>, y: Sys,
                                             d: Id, e: Id, t: Id)
    requires ValidPlan(p) && p.strategy != Abort && w == OnlyFails(d) && d !in prior
    requires t in p.deps && t !in prior && e in p.deps[t] && Reaches(p.deps, d, t) && e != d && t != d
    requires Ready1(p, prior, x) && Race(p, prior, x, d, e, t)
    requires Runs(p, w, x, acts, y)
    requires AllowedRun({e}, acts) || (IsSettled(x.core.results, d) && AllowedRun({}, acts))
    ensures Ready1(p, prior, y) && Race(p, prior, y, d, e, t)
    decreases |acts|
  {
    if acts != [] {
      var a, x1 := acts[0], Apply(p, w, x, acts[0]);
      assert a != CancelContext by { if AllowedRun({e}, acts) { assert Allowed({e}, a); } else { assert Allowed({}, a); } }
      RaceStep(p, w, prior, x, a, d, e, t) by { if AllowedRun({e}, acts) { assert Allowed({e}, a); } }
      hide Inv, Calm, DepsFirst, Race, Apply, Enabled, ValidPlan, OnlyFails, Reaches;
      StepKeeps(p, w, x, a);
      CalmStep(p, w, x, a, d);
      DepsFirstStep(p, w, prior, x, a);
      if AllowedRun({e}, acts) {
        forall i | 0 <= i < |acts[1..]| ensures Allowed({e}, acts[1..][i]) { assert Allowed({e}, acts[i + 1]); }
      } else {
        forall i | 0 <= i < |acts[1..]| ensures Allowed({}, acts[1..][i]) { assert Allowed({}, acts[i + 1]); }
      }
      HoldingDependency(p, w, prior, x1, acts[1..], y, d, e, t);
    }
  }

  lemma RaceStep(p: Plan, w: World, prior: set<Id>, x: Sys, a: Action, d: Id, e: Id, t: Id)
    requires ValidPlan(p) && p.strategy != Abort && w == OnlyFails(d) && d !in prior
    requires t in p.deps && t !in prior && e in p.deps[t] && Reaches(p.deps, d, t) && e != d && t != d
    requires Ready1(p, prior, x) && Race(p, prior, x, d, e, t)
    requires Enabled(p, w, x, a) && a != CancelContext
    requires IsSettled(x.core.results, d) || Allowed({e}, a)
    ensures Race(p, prior, Apply(p, w, x, a), d, e, t)
  {
    var y := Apply(p, w, x, a);
    hide Inv, Calm, DepsFirst, Enabled, ValidPlan, OnlyFails, Reaches, Doomed, Untroubled, Idle;
    StepKeeps(p, w, x, a);
    if IsSettled(x.core.results, d) {
      hide Apply;
      DoomedStep(p, w, x, a, d, t);
      assert IsSettled(y.core.results, d);
    } else if a.Finish? && a.s == d {
      IdleIsOpen(x, e);
      FailureDooms(p, w, prior, x, a, d, e, t);
    } else {
      hide Apply;
      UntroubledStep(p, w, prior, x, a, d);
      IdleStep(p, w, prior, x, a, d, e);
      StillOpen(p, w, prior, x, a, d);
    }
  }

  lemma IdleIsOpen(x: Sys, e: Id)
    requires Idle(x, e)
    ensures !IsSettled(x.core.results, e)
  {}

  /** Without failures, only its own Finish settles d. */
  lemma StillOpen(p: Plan, w: World, prior: set<Id>, x: Sys, a: Action, d: Id)
    requires Inv(p, x) && Calm(p, x) && Untroubled(prior, x.core) && w == OnlyFails(d)
    requires !IsSettled(x.core.results, d) && Enabled(p, w, x, a) && a != CancelContext && !(a.Finish? && a.s == d)
    ensures !IsSettled(Apply(p, w, x, a).core.results, d)
  {
    hide Inv, AllSettled, NothingReady, NoMarkedReady, FinalResults, Descendants, Decrement, DepResults;
  }

  lemma ExhaustedMain(p: Plan, w: World, held: set<Id>, y: Sys)
    requires ValidPlan(p) && Inv(p, y) && Calm(p, y) && Exhausted(p, w, held, y)
    ensures y.main.Returned? || (y.main.Receiving? && held != {})
  {
    if !y.main.Returned? {
      var a := Progress(p, w, y);
      assert !Allowed(held, a);
      assert a.s in y.core.running;
      assert InputOk(p, y.core.results, y.inputs, a.s);
    }
  }

  lemma {:induction false} CalmRun(p: Plan, w: World, x: Sys, acts: seq<Action>, y: Sys, d: Id)
    requires ValidPlan(p) && p.strategy != Abort && w == OnlyFails(d)
    requires Inv(p, x) && Calm(p, x) && Runs(p, w, x, acts, y) && AllowedRun({}, acts)
    ensures Inv(p, y) && Calm(p, y)
    decreases |acts|
  {
    if acts != [] {
      assert Allowed({}, acts[0]);
      hide Inv, Calm, Apply, Enabled, ValidPlan, OnlyFails;
      StepKeeps(p, w, x, acts[0]);
      CalmStep(p, w, x, acts[0], d);
      forall i | 0 <= i < |acts[1..]| ensures Allowed({}, acts[1..][i]) { assert Allowed({}, acts[i + 1]); }
      CalmRun(p, w, Apply(p, w, x, acts[0]), acts[1..], y, d);
    }
  }

  /** An uncancelled, condition-free run to the end. */
  ghost predicate CompleteRun(p: Plan, w: World, resume: map<Id, Result>, acts: seq<Action>, y: Sys) {
    Runs(p, w, InitialSys(p, resume), acts, y) && y.main.Returned? && !y.core.aborted
  }

  lemma StartState(p: Plan, resume: map<Id, Result>)
    requires ValidPlan(p) && resume.Keys <= p.deps.Keys
    ensures Ready1(p, resume.Keys, InitialSys(p, resume)) && Untroubled(resume.Keys, Initial(p, resume))
    ensures forall h :: h !in resume ==> Idle(InitialSys(p, resume), h)
  {
    InitialHolds(p, resume);
    StructureStarts(p, resume);
  }

  /** Holding back d lets t complete. */
  lemma CompletingRun(p: Plan, w: World, resume: map<Id, Result>, d: Id, t: Id) returns (acts: seq<Action>, y: Sys)
    requires ValidPlan(p) && resume.Keys <= p.deps.Keys && p.strategy != Abort && w == OnlyFails(d)
    requires d in p.deps && d !in resume && t in p.deps && t !in resume && t != d
    requires !Reaches(Live(p.deps, resume.Keys), d, t)
    ensures CompleteRun(p, w, resume, acts, y)
    ensures t in y.main.final && y.main.final[t].Settled? && y.main.final[t].result.status == Completed
  {
    var x := InitialSys(p, resume);
    StartState(p, resume);
    var a1, y1 := RunOut(p, w, x, {d});
    HoldingFailure(p, w, resume.Keys, x, a1, y1, d);
    ExhaustedMain(p, w, {d}, y1);
    assert y1.main.Receiving?;
    if !IsSettled(y1.core.results, t) { OnlyHeldRemains(p, w, resume.Keys, d, y1, t); }
    hide Inv, DepsFirst, OnlyFails, InitialSys;
    var a2;
    a2, y := RunOut(p, w, y1, {});
    CalmRun(p, w, y1, a2, y, d);
    ExhaustedMain(p, w, {}, y);
    RunKeeps(p, w, y1, a2, y);
    RunsCompose(p, w, x, a1, y1, a2, y);
    acts := a1 + a2;
  }

  /** Holding back a dependency of t that d does not need lets the failure of d reach t first. */
  lemma BlockingRun(p: Plan, w: World, resume: map<Id, Result>, d: Id, e: Id, t: Id) returns (acts: seq<Action>, y: Sys)
    requires ValidPlan(p) && resume.Keys <= p.deps.Keys && p.strategy != Abort && w == OnlyFails(d)
    requires d in p.deps && d !in resume && t in p.deps && t !in resume && t != d
    requires e in p.deps[t] && e !in resume && e != d && Reaches(p.deps, d, t)
    requires !Reaches(Live(p.deps, resume.Keys), e, d)
    ensures CompleteRun(p, w, resume, acts, y)
    ensures t in y.main.final && y.main.final[t].Settled? && y.main.final[t].result.status != Completed
  {
    var x := InitialSys(p, resume);
    StartState(p, resume);
    var a1, y1 := RunOut(p, w, x, {e});
    assert Race(p, resume.Keys, x, d, e, t);
    HoldingDependency(p, w, resume.Keys, x, a1, y1, d, e, t);
    ExhaustedMain(p, w, {e}, y1);
    if !IsSettled(y1.core.results, d) { OnlyHeldRemains(p, w, resume.Keys, e, y1, d); }
    hide Inv, DepsFirst, OnlyFails, InitialSys, Reaches;
    var a2;
    a2, y := RunOut(p, w, y1, {});
    HoldingDependency(p, w, resume.Keys, y1, a2, y, d, e, t);
    ExhaustedMain(p, w, {}, y);
    RunKeeps(p, w, y1, a2, y);
    RunsCompose(p, w, x, a1, y1, a2, y);
    acts := a1 + a2;
  }

  /** Resuming from an unsafe set of results really does make the outcome depend on the schedule. */
  lemma UnsafeResumeDiverges(p: Plan, resume: map<Id, Result>)
    returns (w: World, acts: seq<Action>, y: Sys, bcts: seq<Action>, z: Sys)
    requires ValidPlan(p) && resume.Keys <= p.deps.Keys && p.strategy != Abort
    requires !ResumeSafe(p, resume.Keys)
    ensures ConditionFree(w)
    ensures CompleteRun(p, w, resume, acts, y) && CompleteRun(p, w, resume, bcts, z)
    ensures y.main.final != z.main.final
  {
    var prior := resume.Keys;
    var d, t :| d in p.deps && t in p.deps && d !in prior && t !in prior && Reaches(p.deps, d, t) &&
                !Reaches(Live(p.deps, prior), d, t) && !WaitsOnlyAbove(p, prior, d, t);
    var e :| e in p.deps[t] && e !in prior && !Reaches(Live(p.deps, prior), e, d);
    if e == d { ReachDirect(Live(p.deps, prior), d, t); }
    OrderedIsAcyclic(p.deps, p.order);
    w := OnlyFails(d);
    acts, y := CompletingRun(p, w, resume, d, t);
    bcts, z := BlockingRun(p, w, resume, d, e, t);
  }

  ghost predicate Deterministic(p: Plan, resume: map<Id, Result>)
    requires ValidPlan(p)
  {
    forall w, acts, y, bcts, z ::
      Tame(p, w, resume) && CompleteRun(p, w, resume, acts, y) && CompleteRun(p, w, resume, bcts, z) ==>
      y.main.final == z.main.final
  }

  /** The exact condition: under cascade and skip-dependents, the answers of all uncancelled runs agree, for
      every outcome of the steps and all tame conditions, iff the resumed results are safe. */
  lemma DeterministicIffSafe(p: Plan, resume: map<Id, Result>)
    requires ValidPlan(p) && resume.Keys <= p.deps.Keys && p.strategy != Abort
    ensures Deterministic(p, resume) <==> ResumeSafe(p, resume.Keys)
  {
    if ResumeSafe(p, resume.Keys) {
      forall w, acts, y, bcts, z |
        Tame(p, w, resume) && CompleteRun(p, w, resume, acts, y) && CompleteRun(p, w, resume, bcts, z)
        ensures y.main.final == z.main.final
      {
        SameAnswer(p, p, w, resume, acts, y, bcts, z);
      }
    } else {
      var w, acts, y, bcts, z := UnsafeResumeDiverges(p, resume);
      ConditionFreeIsTame(p, w, resume);
    }
  }
}
