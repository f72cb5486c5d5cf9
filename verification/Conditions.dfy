/** Conditions and failure marks. The ready collection of dispatch says that it leaves out marked steps,
    but does not look at the marks (internal/exec/executor.go:948-958), and a settled condition re-enters
    that collection only, not the propagation before it. So a marked step can be started: when a condition
    has just settled its last open dependency, and when a condition has just been broken above a step that
    was ready already. */
module Conditions {
  import opened Graph
  import opened Schedule
  import opened RunCore
  import opened RunSystem
  import opened RunTheorems

  predicate SettlesOnCondition(a: Action) {
    a.SkipOnCondition? || a.FailOnCondition?
  }

  /** While steps are being launched, no marked step is ready. */
  ghost predicate Clean(p: Plan, x: Sys) {
    x.main.Launching? ==> NoMarkedReady(p, x.core)
  }

  /** Only a settled condition can end that. */
  lemma CleanStep(p: Plan, w: World, x: Sys, a: Action)
    requires Clean(p, x) && Enabled(p, w, x, a) && !SettlesOnCondition(a)
    ensures Clean(p, Apply(p, w, x, a))
  {
  }

  /** A run in which no condition settles a step never starts a marked one, whatever fails in it. */
  lemma {:induction false} NoMarkedStart(p: Plan, w: World, x: Sys, acts: seq<Action>, y: Sys, s: Id)
    requires Clean(p, x) && Runs(p, w, x, acts, y)
    requires forall i :: 0 <= i < |acts| ==> !SettlesOnCondition(acts[i])
    requires s in p.deps && Enabled(p, w, y, Start(s))
    ensures !Marked(y.core, s)
    decreases |acts|
  {
    if acts != [] {
      CleanStep(p, w, x, acts[0]);
      NoMarkedStart(p, w, Apply(p, w, x, acts[0]), acts[1..], y, s);
    }
  }

  /** After a condition has settled d, a step t can be started although marked iff every dependency it still
      waited for was d, and it was marked before or d's condition was broken above it. Two kinds of step
      meet this: one whose last open dependency was d, and one that was ready already and lies below d
      through resumed steps only. */
  lemma MarkedStartIff(p: Plan, w: World, x: Sys, a: Action, t: Id)
    requires ValidPlan(p) && Inv(p, x)
    requires SettlesOnCondition(a) && Enabled(p, w, x, a) && a.s in p.deps && t in p.deps
    ensures var y := Apply(p, w, x, a);
            (Ready(y.core, t) && Marked(y.core, t)) <==>
            && t != a.s && t !in x.core.results && x.core.inDegree[t] == Occ(p.deps[t], a.s)
            && (Marked(x.core, t) || (a.FailOnCondition? && p.strategy != Abort && Reaches(p.deps, a.s, t)))
  {
    assert x.core.inDegree.Keys == p.deps.Keys;
    hide ValidPlan, Inv, Settle, Reaches, Ready, VerdictOn;
    if a.SkipOnCondition? {
      SettledReadyIff(p, x.core, a.s, Blank(Skipped), t);
      SettleKeepsMarks(p, x.core, a.s, Blank(Skipped));
    } else {
      var r := Result(Failed, "condition eval", 0);
      SettledReadyIff(p, x.core, a.s, r, t);
      SettleKeepsMarks(p, x.core, a.s, r);
      ReadyIgnoresMarks(p, Settle(p, x.core, a.s, r), a.s, t);
    }
  }

  /** In a launch that began clean, the second kind needs a broken condition: a step that was ready was not
      marked, so it lies below d without waiting for it. */
  lemma ReadyMarkedIff(p: Plan, w: World, x: Sys, a: Action, t: Id)
    requires ValidPlan(p) && Inv(p, x) && Clean(p, x) && Ready(x.core, t)
    requires SettlesOnCondition(a) && Enabled(p, w, x, a) && a.s in p.deps && t in p.deps
    ensures var y := Apply(p, w, x, a);
            (Ready(y.core, t) && Marked(y.core, t)) <==>
            && t != a.s && a.s !in p.deps[t]
            && a.FailOnCondition? && p.strategy != Abort && Reaches(p.deps, a.s, t)
  {
    MarkedStartIff(p, w, x, a, t);
    OccPositive(p.deps[t], a.s);
  }

  lemma SettledReadyIff(p: Plan, c: Core, d: Id, r: Result, t: Id)
    requires c.inDegree.Keys == p.deps.Keys && t in p.deps && Ready(c, d)
    ensures Ready(Settle(p, c, d, r), t) <==> t != d && t !in c.results && c.inDegree[t] == Occ(p.deps[t], d)
  {
  }

  lemma SettleKeepsMarks(p: Plan, c: Core, d: Id, r: Result)
    ensures forall t :: Marked(Settle(p, c, d, r), t) <==> Marked(c, t)
  {
  }

  lemma ReadyIgnoresMarks(p: Plan, c: Core, d: Id, t: Id)
    ensures Ready(OnFailure(p, c, d), t) <==> Ready(c, t)
    ensures Marked(OnFailure(p, c, d), t) <==>
              Marked(c, t) || (p.strategy != Abort && t in p.deps && Reaches(p.deps, d, t))
  {
  }

  lemma {:induction false} OccPositive(xs: seq<Id>, d: Id)
    ensures Occ(xs, d) > 0 <==> d in xs
  {
    if xs != [] { OccPositive(xs[1..], d); }
  }

  /** d starts out ready and its condition is broken; t waits for d at most, lies below it and would proceed. */
  ghost predicate Exposed(p: Plan, w: World, prior: set<Id>, d: Id, t: Id) {
    && d in p.deps && t in p.deps && d !in prior && t !in prior && d != t
    && (forall e :: e in p.deps[d] ==> e in prior) && (forall e :: e in p.deps[t] ==> e in prior || e == d)
    && Reaches(p.deps, d, t)
    && forall m :: w.verdict(d, m) == Broken && w.verdict(t, m) == Proceed
  }

  lemma {:induction false} OutsideIsOcc(xs: seq<Id>, prior: set<Id>, d: Id)
    requires d !in prior && forall x :: x in xs ==> x in prior || x == d
    ensures Outside(xs, prior) == Occ(xs, d)
  {
    if xs != [] {
      assert forall x :: x in xs[1..] ==> x in xs;
      OutsideIsOcc(xs[1..], prior, d);
    }
  }

  /** A launch that has not had the chance to pass over a ready step, or one that an abort has kept from starting. */
  predicate Early(x: Sys) {
    match x.main
    case Entering => x.core.aborted || x.core.skipped + x.core.cascaded == {}
    case Propagating => x.core.skipped + x.core.cascaded == {}
    case Launching => true
    case _ => x.core.aborted
  }

  /** d is ready until its condition fails it. */
  ghost predicate Failing(p: Plan, prior: set<Id>, x: Sys, d: Id, t: Id) {
    && (forall s :: s in prior ==> IsSettled(x.core.results, s))
    && d in x.core.inDegree && x.core.inDegree[d] == 0
    && (d !in x.core.results ==> Early(x))
    && (d in x.core.results ==>
          && IsSettled(x.core.results, d) && x.core.results[d].result.status == Failed
          && (p.strategy == Abort || Marked(x.core, t)))
  }

  /** t has started, or is going to before the launch that fails d is over. */
  ghost predicate Slipping(p: Plan, x: Sys, d: Id, t: Id)
    requires t in p.deps
  {
    || t in x.phase
    || (t !in x.core.results && t in x.core.inDegree
        && if d in x.core.results then x.main.Launching? && x.core.inDegree[t] == 0
           else x.core.inDegree[t] == Occ(p.deps[t], d))
  }

  lemma SlippingStarts(p: Plan, w: World, resume: map<Id, Result>, d: Id, t: Id)
    requires Exposed(p, w, resume.Keys, d, t)
    ensures Failing(p, resume.Keys, InitialSys(p, resume), d, t) && Slipping(p, InitialSys(p, resume), d, t)
    ensures Initial(p, resume).inDegree[d] == 0 && Initial(p, resume).inDegree[t] == Occ(p.deps[t], d)
  {
    hide SumTokens;
    OutsideZero(p.deps[d], resume.Keys);
    OutsideIsOcc(p.deps[t], resume.Keys, d);
  }

  /** The step whose entry an action writes, if any. */
  predicate Writes(a: Action, s: Id) {
    match a
    case Propagate(u) => u == s
    case SkipOnCondition(u) => u == s
    case FailOnCondition(u) => u == s
    case Start(u) => u == s
    case CancelWaiting(u) => u == s
    case Finish(u, _) => u == s
    case _ => false
  }

  ghost predicate SameFor(x: Core, y: Core, u: Id) {
    && (u in x.results <==> u in y.results) && (u in x.results && u in y.results ==> x.results[u] == y.results[u])
    && (u in x.inDegree <==> u in y.inDegree) && (u in x.inDegree && u in y.inDegree ==> x.inDegree[u] == y.inDegree[u])
    && (Marked(x, u) ==> Marked(y, u))
  }

  /** An action that writes neither u nor a dependency of u changes nothing for u but perhaps its mark. */
  lemma ElsewhereKeeps(p: Plan, w: World, x: Sys, a: Action, u: Id)
    requires Inv(p, x) && Enabled(p, w, x, a) && u in p.deps
    requires forall s :: Writes(a, s) ==> s != u && s !in p.deps[u]
    ensures SameFor(x.core, Apply(p, w, x, a).core, u)
  {
    DegreesHold(p, x);
    hide Inv, SameFor, Enabled, Apply;
    if a.Finish? || a.Propagate? || SettlesOnCondition(a) {
      assert Writes(a, a.s);
      SettlingElsewhere(p, w, x, a, u);
    } else {
      OtherElsewhere(p, w, x, a, u);
    }
  }

  lemma SettlingElsewhere(p: Plan, w: World, x: Sys, a: Action, u: Id)
    requires (a.Finish? || a.Propagate? || SettlesOnCondition(a)) && u in p.deps && a.s != u && a.s !in p.deps[u]
    ensures SameFor(x.core, Apply(p, w, x, a).core, u)
  {
    hide SameFor, Propagated, Finished, Settle, OnFailure;
    match a
    case Finish(s, r) =>
      SettleElsewhere(p, x.core, s, r, u);
      FinishElsewhere(p, x.core, s, r, u);
    case Propagate(s) =>
      PropagateElsewhere(p, x.core, s, u);
    case SkipOnCondition(s) =>
      SettleElsewhere(p, x.core, s, Blank(Skipped), u);
    case FailOnCondition(s) =>
      var r := Result(Failed, "condition eval", 0);
      SettleElsewhere(p, x.core, s, r, u);
      FailElsewhere(p, Settle(p, x.core, s, r), s, u);
      SameTwice(x.core, Settle(p, x.core, s, r), OnFailure(p, Settle(p, x.core, s, r), s), u);
  }

  lemma SameTwice(x: Core, y: Core, z: Core, u: Id)
    requires SameFor(x, y, u) && SameFor(y, z, u)
    ensures SameFor(x, z, u)
  {
  }

  lemma SettleElsewhere(p: Plan, c: Core, s: Id, r: Result, u: Id)
    requires u in p.deps && s != u && s !in p.deps[u]
    ensures SameFor(c, Settle(p, c, s, r), u)
  {
    OccPositive(p.deps[u], s);
  }

  lemma FailElsewhere(p: Plan, c: Core, s: Id, u: Id)
    ensures SameFor(c, OnFailure(p, c, s), u)
  {
    hide Reaches;
  }

  lemma FinishElsewhere(p: Plan, c: Core, s: Id, r: Result, u: Id)
    requires SameFor(c, Settle(p, c, s, r), u)
    ensures SameFor(c, Finished(p, c, s, r), u)
  {
    hide Settle, Reaches;
  }

  lemma PropagateElsewhere(p: Plan, c: Core, s: Id, u: Id)
    requires u in p.deps && s != u && s !in p.deps[u]
    ensures SameFor(c, Propagated(p, c, s), u)
  {
    OccPositive(p.deps[u], s);
  }

  lemma OtherElsewhere(p: Plan, w: World, x: Sys, a: Action, u: Id)
    requires Enabled(p, w, x, a) && (forall s :: Writes(a, s) ==> s != u)
    requires !a.Finish? && !a.Propagate? && !SettlesOnCondition(a)
    ensures SameFor(x.core, Apply(p, w, x, a).core, u)
  {
    if a.Start? || a.CancelWaiting? { assert Writes(a, a.s); }
  }

  /** Only an entry that is absent or in flight is ever written. */
  lemma WritesOpen(p: Plan, w: World, x: Sys, a: Action, s: Id)
    requires Inv(p, x) && Enabled(p, w, x, a) && Writes(a, s)
    ensures !IsSettled(x.core.results, s)
    ensures a.Finish? || a.CancelWaiting? || (Ready(x.core, s) && (a.Propagate? ==> Marked(x.core, s)))
  {
    DegreesHold(p, x);
    hide Inv;
    assert a.s == s;
  }

  lemma MarksOnlyGrow(p: Plan, w: World, x: Sys, a: Action, t: Id)
    requires Marked(x.core, t)
    ensures Marked(Apply(p, w, x, a).core, t)
  {
    hide Reaches, Decrement;
  }

  lemma EarlyStep(p: Plan, w: World, x: Sys, a: Action, d: Id)
    requires Enabled(p, w, x, a) && Early(x) && d in p.deps && Ready(x.core, d)
    ensures Early(Apply(p, w, x, a))
  {
    hide Reaches, Decrement;
    assert a.Propagate? ==> Marked(x.core, a.s);
  }

  lemma FailingStep(p: Plan, w: World, prior: set<Id>, x: Sys, a: Action, d: Id, t: Id)
    requires Inv(p, x) && Exposed(p, w, prior, d, t) && Failing(p, prior, x, d, t) && Enabled(p, w, x, a)
    ensures var y := Apply(p, w, x, a); Failing(p, prior, y, d, t)
    ensures d in x.core.results ==> d in Apply(p, w, x, a).core.results && !Writes(a, d)
    ensures d !in x.core.results && d in Apply(p, w, x, a).core.results ==> a == FailOnCondition(d)
  {
    hide Inv, Reaches, Early, Ready;
    assert Ready(x.core, d) <==> d !in x.core.results by { ReadyMeans(x.core, d); }
    if Marked(x.core, t) { MarksOnlyGrow(p, w, x, a, t); }
    PriorStays(p, w, prior, x, a);
    if Writes(a, d) {
      WritesOpen(p, w, x, a, d);
      FailsOnly(p, w, x, a, d, t);
    } else {
      forall s | Writes(a, s) ensures s != d && s !in p.deps[d] { WritesOpen(p, w, x, a, s); }
      ElsewhereKeeps(p, w, x, a, d);
      if d !in x.core.results { EarlyStep(p, w, x, a, d); }
    }
  }

  lemma ReadyMeans(c: Core, d: Id)
    requires d in c.inDegree && c.inDegree[d] == 0
    ensures Ready(c, d) <==> d !in c.results
  {
  }

  lemma PriorStays(p: Plan, w: World, prior: set<Id>, x: Sys, a: Action)
    requires Inv(p, x) && Enabled(p, w, x, a) && forall s :: s in prior ==> IsSettled(x.core.results, s)
    ensures forall s :: s in prior ==> IsSettled(Apply(p, w, x, a).core.results, s)
  {
    forall s | s in prior ensures IsSettled(Apply(p, w, x, a).core.results, s) {
      if Writes(a, s) { WritesOpen(p, w, x, a, s); } else { EntryStays(p, w, x, a, s); }
    }
  }

  lemma OneEntryChanges(p: Plan, c: Core, s: Id, r: Result)
    ensures Finished(p, c, s, r).results == c.results[s := Settled(r)]
    ensures ConditionBroken(p, c, s).results == c.results[s := Settled(Result(Failed, "condition eval", 0))]
  {
    hide Descendants, Decrement;
  }

  lemma EntryStays(p: Plan, w: World, x: Sys, a: Action, s: Id)
    requires Enabled(p, w, x, a) && !Writes(a, s) && s in x.core.results
    ensures var y := Apply(p, w, x, a); s in y.core.results && y.core.results[s] == x.core.results[s]
  {
    hide Reaches, Decrement, AllSettled, FinalResults, DepResults, NothingReady, NoMarkedReady, Enabled, Finished,
         ConditionBroken;
    if a.Finish? { OneEntryChanges(p, x.core, a.s, a.r); }
    if a.FailOnCondition? { OneEntryChanges(p, x.core, a.s, Blank(Failed)); }
  }

  /** The first action on d is the failure of its condition. */
  lemma FailsOnly(p: Plan, w: World, x: Sys, a: Action, d: Id, t: Id)
    requires Enabled(p, w, x, a) && Writes(a, d) && Early(x) && d !in x.core.results
    requires a.Finish? || a.CancelWaiting? || (Ready(x.core, d) && (a.Propagate? ==> Marked(x.core, d)))
    requires d in p.deps && d !in p.deps[d] && t in p.deps && Reaches(p.deps, d, t)
    requires Inv(p, x) && forall m :: w.verdict(d, m) == Broken
    ensures a == FailOnCondition(d)
    ensures var y := Apply(p, w, x, a);
            && d in y.core.inDegree && y.core.inDegree[d] == x.core.inDegree[d]
            && IsSettled(y.core.results, d) && y.core.results[d].result.status == Failed
            && (p.strategy == Abort || Marked(y.core, t))
  {
    DegreesHold(p, x);
    hide Inv, Reaches, Settle, Decrement;
    assert a.s == d;
    SettleSelf(p, x.core, d, Result(Failed, "condition eval", 0));
  }

  lemma SettleSelf(p: Plan, c: Core, d: Id, r: Result)
    requires d in p.deps && d !in p.deps[d] && d in c.inDegree
    ensures var y := Settle(p, c, d, r);
            d in y.inDegree && y.inDegree[d] == c.inDegree[d] && d in y.results && y.results[d] == Settled(r)
  {
    OccPositive(p.deps[d], d);
  }

  /** t stays as it is, starts, or is about to. */
  lemma SlippingStep(p: Plan, w: World, prior: set<Id>, x: Sys, a: Action, d: Id, t: Id)
    requires Inv(p, x) && Exposed(p, w, prior, d, t) && Failing(p, prior, x, d, t) && Slipping(p, x, d, t)
    requires Enabled(p, w, x, a)
    ensures Slipping(p, Apply(p, w, x, a), d, t)
  {
    FailingStep(p, w, prior, x, a, d, t);
    if t in x.phase {
      PhaseStays(p, w, x, a, t);
    } else if Writes(a, t) {
      StartsOnly(p, w, x, a, d, t);
    } else if a == FailOnCondition(d) {
      FailureFrees(p, w, x, d, t);
    } else {
      forall s | Writes(a, s) ensures s != t && s !in p.deps[t] { WritesOpen(p, w, x, a, s); }
      ElsewhereKeeps(p, w, x, a, t);
      if d in x.core.results { LaunchGoesOn(p, w, x, a, t); }
    }
  }

  lemma PhaseStays(p: Plan, w: World, x: Sys, a: Action, t: Id)
    requires t in x.phase
    ensures t in Apply(p, w, x, a).phase
  {
    hide Reaches;
  }

  /** The first action on t starts it. */
  lemma StartsOnly(p: Plan, w: World, x: Sys, a: Action, d: Id, t: Id)
    requires Inv(p, x) && Enabled(p, w, x, a) && Writes(a, t) && t !in x.core.results && t in p.deps
    requires forall m :: w.verdict(t, m) == Proceed
    requires x.main.Propagating? ==> d !in x.core.results && x.core.skipped + x.core.cascaded == {}
    ensures t in Apply(p, w, x, a).phase
  {
    DegreesHold(p, x);
    hide Inv, Reaches;
  }

  lemma FailureFrees(p: Plan, w: World, x: Sys, d: Id, t: Id)
    requires Inv(p, x) && Enabled(p, w, x, FailOnCondition(d)) && t in p.deps && t != d && t !in x.core.results
    requires x.core.inDegree[t] == Occ(p.deps[t], d)
    ensures var y := Apply(p, w, x, FailOnCondition(d));
            && y.main.Launching? && t !in y.core.results && t in y.core.inDegree && y.core.inDegree[t] == 0
  {
    DegreesHold(p, x);
    hide Inv, Reaches;
  }

  lemma LaunchGoesOn(p: Plan, w: World, x: Sys, a: Action, t: Id)
    requires Enabled(p, w, x, a) && x.main.Launching? && t in p.deps && Ready(x.core, t)
    ensures Apply(p, w, x, a).main.Launching?
  {
    hide Reaches;
  }

  lemma DegreesHold(p: Plan, x: Sys)
    requires Inv(p, x)
    ensures x.core.results.Keys <= p.deps.Keys == x.core.inDegree.Keys
    ensures forall s :: s in x.phase ==> s in x.core.results
    ensures forall s :: InPhase(x, s, Working) || InPhase(x, s, WaitingSlot) ==>
              s in x.core.results && x.core.results[s].InFlight?
  {
  }

  /** In every run: once d's condition has been settled and that launch is over, t has been started, although
      d has failed and, unless failures abort, t is marked. */
  lemma BrokenConditionNeverCascades(p: Plan, w: World, resume: map<Id, Result>, acts: seq<Action>, y: Sys, d: Id, t: Id)
    requires ValidPlan(p) && resume.Keys <= p.deps.Keys && Exposed(p, w, resume.Keys, d, t)
    requires Runs(p, w, InitialSys(p, resume), acts, y)
    ensures d in y.core.results && !y.main.Launching? ==> t in y.phase
    ensures d in y.core.results ==> y.core.results[d].Settled? && y.core.results[d].result.status == Failed
    ensures d in y.core.results && p.strategy != Abort ==> Marked(y.core, t)
  {
    SlippingStarts(p, w, resume, d, t);
    InitialHolds(p, resume);
    SlippingRun(p, w, resume.Keys, InitialSys(p, resume), acts, y, d, t);
  }

  lemma {:induction false} SlippingRun(p: Plan, w: World, prior: set<Id>, x: Sys, acts: seq<Action>, y: Sys, d: Id, t: Id)
    requires ValidPlan(p) && Inv(p, x) && Runs(p, w, x, acts, y)
    requires Exposed(p, w, prior, d, t) && Failing(p, prior, x, d, t) && Slipping(p, x, d, t)
    ensures Failing(p, prior, y, d, t) && Slipping(p, y, d, t)
    decreases |acts|
  {
    hide ValidPlan, Inv, Exposed, Failing, Slipping, Enabled, Apply;
    if acts != [] {
      StepKeeps(p, w, x, acts[0]);
      FailingStep(p, w, prior, x, acts[0], d, t);
      SlippingStep(p, w, prior, x, acts[0], d, t);
      SlippingRun(p, w, prior, Apply(p, w, x, acts[0]), acts[1..], y, d, t);
    }
  }

  lemma BreaksAndFrees(p: Plan, c: Core, d: Id, t: Id)
    requires d in p.deps && t in p.deps && d != t && t !in c.results && t in c.inDegree && Reaches(p.deps, d, t)
    requires c.inDegree[t] == Occ(p.deps[t], d) && p.strategy != Abort
    ensures var c1 := ConditionBroken(p, c, d);
            && Ready(c1, t) && Marked(c1, t) && d in c1.results
            && c1.results[d].Settled? && c1.results[d].result.status == Failed
  {
    hide Reaches;
  }

  /** And such runs exist in every workflow with such steps, fresh or resumed. */
  lemma BrokenConditionDoesNotCascade(p: Plan, w: World, resume: map<Id, Result>, d: Id, t: Id)
    returns (acts: seq<Action>, y: Sys)
    requires ValidPlan(p) && p.strategy != Abort && resume.Keys <= p.deps.Keys
    requires Exposed(p, w, resume.Keys, d, t)
    ensures Runs(p, w, InitialSys(p, resume), acts, y)
    ensures Marked(y.core, t) && t in y.core.running
    ensures IsSettled(y.core.results, d) && y.core.results[d].result.status == Failed
  {
    hide ValidPlan, Runs, SumTokens, Reaches, Failing, Slipping, Outside, ConditionBroken, Propagated, Finished;
    var x0 := InitialSys(p, resume);
    var x1 := Apply(p, w, x0, BeginDispatch);
    var x2 := Apply(p, w, x1, EndPropagation);
    var x3 := Apply(p, w, x2, FailOnCondition(d));
    y := Apply(p, w, x3, Start(t));
    SlippingStarts(p, w, resume, d, t);
    assert x2.core == Initial(p, resume) && Ready(x2.core, d);
    BreaksAndFrees(p, x2.core, d, t);
    RunsNothing(p, w, x0);
    RunsExtend(p, w, x0, [], x0, BeginDispatch);
    RunsExtend(p, w, x0, [] + [BeginDispatch], x1, EndPropagation);
    RunsExtend(p, w, x0, [] + [BeginDispatch] + [EndPropagation], x2, FailOnCondition(d));
    acts := [] + [BeginDispatch] + [EndPropagation] + [FailOnCondition(d)];
    RunsExtend(p, w, x0, acts, x3, Start(t));
    acts := acts + [Start(t)];
  }

  lemma RunsNothing(p: Plan, w: World, x: Sys)
    ensures Runs(p, w, x, [], x)
  {
  }
}
