/** What a run's results come from: each settled step has exactly one cause, in every run, aborted ones
    included, and the answer reports it (internal/exec/executor.go). */
module RunOutcomes {
  import opened Graph
  import opened Schedule
  import opened RunCore
  import opened RunSystem
  import opened RunTheorems
  import Conditions

  // ------------------------------------------------------------------- results

  /** a settles step s. */
  predicate Settles(a: Action, s: Id) {
    (a.Propagate? || a.SkipOnCondition? || a.FailOnCondition? || a.CancelWaiting? || a.Finish?) && a.s == s
  }

  /** What s reports when a has settled it. */
  ghost predicate CausedBy(p: Plan, a: Action, r: Result) {
    match a
    case Finish(_, own) => r == own
    case FailOnCondition(_) => r.status == Failed && r.tokens == 0
    case SkipOnCondition(_) => r == Result(Skipped, "", 0)
    case CancelWaiting(_) => r == Result(Cancelled, "", 0)
    case Propagate(_) => p.strategy != Abort && r == Result(if p.strategy == Cascade then Cancelled else Skipped, "", 0)
    case _ => false
  }

  /** Each strategy uses its own marks. */
  predicate OwnMarks(p: Plan, c: Core) {
    && (p.strategy != Cascade ==> c.cascaded == {})
    && (p.strategy != SkipDependents ==> c.skipped == {})
  }

  lemma OwnMarksStep(p: Plan, w: World, x: Sys, a: Action)
    requires OwnMarks(p, x.core) && Enabled(p, w, x, a)
    ensures OwnMarks(p, Apply(p, w, x, a).core)
  {
    hide Descendants, Decrement, AllSettled, FinalResults, DepResults, NothingReady, NoMarkedReady;
  }

  lemma SettlesStep(p: Plan, w: World, x: Sys, a: Action, s: Id)
    requires Inv(p, x) && OwnMarks(p, x.core) && Enabled(p, w, x, a) && Settles(a, s)
    ensures var y := Apply(p, w, x, a);
            !IsSettled(x.core.results, s) && IsSettled(y.core.results, s) && CausedBy(p, a, y.core.results[s].result)
  {
    OpenBefore(p, w, x, a, s);
    hide Inv, Decrement, AllSettled, FinalResults, DepResults, NothingReady, NoMarkedReady, Finished, ConditionBroken;
    if a.Finish? { Conditions.OneEntryChanges(p, x.core, s, a.r); }
    if a.FailOnCondition? { Conditions.OneEntryChanges(p, x.core, s, Blank(Failed)); }
  }

  lemma OpenBefore(p: Plan, w: World, x: Sys, a: Action, s: Id)
    requires Inv(p, x) && Enabled(p, w, x, a) && Settles(a, s)
    ensures !IsSettled(x.core.results, s)
  {
    hide CoreInv, SlotInv, QueueInv, InputInv, WakeInv, MainInv, AllSettled, NothingReady, NoMarkedReady;
    RunningIsOpen(p, x, s);
  }

  lemma RunningIsOpen(p: Plan, x: Sys, s: Id)
    requires Inv(p, x)
    ensures s in x.core.running ==> !IsSettled(x.core.results, s)
  {
  }

  lemma OnlySettling(p: Plan, w: World, x: Sys, a: Action, s: Id)
    requires Inv(p, x) && Enabled(p, w, x, a) && !Settles(a, s) && !IsSettled(x.core.results, s)
    ensures !IsSettled(Apply(p, w, x, a).core.results, s)
  {
    hide Inv, Enabled, Decrement, AllSettled, FinalResults, DepResults, Finished, ConditionBroken;
    if a.Finish? { Conditions.OneEntryChanges(p, x.core, a.s, a.r); }
    if a.FailOnCondition? { Conditions.OneEntryChanges(p, x.core, a.s, Blank(Failed)); }
  }

  /** No action settles s. */
  predicate Untold(acts: seq<Action>, s: Id) {
    forall i :: 0 <= i < |acts| ==> !Settles(acts[i], s)
  }

  /** Action i settles s, no other does, and e says what it did. */
  ghost predicate Told(p: Plan, acts: seq<Action>, i: nat, s: Id, e: Entry) {
    && i < |acts| && Settles(acts[i], s) && e.Settled? && CausedBy(p, acts[i], e.result)
    && forall j :: 0 <= j < |acts| && j != i ==> !Settles(acts[j], s)
  }

  lemma TellingOnce(p: Plan, acts: seq<Action>, s: Id, e: Entry)
    requires acts != [] && Settles(acts[0], s) && Untold(acts[1..], s) && e.Settled? && CausedBy(p, acts[0], e.result)
    ensures Told(p, acts, 0, s, e)
  {
    forall j | 0 <= j < |acts| && j != 0 ensures !Settles(acts[j], s) { assert acts[j] == acts[1..][j - 1]; }
  }

  lemma TellingLater(p: Plan, acts: seq<Action>, i: nat, s: Id, e: Entry)
    requires acts != [] && !Settles(acts[0], s) && Told(p, acts[1..], i, s, e)
    ensures Told(p, acts, i + 1, s, e)
  {
    forall j | 0 <= j < |acts| && j != i + 1 ensures !Settles(acts[j], s) {
      if j > 0 { assert acts[j] == acts[1..][j - 1]; }
    }
  }

  lemma UntoldMore(acts: seq<Action>, s: Id)
    requires acts != []
    ensures Untold(acts, s) <==> !Settles(acts[0], s) && Untold(acts[1..], s)
  {
    if !Settles(acts[0], s) && Untold(acts[1..], s) {
      forall i | 0 <= i < |acts| ensures !Settles(acts[i], s) { if i > 0 { assert acts[i] == acts[1..][i - 1]; } }
    }
    if Untold(acts, s) {
      forall i | 0 <= i < |acts[1..]| ensures !Settles(acts[1..][i], s) { assert acts[1..][i] == acts[i + 1]; }
    }
  }

  /** A step settled before keeps its result, and no action settles it; any other step is settled iff one action
      settled it, and has the result that this action gives. */
  lemma {:induction false} RunTells(p: Plan, w: World, x: Sys, acts: seq<Action>, y: Sys, s: Id)
    requires ValidPlan(p) && Inv(p, x) && OwnMarks(p, x.core) && Runs(p, w, x, acts, y)
    ensures IsSettled(x.core.results, s) ==>
              IsSettled(y.core.results, s) && y.core.results[s] == x.core.results[s] && Untold(acts, s)
    ensures !IsSettled(x.core.results, s) && !IsSettled(y.core.results, s) ==> Untold(acts, s)
    ensures !IsSettled(x.core.results, s) && IsSettled(y.core.results, s) ==>
              exists i: nat :: Told(p, acts, i, s, y.core.results[s])
    decreases |acts|
  {
    if acts != [] {
      hide ValidPlan, Inv, OwnMarks, Enabled, Apply, Settles, CausedBy, Told, Untold, IsSettled;
      var x1 := Apply(p, w, x, acts[0]);
      StepKeeps(p, w, x, acts[0]);
      OwnMarksStep(p, w, x, acts[0]);
      RunTells(p, w, x1, acts[1..], y, s);
      UntoldMore(acts, s);
      if Settles(acts[0], s) {
        SettlesStep(p, w, x, acts[0], s);
        TellingOnce(p, acts, s, y.core.results[s]);
      } else if !IsSettled(x.core.results, s) {
        OnlySettling(p, w, x, acts[0], s);
        if IsSettled(y.core.results, s) {
          var i: nat :| Told(p, acts[1..], i, s, y.core.results[s]);
          TellingLater(p, acts, i, s, y.core.results[s]);
        }
      }
    }
  }

  /** In every run a resumed step keeps its result and nothing settles it; any other step is settled iff exactly
      one action settled it, and its result is that action's: the step's own result, or that of its condition,
      of an abort while it waited, or of a failure above it. */
  lemma EachResultHasItsCause(p: Plan, w: World, resume: map<Id, Result>, acts: seq<Action>, y: Sys, s: Id)
    requires ValidPlan(p) && resume.Keys <= p.deps.Keys && Runs(p, w, InitialSys(p, resume), acts, y)
    ensures s in resume ==> IsSettled(y.core.results, s) && y.core.results[s].result == resume[s] && Untold(acts, s)
    ensures s !in resume && !IsSettled(y.core.results, s) ==> Untold(acts, s)
    ensures s !in resume && IsSettled(y.core.results, s) ==> exists i: nat :: Told(p, acts, i, s, y.core.results[s])
  {
    hide SumTokens, ValidPlan, Runs, Told, Untold;
    InitialHolds(p, resume);
    RunTells(p, w, InitialSys(p, resume), acts, y, s);
  }

  // ------------------------------------------------------------------- the answer

  lemma {:induction false} ReturnedBySnapshot(p: Plan, w: World, x: Sys, acts: seq<Action>, y: Sys)
    returns (k: nat, z: Sys)
    requires ValidPlan(p) && Inv(p, x) && Runs(p, w, x, acts, y) && y.main.Returned? && !x.main.Returned?
    ensures k < |acts| && acts[k] == TakeSnapshot && Runs(p, w, x, acts[..k], z)
    ensures Inv(p, z) && Enabled(p, w, z, TakeSnapshot) && y.main == Apply(p, w, z, TakeSnapshot).main
    decreases |acts|
  {
    hide ValidPlan, Inv, Enabled, Apply;
    var x1 := Apply(p, w, x, acts[0]);
    StepKeeps(p, w, x, acts[0]);
    ReturnsOnlyNow(p, w, x, acts[0]);
    if x1.main.Returned? {
      TotalStableOutcome(p, w, x1, acts[1..], y);
      k, z := 0, x;
    } else {
      k, z := ReturnedBySnapshot(p, w, x1, acts[1..], y);
      k := k + 1;
      assert acts[..k][1..] == acts[1..][..k - 1] && acts[..k][0] == acts[0];
    }
  }

  lemma ReturnsOnlyNow(p: Plan, w: World, x: Sys, a: Action)
    requires Enabled(p, w, x, a) && !x.main.Returned?
    ensures Apply(p, w, x, a).main.Returned? <==> a == TakeSnapshot
  {
    hide Descendants, Decrement, AllSettled, FinalResults, DepResults, NothingReady, NoMarkedReady;
  }

  /** The answer of every run, aborted or not: what the actions up to the snapshot say. A step that is neither
      resumed nor settled by then is reported cancelled. */
  lemma AnswerTells(p: Plan, w: World, resume: map<Id, Result>, acts: seq<Action>, y: Sys) returns (k: nat)
    requires ValidPlan(p) && resume.Keys <= p.deps.Keys
    requires Runs(p, w, InitialSys(p, resume), acts, y) && y.main.Returned?
    ensures k < |acts| && acts[k] == TakeSnapshot && y.main.final.Keys == p.deps.Keys
    ensures forall s :: s in resume ==> y.main.final[s] == Settled(resume[s])
    ensures forall s :: s in p.deps && s !in resume ==>
              if Untold(acts[..k], s) then y.main.final[s] == Settled(Result(Cancelled, "", 0))
              else exists i: nat :: Told(p, acts[..k], i, s, y.main.final[s])
  {
    var x := InitialSys(p, resume);
    InitialHolds(p, resume);
    var z;
    k, z := ReturnedBySnapshot(p, w, x, acts, y);
    SnapshotFaithful(p, w, z);
    RunKeeps(p, w, x, acts, y);
    ReturnedKeys(p, y);
    hide ValidPlan, Inv, Runs, InitialSys, Told, Untold, Apply, Enabled;
    forall s | s in p.deps && s !in resume
      ensures if Untold(acts[..k], s) then y.main.final[s] == Settled(Result(Cancelled, "", 0))
              else exists i: nat :: Told(p, acts[..k], i, s, y.main.final[s])
    {
      EachResultHasItsCause(p, w, resume, acts[..k], z, s);
      ToldIsNotUntold(p, acts[..k], s, y.main.final[s]);
    }
    forall s | s in resume ensures y.main.final[s] == Settled(resume[s]) {
      EachResultHasItsCause(p, w, resume, acts[..k], z, s);
    }
  }

  lemma ReturnedKeys(p: Plan, y: Sys)
    requires Inv(p, y) && y.main.Returned?
    ensures y.main.final.Keys == p.deps.Keys
  {
  }

  lemma ToldIsNotUntold(p: Plan, acts: seq<Action>, s: Id, e: Entry)
    ensures (exists i: nat :: Told(p, acts, i, s, e)) ==> !Untold(acts, s)
  {
  }

  /** So a completed step is a resumed one or finished with that very result; a failed one is resumed, finished
      so or has a broken condition; a step that is none of these is cancelled or skipped, and cancelled if it
      gave up waiting for a slot. */
  lemma StatusesAreEarned(p: Plan, w: World, resume: map<Id, Result>, acts: seq<Action>, y: Sys, s: Id)
    requires ValidPlan(p) && resume.Keys <= p.deps.Keys && s in p.deps && s !in resume
    requires Runs(p, w, InitialSys(p, resume), acts, y) && y.main.Returned?
    ensures s in y.main.final && y.main.final[s].Settled?
    ensures var r := y.main.final[s].result;
            && (r.status == Completed ==> Finish(s, r) in acts)
            && (r.status == Failed ==> Finish(s, r) in acts || FailOnCondition(s) in acts)
            && ((forall own :: Finish(s, own) !in acts) && FailOnCondition(s) !in acts ==>
                  r.status == Cancelled || r.status == Skipped)
            && (CancelWaiting(s) in acts ==> r.status == Cancelled)
  {
    var k := AnswerTells(p, w, resume, acts, y);
    EachResultHasItsCause(p, w, resume, acts, y, s);
    hide ValidPlan, Runs, InitialSys;
    var e := y.main.final[s];
    if !Untold(acts[..k], s) {
      var i: nat :| Told(p, acts[..k], i, s, e);
      assert acts[..k][i] == acts[i] && Settles(acts[i], s);
      if CancelWaiting(s) in acts {
        var j :| 0 <= j < |acts| && acts[j] == CancelWaiting(s);
        assert Settles(acts[j], s);
        var m: nat :| Told(p, acts, m, s, y.core.results[s]);
        assert i == m && j == m;
      }
    }
  }

  // ------------------------------------------------------------------- failures, marks and aborts

  /** a is the failure of a step or of its condition. */
  predicate Fails(a: Action) {
    (a.Finish? && a.r.status == Failed) || a.FailOnCondition?
  }

  /** a fails a step that u lies below. */
  ghost predicate FailsAbove(p: Plan, a: Action, u: Id) {
    Fails(a) && Reaches(p.deps, a.s, u)
  }

  ghost predicate FailedAbove(p: Plan, acts: seq<Action>, u: Id) {
    exists i :: 0 <= i < |acts| && FailsAbove(p, acts[i], u)
  }

  lemma FailedAboveMore(p: Plan, acts: seq<Action>, u: Id)
    requires acts != []
    ensures FailedAbove(p, acts, u) <==> FailsAbove(p, acts[0], u) || FailedAbove(p, acts[1..], u)
  {
    hide FailsAbove;
    if i :| 0 <= i < |acts[1..]| && FailsAbove(p, acts[1..][i], u) { assert acts[i + 1] == acts[1..][i]; }
    if i :| 0 <= i < |acts| && FailsAbove(p, acts[i], u) && i > 0 { assert acts[i] == acts[1..][i - 1]; }
  }

  /** What a marks: all below the step it fails, and the direct dependents of a marked step it settles. */
  lemma MarksStep(p: Plan, w: World, x: Sys, a: Action)
    requires p.strategy != Abort && Enabled(p, w, x, a)
    ensures var c, c1 := x.core, Apply(p, w, x, a).core;
            && (a.Propagate? ==> Marked(c, a.s))
            && c1.skipped + c1.cascaded ==
                 c.skipped + c.cascaded
                 + (if Fails(a) then Descendants(p.deps, a.s)
                    else if a.Propagate? then DirectDependents(p.deps, a.s) else {})
  {
    hide Decrement, AllSettled, FinalResults, DepResults, NothingReady, NoMarkedReady, Descendants, DirectDependents;
  }

  lemma MarkStep(p: Plan, w: World, x: Sys, a: Action, u: Id)
    requires p.strategy != Abort && Enabled(p, w, x, a) && MarksClosed(p, x.core) && Closed(p.deps)
    ensures Marked(Apply(p, w, x, a).core, u) <==> Marked(x.core, u) || FailsAbove(p, a, u)
  {
    MarksStep(p, w, x, a);
    hide Apply, Enabled, Reaches;
    if a.Propagate? && u in DirectDependents(p.deps, a.s) { DirectAreMarked(p, x.core, a.s, u); }
    if Fails(a) && Reaches(p.deps, a.s, u) { ReachedIsDeclared(p.deps, a.s, u); }
  }

  lemma ReachedIsDeclared(g: Deps, a: Id, u: Id)
    requires Reaches(g, a, u)
    ensures u in g
  {
    var _ := ReachLast(g, a, u);
  }

  lemma {:induction false} MarksRun(p: Plan, w: World, x: Sys, acts: seq<Action>, y: Sys, u: Id)
    requires p.strategy != Abort && Runs(p, w, x, acts, y) && ValidPlan(p) && Inv(p, x)
    ensures Marked(y.core, u) <==> Marked(x.core, u) || FailedAbove(p, acts, u)
    decreases |acts|
  {
    if acts != [] {
      StepKeeps(p, w, x, acts[0]);
      ClosedMarks(p, x);
      assert Closed(p.deps);
      hide ValidPlan, Inv, Enabled, Apply, FailedAbove, FailsAbove, Marked;
      MarkStep(p, w, x, acts[0], u);
      FailedAboveMore(p, acts, u);
      MarksRun(p, w, Apply(p, w, x, acts[0]), acts[1..], y, u);
    }
  }

  lemma ClosedMarks(p: Plan, x: Sys)
    requires Inv(p, x)
    ensures MarksClosed(p, x.core)
  {
  }

  lemma DirectAreMarked(p: Plan, c: Core, s: Id, u: Id)
    requires MarksClosed(p, c) && Marked(c, s) && u in DirectDependents(p.deps, s)
    ensures Marked(c, u)
  {
  }

  /** Unless failures abort, in every run a step is marked iff it lies below a step that failed or whose
      condition did. */
  lemma MarkedIffFailedAbove(p: Plan, w: World, resume: map<Id, Result>, acts: seq<Action>, y: Sys, u: Id)
    requires ValidPlan(p) && resume.Keys <= p.deps.Keys && p.strategy != Abort
    requires Runs(p, w, InitialSys(p, resume), acts, y)
    ensures Marked(y.core, u) <==> FailedAbove(p, acts, u)
  {
    hide SumTokens, ValidPlan, FailedAbove, Runs;
    InitialHolds(p, resume);
    MarksRun(p, w, InitialSys(p, resume), acts, y, u);
  }

  lemma AbortStep(p: Plan, w: World, x: Sys, a: Action)
    requires Enabled(p, w, x, a)
    ensures Apply(p, w, x, a).core.aborted <==> x.core.aborted || a == CancelContext || (p.strategy == Abort && Fails(a))
  {
    hide Decrement, AllSettled, FinalResults, DepResults, NothingReady, NoMarkedReady, Descendants, DirectDependents;
  }

  /** In every run: the run is aborted iff it was cancelled, or a failure came under the abort strategy. */
  lemma {:induction false} AbortedIff(p: Plan, w: World, x: Sys, acts: seq<Action>, y: Sys)
    requires Runs(p, w, x, acts, y)
    ensures y.core.aborted <==>
              x.core.aborted || exists i :: 0 <= i < |acts| && (acts[i] == CancelContext || (p.strategy == Abort && Fails(acts[i])))
    decreases |acts|
  {
    if acts != [] {
      hide Enabled, Apply, Fails;
      AbortStep(p, w, x, acts[0]);
      AbortedIff(p, w, Apply(p, w, x, acts[0]), acts[1..], y);
      assert acts == [acts[0]] + acts[1..];
      assert forall i :: 0 <= i < |acts| - 1 ==> acts[1..][i] == acts[i + 1];
      assert forall i :: 0 < i < |acts| ==> acts[i] == acts[1..][i - 1];
    }
  }

  predicate InDispatch(x: Sys) {
    x.main.Propagating? || x.main.Launching?
  }

  lemma AbortedStep(p: Plan, w: World, x: Sys, a: Action)
    requires x.core.aborted && !InDispatch(x) && Enabled(p, w, x, a)
    ensures !a.Start? && Apply(p, w, x, a).core.aborted && !InDispatch(Apply(p, w, x, a))
  {
    hide Descendants, Decrement, AllSettled, FinalResults, DepResults, NothingReady, NoMarkedReady;
  }

  /** After an abort the dispatch in progress is the last that starts anything. */
  lemma {:induction false} AbortStartsNothing(p: Plan, w: World, x: Sys, acts: seq<Action>, y: Sys)
    requires x.core.aborted && !InDispatch(x) && Runs(p, w, x, acts, y)
    ensures forall s :: Start(s) !in acts
    decreases |acts|
  {
    if acts != [] {
      hide Enabled, Apply, InDispatch;
      AbortedStep(p, w, x, acts[0]);
      AbortStartsNothing(p, w, Apply(p, w, x, acts[0]), acts[1..], y);
      assert acts == [acts[0]] + acts[1..];
    }
  }

  // ------------------------------------------------------------------- giving up

  /** After an abort a step that waits for a slot can give up at once, without one. */
  lemma WaiterGivesUp(p: Plan, w: World, x: Sys, s: Id) returns (y: Sys)
    requires x.core.aborted && MutexFree(x) && InPhase(x, s, WaitingSlot)
    ensures Runs(p, w, x, [CancelWaiting(s)], y) && y.holders == x.holders
    ensures IsSettled(y.core.results, s) && y.core.results[s].result == Result(Cancelled, "", 0)
    ensures InPhase(y, s, Signalling)
  {
    y := Apply(p, w, x, CancelWaiting(s));
    assert [CancelWaiting(s)][1..] == [];
    assert Runs(p, w, y, [], y);
  }

  /** An abort drain, or a success drain whose context is done, need not wait for any goroutine. */
  lemma GraceEnds(p: Plan, w: World, x: Sys) returns (y: Sys)
    requires x.main.AbortDrain? || (x.main.SuccessDrain? && x.ctxDone)
    ensures Runs(p, w, x, [Drained(true), TakeSnapshot], y) && y.main.Returned?
  {
    hide FinalResults;
    var x1 := Apply(p, w, x, Drained(true));
    y := Apply(p, w, x1, TakeSnapshot);
    var acts := [Drained(true), TakeSnapshot];
    assert acts[1..] == [TakeSnapshot] && acts[1..][1..] == [];
    assert Runs(p, w, x1, [TakeSnapshot], y);
  }

  /** Run gives up on its goroutines only after an abort or a cancellation. */
  predicate Patient(x: Sys) {
    && (x.main.AbortDrain? ==> x.core.aborted)
    && (x.main == Snapshot(true) ==> x.core.aborted || x.ctxDone)
  }

  lemma PatientStep(p: Plan, w: World, x: Sys, a: Action)
    requires Patient(x) && Enabled(p, w, x, a)
    ensures Patient(Apply(p, w, x, a))
  {
    AbortStep(p, w, x, a);
    hide Decrement, AllSettled, FinalResults, DepResults, NothingReady, NoMarkedReady, Descendants, DirectDependents,
         Finished, Propagated, ConditionBroken, ConditionSkipped;
  }

  lemma ContextStep(p: Plan, w: World, x: Sys, a: Action)
    requires Enabled(p, w, x, a)
    ensures Apply(p, w, x, a).ctxDone <==> x.ctxDone || a == CancelContext
  {
  }

  /** In every run the context is done iff it was cancelled. */
  lemma {:induction false} ContextDoneIff(p: Plan, w: World, x: Sys, acts: seq<Action>, y: Sys)
    requires Runs(p, w, x, acts, y)
    ensures y.ctxDone <==> x.ctxDone || CancelContext in acts
    decreases |acts|
  {
    if acts != [] {
      hide Enabled, Apply;
      ContextStep(p, w, x, acts[0]);
      ContextDoneIff(p, w, Apply(p, w, x, acts[0]), acts[1..], y);
      assert acts == [acts[0]] + acts[1..];
    }
  }

  /** A run starts uncancelled and uncut: in every run from the start the drain is cut short only after a failure
      under the abort strategy or a cancellation. */
  lemma CutShortNeedsReason(p: Plan, w: World, resume: map<Id, Result>, acts: seq<Action>, y: Sys)
    requires Runs(p, w, InitialSys(p, resume), acts, y) && (y.main.AbortDrain? || y.main == Snapshot(true))
    ensures CancelContext in acts || (p.strategy == Abort && exists i :: 0 <= i < |acts| && Fails(acts[i]))
  {
    hide SumTokens, Runs;
    DrainIsPatient(p, w, InitialSys(p, resume), acts, y);
    AbortedIff(p, w, InitialSys(p, resume), acts, y);
    ContextDoneIff(p, w, InitialSys(p, resume), acts, y);
    if i :| 0 <= i < |acts| && acts[i] == CancelContext { assert CancelContext in acts; }
  }

  /** In every run: the drain is cut short only after an abort or a cancellation; else the answer waits for all. */
  lemma {:induction false} DrainIsPatient(p: Plan, w: World, x: Sys, acts: seq<Action>, y: Sys)
    requires Patient(x) && Runs(p, w, x, acts, y)
    ensures Patient(y)
    decreases |acts|
  {
    if acts != [] {
      hide Patient, Enabled, Apply;
      PatientStep(p, w, x, acts[0]);
      DrainIsPatient(p, w, Apply(p, w, x, acts[0]), acts[1..], y);
    }
  }
}
