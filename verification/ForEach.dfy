/** The parallel iterations of a forEach step and their aggregation (runForEachStep in
    internal/exec/executor_loop.go). A panicking iteration's outcome is the Failed result that its recover
    records, after the slot has been released. */
module ForEach {
  import opened Options
  import opened RunCore

  /** results[i] of the source: the iteration's index and its step result. */
  datatype Iteration = Iteration(index: nat, result: Result)

  datatype Phase = Waiting | Holding | Running | Failing | Crashing | Ended

  datatype Sys = Sys(phase: seq<Phase>, results: seq<Option<Iteration>>, errs: nat, ctxDone: bool)

  datatype Action =
    | Acquire(i: nat)
    | GiveUp(i: nat)
    | Check(i: nat)
    | Finish(i: nat)
    | Report(i: nat)
    | Panic(i: nat)
    | Recover(i: nat)
    | CancelContext

  const HARD_LIMIT: nat := 100

  /** Everything at once by default, never more than the hard limit. */
  function Limit(requested: int, items: nat): (n: nat)
    ensures n <= 100
    ensures items > 0 ==> n > 0
    ensures 0 < requested <= 100 ==> n == requested
    ensures requested > 100 ==> n == 100
    ensures requested <= 0 ==> n == items || (n == 100 && n < items)
  {
    var wanted := if requested <= 0 then items else requested;
    if wanted > HARD_LIMIT then HARD_LIMIT else wanted
  }

  const CANCELLED: Result := Result(Cancelled, "", 0)

  predicate Bad(r: Result) {
    r.status == Failed || r.status == Cancelled
  }

  predicate Holds(p: Phase) {
    p == Holding || p == Running || p == Failing
  }

  function Held(phase: seq<Phase>): nat {
    if phase == [] then 0 else (if Holds(phase[0]) then 1 else 0) + Held(phase[1..])
  }

  predicate At(x: Sys, i: nat, p: Phase) {
    i < |x.phase| && x.phase[i] == p
  }

  predicate Enabled(x: Sys, limit: nat, a: Action) {
    match a
    case Acquire(i) => At(x, i, Waiting) && Held(x.phase) < limit
    case GiveUp(i) => At(x, i, Waiting) && x.ctxDone
    case Check(i) => At(x, i, Holding)
    case Finish(i) => At(x, i, Running)
    case Report(i) => At(x, i, Failing)
    case Panic(i) => At(x, i, Running)
    case Recover(i) => At(x, i, Crashing)
    case CancelContext => !x.ctxDone
  }

  function Moved(x: Sys, i: nat, p: Phase): Sys
    requires i < |x.phase|
  {
    x.(phase := x.phase[i := p])
  }

  function Recorded(x: Sys, i: nat, r: Result): Sys
    requires i < |x.results|
  {
    x.(results := x.results[i := Some(Iteration(i, r))])
  }

  /** An iteration panics only when its outcome says so. */
  predicate Possible(outcome: nat -> Result, x: Sys, limit: nat, a: Action) {
    Enabled(x, limit, a) && (a.Panic? ==> outcome(a.i).status == Failed)
  }

  function Apply(outcome: nat -> Result, limit: nat, x: Sys, a: Action): Sys
    requires Enabled(x, limit, a) && |x.phase| == |x.results|
  {
    match a
    case Acquire(i) => Moved(x, i, Holding)
    case GiveUp(i) => Recorded(Moved(x, i, Ended), i, CANCELLED)
    case Check(i) => if x.errs > 0 then Recorded(Moved(x, i, Ended), i, CANCELLED) else Moved(x, i, Running)
    case Finish(i) => Recorded(Moved(x, i, if outcome(i).status == Failed then Failing else Ended), i, outcome(i))
    case Report(i) => Moved(x, i, Ended).(errs := x.errs + 1)
    case Panic(i) => Moved(x, i, Crashing)
    case Recover(i) => Recorded(Moved(x, i, Ended), i, outcome(i)).(errs := x.errs + 1)
    case CancelContext => x.(ctxDone := true)
  }

  function Start(n: nat): (x: Sys)
    ensures |x.phase| == |x.results| == n
  {
    Sys(seq(n, _ => Waiting), seq(n, _ => None), 0, false)
  }

  ghost predicate Runs(outcome: nat -> Result, limit: nat, x: Sys, acts: seq<Action>, y: Sys)
    requires |x.phase| == |x.results|
    decreases |acts|
  {
    if acts == [] then x == y
    else Possible(outcome, x, limit, acts[0]) && Runs(outcome, limit, Apply(outcome, limit, x, acts[0]), acts[1..], y)
  }

  // ------------------------------------------------------------------- what every step keeps

  /** An item's record: its own outcome, or a cancellation that some failure or the context explains. */
  ghost predicate ItemOk(outcome: nat -> Result, x: Sys, i: nat)
    requires |x.phase| == |x.results|
  {
    i < |x.phase| ==>
      && (x.results[i].Some? <==> x.phase[i] == Failing || x.phase[i] == Ended)
      && (x.results[i].Some? ==>
            var it := x.results[i].value;
            && it.index == i
            && (it.result == outcome(i) || (it.result == CANCELLED && (x.errs > 0 || x.ctxDone))))
      && (x.phase[i] == Failing ==> x.results[i].value.result == outcome(i) && outcome(i).status == Failed)
      && (x.phase[i] == Crashing ==> outcome(i).status == Failed)
  }

  ghost predicate Inv(outcome: nat -> Result, limit: nat, x: Sys) {
    && |x.phase| == |x.results|
    && (forall i :: ItemOk(outcome, x, i))
    && (x.errs > 0 ==> exists i :: Culprit(outcome, x, i))
    && Held(x.phase) <= limit
  }

  /** A failed iteration that has ended. */
  ghost predicate Culprit(outcome: nat -> Result, x: Sys, i: nat)
    requires |x.phase| == |x.results|
  {
    At(x, i, Ended) && x.results[i].Some? && x.results[i].value.result == outcome(i) && outcome(i).status == Failed
  }

  lemma {:induction false} HeldMove(phase: seq<Phase>, i: nat, p: Phase)
    requires i < |phase|
    ensures Held(phase[i := p]) == Held(phase) - (if Holds(phase[i]) then 1 else 0) + if Holds(p) then 1 else 0
  {
    if i == 0 {
      assert phase[0 := p][1..] == phase[1..];
    } else {
      HeldMove(phase[1..], i - 1, p);
      assert phase[i := p][1..] == phase[1..][i - 1 := p];
    }
  }

  lemma ItemStep(outcome: nat -> Result, limit: nat, x: Sys, a: Action, i: nat)
    requires Inv(outcome, limit, x) && Possible(outcome, x, limit, a)
    ensures ItemOk(outcome, Apply(outcome, limit, x, a), i)
  {
    assert ItemOk(outcome, x, i);
  }

  lemma InvStep(outcome: nat -> Result, limit: nat, x: Sys, a: Action)
    requires Inv(outcome, limit, x) && Possible(outcome, x, limit, a)
    ensures Inv(outcome, limit, Apply(outcome, limit, x, a))
  {
    hide ItemOk;
    var y := Apply(outcome, limit, x, a);
    forall i ensures ItemOk(outcome, y, i) { ItemStep(outcome, limit, x, a, i); }
    if !a.CancelContext? { HeldMove(x.phase, a.i, y.phase[a.i]); }
    CulpritStep(outcome, limit, x, a);
  }

  lemma CulpritStep(outcome: nat -> Result, limit: nat, x: Sys, a: Action)
    requires Inv(outcome, limit, x) && Possible(outcome, x, limit, a)
    ensures var y := Apply(outcome, limit, x, a); y.errs > 0 ==> exists i :: Culprit(outcome, y, i)
  {
    var y := Apply(outcome, limit, x, a);
    if a.Report? || a.Recover? {
      assert ItemOk(outcome, x, a.i);
      assert Culprit(outcome, y, a.i);
    } else if x.errs > 0 {
      var i :| Culprit(outcome, x, i);
      assert Culprit(outcome, y, i);
    }
  }

  lemma {:induction false} RunKeeps(outcome: nat -> Result, limit: nat, x: Sys, acts: seq<Action>, y: Sys)
    requires Inv(outcome, limit, x) && Runs(outcome, limit, x, acts, y)
    ensures Inv(outcome, limit, y) && |y.phase| == |x.phase|
    decreases |acts|
  {
    if acts != [] {
      InvStep(outcome, limit, x, acts[0]);
      RunKeeps(outcome, limit, Apply(outcome, limit, x, acts[0]), acts[1..], y);
    }
  }

  lemma {:induction false} NoneHeld(phase: seq<Phase>)
    requires forall i :: 0 <= i < |phase| ==> phase[i] == Waiting
    ensures Held(phase) == 0
  {
    if phase != [] { NoneHeld(phase[1..]); }
  }

  lemma StartHolds(outcome: nat -> Result, limit: nat, n: nat)
    ensures Inv(outcome, limit, Start(n))
  {
    NoneHeld(Start(n).phase);
  }

  /** At no time do more iterations run than the limit allows. */
  lemma NeverTooMany(outcome: nat -> Result, limit: nat, n: nat, acts: seq<Action>, y: Sys)
    requires Runs(outcome, limit, Start(n), acts, y)
    ensures Held(y.phase) <= limit
  {
    StartHolds(outcome, limit, n);
    RunKeeps(outcome, limit, Start(n), acts, y);
  }

  /** How many iterations have ended with a failed record. */
  function FailedRecords(x: Sys, n: nat): nat
    requires n <= |x.phase| == |x.results|
  {
    if n == 0 then 0
    else FailedRecords(x, n - 1)
         + if x.phase[n - 1] == Ended && x.results[n - 1].Some? && x.results[n - 1].value.result.status == Failed then 1 else 0
  }

  lemma {:induction false} RecordsElsewhere(x: Sys, y: Sys, i: nat, n: nat)
    requires n <= |x.phase| == |x.results| == |y.phase| == |y.results|
    requires forall j :: 0 <= j < n && j != i ==> x.phase[j] == y.phase[j] && x.results[j] == y.results[j]
    ensures FailedRecords(y, n) == FailedRecords(x, n) +
              if i < n then FailedAt(y, i) - FailedAt(x, i) else 0
  {
    if n > 0 { RecordsElsewhere(x, y, i, n - 1); }
  }

  function FailedAt(x: Sys, i: nat): int
    requires i < |x.phase| == |x.results|
  {
    if x.phase[i] == Ended && x.results[i].Some? && x.results[i].value.result.status == Failed then 1 else 0
  }

  lemma ErrorStep(outcome: nat -> Result, limit: nat, x: Sys, a: Action)
    requires Inv(outcome, limit, x) && Possible(outcome, x, limit, a) && x.errs == FailedRecords(x, |x.phase|)
    ensures var y := Apply(outcome, limit, x, a); y.errs == FailedRecords(y, |y.phase|)
  {
    var y := Apply(outcome, limit, x, a);
    if a.CancelContext? {
      RecordsElsewhere(x, y, 0, |x.phase|);
    } else {
      assert ItemOk(outcome, x, a.i);
      RecordsElsewhere(x, y, a.i, |x.phase|);
    }
  }

  lemma {:induction false} ErrorRun(outcome: nat -> Result, limit: nat, x: Sys, acts: seq<Action>, y: Sys)
    requires Inv(outcome, limit, x) && Runs(outcome, limit, x, acts, y) && x.errs == FailedRecords(x, |x.phase|)
    ensures |y.phase| == |y.results| && y.errs == FailedRecords(y, |y.phase|)
    decreases |acts|
  {
    if acts != [] {
      hide Possible, Apply;
      InvStep(outcome, limit, x, acts[0]);
      ErrorStep(outcome, limit, x, acts[0]);
      ErrorRun(outcome, limit, Apply(outcome, limit, x, acts[0]), acts[1..], y);
    }
  }

  lemma {:induction false} NoRecords(n: nat, m: nat)
    requires m <= n
    ensures FailedRecords(Start(n), m) == 0
  {
    if m > 0 { NoRecords(n, m - 1); }
  }

  /** In every interleaving one error is collected for each iteration that ended failed, panics included. */
  lemma OneErrorEach(outcome: nat -> Result, limit: nat, n: nat, acts: seq<Action>, y: Sys)
    requires Runs(outcome, limit, Start(n), acts, y)
    ensures |y.phase| == |y.results| == n && y.errs == FailedRecords(y, n)
  {
    StartHolds(outcome, limit, n);
    NoRecords(n, n);
    ErrorRun(outcome, limit, Start(n), acts, y);
    RunKeeps(outcome, limit, Start(n), acts, y);
  }

  predicate NotStarted(x: Sys, i: nat) {
    At(x, i, Waiting) || At(x, i, Holding)
  }

  /** Once an error is collected, whatever has not started never does: it can only end cancelled. */
  lemma {:induction false} NothingStartsAfterFailure(outcome: nat -> Result, limit: nat, x: Sys, acts: seq<Action>, y: Sys, i: nat)
    requires |x.phase| == |x.results| && x.errs > 0 && NotStarted(x, i) && Runs(outcome, limit, x, acts, y)
    ensures i < |y.phase| == |y.results|
    ensures NotStarted(y, i) || (At(y, i, Ended) && y.results[i] == Some(Iteration(i, Result(Cancelled, "", 0))))
    decreases |acts|
  {
    if acts != [] {
      var x1 := Apply(outcome, limit, x, acts[0]);
      if NotStarted(x1, i) {
        NothingStartsAfterFailure(outcome, limit, x1, acts[1..], y, i);
      } else {
        EndedStays(outcome, limit, x1, acts[1..], y, i);
      }
    }
  }

  lemma {:induction false} EndedStays(outcome: nat -> Result, limit: nat, x: Sys, acts: seq<Action>, y: Sys, i: nat)
    requires |x.phase| == |x.results| && At(x, i, Ended) && Runs(outcome, limit, x, acts, y)
    ensures |y.phase| == |y.results| && At(y, i, Ended) && y.results[i] == x.results[i]
    decreases |acts|
  {
    if acts != [] { EndedStays(outcome, limit, Apply(outcome, limit, x, acts[0]), acts[1..], y, i); }
  }

  /** After a cancellation from outside every waiting iteration can leave at once, without a slot. */
  lemma CancelledWaiterLeaves(outcome: nat -> Result, limit: nat, x: Sys, i: nat) returns (y: Sys)
    requires |x.phase| == |x.results| && At(x, i, Waiting)
    ensures Runs(outcome, limit, x, (if x.ctxDone then [] else [CancelContext]) + [GiveUp(i)], y)
    ensures |y.phase| == |y.results| && At(y, i, Ended) && Held(y.phase) == Held(x.phase)
    ensures y.results[i] == Some(Iteration(i, Result(Cancelled, "", 0)))
  {
    var x1 := if x.ctxDone then x else Apply(outcome, limit, x, CancelContext);
    y := Apply(outcome, limit, x1, GiveUp(i));
    assert [GiveUp(i)][1..] == [];
    assert Runs(outcome, limit, x1, [GiveUp(i)], y);
    var acts := (if x.ctxDone then [] else [CancelContext]) + [GiveUp(i)];
    if !x.ctxDone { assert acts[0] == CancelContext && acts[1..] == [GiveUp(i)]; } else { assert acts == [GiveUp(i)]; }
    HeldMove(x.phase, i, Ended);
  }

  // ------------------------------------------------------------------- the aggregate

  ghost predicate Complete(x: Sys) {
    |x.phase| == |x.results| && forall i :: 0 <= i < |x.phase| ==> x.phase[i] == Ended && x.results[i].Some?
  }

  function Outcomes(outcome: nat -> Result, n: nat): (rs: seq<Result>)
    ensures |rs| == n && forall i :: 0 <= i < n ==> rs[i] == outcome(i)
  {
    seq(n, i requires 0 <= i => outcome(i))
  }

  function ResultsOf(x: Sys): (rs: seq<Result>)
    requires Complete(x)
    ensures |rs| == |x.results| && forall i :: 0 <= i < |rs| ==> rs[i] == x.results[i].value.result
  {
    seq(|x.results|, i requires 0 <= i < |x.results| => x.results[i].value.result)
  }

  ghost predicate SomeBad(rs: seq<Result>) {
    exists i :: 0 <= i < |rs| && Bad(rs[i])
  }

  /** In every interleaving under every limit, without cancellation from outside: the step fails iff some
      item's outcome is bad, and otherwise every iteration's result is its own outcome. */
  lemma ScheduleIndependence(outcome: nat -> Result, limit: nat, n: nat, acts: seq<Action>, y: Sys)
    requires Runs(outcome, limit, Start(n), acts, y) && Complete(y) && !y.ctxDone
    ensures |ResultsOf(y)| == n
    ensures forall i :: 0 <= i < n ==> y.results[i].value.index == i
    ensures SomeBad(ResultsOf(y)) <==> SomeBad(Outcomes(outcome, n))
    ensures SomeBad(ResultsOf(y)) <==> exists i :: 0 <= i < n && outcome(i).status in {Failed, Cancelled}
    ensures !SomeBad(ResultsOf(y)) ==> ResultsOf(y) == Outcomes(outcome, n)
  {
    StartHolds(outcome, limit, n);
    RunKeeps(outcome, limit, Start(n), acts, y);
    var rs := ResultsOf(y);
    var os := Outcomes(outcome, n);
    forall i | 0 <= i < n
      ensures y.results[i].value.index == i && (rs[i] == os[i] || (rs[i] == CANCELLED && y.errs > 0))
    {
      assert ItemOk(outcome, y, i);
    }
    if y.errs > 0 {
      var k: nat :| Culprit(outcome, y, k);
      assert Bad(rs[k]) && Bad(os[k]);
    } else {
      assert rs == os;
    }
    if i :| 0 <= i < n && outcome(i).status in {Failed, Cancelled} { assert Bad(os[i]); }
  }

  function Joined(outcome: nat -> Result, limit: nat, x: Sys, a: Action): (y: Sys)
    requires |x.phase| == |x.results| && Possible(outcome, x, limit, a)
    ensures |y.phase| == |y.results| && Runs(outcome, limit, x, [a], y)
  {
    Apply(outcome, limit, x, a)
  }

  lemma {:induction false} RunsCompose(outcome: nat -> Result, limit: nat, x: Sys, a: seq<Action>, y: Sys,
                                       b: seq<Action>, z: Sys)
    requires |x.phase| == |x.results| && |y.phase| == |y.results|
    requires Runs(outcome, limit, x, a, y) && Runs(outcome, limit, y, b, z)
    ensures Runs(outcome, limit, x, a + b, z)
    decreases |a|
  {
    if a == [] {
      assert a + b == b;
    } else {
      assert (a + b)[1..] == a[1..] + b;
      RunsCompose(outcome, limit, Apply(outcome, limit, x, a[0]), a[1..], y, b, z);
    }
  }

  /** One iteration run to its end while no other holds a slot. */
  lemma RunItem(outcome: nat -> Result, limit: nat, x: Sys, i: nat) returns (acts: seq<Action>, y: Sys)
    requires Inv(outcome, limit, x) && limit > 0 && At(x, i, Waiting) && Held(x.phase) == 0
    ensures Inv(outcome, limit, y) && Runs(outcome, limit, x, acts, y)
    ensures y.phase == x.phase[i := Ended] && Held(y.phase) == 0 && y.ctxDone == x.ctxDone
    ensures y.results == x.results[i := Some(Iteration(i, if x.errs > 0 then CANCELLED else outcome(i)))]
    ensures y.errs == x.errs + if x.errs == 0 && outcome(i).status == Failed then 1 else 0
  {
    hide Runs, Inv;
    InvShape(outcome, limit, x);
    HeldMove(x.phase, i, Ended);
    var x1 := Joined(outcome, limit, x, Acquire(i));
    var x2 := Joined(outcome, limit, x1, Check(i));
    RunsCompose(outcome, limit, x, [Acquire(i)], x1, [Check(i)], x2);
    acts, y := [Acquire(i)] + [Check(i)], x2;
    if x.errs == 0 {
      var x3 := Joined(outcome, limit, x2, Finish(i));
      RunsCompose(outcome, limit, x, acts, x2, [Finish(i)], x3);
      acts, y := acts + [Finish(i)], x3;
      if outcome(i).status == Failed {
        var x4 := Joined(outcome, limit, x3, Report(i));
        RunsCompose(outcome, limit, x, acts, x3, [Report(i)], x4);
        acts, y := acts + [Report(i)], x4;
      }
    }
    RunKeeps(outcome, limit, x, acts, y);
  }

  lemma InvShape(outcome: nat -> Result, limit: nat, x: Sys)
    requires Inv(outcome, limit, x)
    ensures |x.phase| == |x.results|
  {
  }

  /** A step of some iteration, as long as one has not ended. */
  lemma NextMove(outcome: nat -> Result, limit: nat, x: Sys) returns (a: Action)
    requires Inv(outcome, limit, x) && limit > 0 && !Complete(x)
    ensures a != CancelContext && Possible(outcome, x, limit, a) && !a.Panic?
  {
    forall i | 0 <= i < |x.phase| ensures x.results[i].Some? <==> x.phase[i] == Failing || x.phase[i] == Ended {
      assert ItemOk(outcome, x, i);
    }
    var i: nat :| i < |x.phase| && x.phase[i] != Ended;
    if Held(x.phase) > 0 { i := SomeoneHolds(x.phase); }
    if Holds(x.phase[i]) { HolderBelow(x.phase, i); }
    a := if At(x, i, Waiting) then Acquire(i)
         else if At(x, i, Holding) then Check(i)
         else if At(x, i, Running) then Finish(i)
         else if At(x, i, Crashing) then Recover(i)
         else Report(i);
  }

  /** A record, once made, stays. */
  lemma RecordStays(outcome: nat -> Result, limit: nat, x: Sys, a: Action, i: nat)
    requires Inv(outcome, limit, x) && Possible(outcome, x, limit, a) && i < |x.results| && x.results[i].Some?
    ensures Apply(outcome, limit, x, a).results[i] == x.results[i]
  {
    assert ItemOk(outcome, x, i);
  }

  /** Every state can be run to completion without cancellation. */
  lemma {:induction false} RunRest(outcome: nat -> Result, limit: nat, x: Sys, i: nat) returns (acts: seq<Action>, y: Sys)
    requires Inv(outcome, limit, x) && limit > 0 && !x.ctxDone && i < |x.results| && x.results[i].Some?
    ensures |x.phase| == |x.results| == |y.results| && Runs(outcome, limit, x, acts, y) && Complete(y) && !y.ctxDone
    ensures y.results[i] == x.results[i]
    decreases Weights(x.phase)
  {
    hide Inv, Possible;
    InvShape(outcome, limit, x);
    if Complete(x) {
      acts, y := [], x;
    } else {
      var a := NextMove(outcome, limit, x);
      RecordStays(outcome, limit, x, a, i);
      InvStep(outcome, limit, x, a);
      var z := Moves(outcome, limit, x, a);
      var rest;
      rest, y := RunRest(outcome, limit, z, i);
      acts := [a] + rest;
      assert acts[0] == a && acts[1..] == rest;
    }
  }

  lemma Moves(outcome: nat -> Result, limit: nat, x: Sys, a: Action) returns (z: Sys)
    requires |x.phase| == |x.results| && Possible(outcome, x, limit, a) && a != CancelContext
    ensures Enabled(x, limit, a) && z == Apply(outcome, limit, x, a) && z.ctxDone == x.ctxDone
    ensures |z.phase| == |z.results| == |x.phase| && Weights(z.phase) < Weights(x.phase)
  {
    z := Apply(outcome, limit, x, a);
    WeightsMove(x.phase, a.i, z.phase[a.i]);
  }

  /** A run to the end without cancellation from outside. */
  ghost predicate CompleteRun(outcome: nat -> Result, limit: nat, n: nat, acts: seq<Action>, y: Sys) {
    Runs(outcome, limit, Start(n), acts, y) && Complete(y) && !y.ctxDone
  }

  /** Two complete runs record different results. */
  ghost predicate Varies(outcome: nat -> Result, limit: nat, n: nat) {
    exists acts, y, bcts, z ::
      CompleteRun(outcome, limit, n, acts, y) && CompleteRun(outcome, limit, n, bcts, z) && y.results != z.results
  }

  /** Item i's failure can cancel item j, whose own outcome is another. */
  ghost predicate CanCancel(outcome: nat -> Result, n: nat, i: nat, j: nat) {
    i < n && j < n && i != j && outcome(i).status == Failed && outcome(j) != CANCELLED
  }

  /** What the iterations record depends on the schedule iff some item's failure can cancel another. */
  lemma FailureRaces(outcome: nat -> Result, limit: nat, n: nat)
    requires limit > 0
    ensures Varies(outcome, limit, n) <==> exists i, j :: CanCancel(outcome, n, i, j)
  {
    if i, j :| CanCancel(outcome, n, i, j) {
      var acts, y, bcts, z := RaceRuns(outcome, limit, n, i, j);
    }
    if Varies(outcome, limit, n) {
      var acts, y, bcts, z :| CompleteRun(outcome, limit, n, acts, y) && CompleteRun(outcome, limit, n, bcts, z)
                              && y.results != z.results;
      DifferenceIsCancellation(outcome, limit, n, acts, y);
      DifferenceIsCancellation(outcome, limit, n, bcts, z);
    }
  }

  /** j first, and i before j. */
  lemma RaceRuns(outcome: nat -> Result, limit: nat, n: nat, i: nat, j: nat)
    returns (acts: seq<Action>, y: Sys, bcts: seq<Action>, z: Sys)
    requires limit > 0 && CanCancel(outcome, n, i, j)
    ensures CompleteRun(outcome, limit, n, acts, y) && CompleteRun(outcome, limit, n, bcts, z)
    ensures y.results != z.results
  {
    hide Runs, Inv;
    var x := Start(n);
    StartHolds(outcome, limit, n);
    NoneHeld(x.phase);
    var a1, y1 := RunItem(outcome, limit, x, j);
    var a2;
    a2, y := RunRest(outcome, limit, y1, j);
    RunsCompose(outcome, limit, x, a1, y1, a2, y);
    acts := a1 + a2;
    var b1, z1 := RunItem(outcome, limit, x, i);
    var b2, z2 := RunItem(outcome, limit, z1, j);
    RunsCompose(outcome, limit, x, b1, z1, b2, z2);
    var b3;
    b3, z := RunRest(outcome, limit, z2, j);
    RunsCompose(outcome, limit, x, b1 + b2, z2, b3, z);
    bcts := b1 + b2 + b3;
    assert y.results[j] == Some(Iteration(j, outcome(j))) && z.results[j] == Some(Iteration(j, CANCELLED));
  }

  /** Where two complete runs differ, a failure has cancelled an item. */
  lemma DifferenceIsCancellation(outcome: nat -> Result, limit: nat, n: nat, acts: seq<Action>, y: Sys)
    requires CompleteRun(outcome, limit, n, acts, y)
    ensures |y.results| == n
    ensures (exists i, j :: CanCancel(outcome, n, i, j))
            || forall k :: 0 <= k < n ==> y.results[k] == Some(Iteration(k, outcome(k)))
  {
    StartHolds(outcome, limit, n);
    RunKeeps(outcome, limit, Start(n), acts, y);
    if k: nat :| k < n && y.results[k] != Some(Iteration(k, outcome(k))) {
      assert ItemOk(outcome, y, k);
      var i: nat :| Culprit(outcome, y, i);
      assert ItemOk(outcome, y, i);
      assert CanCancel(outcome, n, i, k);
    }
  }

  function TokenSum(rs: seq<Result>): nat {
    if rs == [] then 0 else TokenSum(rs[..|rs| - 1]) + rs[|rs| - 1].tokens
  }

  /** content is that of the last completed iteration, or empty. */
  ghost predicate LastContent(rs: seq<Result>, content: string) {
    || (content == "" && forall i :: 0 <= i < |rs| ==> rs[i].status != Completed)
    || exists k :: 0 <= k < |rs| && rs[k].status == Completed && content == rs[k].payload
                   && forall i :: k < i < |rs| ==> rs[i].status != Completed
  }

  /** The aggregation loop: each result lands at its own index, content is the last completed item's, tokens
      add up over all iterations, and any failed or cancelled iteration fails the step. */
  method Aggregate(results: seq<Iteration>) returns (iterations: array<Result>, content: string, tokens: nat,
                   status: Status)
    requires forall i :: 0 <= i < |results| ==> results[i].index == i
    ensures fresh(iterations) && |iterations[..]| == |results|
    ensures forall i :: 0 <= i < |results| ==> iterations[i] == results[i].result
    ensures LastContent(iterations[..], content) && tokens == TokenSum(iterations[..])
    ensures status == if SomeBad(iterations[..]) then Failed else Completed
    ensures status == Failed <==> exists i :: 0 <= i < |results| && results[i].result.status in {Failed, Cancelled}
  {
    iterations := new Result[|results|](_ => CANCELLED);
    content, tokens := "", 0;
    var failed := false;
    ghost var rs: seq<Result> := [];
    for n := 0 to |results|
      invariant |rs| == n && iterations[..n] == rs
      invariant forall i :: 0 <= i < n ==> rs[i] == results[i].result
      invariant LastContent(rs, content) && tokens == TokenSum(rs)
      invariant failed <==> SomeBad(rs)
    {
      var sr := results[n].result;
      tokens := tokens + sr.tokens;
      LastContentStep(rs, content, sr);
      if sr.status == Completed {
        content := sr.payload;
      }
      iterations[results[n].index] := sr;
      BadStep(rs, sr);
      if sr.status == Failed || sr.status == Cancelled {
        failed := true;
      }
      assert (rs + [sr])[..n] == rs;
      rs := rs + [sr];
    }
    assert iterations[..] == rs;
    BadMeans(rs);
    assert forall i :: 0 <= i < |results| ==> rs[i].status == results[i].result.status;
    status := if failed then Failed else Completed;
  }

  lemma LastContentStep(rs: seq<Result>, content: string, sr: Result)
    requires LastContent(rs, content)
    ensures LastContent(rs + [sr], if sr.status == Completed then sr.payload else content)
  {
    var longer := rs + [sr];
    if sr.status == Completed {
      assert longer[|rs|] == sr;
    } else if k :| 0 <= k < |rs| && rs[k].status == Completed && content == rs[k].payload
                   && forall i :: k < i < |rs| ==> rs[i].status != Completed {
      assert longer[k] == rs[k];
    }
  }

  lemma BadMeans(rs: seq<Result>)
    ensures SomeBad(rs) <==> exists i :: 0 <= i < |rs| && rs[i].status in {Failed, Cancelled}
  {
    if i :| 0 <= i < |rs| && rs[i].status in {Failed, Cancelled} { assert Bad(rs[i]); }
  }

  lemma BadStep(rs: seq<Result>, sr: Result)
    ensures SomeBad(rs + [sr]) <==> SomeBad(rs) || Bad(sr)
  {
    var longer := rs + [sr];
    if Bad(sr) { assert Bad(longer[|rs|]); }
    if SomeBad(rs) {
      var i :| 0 <= i < |rs| && Bad(rs[i]);
      assert Bad(longer[i]);
    }
  }

  lemma LastContentUnique(rs: seq<Result>, a: string, b: string)
    requires LastContent(rs, a) && LastContent(rs, b)
    ensures a == b
  {
    if k :| 0 <= k < |rs| && rs[k].status == Completed && a == rs[k].payload
            && forall i :: k < i < |rs| ==> rs[i].status != Completed {
      if j :| 0 <= j < |rs| && rs[j].status == Completed && b == rs[j].payload
              && forall i :: j < i < |rs| ==> rs[i].status != Completed {
        assert !(k < j) && !(j < k);
      }
    }
  }

  /** What Aggregate makes of a complete run is a function of the outcomes: the status always, and the content
      and the tokens unless the step fails. */
  lemma AggregateOfOutcomes(outcome: nat -> Result, limit: nat, n: nat, acts: seq<Action>, y: Sys,
                            content: string, tokens: nat, status: Status)
    requires CompleteRun(outcome, limit, n, acts, y)
    requires LastContent(ResultsOf(y), content) && tokens == TokenSum(ResultsOf(y))
    requires status == if SomeBad(ResultsOf(y)) then Failed else Completed
    ensures status == Failed <==> exists i :: 0 <= i < n && outcome(i).status in {Failed, Cancelled}
    ensures status != Failed ==> LastContent(Outcomes(outcome, n), content) && tokens == TokenSum(Outcomes(outcome, n))
    ensures status != Failed ==> forall other :: LastContent(Outcomes(outcome, n), other) ==> other == content
  {
    ScheduleIndependence(outcome, limit, n, acts, y);
    if status != Failed {
      forall other | LastContent(Outcomes(outcome, n), other) ensures other == content {
        LastContentUnique(Outcomes(outcome, n), other, content);
      }
    }
  }

  // ------------------------------------------------------------------- termination

  function Weight(p: Phase): nat {
    match p
    case Waiting => 4
    case Holding => 3
    case Running => 2
    case Failing => 1
    case Crashing => 1
    case Ended => 0
  }

  function Weights(phase: seq<Phase>): nat {
    if phase == [] then 0 else Weight(phase[0]) + Weights(phase[1..])
  }

  function Measure(x: Sys): nat {
    Weights(x.phase) + if x.ctxDone then 0 else 1
  }

  lemma {:induction false} WeightsMove(phase: seq<Phase>, i: nat, p: Phase)
    requires i < |phase|
    ensures Weights(phase[i := p]) == Weights(phase) - Weight(phase[i]) + Weight(p)
  {
    if i == 0 {
      assert phase[0 := p][1..] == phase[1..];
    } else {
      WeightsMove(phase[1..], i - 1, p);
      assert phase[i := p][1..] == phase[1..][i - 1 := p];
    }
  }

  lemma {:induction false} WeightsBound(phase: seq<Phase>)
    ensures Weights(phase) <= 4 * |phase|
  {
    if phase != [] { WeightsBound(phase[1..]); }
  }

  lemma {:induction false} RunsAreBounded(outcome: nat -> Result, limit: nat, x: Sys, acts: seq<Action>, y: Sys)
    requires |x.phase| == |x.results| && Runs(outcome, limit, x, acts, y)
    ensures |acts| + Measure(y) <= Measure(x)
    decreases |acts|
  {
    if acts != [] {
      var z := Apply(outcome, limit, x, acts[0]);
      if !acts[0].CancelContext? { WeightsMove(x.phase, acts[0].i, z.phase[acts[0].i]); }
      RunsAreBounded(outcome, limit, z, acts[1..], y);
    }
  }

  lemma {:induction false} SomeoneHolds(phase: seq<Phase>) returns (i: nat)
    requires Held(phase) > 0
    ensures i < |phase| && Holds(phase[i])
  {
    if Holds(phase[0]) {
      i := 0;
    } else {
      i := SomeoneHolds(phase[1..]);
      i := i + 1;
    }
  }

  /** Every run ends, after at most 4n + 1 steps, with all iterations ended: until then some step of some
      iteration is possible. */
  lemma EveryRunEnds(outcome: nat -> Result, limit: nat, n: nat, acts: seq<Action>, y: Sys) returns (a: Action)
    requires limit > 0 && Runs(outcome, limit, Start(n), acts, y)
    ensures |acts| <= 4 * n + 1
    ensures Complete(y) || (!a.CancelContext? && Possible(outcome, y, limit, a))
  {
    StartHolds(outcome, limit, n);
    RunKeeps(outcome, limit, Start(n), acts, y);
    RunsAreBounded(outcome, limit, Start(n), acts, y);
    WeightsBound(Start(n).phase);
    if Complete(y) { a := CancelContext; } else { a := NextMove(outcome, limit, y); }
  }

  lemma {:induction false} HolderBelow(phase: seq<Phase>, i: nat)
    requires i < |phase| && Holds(phase[i])
    ensures Held(phase) > 0
  {
    if i > 0 { HolderBelow(phase[1..], i - 1); }
  }
}
