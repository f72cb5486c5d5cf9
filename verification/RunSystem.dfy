/** Executor.Run as a transition system: the main loop and one goroutine per started step,
    interleaved at the granularity of the critical sections, channel operations and
    semaphore operations (internal/exec/executor.go). */
module RunSystem {
  import opened Graph
  import opened Schedule
  import opened RunCore
  import Scheduler

  /** A step's goroutine: waiting for a slot, running the step, about to send on the done
      channel, finishing its post-signal work, or gone. */
  datatype Phase = WaitingSlot | Working | Signalling | Closing | Gone

  /** The main goroutine.  It holds the mutex while Entering, Propagating or Launching. */
  datatype Main =
    | Entering | Propagating | Launching
    | Receiving | AbortDrain | SuccessDrain
    | Snapshot(timedOut: bool)
    | Returned(final: map<Id, Entry>, total: nat)

  datatype Sys = Sys(core: Core, phase: map<Id, Phase>, holders: set<Id>,
                     inputs: map<Id, map<Id, Result>>, done: seq<Id>, main: Main, ctxDone: bool)

  datatype Action =
    | CancelContext
    | BeginDispatch
    | Propagate(s: Id)
    | EndPropagation
    | SkipOnCondition(s: Id)
    | FailOnCondition(s: Id)
    | Start(s: Id)
    | EndDispatch
    | Acquire(s: Id)
    | CancelWaiting(s: Id)
    | Finish(s: Id, r: Result)
    | Signal(s: Id)
    | Exit(s: Id)
    | Receive
    | SeeAbort
    | Drained(timedOut: bool)
    | TakeSnapshot

  predicate InPhase(x: Sys, s: Id, ph: Phase) {
    s in x.phase && x.phase[s] == ph
  }

  predicate MutexFree(x: Sys) {
    !x.main.Entering? && !x.main.Propagating? && !x.main.Launching?
  }

  predicate AllGone(x: Sys) {
    forall s :: s in x.phase ==> x.phase[s] == Gone
  }

  predicate NothingReady(p: Plan, c: Core) {
    forall s :: s in p.deps ==> !Ready(c, s)
  }

  predicate NoMarkedReady(p: Plan, c: Core) {
    forall s :: s in p.deps && Marked(c, s) ==> !Ready(c, s)
  }

  function VerdictOn(w: World, x: Sys, s: Id): Verdict {
    w.verdict(s, SettledResults(x.core.results))
  }

  /** Where the main loop goes once a dispatch is over. */
  function AfterDispatch(p: Plan, x: Sys): Main {
    if AllSettled(p, x.core.results) then SuccessDrain else Receiving
  }

  ghost predicate Enabled(p: Plan, w: World, x: Sys, a: Action) {
    match a
    case CancelContext => !x.ctxDone
    case BeginDispatch => x.main.Entering?
    case Propagate(s) => x.main.Propagating? && Ready(x.core, s) && Marked(x.core, s)
    case EndPropagation => x.main.Propagating? && NoMarkedReady(p, x.core)
    case SkipOnCondition(s) => x.main.Launching? && Ready(x.core, s) &&
                               (VerdictOn(w, x, s) == IsFalse || VerdictOn(w, x, s) == MissingData)
    case FailOnCondition(s) => x.main.Launching? && Ready(x.core, s) && VerdictOn(w, x, s) == Broken
    case Start(s) => x.main.Launching? && Ready(x.core, s) && VerdictOn(w, x, s) == Proceed
    case EndDispatch => x.main.Launching? && NothingReady(p, x.core)
    case Acquire(s) => InPhase(x, s, WaitingSlot) && |x.holders| < p.slots
    case CancelWaiting(s) => MutexFree(x) && InPhase(x, s, WaitingSlot) && x.core.aborted
    case Finish(s, r) => MutexFree(x) && InPhase(x, s, Working) && s in x.inputs &&
                         (x.core.aborted || r == w.outcome(s, x.inputs[s]))
    case Signal(s) => InPhase(x, s, Signalling)
    case Exit(s) => InPhase(x, s, Closing)
    case Receive => x.main.Receiving? && x.done != []
    case SeeAbort => x.main.Receiving? && x.core.aborted
    case Drained(timedOut) =>
      if timedOut then x.main.AbortDrain? || (x.main.SuccessDrain? && x.ctxDone)
      else (x.main.AbortDrain? || x.main.SuccessDrain?) && AllGone(x)
    case TakeSnapshot => x.main.Snapshot?
  }

  ghost function Apply(p: Plan, w: World, x: Sys, a: Action): Sys
  {
    match a
    case CancelContext => x.(ctxDone := true, core := x.core.(aborted := true))
    case BeginDispatch => x.(main := if x.core.aborted then AfterDispatch(p, x) else Propagating)
    case Propagate(s) => x.(core := Propagated(p, x.core, s))
    case EndPropagation => x.(main := Launching)
    case SkipOnCondition(s) => x.(core := ConditionSkipped(p, x.core, s))
    case FailOnCondition(s) => x.(core := ConditionBroken(p, x.core, s))
    case Start(s) =>
      if s in p.deps then
        x.(core := Started(x.core, s), phase := x.phase[s := WaitingSlot],
           inputs := x.inputs[s := DepResults(p, x.core.results, s)])
      else x
    case EndDispatch => x.(main := AfterDispatch(p, x))
    case Acquire(s) => x.(phase := x.phase[s := Working], holders := x.holders + {s})
    case CancelWaiting(s) => x.(core := CancelledWaiting(x.core, s), phase := x.phase[s := Signalling])
    case Finish(s, r) => x.(core := Finished(p, x.core, s, r), phase := x.phase[s := Signalling])
    case Signal(s) => x.(phase := x.phase[s := Closing],
                         done := if |x.done| < |p.order| then x.done + [s] else x.done)
    case Exit(s) => x.(phase := x.phase[s := Gone], holders := x.holders - {s})
    case Receive => if x.done == [] then x else x.(done := x.done[1..], main := Entering)
    case SeeAbort => x.(main := AbortDrain)
    case Drained(timedOut) => x.(main := Snapshot(timedOut))
    case TakeSnapshot =>
      x.(main := Returned(FinalResults(p, x.core, x.main.Snapshot? && x.main.timedOut), x.core.tokens))
  }

  ghost function InitialSys(p: Plan, resume: map<Id, Result>): Sys {
    Sys(Initial(p, resume), map[], {}, map[], [], Entering, false)
  }

  // ---------------------------------------------------------------- invariants

  /** In-flight results belong to exactly the goroutines that have not finished, and every
      goroutine belongs to a started step. */
  ghost predicate PhaseInv(x: Sys) {
    && (forall s :: s in x.phase ==> s in x.core.results)
    && (forall s :: s in x.core.running <==> InPhase(x, s, WaitingSlot) || InPhase(x, s, Working))
  }

  ghost predicate SlotInv(p: Plan, x: Sys) {
    && |x.holders| <= p.slots
    && (forall s :: s in x.holders ==> s in x.phase && !x.phase[s].WaitingSlot? && !x.phase[s].Gone?)
    && (forall s :: InPhase(x, s, Working) ==> s in x.holders)
  }

  /** The done queue holds each finished step at most once. */
  ghost predicate QueueInv(x: Sys) {
    && NoDuplicates(x.done)
    && forall s :: s in x.done ==> InPhase(x, s, Closing) || InPhase(x, s, Gone)
  }

  ghost predicate InputOk(p: Plan, results: map<Id, Entry>, inputs: map<Id, map<Id, Result>>, s: Id) {
    && s in inputs && s in p.deps
    && (forall d :: d in p.deps[s] ==> IsSettled(results, d))
    && inputs[s] == DepResults(p, results, s)
  }

  /** A step starts only after all dependencies have settled, and its captured inputs are
      still their results. */
  ghost predicate InputInv(p: Plan, x: Sys) {
    forall s :: s in x.phase ==> InputOk(p, x.core.results, x.inputs, s)
  }

  predicate SignalPending(x: Sys, s: Id) {
    s in x.done || InPhase(x, s, Signalling)
  }

  /** While the main loop waits, a ready step is always announced by a pending signal. */
  ghost predicate WakeInv(p: Plan, x: Sys) {
    x.main.Receiving? && !x.core.aborted && !NothingReady(p, x.core) ==> exists t :: SignalPending(x, t)
  }

  ghost predicate MainInv(p: Plan, x: Sys) {
    match x.main
    case SuccessDrain => AllSettled(p, x.core.results)
    case Receiving => !AllSettled(p, x.core.results) || exists t :: SignalPending(x, t)
    case Snapshot(timedOut) => timedOut || x.core.running == {}
    case Returned(final, total) =>
      final.Keys == p.deps.Keys && AllSettled(p, final) && total == SumTokens(p.ids, final)
    case _ => true
  }

  /** What concerns goroutines, slots and signals only. */
  ghost predicate GoInv(p: Plan, x: Sys) {
    PhaseInv(x) && SlotInv(p, x) && QueueInv(x)
  }

  ghost predicate Inv(p: Plan, x: Sys) {
    CoreInv(p, x.core) && GoInv(p, x) && InputInv(p, x) && WakeInv(p, x) && MainInv(p, x)
  }

  /** Entries are never removed and settled results never change. */
  ghost predicate Grows(a: map<Id, Entry>, b: map<Id, Entry>) {
    && (forall s :: s in a ==> s in b)
    && (forall s :: IsSettled(a, s) ==> b[s] == a[s])
  }

  ghost predicate Keeps(p: Plan, x: Sys, y: Sys) {
    Inv(p, y) && Grows(x.core.results, y.core.results)
  }

  lemma InitialHolds(p: Plan, resume: map<Id, Result>)
    requires ValidPlan(p) && resume.Keys <= p.deps.Keys
    ensures Inv(p, InitialSys(p, resume))
  {
    InitialInv(p, resume);
  }

  // ------------------------------------------------------- the main goroutine

  lemma CancelContextKeeps(p: Plan, w: World, x: Sys)
    requires Inv(p, x) && Enabled(p, w, x, CancelContext)
    ensures Keeps(p, x, Apply(p, w, x, CancelContext))
  {
    hide NothingReady, AllSettled, NoDuplicates, DepResults;
    var y := Apply(p, w, x, CancelContext);
    assert CoreInv(p, y.core);
    SameGo(p, x, y);
    if x.main.Receiving? && AllSettled(p, x.core.results) {
      var t :| SignalPending(x, t);
      assert SignalPending(y, t);
    }
  }

  /** Only the main goroutine, the queue-independent core or the context flag moved. */
  lemma SameGo(p: Plan, x: Sys, y: Sys)
    requires GoInv(p, x) && InputInv(p, x)
    requires y == x.(core := y.core, main := y.main, ctxDone := y.ctxDone)
    requires y.core.results == x.core.results && y.core.running == x.core.running
    ensures GoInv(p, y) && InputInv(p, y)
  {
  }

  lemma DispatchEdgeKeeps(p: Plan, w: World, x: Sys, a: Action)
    requires Inv(p, x) && Enabled(p, w, x, a)
    requires a.BeginDispatch? || a.EndPropagation? || a.EndDispatch?
    ensures Keeps(p, x, Apply(p, w, x, a))
  {
    hide CoreInv, AllSettled, NothingReady, NoDuplicates, DepResults;
    SameGo(p, x, Apply(p, w, x, a));
  }

  lemma LeaveLoopKeeps(p: Plan, w: World, x: Sys, a: Action)
    requires ValidPlan(p) && Inv(p, x) && Enabled(p, w, x, a)
    requires a.SeeAbort? || a.Drained? || a.TakeSnapshot?
    ensures Keeps(p, x, Apply(p, w, x, a))
  {
    hide CoreInv, AllSettled, NothingReady, FinalResults, GoInv, InputInv;
    SameGo(p, x, Apply(p, w, x, a));
    match a
    case SeeAbort =>
    case Drained(timedOut) =>
      if !timedOut { NoneRunning(p, x); }
    case TakeSnapshot => FinalIsTotal(p, x.core, x.main.timedOut);
  }

  lemma NoneRunning(p: Plan, x: Sys)
    requires GoInv(p, x) && AllGone(x)
    ensures x.core.running == {}
  {
    forall s ensures s !in x.core.running {}
  }

  /** A step settled by the dispatcher has no goroutine. */
  lemma DispatchSettleKeeps(p: Plan, x: Sys, s: Id, r: Result, y: Sys)
    requires Inv(p, x) && s !in x.core.results && !MutexFree(x)
    requires y == x.(core := y.core) && CoreInv(p, y.core)
    requires y.core.results == x.core.results[s := Settled(r)]
    requires y.core.running == x.core.running
    ensures Keeps(p, x, y)
  {
    hide CoreInv, AllSettled, NothingReady, NoDuplicates;
    InputsStay(p, x, y);
    assert GoInv(p, y);
  }

  lemma InputOkStays(p: Plan, a: map<Id, Entry>, b: map<Id, Entry>, inputs: map<Id, map<Id, Result>>, s: Id)
    requires InputOk(p, a, inputs, s) && Grows(a, b)
    ensures InputOk(p, b, inputs, s)
  {}

  lemma InputsStay(p: Plan, x: Sys, y: Sys)
    requires InputInv(p, x) && Grows(x.core.results, y.core.results)
    requires x.phase.Keys == y.phase.Keys && x.inputs == y.inputs
    ensures InputInv(p, y)
  {
    forall s | s in y.phase ensures InputOk(p, y.core.results, y.inputs, s) {
      assert s in x.phase;
      InputOkStays(p, x.core.results, y.core.results, x.inputs, s);
    }
  }

  lemma PropagateKeeps(p: Plan, w: World, x: Sys, s: Id)
    requires ValidPlan(p) && Inv(p, x) && Enabled(p, w, x, Propagate(s))
    ensures Keeps(p, x, Apply(p, w, x, Propagate(s)))
  {
    PropagatedInv(p, x.core, s);
    DispatchSettleKeeps(p, x, s, Blank(if s in x.core.cascaded then Cancelled else Skipped), Apply(p, w, x, Propagate(s)));
  }

  lemma SkipKeeps(p: Plan, w: World, x: Sys, s: Id)
    requires ValidPlan(p) && Inv(p, x) && Enabled(p, w, x, SkipOnCondition(s))
    ensures Keeps(p, x, Apply(p, w, x, SkipOnCondition(s)))
  {
    SettleInv(p, x.core, s, Blank(Skipped));
    DispatchSettleKeeps(p, x, s, Blank(Skipped), Apply(p, w, x, SkipOnCondition(s)));
  }

  lemma FailKeeps(p: Plan, w: World, x: Sys, s: Id)
    requires ValidPlan(p) && Inv(p, x) && Enabled(p, w, x, FailOnCondition(s))
    ensures Keeps(p, x, Apply(p, w, x, FailOnCondition(s)))
  {
    var r := Result(Failed, "condition eval", 0);
    SettleInv(p, x.core, s, r);
    OnFailureInv(p, Settle(p, x.core, s, r), s);
    DispatchSettleKeeps(p, x, s, r, Apply(p, w, x, FailOnCondition(s)));
  }

  lemma StartKeeps(p: Plan, w: World, x: Sys, s: Id)
    requires ValidPlan(p) && Inv(p, x) && Enabled(p, w, x, Start(s))
    ensures Keeps(p, x, Apply(p, w, x, Start(s)))
  {
    var y := Apply(p, w, x, Start(s));
    StartedInv(p, x.core, s);
    ReadyHasDeps(p, x.core, s);
    StartParts(p, x, s, y);
  }

  lemma StartParts(p: Plan, x: Sys, s: Id, y: Sys)
    requires GoInv(p, x) && InputInv(p, x) && x.main.Launching? && s !in x.core.results && s in p.deps
    requires y == x.(core := Started(x.core, s), phase := x.phase[s := WaitingSlot],
                     inputs := x.inputs[s := DepResults(p, x.core.results, s)])
    requires forall d :: d in p.deps[s] ==> IsSettled(x.core.results, d)
    ensures GoInv(p, y) && InputInv(p, y) && WakeInv(p, y) && MainInv(p, y)
    ensures Grows(x.core.results, y.core.results)
  {
    hide NoDuplicates, InputInv, DepResults;
    assert s !in x.phase;
    assert PhaseInv(y);
    assert SlotInv(p, y);
    assert QueueInv(y);
    StartInputs(p, x, s, y);
  }

  lemma StartInputs(p: Plan, x: Sys, s: Id, y: Sys)
    requires InputInv(p, x) && s !in x.core.results && s in p.deps && s !in x.phase
    requires y.core.results == x.core.results[s := InFlight]
    requires y.phase.Keys == x.phase.Keys + {s}
    requires y.inputs == x.inputs[s := DepResults(p, x.core.results, s)]
    requires forall d :: d in p.deps[s] ==> IsSettled(x.core.results, d)
    ensures InputInv(p, y)
  {
    assert InputOk(p, x.core.results, y.inputs, s);
    InputOkStays(p, x.core.results, y.core.results, y.inputs, s);
    forall t | t in x.phase ensures InputOk(p, y.core.results, y.inputs, t) {
      assert InputOk(p, x.core.results, y.inputs, t);
      InputOkStays(p, x.core.results, y.core.results, y.inputs, t);
    }
  }

  // ------------------------------------------------------- the step goroutines

  /** Nothing the main loop waits for was taken away. */
  lemma PendingKeeps(p: Plan, x: Sys, y: Sys)
    requires WakeInv(p, x) && MainInv(p, x)
    requires x.core == y.core && x.main == y.main
    requires forall t :: SignalPending(x, t) ==> SignalPending(y, t)
    ensures WakeInv(p, y) && MainInv(p, y)
  {
  }

  lemma AcquireParts(p: Plan, x: Sys, s: Id, y: Sys)
    requires GoInv(p, x) && InPhase(x, s, WaitingSlot) && |x.holders| < p.slots
    requires y == x.(phase := x.phase[s := Working], holders := x.holders + {s})
    ensures GoInv(p, y) && forall t :: SignalPending(x, t) ==> SignalPending(y, t)
  {
    hide NoDuplicates;
    assert s !in x.holders;
  }

  lemma AcquireKeeps(p: Plan, w: World, x: Sys, s: Id)
    requires Inv(p, x) && Enabled(p, w, x, Acquire(s))
    ensures Keeps(p, x, Apply(p, w, x, Acquire(s)))
  {
    hide CoreInv, GoInv, WakeInv, MainInv, InputInv;
    var y := Apply(p, w, x, Acquire(s));
    AcquireParts(p, x, s, y);
    InputsStay(p, x, y);
    PendingKeeps(p, x, y);
  }

  lemma FinishParts(p: Plan, x: Sys, s: Id, y: Sys)
    requires GoInv(p, x) && s in x.core.running
    requires y == x.(core := y.core, phase := x.phase[s := Signalling])
    requires y.core.results.Keys == x.core.results.Keys && y.core.running == x.core.running - {s}
    ensures GoInv(p, y) && SignalPending(y, s)
  {
    hide NoDuplicates;
  }

  lemma FinishLikeKeeps(p: Plan, x: Sys, s: Id, r: Result, y: Sys)
    requires Inv(p, x) && s in x.core.running && MutexFree(x)
    requires y == x.(core := y.core, phase := x.phase[s := Signalling]) && CoreInv(p, y.core)
    requires y.core.results == x.core.results[s := Settled(r)]
    requires y.core.running == x.core.running - {s}
    ensures Keeps(p, x, y)
  {
    hide GoInv, InputInv, Degrees, MarksClosed, TokensAddUp, NothingReady, SumTokens;
    assert x.core.results[s].InFlight?;
    assert GoInv(p, y) && SignalPending(y, s) by { RunningHasPhase(p, x, s); FinishParts(p, x, s, y); }
    RunningHasPhase(p, x, s);
    InputsStay(p, x, y);
  }

  lemma RunningHasPhase(p: Plan, x: Sys, s: Id)
    requires GoInv(p, x) && s in x.core.running
    ensures s in x.phase && s in x.core.results && x.phase[s := Signalling].Keys == x.phase.Keys
  {}

  lemma CancelWaitingKeeps(p: Plan, w: World, x: Sys, s: Id)
    requires ValidPlan(p) && Inv(p, x) && Enabled(p, w, x, CancelWaiting(s))
    ensures Keeps(p, x, Apply(p, w, x, CancelWaiting(s)))
  {
    assert s in x.core.running;
    CancelledInv(p, x.core, s);
    FinishLikeKeeps(p, x, s, Blank(Cancelled), Apply(p, w, x, CancelWaiting(s)));
  }

  lemma FinishKeeps(p: Plan, w: World, x: Sys, s: Id, r: Result)
    requires ValidPlan(p) && Inv(p, x) && Enabled(p, w, x, Finish(s, r))
    ensures Keeps(p, x, Apply(p, w, x, Finish(s, r)))
  {
    assert s in x.core.running;
    FinishedInv(p, x.core, s, r);
    FinishLikeKeeps(p, x, s, r, Apply(p, w, x, Finish(s, r)));
  }

  lemma NoDuplicatesAppend(xs: seq<Id>, s: Id)
    requires NoDuplicates(xs) && s !in xs
    ensures NoDuplicates(xs + [s])
  {}

  /** The done buffer, as long as the workflow, always has room: no signal is ever lost. */
  lemma SignalNeverLost(p: Plan, x: Sys, s: Id)
    requires ValidPlan(p) && GoInv(p, x) && InputInv(p, x) && InPhase(x, s, Signalling)
    ensures |x.done| < |p.order|
  {
    var sent := x.done + [s];
    NoDuplicatesAppend(x.done, s);
    forall t | t in sent ensures t in p.deps.Keys {
      assert t in x.phase;
      assert InputOk(p, x.core.results, x.inputs, t);
    }
    Pigeonhole(sent, p.deps.Keys);
    Scheduler.SizeOf(p.order);
    assert Scheduler.SetOf(p.order) == p.deps.Keys;
  }

  lemma SignalParts(p: Plan, x: Sys, s: Id, y: Sys)
    requires GoInv(p, x) && InPhase(x, s, Signalling)
    requires y == x.(phase := x.phase[s := Closing], done := x.done + [s])
    ensures GoInv(p, y) && forall t :: SignalPending(x, t) ==> SignalPending(y, t)
  {
    assert s !in x.done;
    NoDuplicatesAppend(x.done, s);
    hide NoDuplicates;
    assert PhaseInv(y);
    assert SlotInv(p, y);
    assert y.done[|x.done|] == s;
    forall t | t in x.done ensures t in y.done {}
  }

  lemma SignalKeeps(p: Plan, w: World, x: Sys, s: Id)
    requires ValidPlan(p) && Inv(p, x) && Enabled(p, w, x, Signal(s))
    ensures Keeps(p, x, Apply(p, w, x, Signal(s)))
  {
    hide CoreInv, GoInv, WakeInv, MainInv, InputInv, ValidPlan;
    var y := Apply(p, w, x, Signal(s));
    SignalNeverLost(p, x, s);
    SignalParts(p, x, s, y);
    InputsStay(p, x, y);
    PendingKeeps(p, x, y);
  }

  lemma ExitParts(p: Plan, x: Sys, s: Id, y: Sys)
    requires GoInv(p, x) && InPhase(x, s, Closing)
    requires y == x.(phase := x.phase[s := Gone], holders := x.holders - {s})
    ensures GoInv(p, y) && forall t :: SignalPending(x, t) ==> SignalPending(y, t)
  {
    hide NoDuplicates;
    SubsetIsSmaller(y.holders, x.holders);
  }

  lemma ExitKeeps(p: Plan, w: World, x: Sys, s: Id)
    requires Inv(p, x) && Enabled(p, w, x, Exit(s))
    ensures Keeps(p, x, Apply(p, w, x, Exit(s)))
  {
    hide CoreInv, GoInv, WakeInv, MainInv, InputInv;
    var y := Apply(p, w, x, Exit(s));
    ExitParts(p, x, s, y);
    InputsStay(p, x, y);
    PendingKeeps(p, x, y);
  }

  lemma ReceiveKeeps(p: Plan, w: World, x: Sys)
    requires Inv(p, x) && Enabled(p, w, x, Receive)
    ensures Keeps(p, x, Apply(p, w, x, Receive))
  {
    hide CoreInv, InputInv, DepResults;
    var y := Apply(p, w, x, Receive);
    InputsStay(p, x, y);
    assert PhaseInv(y) && SlotInv(p, y);
    forall i, j | 0 <= i < j < |y.done| ensures y.done[i] != y.done[j] {
      assert y.done[i] == x.done[i + 1] && y.done[j] == x.done[j + 1];
    }
    forall t | t in y.done ensures t in x.done {}
  }

  lemma StepKeeps(p: Plan, w: World, x: Sys, a: Action)
    requires ValidPlan(p) && Inv(p, x) && Enabled(p, w, x, a)
    ensures Keeps(p, x, Apply(p, w, x, a))
  {
    match a
    case CancelContext => CancelContextKeeps(p, w, x);
    case BeginDispatch => DispatchEdgeKeeps(p, w, x, a);
    case Propagate(s) => PropagateKeeps(p, w, x, s);
    case EndPropagation => DispatchEdgeKeeps(p, w, x, a);
    case SkipOnCondition(s) => SkipKeeps(p, w, x, s);
    case FailOnCondition(s) => FailKeeps(p, w, x, s);
    case Start(s) => StartKeeps(p, w, x, s);
    case EndDispatch => DispatchEdgeKeeps(p, w, x, a);
    case Acquire(s) => AcquireKeeps(p, w, x, s);
    case CancelWaiting(s) => CancelWaitingKeeps(p, w, x, s);
    case Finish(s, r) => FinishKeeps(p, w, x, s, r);
    case Signal(s) => SignalKeeps(p, w, x, s);
    case Exit(s) => ExitKeeps(p, w, x, s);
    case Receive => ReceiveKeeps(p, w, x);
    case SeeAbort => LeaveLoopKeeps(p, w, x, a);
    case Drained(_) => LeaveLoopKeeps(p, w, x, a);
    case TakeSnapshot => LeaveLoopKeeps(p, w, x, a);
  }
}
