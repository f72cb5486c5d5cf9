/** The state that Executor.Run guards with its mutex, and the effect of each critical
    section on it (internal/exec/executor.go). */
module RunCore {
  import opened Graph
  import opened Schedule

  datatype Status = Completed | Failed | Cancelled | Skipped

  /** A step result.  payload stands for content, structured result and error. */
  datatype Result = Result(status: Status, payload: string, tokens: nat)

  /** A nil entry of the results map marks a step in flight. */
  datatype Entry = InFlight | Settled(result: Result)

  datatype Strategy = Cascade | SkipDependents | Abort

  /** What evaluating a step's condition yields; a step without a condition proceeds. */
  datatype Verdict = Proceed | IsFalse | MissingData | Broken

  /** A validated workflow: declared ids, dependency lists, the topological order, the failure
      strategy, the number of semaphore slots, and the results an include step passes down. */
  datatype Plan = Plan(ids: seq<Id>, deps: Deps, order: seq<Id>, strategy: Strategy,
                       slots: nat, parent: map<Id, Result>)

  /** Step execution and condition evaluation, uninterpreted. */
  datatype World = World(outcome: (Id, map<Id, Result>) -> Result,
                         verdict: (Id, map<Id, Result>) -> Verdict)

  ghost predicate ValidPlan(p: Plan) {
    && NoDuplicates(p.ids) && |p.ids| == |p.order|
    && (forall s :: s in p.ids <==> s in p.deps)
    && Closed(p.deps)
    && TopoOrder(p.deps, p.order)
    && p.slots >= 1
  }

  datatype Core = Core(results: map<Id, Entry>, inDegree: map<Id, int>, skipped: set<Id>,
                       cascaded: set<Id>, running: set<Id>, tokens: nat, aborted: bool)

  predicate IsSettled(results: map<Id, Entry>, s: Id) {
    s in results && results[s].Settled?
  }

  function SettledIds(results: map<Id, Entry>): set<Id> {
    set s | s in results && results[s].Settled?
  }

  function SettledResults(results: map<Id, Entry>): map<Id, Result> {
    map s | s in results && results[s].Settled? :: results[s].result
  }

  /** Zero in-degree and not yet handled. */
  predicate Ready(c: Core, s: Id) {
    s in c.inDegree && c.inDegree[s] == 0 && s !in c.results
  }

  predicate Marked(c: Core, s: Id) {
    s in c.skipped || s in c.cascaded
  }

  /** The dependency results captured when a step starts. */
  function DepResults(p: Plan, results: map<Id, Entry>, s: Id): map<Id, Result>
    requires s in p.deps
  {
    if p.deps[s] == [] then p.parent
    else map d | d in p.deps[s] && IsSettled(results, d) :: results[d].result
  }

  function Decrement(deps: Deps, inDegree: map<Id, int>, d: Id): map<Id, int> {
    map s | s in inDegree :: inDegree[s] - if s in deps then Occ(deps[s], d) else 0
  }

  ghost function DirectDependents(deps: Deps, d: Id): set<Id> {
    set s | s in deps && d in deps[s]
  }

  function Blank(status: Status): Result {
    Result(status, "", 0)
  }

  /** Stores a result and closes its occurrences in the dependents' in-degrees. */
  function Settle(p: Plan, c: Core, s: Id, r: Result): Core {
    c.(results := c.results[s := Settled(r)], inDegree := Decrement(p.deps, c.inDegree, s))
  }

  ghost function OnFailure(p: Plan, c: Core, s: Id): Core {
    match p.strategy
    case Abort => c.(aborted := true)
    case Cascade => c.(cascaded := c.cascaded + Descendants(p.deps, s))
    case SkipDependents => c.(skipped := c.skipped + Descendants(p.deps, s))
  }

  // ------------------------------------------------------ the critical sections

  /** Propagation of a failure to one marked, ready step. */
  ghost function Propagated(p: Plan, c: Core, s: Id): Core {
    var c1 := Settle(p, c, s, Blank(if s in c.cascaded then Cancelled else Skipped));
    if s in c.skipped then c1.(skipped := c.skipped + DirectDependents(p.deps, s))
    else c1.(cascaded := c.cascaded + DirectDependents(p.deps, s))
  }

  function ConditionSkipped(p: Plan, c: Core, s: Id): Core {
    Settle(p, c, s, Blank(Skipped))
  }

  ghost function ConditionBroken(p: Plan, c: Core, s: Id): Core {
    OnFailure(p, Settle(p, c, s, Result(Failed, "condition eval", 0)), s)
  }

  /** Settling together with leaving the running set and counting the tokens. */
  function Retired(p: Plan, c: Core, s: Id, r: Result): Core {
    Settle(p, c, s, r).(running := c.running - {s}, tokens := c.tokens + r.tokens)
  }

  function Started(c: Core, s: Id): Core {
    c.(results := c.results[s := InFlight], running := c.running + {s})
  }

  ghost function Finished(p: Plan, c: Core, s: Id, r: Result): Core {
    var c1 := Retired(p, c, s, r);
    if r.status == Failed then OnFailure(p, c1, s) else c1
  }

  /** Giving up the wait for a slot: no dependent is decremented. */
  function CancelledWaiting(c: Core, s: Id): Core {
    c.(results := c.results[s := Settled(Blank(Cancelled))], running := c.running - {s})
  }

  // ---------------------------------------------------------------- start state

  function SumTokens(ids: seq<Id>, results: map<Id, Entry>): nat {
    if ids == [] then 0
    else (if IsSettled(results, ids[0]) then results[ids[0]].result.tokens else 0) + SumTokens(ids[1..], results)
  }

  /** The state after indexing the workflow and taking over the results of an earlier run. */
  ghost function Initial(p: Plan, resume: map<Id, Result>): Core {
    var results := map s | s in resume :: Settled(resume[s]);
    Core(results, map s | s in p.deps :: Outside(p.deps[s], resume.Keys), {}, {}, {},
         SumTokens(p.ids, results), false)
  }

  // ------------------------------------------------------------- final snapshot

  /** The results handed to the caller.  After a timed-out drain the steps still running are
      reported cancelled, and so is every step that has no entry at all. */
  function FinalResults(p: Plan, c: Core, timedOut: bool): map<Id, Entry> {
    map s | s in c.results.Keys + p.deps.Keys ::
      if s !in c.results then Settled(Blank(Cancelled))
      else if timedOut && s in c.running && c.results[s].InFlight? then Settled(Blank(Cancelled))
      else c.results[s]
  }

  predicate AllSettled(p: Plan, results: map<Id, Entry>) {
    forall s :: s in p.deps ==> IsSettled(results, s)
  }

  // ---------------------------------------------------------------- invariants

  /** In-degrees count unsettled dependency occurrences, exactly so until an abort. */
  ghost predicate Degrees(p: Plan, c: Core) {
    && c.results.Keys <= p.deps.Keys == c.inDegree.Keys
    && forall s :: s in p.deps ==>
         && c.inDegree[s] >= Outside(p.deps[s], SettledIds(c.results))
         && (!c.aborted ==> c.inDegree[s] == Outside(p.deps[s], SettledIds(c.results)))
  }

  /** Both mark sets are closed under dependents, and only the strategy's own set is used. */
  ghost predicate MarksClosed(p: Plan, c: Core) {
    && ClosedUnderDependents(p.deps, c.skipped)
    && ClosedUnderDependents(p.deps, c.cascaded)
    && (p.strategy != SkipDependents ==> c.skipped == {})
    && (p.strategy != Cascade ==> c.cascaded == {})
  }

  ghost predicate TokensAddUp(p: Plan, c: Core) {
    c.tokens == SumTokens(p.ids, c.results)
  }

  ghost predicate RunningIsInFlight(c: Core) {
    forall s :: s in c.running <==> s in c.results && c.results[s].InFlight?
  }

  ghost predicate CoreInv(p: Plan, c: Core) {
    Degrees(p, c) && MarksClosed(p, c) && TokensAddUp(p, c) && RunningIsInFlight(c)
  }

  // -------------------------------------------------------------- preservation

  lemma SettleDegrees(p: Plan, c: Core, s: Id, r: Result)
    requires Degrees(p, c) && s in p.deps && !IsSettled(c.results, s)
    ensures Degrees(p, Settle(p, c, s, r))
  {
    var c1 := Settle(p, c, s, r);
    assert SettledIds(c1.results) == SettledIds(c.results) + {s};
    forall t | t in p.deps
      ensures Outside(p.deps[t], SettledIds(c1.results)) == Outside(p.deps[t], SettledIds(c.results)) - Occ(p.deps[t], s)
    {
      OutsideSettle(p.deps[t], SettledIds(c.results), s);
    }
  }

  lemma {:induction false} SumUnchanged(ids: seq<Id>, a: map<Id, Entry>, b: map<Id, Entry>)
    requires forall s :: s in ids ==> (IsSettled(a, s) <==> IsSettled(b, s))
    requires forall s :: s in ids && IsSettled(a, s) && IsSettled(b, s) ==> a[s] == b[s]
    ensures SumTokens(ids, a) == SumTokens(ids, b)
  {
    if ids != [] {
      assert ids == [ids[0]] + ids[1..];
      SumUnchanged(ids[1..], a, b);
    }
  }

  lemma {:induction false} SumSettle(ids: seq<Id>, results: map<Id, Entry>, s: Id, r: Result)
    requires NoDuplicates(ids) && s in ids && !IsSettled(results, s)
    ensures SumTokens(ids, results[s := Settled(r)]) == SumTokens(ids, results) + r.tokens
  {
    if ids[0] == s {
      SumUnchanged(ids[1..], results, results[s := Settled(r)]);
    } else {
      SumSettle(ids[1..], results, s, r);
    }
  }

  lemma MarksGrow(p: Plan, m: set<Id>, s: Id)
    requires ClosedUnderDependents(p.deps, m)
    ensures ClosedUnderDependents(p.deps, m + Descendants(p.deps, s))
    ensures s in m ==> DirectDependents(p.deps, s) <= m
  {
    forall x, u | x in m + Descendants(p.deps, s) && u in p.deps && x in p.deps[u]
      ensures u in m + Descendants(p.deps, s)
    {
      if x !in m { ReachExtend(p.deps, s, x, u); }
    }
  }

  lemma RunningShrinks(c: Core, s: Id, r: Result)
    requires RunningIsInFlight(c)
    ensures RunningIsInFlight(c.(results := c.results[s := Settled(r)], running := c.running - {s}))
  {}

  lemma RetiredInv(p: Plan, c: Core, s: Id, r: Result)
    requires ValidPlan(p) && CoreInv(p, c) && s in p.deps && !IsSettled(c.results, s)
    ensures CoreInv(p, Retired(p, c, s, r))
  {
    var c1 := Retired(p, c, s, r);
    SettleDegrees(p, c, s, r);
    assert Degrees(p, c1);
    SumSettle(p.ids, c.results, s, r);
    assert TokensAddUp(p, c1);
    RunningShrinks(c, s, r);
  }

  lemma PropagatedMarks(p: Plan, c: Core, s: Id)
    requires MarksClosed(p, c) && Marked(c, s)
    ensures Propagated(p, c, s).skipped == c.skipped && Propagated(p, c, s).cascaded == c.cascaded
  {
    MarksGrow(p, c.skipped, s);
    MarksGrow(p, c.cascaded, s);
  }

  lemma PropagatedInv(p: Plan, c: Core, s: Id)
    requires ValidPlan(p) && CoreInv(p, c) && Ready(c, s) && Marked(c, s)
    ensures CoreInv(p, Propagated(p, c, s))
  {
    PropagatedMarks(p, c, s);
    SettleInv(p, c, s, Blank(if s in c.cascaded then Cancelled else Skipped));
  }

  lemma SettleInv(p: Plan, c: Core, s: Id, r: Result)
    requires ValidPlan(p) && CoreInv(p, c) && Ready(c, s) && r.tokens == 0
    ensures CoreInv(p, Settle(p, c, s, r))
  {
    RetiredInv(p, c, s, r);
    assert c.running - {s} == c.running;
    assert Retired(p, c, s, r) == Settle(p, c, s, r);
  }

  lemma OnFailureInv(p: Plan, c: Core, s: Id)
    requires CoreInv(p, c)
    ensures CoreInv(p, OnFailure(p, c, s))
  {
    MarksGrow(p, c.skipped, s);
    MarksGrow(p, c.cascaded, s);
  }

  lemma StartedInv(p: Plan, c: Core, s: Id)
    requires ValidPlan(p) && CoreInv(p, c) && Ready(c, s)
    ensures CoreInv(p, Started(c, s))
  {
    var c1 := Started(c, s);
    assert SettledIds(c1.results) == SettledIds(c.results);
    SumUnchanged(p.ids, c.results, c1.results);
  }

  lemma FinishedInv(p: Plan, c: Core, s: Id, r: Result)
    requires ValidPlan(p) && CoreInv(p, c) && s in c.running
    ensures CoreInv(p, Finished(p, c, s, r))
  {
    RetiredInv(p, c, s, r);
    OnFailureInv(p, Retired(p, c, s, r), s);
  }

  lemma CancelledInv(p: Plan, c: Core, s: Id)
    requires ValidPlan(p) && CoreInv(p, c) && s in c.running && c.aborted
    ensures CoreInv(p, CancelledWaiting(c, s))
  {
    var c1 := CancelledWaiting(c, s);
    assert SettledIds(c1.results) == SettledIds(c.results) + {s};
    forall t | t in p.deps
      ensures Outside(p.deps[t], SettledIds(c1.results)) <= Outside(p.deps[t], SettledIds(c.results))
    {
      OutsideSettle(p.deps[t], SettledIds(c.results), s);
    }
    SumSettle(p.ids, c.results, s, Blank(Cancelled));
  }

  lemma InitialInv(p: Plan, resume: map<Id, Result>)
    requires ValidPlan(p) && resume.Keys <= p.deps.Keys
    ensures CoreInv(p, Initial(p, resume))
  {
    var c := Initial(p, resume);
    assert SettledIds(c.results) == resume.Keys;
  }

  /** A ready step has every dependency settled, even after an abort. */
  lemma ReadyHasDeps(p: Plan, c: Core, s: Id)
    requires Degrees(p, c) && Ready(c, s)
    ensures forall d :: d in p.deps[s] ==> IsSettled(c.results, d)
  {
    OutsideZero(p.deps[s], SettledIds(c.results));
  }

  /** The snapshot leaves no step without a result and reports exactly its tokens. */
  lemma FinalIsTotal(p: Plan, c: Core, timedOut: bool)
    requires ValidPlan(p) && CoreInv(p, c)
    requires timedOut || c.running == {}
    ensures FinalResults(p, c, timedOut).Keys == p.deps.Keys
    ensures AllSettled(p, FinalResults(p, c, timedOut))
    ensures c.tokens == SumTokens(p.ids, FinalResults(p, c, timedOut))
    ensures forall s :: IsSettled(c.results, s) ==> FinalResults(p, c, timedOut)[s] == c.results[s]
  {
    var f := FinalResults(p, c, timedOut);
    assert f.Keys == c.results.Keys + p.deps.Keys;
    forall s | s in p.deps ensures IsSettled(f, s) {
      if s in c.results && c.results[s].InFlight? { assert s in c.running; }
    }
    SumOfFinal(p.ids, c.results, f);
  }

  lemma {:induction false} SumOfFinal(ids: seq<Id>, results: map<Id, Entry>, f: map<Id, Entry>)
    requires forall s :: s in ids ==> s in f && f[s].Settled?
    requires forall s :: s in ids ==> if IsSettled(results, s) then f[s] == results[s] else f[s] == Settled(Blank(Cancelled))
    ensures SumTokens(ids, results) == SumTokens(ids, f)
  {
    if ids != [] {
      assert ids == [ids[0]] + ids[1..];
      SumOfFinal(ids[1..], results, f);
    }
  }
}
