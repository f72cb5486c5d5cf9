/** A sequential evaluator of workflows whose conditions read dependency results: what every schedule must
    compute. */
module Evaluator {
  import opened Graph
  import opened RunCore

  /** The dependencies that are still to be settled when a run resumes with the results in prior:
      only these order the steps of the run. */
  ghost function Live(g: Deps, prior: set<Id>): (l: Deps)
    ensures l.Keys == g.Keys - prior
    ensures forall s, d :: s in l ==> (d in l[s] <==> d in g[s] && d !in prior)
  {
    map s | s in g && s !in prior :: Without(g[s], prior)
  }

  function Without(xs: seq<Id>, prior: set<Id>): (r: seq<Id>)
    ensures forall x :: x in r <==> x in xs && x !in prior
  {
    if xs == [] then []
    else if xs[0] in prior then Without(xs[1..], prior)
    else [xs[0]] + Without(xs[1..], prior)
  }

  function BlockedStatus(strategy: Strategy): Status {
    if strategy == SkipDependents then Skipped else Cancelled
  }

  /** The result of step s: resumed results are taken as they are, a step below a failure is
      blocked, and any other step runs on its dependencies' results unless its condition says no. */
  ghost function Eval(p: Plan, w: World, prior: map<Id, Result>, s: Id): Result
    requires ValidPlan(p) && s in p.deps
    decreases Rank(p.order, s), 2
  {
    if s in prior then prior[s]
    else if Blocked(p, w, prior, s) then Blank(BlockedStatus(p.strategy))
    else if EvalVerdict(p, w, prior, s) != Proceed then Blank(Skipped)
    else w.outcome(s, EvalInputs(p, w, prior, s))
  }

  ghost predicate Blocked(p: Plan, w: World, prior: map<Id, Result>, s: Id)
    requires ValidPlan(p) && s in p.deps
    decreases Rank(p.order, s), 0
  {
    exists d :: d in p.deps[s] && d !in prior &&
      (DependencyRanksLower(p.deps, p.order, d, s);
       Blocked(p, w, prior, d) || Eval(p, w, prior, d).status == Failed)
  }

  ghost function EvalDeps(p: Plan, w: World, prior: map<Id, Result>, s: Id): map<Id, Result>
    requires ValidPlan(p) && s in p.deps
    decreases Rank(p.order, s), 0
  {
    map d | d in p.deps[s] :: (DependencyRanksLower(p.deps, p.order, d, s); Eval(p, w, prior, d))
  }

  ghost function EvalInputs(p: Plan, w: World, prior: map<Id, Result>, s: Id): map<Id, Result>
    requires ValidPlan(p) && s in p.deps
    decreases Rank(p.order, s), 1
  {
    if p.deps[s] == [] then p.parent else EvalDeps(p, w, prior, s)
  }

  /** What the condition of s says of its dependencies' results. */
  ghost function EvalVerdict(p: Plan, w: World, prior: map<Id, Result>, s: Id): Verdict
    requires ValidPlan(p) && s in p.deps
    decreases Rank(p.order, s), 1
  {
    w.verdict(s, EvalDeps(p, w, prior, s))
  }

  /** A step blocks its dependents when it failed, or was itself blocked. */
  ghost predicate Blocks(p: Plan, w: World, prior: map<Id, Result>, d: Id)
    requires ValidPlan(p) && d in p.deps
  {
    d !in prior && (Blocked(p, w, prior, d) || Eval(p, w, prior, d).status == Failed)
  }

  lemma BlockedBy(p: Plan, w: World, prior: map<Id, Result>, s: Id)
    requires ValidPlan(p) && s in p.deps
    ensures Blocked(p, w, prior, s) <==> exists d :: d in p.deps[s] && Blocks(p, w, prior, d)
  {
    if Blocked(p, w, prior, s) {
      var d :| d in p.deps[s] && d !in prior &&
        (DependencyRanksLower(p.deps, p.order, d, s);
         Blocked(p, w, prior, d) || Eval(p, w, prior, d).status == Failed);
      assert Blocks(p, w, prior, d);
    }
  }

  /** A step is blocked iff some transitive, still live dependency failed. */
  lemma {:induction false} BlockedIffFailureAbove(p: Plan, w: World, prior: map<Id, Result>, s: Id)
    requires ValidPlan(p) && s in p.deps && s !in prior
    ensures Blocked(p, w, prior, s) <==>
            exists a :: a in p.deps && Reaches(Live(p.deps, prior.Keys), a, s) && Eval(p, w, prior, a).status == Failed
    decreases Rank(p.order, s)
  {
    var l := Live(p.deps, prior.Keys);
    BlockedBy(p, w, prior, s);
    if Blocked(p, w, prior, s) {
      var d :| d in p.deps[s] && Blocks(p, w, prior, d);
      assert d in l[s];
      DependencyRanksLower(p.deps, p.order, d, s);
      ReachDirect(l, d, s);
      if Eval(p, w, prior, d).status != Failed {
        BlockedIffFailureAbove(p, w, prior, d);
        var a :| a in p.deps && Reaches(l, a, d) && Eval(p, w, prior, a).status == Failed;
        ReachExtend(l, a, d, s);
      }
    }
    if a :| a in p.deps && Reaches(l, a, s) && Eval(p, w, prior, a).status == Failed {
      var d := ReachLast(l, a, s);
      assert d in p.deps[s] && d !in prior;
      DependencyRanksLower(p.deps, p.order, d, s);
      BlockedIffFailureAbove(p, w, prior, d);
      assert Blocks(p, w, prior, d);
    }
  }

  ghost predicate SameQuestion(p: Plan, q: Plan) {
    p.deps == q.deps && p.strategy == q.strategy && p.parent == q.parent
  }

  lemma BlockedAgrees(p: Plan, q: Plan, w: World, prior: map<Id, Result>, s: Id)
    requires ValidPlan(p) && ValidPlan(q) && SameQuestion(p, q) && s in p.deps
    requires forall d :: d in p.deps[s] ==> Blocks(p, w, prior, d) == Blocks(q, w, prior, d)
    ensures Blocked(p, w, prior, s) == Blocked(q, w, prior, s)
  {
    hide Eval, Blocked, Blocks;
    BlockedBy(p, w, prior, s);
    BlockedBy(q, w, prior, s);
  }

  lemma InputsAgree(p: Plan, q: Plan, w: World, prior: map<Id, Result>, s: Id)
    requires ValidPlan(p) && ValidPlan(q) && SameQuestion(p, q) && s in p.deps
    requires forall d :: d in p.deps[s] ==> Eval(p, w, prior, d) == Eval(q, w, prior, d)
    ensures EvalInputs(p, w, prior, s) == EvalInputs(q, w, prior, s)
    ensures EvalVerdict(p, w, prior, s) == EvalVerdict(q, w, prior, s)
  {
    hide Eval, Blocked;
  }

  /** The evaluator does not depend on the declaration order, on which topological order is
      used, or on the number of slots. */
  lemma {:induction false} EvalIsIntrinsic(p: Plan, q: Plan, w: World, prior: map<Id, Result>, s: Id)
    requires ValidPlan(p) && ValidPlan(q) && SameQuestion(p, q) && s in p.deps
    ensures Eval(p, w, prior, s) == Eval(q, w, prior, s)
    ensures Blocked(p, w, prior, s) == Blocked(q, w, prior, s)
    ensures EvalVerdict(p, w, prior, s) == EvalVerdict(q, w, prior, s)
    decreases Rank(p.order, s)
  {
    forall d | d in p.deps[s]
      ensures Eval(p, w, prior, d) == Eval(q, w, prior, d)
      ensures Blocks(p, w, prior, d) == Blocks(q, w, prior, d)
    {
      hide Eval, Blocked, EvalInputs, EvalVerdict;
      DependencyRanksLower(p.deps, p.order, d, s);
      EvalIsIntrinsic(p, q, w, prior, d);
    }
    BlockedAgrees(p, q, w, prior, s);
    InputsAgree(p, q, w, prior, s);
    hide Blocked, EvalInputs, EvalVerdict;
  }
}
