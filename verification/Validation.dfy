/** The structural checks of a workflow: step ids, dependency references and cycles
    (ValidateWorkflow and validateInnerSteps in internal/exec/parse.go). */
module Validation {
  import opened Graph
  import opened Scheduler

  datatype IdFault = EmptyId | BadPattern | DuplicateId

  /** A reference from a step to an undeclared step. */
  datatype Missing = Missing(step: Id, dep: Id)

  datatype Verdict =
    | NoSteps
    | BadStepId(index: nat, fault: IdFault)
    | MissingDeps(all: seq<Missing>)
    | Cyclic(nodes: seq<Id>)
    | Accepted(order: seq<Id>)

  predicate Letter(c: char) {
    'a' <= c <= 'z' || 'A' <= c <= 'Z'
  }

  /** ^[a-zA-Z][a-zA-Z0-9_-]*$ */
  predicate MatchesPattern(id: Id) {
    && id != "" && Letter(id[0])
    && forall i :: 1 <= i < |id| ==> Letter(id[i]) || '0' <= id[i] <= '9' || id[i] == '_' || id[i] == '-'
  }

  /** In code points: an ASCII letter, then letters, digits, underscores and hyphens. */
  lemma PatternMeans(id: Id)
    ensures MatchesPattern(id) <==>
              && |id| > 0 && (65 <= id[0] as int <= 90 || 97 <= id[0] as int <= 122)
              && forall i :: 1 <= i < |id| ==>
                   var c := id[i] as int;
                   65 <= c <= 90 || 97 <= c <= 122 || 48 <= c <= 57 || c == 95 || c == 45
  {
  }

  ghost predicate GoodIds(steps: seq<Step>) {
    UniqueIds(steps) && forall i :: 0 <= i < |steps| ==> MatchesPattern(steps[i].id)
  }

  /** Step index is the first whose id is at fault, and this is its first fault. */
  ghost predicate FirstFault(steps: seq<Step>, index: nat, fault: IdFault) {
    && index < |steps| && GoodIds(steps[..index])
    && match fault {
         case EmptyId => steps[index].id == ""
         case BadPattern => steps[index].id != "" && !MatchesPattern(steps[index].id)
         case DuplicateId => MatchesPattern(steps[index].id) && steps[index].id in IdsOf(steps[..index])
       }
  }

  lemma FaultIsBad(steps: seq<Step>, index: nat, fault: IdFault)
    requires FirstFault(steps, index, fault)
    ensures !GoodIds(steps)
  {
    if fault == DuplicateId {
      var s :| s in steps[..index] && s.id == steps[index].id;
      var j :| 0 <= j < index && steps[j] == s;
    }
  }

  method CheckIds(steps: seq<Step>) returns (index: nat, fault: IdFault, seen: set<Id>)
    ensures index < |steps| ==> FirstFault(steps, index, fault)
    ensures index >= |steps| ==> GoodIds(steps) && seen == IdsOf(steps)
  {
    seen, fault := {}, EmptyId;
    index := 0;
    while index < |steps|
      invariant index <= |steps| && GoodIds(steps[..index]) && seen == IdsOf(steps[..index])
    {
      var id := steps[index].id;
      if id == "" {
        return index, EmptyId, seen;
      }
      if !MatchesPattern(id) {
        return index, BadPattern, seen;
      }
      if id in seen {
        return index, DuplicateId, seen;
      }
      assert steps[..index + 1] == steps[..index] + [steps[index]];
      forall i, j | 0 <= i < j < index + 1 ensures steps[i].id != steps[j].id {
        if j == index { assert steps[i] in steps[..index]; }
      }
      seen := seen + {id};
      index := index + 1;
    }
    assert steps[..index] == steps;
  }

  /** The missing references of one step, and of all, in order of appearance. */
  function MissingOf(step: Id, deps: seq<Id>, declared: set<Id>): seq<Missing> {
    if deps == [] then []
    else MissingOf(step, deps[..|deps| - 1], declared)
         + if deps[|deps| - 1] in declared then [] else [Missing(step, deps[|deps| - 1])]
  }

  function AllMissing(steps: seq<Step>, declared: set<Id>): seq<Missing> {
    if steps == [] then []
    else AllMissing(steps[..|steps| - 1], declared)
         + MissingOf(steps[|steps| - 1].id, steps[|steps| - 1].dependsOn, declared)
  }

  /** Every violation is accumulated before any is reported. */
  method FindMissing(steps: seq<Step>, declared: set<Id>) returns (all: seq<Missing>)
    ensures all == AllMissing(steps, declared)
  {
    all := [];
    for i := 0 to |steps|
      invariant all == AllMissing(steps[..i], declared)
    {
      var s := steps[i];
      for k := 0 to |s.dependsOn|
        invariant all == AllMissing(steps[..i], declared) + MissingOf(s.id, s.dependsOn[..k], declared)
      {
        assert s.dependsOn[..k + 1][..k] == s.dependsOn[..k];
        if s.dependsOn[k] !in declared {
          all := all + [Missing(s.id, s.dependsOn[k])];
        }
      }
      assert s.dependsOn[..|s.dependsOn|] == s.dependsOn;
      assert steps[..i + 1][..i] == steps[..i];
    }
    assert steps[..|steps|] == steps;
  }

  lemma {:induction false} MissingOfMembers(step: Id, deps: seq<Id>, declared: set<Id>)
    ensures forall m :: m in MissingOf(step, deps, declared) <==>
              m.step == step && m.dep in deps && m.dep !in declared
  {
    if deps != [] {
      MissingOfMembers(step, deps[..|deps| - 1], declared);
      assert deps == deps[..|deps| - 1] + [deps[|deps| - 1]];
    }
  }

  /** m names a declared step and an undeclared dependency of it. */
  ghost predicate Dangling(steps: seq<Step>, declared: set<Id>, m: Missing) {
    exists i :: 0 <= i < |steps| && steps[i].id == m.step && m.dep in steps[i].dependsOn && m.dep !in declared
  }

  lemma {:induction false} AllMissingMembers(steps: seq<Step>, declared: set<Id>)
    ensures forall m :: m in AllMissing(steps, declared) <==> Dangling(steps, declared, m)
  {
    if steps != [] {
      var n := |steps| - 1;
      AllMissingMembers(steps[..n], declared);
      MissingOfMembers(steps[n].id, steps[n].dependsOn, declared);
      hide Dangling;
      forall m ensures m in AllMissing(steps, declared) <==> Dangling(steps, declared, m) {
        DanglingLast(steps, declared, m);
      }
    }
  }

  lemma DanglingLast(steps: seq<Step>, declared: set<Id>, m: Missing)
    requires steps != []
    ensures var n := |steps| - 1;
            Dangling(steps, declared, m) <==>
            || Dangling(steps[..n], declared, m)
            || (steps[n].id == m.step && m.dep in steps[n].dependsOn && m.dep !in declared)
  {
    var n := |steps| - 1;
    if Dangling(steps[..n], declared, m) {
      var i :| 0 <= i < n && steps[..n][i].id == m.step && m.dep in steps[..n][i].dependsOn && m.dep !in declared;
      assert steps[i].id == m.step;
    }
  }

  lemma NothingMissingIffClosed(steps: seq<Step>)
    requires UniqueIds(steps)
    ensures AllMissing(steps, IdsOf(steps)) == [] <==> Closed(DepsOf(steps))
  {
    AllMissingMembers(steps, IdsOf(steps));
    var all := AllMissing(steps, IdsOf(steps));
    if all == [] {
      forall s, d | s in DepsOf(steps) && d in DepsOf(steps)[s] ensures d in DepsOf(steps) {
        var st :| st in steps && st.id == s;
        var i :| 0 <= i < |steps| && steps[i] == st;
        assert Dangling(steps, IdsOf(steps), Missing(s, d)) || d in IdsOf(steps);
      }
    } else {
      assert all[0] in all;
      var i :| 0 <= i < |steps| && steps[i].id == all[0].step && all[0].dep in steps[i].dependsOn
               && all[0].dep !in IdsOf(steps);
      assert steps[i] in steps;
    }
  }

  /** Accepts exactly the non-empty workflows with well-formed unique ids, closed and acyclic dependencies,
      and returns an order in which every dependency comes first; otherwise it names the first fault. */
  method ValidateWorkflow(steps: seq<Step>) returns (v: Verdict)
    ensures v.Accepted? <==> steps != [] && GoodIds(steps) && Closed(DepsOf(steps)) && Acyclic(DepsOf(steps))
    ensures v.Accepted? ==> TopoOrder(DepsOf(steps), v.order)
    ensures v.NoSteps? <==> steps == []
    ensures v.BadStepId? ==> FirstFault(steps, v.index, v.fault)
    ensures v.MissingDeps? ==>
              GoodIds(steps) && v.all != [] && v.all == AllMissing(steps, IdsOf(steps)) && !Closed(DepsOf(steps))
    ensures v.Cyclic? ==>
              && GoodIds(steps) && Closed(DepsOf(steps))
              && (forall x :: x in v.nodes <==> Unorderable(DepsOf(steps), x))
              && exists a :: a in v.nodes && Reaches(DepsOf(steps), a, a)
  {
    if |steps| == 0 {
      return NoSteps;
    }
    var index, fault, seen := CheckIds(steps);
    if index < |steps| {
      FaultIsBad(steps, index, fault);
      return BadStepId(index, fault);
    }
    var missing := FindMissing(steps, seen);
    NothingMissingIffClosed(steps);
    if |missing| > 0 {
      return MissingDeps(missing);
    }
    v := CheckCycles(steps);
  }

  method CheckCycles(steps: seq<Step>) returns (v: Verdict)
    requires UniqueIds(steps) && Closed(DepsOf(steps))
    ensures v.Accepted? || v.Cyclic?
    ensures v.Accepted? <==> Acyclic(DepsOf(steps))
    ensures v.Accepted? ==> TopoOrder(DepsOf(steps), v.order)
    ensures v.Cyclic? ==>
              && (forall x :: x in v.nodes <==> Unorderable(DepsOf(steps), x))
              && exists a :: a in v.nodes && Reaches(DepsOf(steps), a, a)
  {
    var r := TopoSort(steps);
    match r
    case Order(ids) => v := Accepted(ids);
    case CycleError(nodes) => v := Cyclic(nodes);
  }

  /** The first dangling dependency, if there is one. */
  method FirstMissing(steps: seq<Step>, declared: set<Id>) returns (first: seq<Missing>)
    ensures first == if AllMissing(steps, declared) == [] then [] else [AllMissing(steps, declared)[0]]
  {
    hide AllMissing, MissingOf;
    first := [];
    NothingMissingYet(steps, declared);
    for i := 0 to |steps|
      invariant AllMissing(steps[..i], declared) == []
    {
      var s := steps[i];
      NothingMissingIn(s.id, s.dependsOn, declared);
      for k := 0 to |s.dependsOn|
        invariant MissingOf(s.id, s.dependsOn[..k], declared) == []
      {
        OneStepMore(steps, declared, i, k);
        if s.dependsOn[k] !in declared {
          return [Missing(s.id, s.dependsOn[k])];
        }
      }
      OneStepMore(steps, declared, i, |s.dependsOn|);
    }
    assert steps[..|steps|] == steps;
  }

  lemma {:induction false} NothingMissingYet(steps: seq<Step>, declared: set<Id>)
    ensures AllMissing(steps[..0], declared) == []
  {
  }

  lemma {:induction false} NothingMissingIn(step: Id, deps: seq<Id>, declared: set<Id>)
    ensures MissingOf(step, deps[..0], declared) == []
  {
  }

  /** What the first k references of step i add. */
  lemma {:induction false} OneStepMore(steps: seq<Step>, declared: set<Id>, i: nat, k: nat)
    requires i < |steps| && k <= |steps[i].dependsOn| && AllMissing(steps[..i], declared) == []
    requires MissingOf(steps[i].id, steps[i].dependsOn[..k], declared) == []
    ensures k == |steps[i].dependsOn| ==> AllMissing(steps[..i + 1], declared) == []
    ensures k < |steps[i].dependsOn| ==>
              var d := steps[i].dependsOn[k];
              if d in declared then MissingOf(steps[i].id, steps[i].dependsOn[..k + 1], declared) == []
              else AllMissing(steps, declared) != [] && AllMissing(steps, declared)[0] == Missing(steps[i].id, d)
  {
    var s := steps[i];
    assert steps[..i + 1][..i] == steps[..i];
    assert AllMissing(steps[..i + 1], declared) == MissingOf(s.id, s.dependsOn, declared);
    if k == |s.dependsOn| {
      assert s.dependsOn[..k] == s.dependsOn;
    } else {
      assert s.dependsOn[..k + 1][..k] == s.dependsOn[..k];
      MissingGrows(s.id, s.dependsOn, declared, k + 1);
      AllMissingGrows(steps, declared, i + 1);
    }
  }

  lemma {:induction false} MissingGrows(step: Id, deps: seq<Id>, declared: set<Id>, k: nat)
    requires k <= |deps|
    ensures MissingOf(step, deps[..k], declared) <= MissingOf(step, deps, declared)
  {
    if k < |deps| {
      var n := |deps| - 1;
      assert deps[..n][..k] == deps[..k];
      MissingGrows(step, deps[..n], declared, k);
    } else {
      assert deps[..k] == deps;
    }
  }

  lemma {:induction false} AllMissingGrows(steps: seq<Step>, declared: set<Id>, k: nat)
    requires k <= |steps|
    ensures AllMissing(steps[..k], declared) <= AllMissing(steps, declared)
  {
    if k < |steps| {
      var n := |steps| - 1;
      assert steps[..n][..k] == steps[..k];
      AllMissingGrows(steps[..n], declared, k);
    } else {
      assert steps[..k] == steps;
    }
  }

  /** The inner steps of a loop: there may be none, and only the first missing reference is reported. */
  method ValidateInnerSteps(steps: seq<Step>) returns (v: Verdict)
    ensures v.Accepted? <==> GoodIds(steps) && Closed(DepsOf(steps)) && Acyclic(DepsOf(steps))
    ensures v.Accepted? ==> TopoOrder(DepsOf(steps), v.order)
    ensures !v.NoSteps?
    ensures v.BadStepId? ==> FirstFault(steps, v.index, v.fault)
    ensures v.MissingDeps? ==>
              && GoodIds(steps) && !Closed(DepsOf(steps)) && AllMissing(steps, IdsOf(steps)) != []
              && v.all == [AllMissing(steps, IdsOf(steps))[0]]
    ensures v.Cyclic? ==>
              && GoodIds(steps) && Closed(DepsOf(steps))
              && (forall x :: x in v.nodes <==> Unorderable(DepsOf(steps), x))
              && exists a :: a in v.nodes && Reaches(DepsOf(steps), a, a)
  {
    var index, fault, seen := CheckIds(steps);
    if index < |steps| {
      FaultIsBad(steps, index, fault);
      return BadStepId(index, fault);
    }
    var missing := FirstMissing(steps, seen);
    NothingMissingIffClosed(steps);
    if |missing| > 0 {
      return MissingDeps(missing);
    }
    v := CheckCycles(steps);
  }
}
