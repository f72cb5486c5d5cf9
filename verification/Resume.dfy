/** The single-flight resume of a finished step: ResumeStep, runResume and the registry of resume
    states (internal/exec/executor_resume.go). Callers are numbered; caller n brings mailbox n, wake
    channel n and a fresh resume id. */
module Resume {
  import opened Options

  /** The fields of resumeState that its mutex guards. */
  datatype Fields = Fields(running: bool, mailbox: Option<nat>, wake: Option<nat>, activeId: string)

  const FREE: Fields := Fields(false, None, None, "")

  /** The resume_ prefix makes every generated id non-empty. */
  datatype World = World(ids: nat -> string, cap: int, hasSink: bool)

  ghost predicate ValidWorld(w: World) {
    forall n: nat :: w.ids(n) != ""
  }

  function Claim(w: World, n: nat): Fields {
    Fields(true, Some(n), Some(n), w.ids(n))
  }

  // ------------------------------------------------------------------- the object and its registry

  class ResumeState {
    var running: bool
    var activeMailbox: Option<nat>
    var activeWake: Option<nat>
    var activeResumeID: string

    constructor ()
      ensures Now() == FREE
    {
      running, activeMailbox, activeWake, activeResumeID := false, None, None, "";
    }

    function Now(): Fields
      reads this
    {
      Fields(running, activeMailbox, activeWake, activeResumeID)
    }

    /** The critical section of ResumeStep: claim the step, or read what the running resume published. */
    method TryClaim(w: World, n: nat) returns (claimed: bool, seen: Fields)
      modifies this
      ensures claimed <==> !old(Now()).running
      ensures claimed ==> Now() == seen == Claim(w, n)
      ensures !claimed ==> Now() == old(Now()) == seen
    {
      if running {
        return false, Now();
      }
      running := true;
      activeMailbox := Some(n);
      activeWake := Some(n);
      activeResumeID := w.ids(n);
      return true, Now();
    }

    /** The critical section of every owner's way out. */
    method Release()
      modifies this
      ensures Now() == FREE
    {
      running := false;
      activeMailbox := None;
      activeWake := None;
      activeResumeID := "";
    }
  }

  class ResumeStates {
    var m: map<string, ResumeState>

    constructor ()
      ensures m == map[]
    {
      m := map[];
    }

    /** One state per step for the life of the executor: the same object for every caller. */
    method Get(stepID: string) returns (s: ResumeState)
      modifies this
      ensures stepID in m && m[stepID] == s
      ensures stepID in old(m) ==> m == old(m)
      ensures stepID !in old(m) ==> m == old(m)[stepID := s] && fresh(s) && s.Now() == FREE
    {
      if stepID !in m {
        var created := new ResumeState();
        m := m[stepID := created];
      }
      s := m[stepID];
    }
  }

  // ------------------------------------------------------------------- the protocol

  datatype Failure = LoadFailed | ResolverMissing | ResolverError | ResolvedNil

  datatype ModelCheck = Matches | NoResolver | ResolverFails | ResolvesToNil | Resolves

  /** How a goroutine got past its runner: without a first drain (no model, a shutdown, or tool names that
      clash), by the runner's return, or by a panic of it. */
  datatype Ending = NeverDrained | Finished | Panicked

  /** Where a call of ResumeStep, or the goroutine it spawned, has got to. */
  datatype Stage =
    | Loading
    | CheckingModel
    | Starting
    | Working
    | Exiting(how: Ending)
    | Released(how: Ending)
    | Rejected(why: Failure)
    | Queueing(seen: Fields)
    | Queued(box: nat, late: bool)
    | BoxFull(box: nat)
    | Unheard

  datatype Sys = Sys(fields: Fields, stage: map<nat, Stage>, boxes: map<nat, seq<nat>>, heard: set<nat>, active: int)

  datatype Action =
    | Enter(n: nat)
    | Load(n: nat, ok: bool)
    | Check(n: nat, outcome: ModelCheck)
    | Begin(n: nat)
    | GiveUp(n: nat)
    | Drain(n: nat)
    | Return(n: nat)
    | Panic(n: nat)
    | Release(n: nat)
    | Append(n: nat)

  function Box(x: Sys, m: nat): seq<nat> {
    if m in x.boxes then x.boxes[m] else []
  }

  predicate At(x: Sys, n: nat, s: Stage) {
    n in x.stage && x.stage[n] == s
  }

  /** n holds the step: it claimed it and has not released it. */
  predicate Owns(x: Sys, n: nat) {
    n in x.stage && (x.stage[n] in {Loading, CheckingModel, Starting, Working} || x.stage[n].Exiting?)
  }

  /** The runner of owner m may still read its mailbox. */
  predicate StillReads(x: Sys, m: nat) {
    m in x.stage && x.stage[m] in {Loading, CheckingModel, Starting, Working}
  }

  predicate Enabled(x: Sys, a: Action) {
    match a
    case Enter(n) => n !in x.stage
    case Load(n, _) => At(x, n, Loading)
    case Check(n, _) => At(x, n, CheckingModel)
    case Begin(n) => At(x, n, Starting)
    case GiveUp(n) => At(x, n, Starting)
    case Drain(n) => At(x, n, Working)
    case Return(n) => At(x, n, Working)
    case Panic(n) => At(x, n, Working)
    case Release(n) => n in x.stage && x.stage[n].Exiting?
    case Append(n) => n in x.stage && x.stage[n].Queueing?
  }

  function Moved(x: Sys, n: nat, s: Stage): Sys {
    x.(stage := x.stage[n := s])
  }

  /** The runner takes everything in its mailbox: as turns, or as announced drops when it ends. Only info
      messages get there, so no drain stops early. */
  function Emptied(x: Sys, n: nat): Sys {
    x.(heard := x.heard + (set q | q in Box(x, n)), boxes := x.boxes[n := []])
  }

  function Apply(w: World, x: Sys, a: Action): Sys
    requires Enabled(x, a)
  {
    match a
    case Enter(n) =>
      if x.fields.running then Moved(x, n, Queueing(x.fields))
      else Moved(x, n, Loading).(fields := Claim(w, n))
    case Load(n, ok) =>
      if ok then Moved(x, n, CheckingModel) else Moved(x, n, Rejected(LoadFailed)).(fields := FREE)
    case Check(n, outcome) =>
      (match outcome
       case Matches => Moved(x, n, Starting).(active := x.active + 1)
       case Resolves => Moved(x, n, Starting).(active := x.active + 1)
       case NoResolver => Moved(x, n, Rejected(ResolverMissing)).(fields := FREE)
       case ResolverFails => Moved(x, n, Rejected(ResolverError)).(fields := FREE)
       case ResolvesToNil => Moved(x, n, Rejected(ResolvedNil)).(fields := FREE))
    case Begin(n) => Moved(x, n, Working)
    case GiveUp(n) => Moved(x, n, Exiting(NeverDrained))
    case Drain(n) => Emptied(x, n)
    case Return(n) => Moved(if w.hasSink then Emptied(x, n) else x, n, Exiting(Finished))
    case Panic(n) => Moved(x, n, Exiting(Panicked))
    case Release(n) => Moved(x, n, Released(x.stage[n].how)).(fields := FREE, active := x.active - 1)
    case Append(n) =>
      var seen := x.stage[n].seen;
      if seen.mailbox.None? then Moved(x, n, Unheard)
      else
        var m := seen.mailbox.value;
        if w.cap > 0 && |Box(x, m)| >= w.cap then Moved(x, n, BoxFull(m))
        else Moved(x, n, Queued(m, !StillReads(x, m))).(boxes := x.boxes[m := Box(x, m) + [n]])
  }

  const START: Sys := Sys(FREE, map[], map[], {}, 0)

  ghost predicate Runs(w: World, x: Sys, acts: seq<Action>, y: Sys)
    decreases |acts|
  {
    if acts == [] then x == y else Enabled(x, acts[0]) && Runs(w, Apply(w, x, acts[0]), acts[1..], y)
  }

  // ------------------------------------------------------------------- what every step keeps

  /** Either nobody owns the step and everything is clear, or one caller does and everything is its own. */
  ghost predicate Exclusive(w: World, x: Sys) {
    && (forall n :: Owns(x, n) ==> x.fields == Claim(w, n))
    && (forall n, k :: Owns(x, n) && Owns(x, k) ==> n == k)
    && (x.fields == FREE || (x.fields.mailbox.Some? && Owns(x, x.fields.mailbox.value)))
  }

  /** m claimed the step at some time. */
  predicate OnceOwned(x: Sys, m: nat) {
    m in x.stage && !x.stage[m].Queueing? && !x.stage[m].Queued? && !x.stage[m].BoxFull? && !x.stage[m].Unheard?
  }

  /** What n saw is the complete publication of one owner. */
  ghost predicate SawOne(w: World, x: Sys, n: nat) {
    n in x.stage && x.stage[n].Queueing? ==>
      var seen := x.stage[n].seen;
      seen.mailbox.Some? && OnceOwned(x, seen.mailbox.value) && seen == Claim(w, seen.mailbox.value)
  }

  ghost predicate SawOwner(w: World, x: Sys) {
    && (forall n :: SawOne(w, x, n))
    && (forall n :: n in x.stage ==> !x.stage[n].Unheard?)
  }

  /** n's goroutine is live. */
  predicate Spawned(x: Sys, n: nat) {
    n in x.stage && (x.stage[n] in {Starting, Working} || x.stage[n].Exiting?)
  }

  ghost predicate CountsActive(x: Sys) {
    x.active == if exists n :: Spawned(x, n) then 1 else 0
  }

  ghost predicate Capped(w: World, x: Sys) {
    w.cap > 0 ==> forall m :: |Box(x, m)| <= w.cap
  }

  ghost predicate Inv(w: World, x: Sys) {
    Exclusive(w, x) && SawOwner(w, x) && CountsActive(x) && Capped(w, x)
  }

  lemma ExclusiveStep(w: World, x: Sys, a: Action)
    requires ValidWorld(w) && Exclusive(w, x) && Enabled(x, a)
    ensures Exclusive(w, Apply(w, x, a))
  {
    var y := Apply(w, x, a);
    forall n | n != a.n ensures Owns(y, n) <==> Owns(x, n) {}
    if a.Enter? {
      assert x.fields.running ==> Owns(y, x.fields.mailbox.value);
    } else {
      assert Owns(x, a.n) || a.Append?;
    }
  }

  lemma SawOwnerStep(w: World, x: Sys, a: Action)
    requires Exclusive(w, x) && SawOwner(w, x) && Enabled(x, a)
    ensures SawOwner(w, Apply(w, x, a))
  {
    var y := Apply(w, x, a);
    ActiveMove(w, x, a);
    forall n ensures SawOne(w, y, n) && (n in y.stage ==> !y.stage[n].Unheard?) {
      assert SawOne(w, x, n);
      if n == a.n {
        SawNow(w, x, a);
      } else if n in x.stage && x.stage[n].Queueing? {
        OwnedStays(w, x, a, x.stage[n].seen.mailbox.value);
      }
      hide Apply, Enabled, OnceOwned, Exclusive;
    }
  }

  lemma SawNow(w: World, x: Sys, a: Action)
    requires Exclusive(w, x) && SawOne(w, x, a.n) && Enabled(x, a)
    ensures SawOne(w, Apply(w, x, a), a.n) && !Apply(w, x, a).stage[a.n].Unheard?
  {
    var y := Apply(w, x, a);
    if a.Enter? && x.fields.running {
      var m := x.fields.mailbox.value;
      assert Owns(x, m) && OnceOwned(x, m) && y.stage[m] == x.stage[m];
    }
  }

  lemma ActiveStep(w: World, x: Sys, a: Action)
    requires Exclusive(w, x) && CountsActive(x) && Enabled(x, a)
    ensures CountsActive(Apply(w, x, a))
  {
    var y := Apply(w, x, a);
    ActiveMove(w, x, a);
    hide Apply, Enabled;
    if k: nat :| Spawned(x, k) && k != a.n {
      hide Spawned;
      SpawnedStays(w, x, a, k);
    } else {
      forall n | n != a.n ensures !Spawned(y, n) { assert !Spawned(x, n) && y.stage.Keys == x.stage.Keys + {a.n}; }
      hide Spawned;
      assert Spawned(x, a.n) <==> exists n :: Spawned(x, n);
      assert Spawned(y, a.n) <==> exists n :: Spawned(y, n);
    }
  }

  lemma ActiveMove(w: World, x: Sys, a: Action)
    requires Enabled(x, a)
    ensures var y := Apply(w, x, a);
            && (forall n :: n in x.stage && n != a.n ==> n in y.stage && y.stage[n] == x.stage[n])
            && y.stage.Keys == x.stage.Keys + {a.n}
            && y.active - x.active == (if Spawned(y, a.n) then 1 else 0) - if Spawned(x, a.n) then 1 else 0
  {
  }

  /** While another goroutine is live, a moves no goroutine. */
  lemma SpawnedStays(w: World, x: Sys, a: Action, k: nat)
    requires Exclusive(w, x) && Enabled(x, a) && Spawned(x, k) && k != a.n
    ensures Spawned(Apply(w, x, a), k) && Apply(w, x, a).active == x.active
  {
    assert Owns(x, k);
    assert Owns(x, a.n) ==> a.n == k;
    assert a.Enter? || a.Append?;
  }

  lemma CappedStep(w: World, x: Sys, a: Action)
    requires Capped(w, x) && Enabled(x, a)
    ensures Capped(w, Apply(w, x, a))
  {
    var y := Apply(w, x, a);
    forall m ensures w.cap > 0 ==> |Box(y, m)| <= w.cap {
      assert w.cap > 0 ==> |Box(x, m)| <= w.cap;
    }
  }

  lemma {:induction false} RunKeeps(w: World, x: Sys, acts: seq<Action>, y: Sys)
    requires ValidWorld(w) && Inv(w, x) && Runs(w, x, acts, y)
    ensures Inv(w, y)
    decreases |acts|
  {
    if acts != [] {
      ExclusiveStep(w, x, acts[0]);
      SawOwnerStep(w, x, acts[0]);
      ActiveStep(w, x, acts[0]);
      CappedStep(w, x, acts[0]);
      RunKeeps(w, Apply(w, x, acts[0]), acts[1..], y);
    }
  }

  /** In every interleaving of callers: at most one owner; running, the mailbox, the wake channel and the
      resume id are set together, exactly while there is an owner; the goroutine counter is 1 or 0. */
  lemma SingleFlight(w: World, acts: seq<Action>, y: Sys)
    requires ValidWorld(w) && Runs(w, START, acts, y)
    ensures forall n, k :: Owns(y, n) && Owns(y, k) ==> n == k
    ensures y.fields.running <==> exists n :: Owns(y, n)
    ensures y.fields.running <==> y.fields.mailbox.Some?
    ensures y.fields.running <==> y.fields.wake.Some?
    ensures y.fields.running <==> y.fields.activeId != ""
    ensures y.active == if exists n :: Spawned(y, n) then 1 else 0
    ensures w.cap > 0 ==> forall m :: |Box(y, m)| <= w.cap
  {
    RunKeeps(w, START, acts, y);
    assert y.fields.running ==> Owns(y, y.fields.mailbox.value);
  }

  /** Every queued caller saw the id, the mailbox and the wake channel of one owner. */
  lemma QueuedCallersSeeAnId(w: World, acts: seq<Action>, y: Sys, n: nat)
    requires ValidWorld(w) && Runs(w, START, acts, y) && n in y.stage
    ensures !y.stage[n].Unheard?
    ensures y.stage[n].Queueing? ==>
              var seen := y.stage[n].seen;
              seen.activeId != "" && seen.mailbox.Some? && seen.wake == seen.mailbox
  {
    RunKeeps(w, START, acts, y);
    assert SawOne(w, y, n);
  }

  // ------------------------------------------------------------------- the lock is always given back

  function Left(s: Stage): nat {
    match s
    case Loading => 5
    case CheckingModel => 4
    case Starting => 3
    case Working => 2
    case Exiting(_) => 1
    case _ => 0
  }

  /** From any reachable state some five of the owner's own steps, or fewer, free the step. */
  lemma {:induction false} OwnerReleases(w: World, x: Sys, n: nat) returns (acts: seq<Action>, y: Sys)
    requires ValidWorld(w) && Inv(w, x) && Owns(x, n)
    ensures Runs(w, x, acts, y) && |acts| <= 5 && y.fields == FREE
    ensures forall i :: 0 <= i < |acts| ==> acts[i].n == n
    decreases Left(x.stage[n])
  {
    var a := match x.stage[n]
             case Loading => Load(n, true)
             case CheckingModel => Check(n, Matches)
             case Starting => Begin(n)
             case Working => Return(n)
             case _ => Release(n);
    acts, y := FollowOwner(w, x, n, a);
  }

  lemma {:induction false} FollowOwner(w: World, x: Sys, n: nat, a: Action) returns (acts: seq<Action>, y: Sys)
    requires ValidWorld(w) && Inv(w, x) && Owns(x, n) && Enabled(x, a) && a.n == n && !a.Drain?
    ensures Runs(w, x, acts, y) && |acts| <= Left(x.stage[n]) && y.fields == FREE
    ensures acts != [] && acts[0] == a
    ensures forall i :: 0 <= i < |acts| ==> acts[i].n == n
    decreases Left(x.stage[n])
  {
    var z := Apply(w, x, a);
    ExclusiveStep(w, x, a);
    SawOwnerStep(w, x, a);
    ActiveStep(w, x, a);
    CappedStep(w, x, a);
    if Owns(z, n) {
      var b := match z.stage[n]
               case CheckingModel => Check(n, Matches)
               case Starting => Begin(n)
               case Working => Return(n)
               case _ => Release(n);
      var rest, y1 := FollowOwner(w, z, n, b);
      acts, y := [a] + rest, y1;
      assert acts[1..] == rest;
    } else {
      acts, y := [a], z;
      assert acts[1..] == [];
    }
  }

  // ------------------------------------------------------------------- where each caller gets to

  /** The move that rejects a resume in this way, and no other does. */
  function RejectedBy(n: nat, why: Failure): Action {
    match why
    case LoadFailed => Load(n, false)
    case ResolverMissing => Check(n, NoResolver)
    case ResolverError => Check(n, ResolverFails)
    case ResolvedNil => Check(n, ResolvesToNil)
  }

  /** The move that ends a runner in this way. */
  function EndedBy(n: nat, how: Ending): Action {
    match how
    case NeverDrained => GiveUp(n)
    case Finished => Return(n)
    case Panicked => Panic(n)
  }

  lemma OneMoveRejects(w: World, x: Sys, a: Action, n: nat, why: Failure)
    requires Enabled(x, a)
    ensures At(Apply(w, x, a), n, Rejected(why)) <==> At(x, n, Rejected(why)) || a == RejectedBy(n, why)
  {
  }

  lemma OneMoveEnds(w: World, x: Sys, a: Action, n: nat, how: Ending)
    requires Enabled(x, a)
    ensures Ended(Apply(w, x, a), n, how) <==> Ended(x, n, how) || a == EndedBy(n, how)
  {
  }

  lemma {:induction false} MovesDecide(w: World, x: Sys, acts: seq<Action>, y: Sys, n: nat, why: Failure, how: Ending)
    requires Runs(w, x, acts, y)
    ensures At(y, n, Rejected(why)) <==> At(x, n, Rejected(why)) || RejectedBy(n, why) in acts
    ensures Ended(y, n, how) <==> Ended(x, n, how) || EndedBy(n, how) in acts
    decreases |acts|
  {
    hide Enabled, Apply, At, Ended, RejectedBy, EndedBy;
    if acts != [] {
      OneMoveRejects(w, x, acts[0], n, why);
      OneMoveEnds(w, x, acts[0], n, how);
      MovesDecide(w, Apply(w, x, acts[0]), acts[1..], y, n, why, how);
      assert acts == [acts[0]] + acts[1..];
    }
  }

  /** In every run: a resume is rejected in a way iff its load or model check went that way, and a runner has
      ended in a way iff it did so. */
  lemma DecidedIff(w: World, acts: seq<Action>, y: Sys, n: nat)
    requires Runs(w, START, acts, y)
    ensures At(y, n, Rejected(LoadFailed)) <==> Load(n, false) in acts
    ensures At(y, n, Rejected(ResolverMissing)) <==> Check(n, NoResolver) in acts
    ensures At(y, n, Rejected(ResolverError)) <==> Check(n, ResolverFails) in acts
    ensures At(y, n, Rejected(ResolvedNil)) <==> Check(n, ResolvesToNil) in acts
    ensures Ended(y, n, NeverDrained) <==> GiveUp(n) in acts
    ensures Ended(y, n, Finished) <==> Return(n) in acts
    ensures Ended(y, n, Panicked) <==> Panic(n) in acts
  {
    MovesDecide(w, START, acts, y, n, LoadFailed, NeverDrained);
    MovesDecide(w, START, acts, y, n, ResolverMissing, Finished);
    MovesDecide(w, START, acts, y, n, ResolverError, Panicked);
    MovesDecide(w, START, acts, y, n, ResolvedNil, Panicked);
  }

  /** A call claims the step iff nobody owns it. */
  lemma EnterClaimsIff(w: World, acts: seq<Action>, x: Sys, n: nat)
    requires ValidWorld(w) && Runs(w, START, acts, x) && Enabled(x, Enter(n))
    ensures var y := Apply(w, x, Enter(n));
            && (At(y, n, Loading) <==> forall k :: !Owns(x, k))
            && (y.stage[n].Queueing? <==> exists k :: Owns(x, k))
  {
    SingleFlight(w, acts, x);
  }

  /** A queueing caller's message goes to the tail of an owner's mailbox iff that is below the cap. */
  lemma AppendDecides(w: World, acts: seq<Action>, x: Sys, n: nat)
    requires ValidWorld(w) && Runs(w, START, acts, x) && n in x.stage && x.stage[n].Queueing?
    ensures var y := Apply(w, x, Append(n));
            exists m :: OnceOwned(x, m) && x.stage[n].seen == Claim(w, m) &&
              if w.cap > 0 && |Box(x, m)| == w.cap then y == x.(stage := x.stage[n := BoxFull(m)])
              else At(y, n, Queued(m, !StillReads(x, m))) && Box(y, m) == Box(x, m) + [n]
  {
    RunKeeps(w, START, acts, x);
    assert SawOne(w, x, n);
    var m := x.stage[n].seen.mailbox.value;
    assert w.cap > 0 ==> |Box(x, m)| <= w.cap;
  }

  /** An owner whose transcript loads goes on to its runner, with the model it had or a resolved one, and its own
      moves change nothing else on the way. */
  lemma ResumeGoesOn(w: World, x: Sys, n: nat, resolved: bool) returns (acts: seq<Action>, y: Sys)
    requires At(x, n, Loading)
    ensures acts == [Load(n, true), Check(n, if resolved then Resolves else Matches), Begin(n)]
    ensures Runs(w, x, acts, y) && y == x.(stage := x.stage[n := Working], active := x.active + 1)
  {
    var y1 := Apply(w, x, Load(n, true));
    var check := Check(n, if resolved then Resolves else Matches);
    var y2 := Apply(w, y1, check);
    y := Apply(w, y2, Begin(n));
    acts := [Load(n, true), check, Begin(n)];
    assert acts[1..] == [check, Begin(n)] && acts[1..][1..] == [Begin(n)] && acts[1..][1..][1..] == [];
    assert Runs(w, y2, [Begin(n)], y);
    assert Runs(w, y1, [check, Begin(n)], y);
  }

  // ------------------------------------------------------------------- what becomes of a queued message

  /** The goroutine of owner m got past its runner in this way. */
  predicate Ended(x: Sys, m: nat, how: Ending) {
    At(x, m, Exiting(how)) || At(x, m, Released(how))
  }

  /** a takes everything out of mailbox m; without a sink a returning runner does not. */
  predicate Takes(w: World, a: Action, m: nat) {
    a == Drain(m) || (a == Return(m) && w.hasSink)
  }

  /** A queued message's place, by what its owner has done and when it was appended. */
  ghost predicate Placed(w: World, x: Sys, q: nat) {
    q in x.stage && x.stage[q].Queued? ==>
      var m := x.stage[q].box;
      && OnceOwned(x, m)
      && (q in Box(x, m) <==> q !in x.heard)
      && (x.stage[q].late ==> q !in x.heard && !StillReads(x, m))
      && (!x.stage[q].late && Ended(x, m, Finished) && w.hasSink ==> q in x.heard)
      && (!Ended(x, m, Finished) && !Ended(x, m, Panicked) && !At(x, m, Working) ==> q !in x.heard)
  }

  /** Only queued callers' messages are in boxes or heard, each in the box it was put in. */
  ghost predicate Boxed(x: Sys) {
    && (forall m, q :: q in Box(x, m) ==> q in x.stage && x.stage[q].Queued? && x.stage[q].box == m)
    && (forall q :: q in x.heard ==> q in x.stage && x.stage[q].Queued?)
  }

  lemma BoxedStep(w: World, x: Sys, a: Action)
    requires Boxed(x) && Enabled(x, a)
    ensures Boxed(Apply(w, x, a))
  {
    var y := Apply(w, x, a);
    forall m, q | q in Box(y, m) ensures q in y.stage && y.stage[q].Queued? && y.stage[q].box == m {
      if q in Box(x, m) { assert q != a.n; }
    }
  }

  lemma PlacedAppend(w: World, x: Sys, q: nat)
    requires SawOwner(w, x) && Boxed(x) && Enabled(x, Append(q))
    ensures Placed(w, Apply(w, x, Append(q)), q)
  {
    assert SawOne(w, x, q);
  }

  lemma PlacedStep(w: World, x: Sys, a: Action, q: nat)
    requires Boxed(x) && Enabled(x, a) && Placed(w, x, q) && q != a.n
    ensures Placed(w, Apply(w, x, a), q)
  {
    ActiveMove(w, x, a);
    if q in x.stage && x.stage[q].Queued? {
      OwnedStays(w, x, a, x.stage[q].box);
      if x.stage[q].box == a.n { PlacedByOwner(w, x, a, q); } else { PlacedByOther(w, x, a, q); }
    }
  }

  lemma OwnedStays(w: World, x: Sys, a: Action, m: nat)
    requires Enabled(x, a) && OnceOwned(x, m)
    ensures OnceOwned(Apply(w, x, a), m)
  {
  }

  /** A step of the runner that q is queued on. */
  lemma PlacedByOwner(w: World, x: Sys, a: Action, q: nat)
    requires Enabled(x, a) && Placed(w, x, q) && q in x.stage && x.stage[q].Queued? && x.stage[q].box == a.n
    requires q != a.n && OnceOwned(Apply(w, x, a), a.n)
    ensures Placed(w, Apply(w, x, a), q)
  {
  }

  /** A step of anybody else: q stays where it is. */
  lemma PlacedByOther(w: World, x: Sys, a: Action, q: nat)
    requires Boxed(x) && Enabled(x, a) && Placed(w, x, q) && q in x.stage && x.stage[q].Queued?
    requires q != a.n && x.stage[q].box != a.n && OnceOwned(Apply(w, x, a), x.stage[q].box)
    ensures Placed(w, Apply(w, x, a), q)
  {
    var m, y := x.stage[q].box, Apply(w, x, a);
    ActiveMove(w, x, a);
    OthersKeep(w, x, a, m, q);
    hide Apply, Enabled, OnceOwned, Boxed;
    assert m in y.stage && m in x.stage && y.stage[m] == x.stage[m];
  }

  lemma OthersKeep(w: World, x: Sys, a: Action, m: nat, q: nat)
    requires Boxed(x) && Enabled(x, a) && q != a.n && m != a.n && q in x.stage && x.stage[q].Queued? && x.stage[q].box == m
    ensures var y := Apply(w, x, a);
            (q in Box(y, m) <==> q in Box(x, m)) && (q in y.heard <==> q in x.heard)
  {
  }

  lemma {:induction false} AllPlaced(w: World, x: Sys, acts: seq<Action>, y: Sys)
    requires ValidWorld(w) && Inv(w, x) && Boxed(x) && (forall q :: Placed(w, x, q)) && Runs(w, x, acts, y)
    ensures Boxed(y) && forall q :: Placed(w, y, q)
    decreases |acts|
  {
    if acts != [] {
      var z := Apply(w, x, acts[0]);
      RunKeeps(w, x, [acts[0]], z) by { assert [acts[0]][1..] == []; }
      BoxedStep(w, x, acts[0]);
      forall q ensures Placed(w, z, q) {
        if q == acts[0].n {
          if acts[0].Append? { PlacedAppend(w, x, q); }
        } else {
          PlacedStep(w, x, acts[0], q);
        }
      }
      AllPlaced(w, z, acts[1..], y);
    }
  }

  /** Action j of the run takes mailbox m. */
  predicate TakenAt(w: World, acts: seq<Action>, m: nat, j: nat) {
    j < |acts| && Takes(w, acts[j], m)
  }

  /** Message q was appended at action i of the run, and action j took it out of mailbox m. */
  predicate HeardAt(w: World, acts: seq<Action>, q: nat, m: nat, i: nat, j: nat) {
    i < j && TakenAt(w, acts, m, j) && acts[i] == Append(q)
  }

  /** Queued, and either still in its mailbox or heard. */
  ghost predicate InOrHeard(x: Sys, q: nat) {
    q in x.stage && x.stage[q].Queued? && (q in Box(x, x.stage[q].box) <==> q !in x.heard)
  }

  lemma WaitingStep(w: World, x: Sys, a: Action, q: nat)
    requires Enabled(x, a) && InOrHeard(x, q) && Boxed(x)
    ensures var y := Apply(w, x, a);
            && InOrHeard(y, q) && y.stage[q] == x.stage[q]
            && (q in y.heard <==> q in x.heard || Takes(w, a, x.stage[q].box))
  {
  }

  lemma AppendStep(w: World, x: Sys, a: Action, q: nat)
    requires Enabled(x, a) && Boxed(x) && (q in x.stage ==> !x.stage[q].Queued?)
    ensures var y := Apply(w, x, a);
            && (q in y.stage && y.stage[q].Queued? ==> a == Append(q) && InOrHeard(y, q) && q !in y.heard)
            && (a == Append(q) ==> (q in y.stage && y.stage[q].Queued?) || Refused(y, q))
  {
  }

  predicate Refused(x: Sys, q: nat) {
    q in x.stage && (x.stage[q].BoxFull? || x.stage[q].Unheard?)
  }

  lemma RefusedStep(w: World, x: Sys, a: Action, q: nat)
    requires Enabled(x, a) && Refused(x, q)
    ensures Refused(Apply(w, x, a), q)
  {
  }

  lemma {:induction false} RefusedStays(w: World, x: Sys, acts: seq<Action>, y: Sys, q: nat)
    requires Runs(w, x, acts, y) && Refused(x, q)
    ensures Refused(y, q)
    decreases |acts|
  {
    hide Apply, Enabled, Refused;
    if acts != [] {
      RefusedStep(w, x, acts[0], q);
      RefusedStays(w, Apply(w, x, acts[0]), acts[1..], y, q);
    }
  }

  /** A message that waits in mailbox m is heard iff the rest of the run takes that mailbox. */
  lemma {:induction false} WaitingIsHeardIff(w: World, x: Sys, acts: seq<Action>, y: Sys, q: nat)
    requires Runs(w, x, acts, y) && Boxed(x) && InOrHeard(x, q)
    ensures q in y.stage && y.stage[q] == x.stage[q]
    ensures q in y.heard <==> q in x.heard || exists j: nat :: TakenAt(w, acts, x.stage[q].box, j)
    decreases |acts|
  {
    hide Apply, Enabled, Boxed, Takes;
    if acts != [] {
      var m := x.stage[q].box;
      BoxedStep(w, x, acts[0]);
      WaitingStep(w, x, acts[0], q);
      WaitingIsHeardIff(w, Apply(w, x, acts[0]), acts[1..], y, q);
      if j: nat :| TakenAt(w, acts[1..], m, j) { assert TakenAt(w, acts, m, j + 1); }
      if j: nat :| TakenAt(w, acts, m, j) && j > 0 { assert TakenAt(w, acts[1..], m, j - 1); }
      assert Takes(w, acts[0], m) <==> TakenAt(w, acts, m, 0);
    }
  }

  /** In every run a message queued since its start is heard iff a later action takes its mailbox. */
  lemma {:induction false} QueuedIsHeard(w: World, x: Sys, acts: seq<Action>, y: Sys, q: nat)
    requires Runs(w, x, acts, y) && Boxed(x) && q in y.stage && y.stage[q].Queued?
    requires q in x.stage ==> !x.stage[q].Queued?
    ensures q in y.heard <==> exists i: nat, j: nat :: HeardAt(w, acts, q, y.stage[q].box, i, j)
    decreases |acts|
  {
    hide Apply, Enabled, Boxed, Takes;
    var z, rest := Apply(w, x, acts[0]), acts[1..];
    BoxedStep(w, x, acts[0]);
    AppendStep(w, x, acts[0], q);
    if q in z.stage && z.stage[q].Queued? {
      var m := z.stage[q].box;
      WaitingIsHeardIff(w, z, rest, y, q);
      if j: nat :| TakenAt(w, rest, m, j) { assert HeardAt(w, acts, q, m, 0, j + 1); }
      if i: nat, j: nat :| HeardAt(w, acts, q, m, i, j) { assert TakenAt(w, rest, m, j - 1); }
    } else {
      var m := y.stage[q].box;
      QueuedIsHeard(w, z, rest, y, q);
      if i: nat, j: nat :| HeardAt(w, rest, q, m, i, j) { assert HeardAt(w, acts, q, m, i + 1, j + 1); }
      if i: nat, j: nat :| HeardAt(w, acts, q, m, i, j) {
        if i == 0 {
          assert acts[0] == Append(q);
          RefusedStays(w, z, rest, y, q);
        }
        assert HeardAt(w, rest, q, m, i - 1, j - 1);
      }
    }
  }

  /** In every run a queued message was heard iff the runner it was queued on drained its mailbox after the
      append, or returned after it with a sink to tell; else it is still in that mailbox. With a sink, once
      that runner can read no more and unless it panicked: iff it returned, after a first drain, and the
      message was appended before. */
  lemma QueuedIsHeardIff(w: World, acts: seq<Action>, y: Sys, q: nat)
    requires ValidWorld(w) && Runs(w, START, acts, y) && q in y.stage && y.stage[q].Queued?
    ensures y.stage[q].box in y.stage
    ensures q in y.heard <==> exists i: nat, j: nat :: HeardAt(w, acts, q, y.stage[q].box, i, j)
    ensures q !in y.heard <==> q in Box(y, y.stage[q].box)
    ensures w.hasSink && !StillReads(y, y.stage[q].box) && !Ended(y, y.stage[q].box, Panicked) ==>
              (q in y.heard <==> !y.stage[q].late && Ended(y, y.stage[q].box, Finished))
  {
    AllPlaced(w, START, acts, y);
    assert Placed(w, y, q);
    QueuedIsHeard(w, START, acts, y, q);
  }

  /** A caller told that its message was queued, although the resume it was queued on has failed. */
  lemma AbandonedMessage(w: World) returns (acts: seq<Action>, y: Sys)
    requires ValidWorld(w)
    ensures Runs(w, START, acts, y) && y.fields == FREE
    ensures At(y, 1, Queued(0, true)) && At(y, 0, Rejected(LoadFailed)) && 1 !in y.heard
  {
    hide Runs;
    var y1 := Apply(w, START, Enter(0));
    var y2 := Apply(w, y1, Enter(1));
    var y3 := Apply(w, y2, Load(0, false));
    y := Apply(w, y3, Append(1));
    RunsNothing(w, START);
    RunsExtend(w, START, [], START, Enter(0));
    RunsExtend(w, START, [] + [Enter(0)], y1, Enter(1));
    acts := [] + [Enter(0)] + [Enter(1)];
    RunsExtend(w, START, acts, y2, Load(0, false));
    acts := acts + [Load(0, false)];
    RunsExtend(w, START, acts, y3, Append(1));
    acts := acts + [Append(1)];
  }

  lemma RunsNothing(w: World, x: Sys)
    ensures Runs(w, x, [], x)
  {
  }

  lemma {:induction false} RunsExtend(w: World, x: Sys, acts: seq<Action>, y: Sys, a: Action)
    requires Runs(w, x, acts, y) && Enabled(y, a)
    ensures Runs(w, x, acts + [a], Apply(w, y, a))
    decreases |acts|
  {
    hide Enabled, Apply;
    if acts == [] {
      assert [] + [a] == [a] && [a][1..] == [];
      RunsNothing(w, Apply(w, y, a));
    } else {
      assert (acts + [a])[1..] == acts[1..] + [a];
      RunsExtend(w, Apply(w, x, acts[0]), acts[1..], y, a);
    }
  }
}
