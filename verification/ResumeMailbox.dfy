/** The capped mailbox of a running resume (resumeCapMailbox in internal/exec/executor_resume.go):
    a bounded FIFO over one step's queue. */
module ResumeMailbox {
  import opened Mailbox

  /** ErrMailboxFull, the empty id of a closed mailbox, or the id of the stored message. */
  datatype AppendResult = Full | Closed | Stored(id: nat)

  lemma {:induction false} IdSetSize(ms: seq<Mail>)
    requires Increasing(ms)
    ensures |IdSet(ms)| == |ms|
  {
    if ms != [] {
      IdSetSize(ms[1..]);
      assert ms == [ms[0]] + ms[1..];
      assert IdSet(ms) == {ms[0].id} + IdSet(ms[1..]);
    }
  }

  lemma IdSetRemaining(ms: seq<Mail>, gone: set<nat>)
    ensures IdSet(Remaining(ms, gone)) == IdSet(ms) - gone
  {
    RemainingMembers(ms, gone);
    forall id | id in IdSet(ms) - gone ensures id in IdSet(Remaining(ms, gone)) {
      var m :| m in ms && m.id == id;
      assert m in Remaining(ms, gone);
    }
  }

  lemma {:induction false} FewerUnread(ms: seq<Mail>, gone: set<nat>)
    ensures |Remaining(ms, gone)| <= |ms|
  {
    if ms != [] { FewerUnread(ms[1..], gone); }
  }

  lemma AfterMarking(queue: seq<Mail>, counted: set<nat>, read: set<nat>, ids: seq<nat>)
    ensures var gone, left := (set id | id in ids), Remaining(queue, set id | id in ids && id !in read);
            && |left| <= |queue| && |counted - gone| <= |counted|
            && (counted == IdSet(queue) ==>
                  (counted - gone == IdSet(left) <==> forall m :: m in queue && m.id in ids ==> m.id !in read))
  {
    var gone := set id | id in ids && id !in read;
    var all := set id | id in ids;
    FewerUnread(queue, gone);
    IdSetRemaining(queue, gone);
    assert counted == (counted - all) + counted * all;
    if counted == IdSet(queue) {
      if m :| m in queue && m.id in ids && m.id in read {
        assert m.id in counted - gone && m.id !in counted - all;
      } else {
        assert counted - all == counted - gone;
      }
    }
  }

  class CapMailbox {
    const inner: Store
    const maxSize: int
    var outstanding: set<nat>

    /** outstanding is exactly the unread ids, so its size is the queue's length, and within a positive cap. */
    ghost predicate Exact()
      reads this, inner
    {
      && inner.Ordered() && Within()
      && outstanding == IdSet(inner.queue) && |outstanding| == |inner.queue|
    }

    ghost predicate Within()
      reads this, inner
    {
      (inner.closed ==> |inner.queue| == 0) && (maxSize > 0 ==> |outstanding| <= maxSize)
    }

    ghost predicate Valid()
      reads this, inner
    {
      Exact() && inner.Valid()
    }

    constructor (inner: Store, maxSize: int)
      requires inner.Valid() && inner.queue == []
      ensures Valid() && this.inner == inner && this.maxSize == maxSize
    {
      this.inner, this.maxSize, outstanding := inner, maxSize, {};
    }

    method Append(d: Draft) returns (r: AppendResult)
      requires Exact()
      modifies this`outstanding, inner`queue, inner`idSeq
      ensures Exact() && (old(Valid()) ==> Valid())
      ensures r.Full? <==> maxSize > 0 && |old(inner.queue)| >= maxSize
      ensures !r.Full? ==> (r.Closed? <==> inner.closed)
      ensures !r.Stored? ==> inner.queue == old(inner.queue) && outstanding == old(outstanding)
      ensures r.Stored? ==> inner.queue == old(inner.queue) + [Mail(r.id, d)] && r.id !in old(outstanding)
    {
      if maxSize > 0 && |outstanding| >= maxSize {
        return Full;
      }
      var id := inner.Append(d);
      if id == 0 {
        return Closed;
      }
      ghost var before := old(inner.queue);
      assert IdSet(before + [Mail(id, d)]) == IdSet(before) + {id};
      outstanding := outstanding + {id};
      return Stored(id);
    }

    /** Frees the slots of the given ids. */
    method Forget(ids: seq<nat>)
      modifies this`outstanding
      ensures outstanding == old(outstanding) - set id | id in ids
    {
      var i := 0;
      while i < |ids|
        invariant 0 <= i <= |ids|
        invariant outstanding == old(outstanding) - set id | id in ids[..i]
      {
        assert ids[..i + 1] == ids[..i] + [ids[i]];
        outstanding := outstanding - {ids[i]};
        i := i + 1;
      }
      assert ids[..|ids|] == ids;
    }

    /** The count stays exact iff none of the messages to be removed was marked as read before, ahead of its
        arrival; callers that mark only ids the store has issued keep it so. */
    method MarkRead(ids: seq<nat>) returns (alreadyRead: seq<nat>)
      requires inner.Ordered() && Within()
      modifies this`outstanding, inner`queue, inner`readIds
      ensures inner.Ordered() && Within()
      ensures inner.queue == Remaining(old(inner.queue), set id | id in ids && id !in old(inner.readIds))
      ensures outstanding == old(outstanding) - set id | id in ids
      ensures forall id :: id in alreadyRead <==> id in ids && id != 0 && id in old(inner.readIds)
      ensures old(Exact()) ==>
                (Exact() <==> forall m :: m in old(inner.queue) && m.id in ids ==> m.id !in old(inner.readIds))
      ensures old(Valid()) && (forall id :: id in ids ==> id <= inner.idSeq) ==> Valid()
    {
      hide Increasing, Remaining, IdSet;
      ghost var queue, counted, before := inner.queue, outstanding, inner.readIds;
      Forget(ids);
      alreadyRead := inner.MarkRead(ids);
      AfterMarking(queue, counted, before, ids);
      RemainingIncreasing(queue, set id | id in ids && id !in before);
      IdSetSize(inner.queue);
    }

    method Close()
      requires inner.Ordered()
      modifies this`outstanding, inner
      ensures Exact() && (old(inner.Valid()) ==> Valid()) && inner.queue == [] && inner.closed
    {
      outstanding := {};
      inner.Close();
    }
  }

  // ------------------------------------------------------------------- concurrent callers

  /** The mailbox between critical sections. MarkRead and Close update outstanding under the lock but
      the inner store after it, so their second halves are steps of their own: removing holds the ids
      taken out of outstanding and not yet out of the store, closing the Closes not yet passed on. */
  datatype Cap = Cap(outstanding: set<nat>, unread: set<nat>, removing: multiset<nat>, closing: nat,
                     closed: bool, next: nat)

  datatype Step =
    | Push
    | ReadFirst(id: nat)
    | ReadSecond(id: nat)
    | CloseFirst
    | CloseSecond

  predicate Possible(c: Cap, s: Step) {
    match s
    case Push => true
    case ReadFirst(id) => id < c.next
    case ReadSecond(id) => id in c.removing
    case CloseFirst => true
    case CloseSecond => c.closing > 0
  }

  function After(c: Cap, maxSize: int, s: Step): Cap
    requires Possible(c, s)
  {
    match s
    case Push =>
      if (maxSize > 0 && |c.outstanding| >= maxSize) || c.closed then c
      else c.(outstanding := c.outstanding + {c.next}, unread := c.unread + {c.next}, next := c.next + 1)
    case ReadFirst(id) => c.(outstanding := c.outstanding - {id}, removing := c.removing + multiset{id})
    case ReadSecond(id) => c.(unread := c.unread - {id}, removing := c.removing - multiset{id})
    case CloseFirst => c.(outstanding := {}, closing := c.closing + 1)
    case CloseSecond => c.(unread := {}, closing := c.closing - 1, closed := true)
  }

  ghost predicate Steps(c: Cap, maxSize: int, steps: seq<Step>, d: Cap)
    decreases |steps|
  {
    if steps == [] then c == d
    else Possible(c, steps[0]) && Steps(After(c, maxSize, steps[0]), maxSize, steps[1..], d)
  }

  /** Before any Close: outstanding is the unread ids less those being removed, and within the cap. */
  ghost predicate Counted(c: Cap, maxSize: int) {
    && (forall id :: id in c.outstanding <==> id in c.unread && id !in c.removing)
    && (forall id :: id in c.unread || id in c.removing ==> id < c.next)
    && (maxSize > 0 ==> |c.outstanding| <= maxSize)
    && !c.closed && c.closing == 0
  }

  /** In every interleaving without Close the count is exact between calls, and the store exceeds the
      cap by at most the messages whose removal is under way. */
  lemma {:induction false} CapHolds(c: Cap, maxSize: int, steps: seq<Step>, d: Cap)
    requires Counted(c, maxSize) && Steps(c, maxSize, steps, d)
    requires forall i :: 0 <= i < |steps| ==> !steps[i].CloseFirst?
    ensures Counted(d, maxSize)
    ensures d.removing == multiset{} ==> d.outstanding == d.unread
    ensures maxSize > 0 ==> |d.unread| <= maxSize + |d.removing|
    decreases |steps|
  {
    if steps == [] {
      BoundedExcess(d.unread, d.outstanding, d.removing);
    } else {
      CountedStep(c, maxSize, steps[0]);
      CapHolds(After(c, maxSize, steps[0]), maxSize, steps[1..], d);
    }
  }

  lemma FewerOutstanding(c: Cap, id: nat)
    ensures |c.outstanding - {id}| <= |c.outstanding|
  {
    assert c.outstanding == (c.outstanding - {id}) + c.outstanding * {id};
  }

  /** The count itself never exceeds a positive cap, Closes included. */
  lemma {:induction false} CapNeverExceeded(c: Cap, maxSize: int, steps: seq<Step>, d: Cap)
    requires maxSize > 0 && |c.outstanding| <= maxSize && Steps(c, maxSize, steps, d)
    ensures |d.outstanding| <= maxSize
    decreases |steps|
  {
    if steps != [] {
      if steps[0].ReadFirst? { FewerOutstanding(c, steps[0].id); }
      CapNeverExceeded(After(c, maxSize, steps[0]), maxSize, steps[1..], d);
    }
  }

  lemma CountedStep(c: Cap, maxSize: int, s: Step)
    requires Counted(c, maxSize) && Possible(c, s) && !s.CloseFirst?
    ensures Counted(After(c, maxSize, s), maxSize)
  {
    if s.ReadFirst? { FewerOutstanding(c, s.id); }
  }

  lemma {:induction false} BoundedExcess(unread: set<nat>, outstanding: set<nat>, removing: multiset<nat>)
    requires forall id :: id in outstanding <==> id in unread && id !in removing
    ensures |unread| <= |outstanding| + |removing|
    decreases |removing|
  {
    if removing == multiset{} {
      assert unread == outstanding;
    } else {
      var id :| id in removing;
      var fewer := removing - multiset{id};
      if id in unread && id !in fewer {
        BoundedExcess(unread - {id}, outstanding, fewer);
      } else {
        BoundedExcess(unread, outstanding, fewer);
      }
    }
  }

  // ------------------------------------------------------------------- Close

  /** The state before step i. */
  function StateAt(c: Cap, maxSize: int, steps: seq<Step>, i: nat): Cap
    requires i <= |steps|
    decreases i
  {
    if i == 0 || !Possible(c, steps[0]) then c else StateAt(After(c, maxSize, steps[0]), maxSize, steps[1..], i - 1)
  }

  /** Step i is a push that the store accepts under this id. */
  predicate StoresAt(c: Cap, maxSize: int, steps: seq<Step>, i: nat, id: nat) {
    && i < |steps| && steps[i] == Push
    && var before := StateAt(c, maxSize, steps, i);
       id == before.next && !before.closed && !(maxSize > 0 && |before.outstanding| >= maxSize)
  }

  /** From step i on nothing takes id out of the count. */
  predicate LeftAlone(steps: seq<Step>, i: nat, id: nat) {
    forall j :: i <= j < |steps| ==> !steps[j].CloseFirst? && steps[j] != ReadFirst(id)
  }

  /** The push at step i stored id, and nothing has taken it out of the count since. */
  predicate KeptFrom(c: Cap, maxSize: int, steps: seq<Step>, i: nat, id: nat) {
    StoresAt(c, maxSize, steps, i, id) && LeftAlone(steps, i + 1, id)
  }

  ghost predicate Kept(c: Cap, maxSize: int, steps: seq<Step>, id: nat) {
    exists i: nat :: KeptFrom(c, maxSize, steps, i, id)
  }

  /** The ids counted after a run: those counted before, or stored during it, and left alone since. */
  lemma {:induction false} CountedAfter(c: Cap, maxSize: int, steps: seq<Step>, d: Cap, id: nat)
    requires Steps(c, maxSize, steps, d)
    ensures id in d.outstanding <==> (id in c.outstanding && LeftAlone(steps, 0, id)) || Kept(c, maxSize, steps, id)
    decreases |steps|
  {
    if steps != [] {
      CountedAfter(After(c, maxSize, steps[0]), maxSize, steps[1..], d, id);
      LeftAloneNow(steps, id);
      KeptNowOrLater(c, maxSize, steps, id);
    }
  }

  lemma LeftAloneLater(steps: seq<Step>, i: nat, id: nat)
    requires steps != [] && i < |steps|
    ensures LeftAlone(steps[1..], i, id) <==> LeftAlone(steps, i + 1, id)
  {
    if LeftAlone(steps[1..], i, id) {
      forall j | i + 1 <= j < |steps| ensures !steps[j].CloseFirst? && steps[j] != ReadFirst(id) {
        assert steps[j] == steps[1..][j - 1];
      }
    }
    if LeftAlone(steps, i + 1, id) {
      forall j | i <= j < |steps[1..]| ensures !steps[1..][j].CloseFirst? && steps[1..][j] != ReadFirst(id) {
        assert steps[1..][j] == steps[j + 1];
      }
    }
  }

  lemma LeftAloneNow(steps: seq<Step>, id: nat)
    requires steps != []
    ensures LeftAlone(steps, 0, id) <==>
              !steps[0].CloseFirst? && steps[0] != ReadFirst(id) && LeftAlone(steps[1..], 0, id)
    ensures LeftAlone(steps, 1, id) <==> LeftAlone(steps[1..], 0, id)
  {
    LeftAloneLater(steps, 0, id);
  }

  lemma KeptLater(c: Cap, maxSize: int, steps: seq<Step>, i: nat, id: nat)
    requires steps != [] && Possible(c, steps[0])
    ensures KeptFrom(c, maxSize, steps, i + 1, id) <==> KeptFrom(After(c, maxSize, steps[0]), maxSize, steps[1..], i, id)
  {
    if i + 1 < |steps| { LeftAloneLater(steps, i + 1, id); }
  }

  lemma KeptNowOrLater(c: Cap, maxSize: int, steps: seq<Step>, id: nat)
    requires steps != [] && Possible(c, steps[0])
    ensures Kept(c, maxSize, steps, id) <==>
            KeptFrom(c, maxSize, steps, 0, id) || Kept(After(c, maxSize, steps[0]), maxSize, steps[1..], id)
  {
    if i: nat :| KeptFrom(c, maxSize, steps, i, id) {
      if i > 0 { KeptLater(c, maxSize, steps, i - 1, id); }
    }
    if i: nat :| KeptFrom(After(c, maxSize, steps[0]), maxSize, steps[1..], i, id) { KeptLater(c, maxSize, steps, i, id); }
  }

  /** A closed store is empty; one that no Close has touched is counted exactly. */
  ghost predicate ClosedIsEmpty(c: Cap, maxSize: int) {
    (c.closed ==> c.unread == {}) && (!c.closed && c.closing == 0 ==> Counted(c, maxSize))
  }

  lemma {:induction false} ClosedStaysEmpty(c: Cap, maxSize: int, steps: seq<Step>, d: Cap)
    requires ClosedIsEmpty(c, maxSize) && Steps(c, maxSize, steps, d)
    ensures ClosedIsEmpty(d, maxSize)
    ensures !c.closed && c.closing == 0 && d.closed ==> exists j :: 0 <= j < |steps| && steps[j].CloseFirst?
    decreases |steps|
  {
    if steps != [] {
      if !c.closed && c.closing == 0 && !steps[0].CloseFirst? { CountedStep(c, maxSize, steps[0]); }
      var c1 := After(c, maxSize, steps[0]);
      ClosedStaysEmpty(c1, maxSize, steps[1..], d);
      if !c.closed && c.closing == 0 && d.closed && !steps[0].CloseFirst? {
        var j :| 0 <= j < |steps[1..]| && steps[1..][j].CloseFirst?;
        assert steps[j + 1].CloseFirst?;
      }
    }
  }

  /** In every run, between calls: the count is wrong iff the mailbox is closed and a message stored after the
      first half of the last Close has not been read since. */
  lemma QuietCountIsWrongIff(c: Cap, maxSize: int, steps: seq<Step>, d: Cap)
    requires Counted(c, maxSize) && Steps(c, maxSize, steps, d)
    requires d.closing == 0 && d.removing == multiset{}
    ensures d.outstanding != d.unread <==> d.closed && exists id :: Kept(c, maxSize, steps, id)
  {
    ClosedStaysEmpty(c, maxSize, steps, d);
    if d.closed {
      var j :| 0 <= j < |steps| && steps[j].CloseFirst?;
      forall id ensures id in d.outstanding <==> Kept(c, maxSize, steps, id) {
        CountedAfter(c, maxSize, steps, d, id);
        assert !LeftAlone(steps, 0, id);
      }
      if d.outstanding != {} {
        var id :| id in d.outstanding;
        assert Kept(c, maxSize, steps, id);
      }
    }
  }

  /** The shortest such run, under every cap: a push between the two halves of Close. */
  lemma CloseRaceLeaks(maxSize: int, c: Cap) returns (steps: seq<Step>, d: Cap)
    requires Counted(c, maxSize) && c.removing == multiset{}
    ensures Steps(c, maxSize, steps, d) && d.closing == 0 && d.removing == multiset{} && d.closed
    ensures d.outstanding == {c.next} && d.unread == {}
  {
    steps := [CloseFirst, Push, CloseSecond];
    var c1 := After(c, maxSize, CloseFirst);
    var c2 := After(c1, maxSize, Push);
    d := After(c2, maxSize, CloseSecond);
    assert steps[1..] == [Push, CloseSecond] && steps[1..][1..] == [CloseSecond] && steps[1..][1..][1..] == [];
    assert Steps(c2, maxSize, [CloseSecond], d);
    assert Steps(c1, maxSize, [Push, CloseSecond], d);
  }
}
