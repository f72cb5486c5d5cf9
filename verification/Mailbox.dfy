/** One step's message queue in the in-memory mailbox store (internal/router/mailbox.go). */
module Mailbox {

  /** Info stands for every message type that becomes a user turn; Cancel stops the run. */
  datatype Kind = Info | Cancel

  /** A message before the store has given it an id. */
  datatype Draft = Draft(sender: string, kind: Kind, content: string)

  /** Ids are issued in sequence from 1; 0 is the empty id. */
  datatype Mail = Mail(id: nat, draft: Draft)

  function Ids(ms: seq<Mail>): seq<nat> {
    if ms == [] then [] else [ms[0].id] + Ids(ms[1..])
  }

  function Drafts(ms: seq<Mail>): seq<Draft> {
    if ms == [] then [] else [ms[0].draft] + Drafts(ms[1..])
  }

  function IdSet(ms: seq<Mail>): set<nat> {
    set m | m in ms :: m.id
  }

  /** The messages whose id is not in gone. */
  function Remaining(ms: seq<Mail>, gone: set<nat>): seq<Mail> {
    if ms == [] then []
    else (if ms[0].id in gone then [] else [ms[0]]) + Remaining(ms[1..], gone)
  }

  ghost predicate Increasing(ms: seq<Mail>) {
    forall i, j :: 0 <= i < j < |ms| ==> ms[i].id < ms[j].id
  }

  lemma {:induction false} IdsMembers(ms: seq<Mail>)
    ensures |Ids(ms)| == |ms| && forall i :: 0 <= i < |ms| ==> Ids(ms)[i] == ms[i].id
  {
    if ms != [] { IdsMembers(ms[1..]); }
  }

  lemma {:induction false} RemainingNothing(ms: seq<Mail>, gone: set<nat>)
    requires forall m :: m in ms ==> m.id !in gone
    ensures Remaining(ms, gone) == ms
  {
    if ms != [] { RemainingNothing(ms[1..], gone); }
  }

  /** Removing the ids of a prefix leaves the rest. */
  lemma {:induction false} RemainingSuffix(ms: seq<Mail>, n: nat, gone: set<nat>)
    requires Increasing(ms) && n <= |ms|
    requires forall i :: 0 <= i < |ms| ==> (ms[i].id in gone <==> i < n)
    ensures Remaining(ms, gone) == ms[n..]
  {
    if n == 0 {
      RemainingNothing(ms, gone);
    } else {
      assert ms[1..][n - 1..] == ms[n..];
      RemainingSuffix(ms[1..], n - 1, gone);
    }
  }

  lemma {:induction false} RemainingMembers(ms: seq<Mail>, gone: set<nat>)
    ensures forall m :: m in Remaining(ms, gone) <==> m in ms && m.id !in gone
  {
    if ms != [] {
      RemainingMembers(ms[1..], gone);
      assert ms == [ms[0]] + ms[1..];
    }
  }

  lemma {:induction false} RemainingIncreasing(ms: seq<Mail>, gone: set<nat>)
    requires Increasing(ms)
    ensures Increasing(Remaining(ms, gone))
  {
    if ms != [] {
      RemainingIncreasing(ms[1..], gone);
      RemainingMembers(ms[1..], gone);
    }
  }

  class Store {
    var queue: seq<Mail>
    var closed: bool
    var readIds: set<nat>
    var idSeq: nat

    /** The queue is in the order of the ids. */
    ghost predicate Ordered()
      reads this
    {
      Increasing(queue) && forall m :: m in queue ==> 0 < m.id <= idSeq
    }

    /** And nothing has been marked as read but messages that were in it. */
    ghost predicate Valid()
      reads this
    {
      && Ordered()
      && (forall m :: m in queue ==> m.id !in readIds)
      && (forall id :: id in readIds ==> id <= idSeq)
    }

    constructor ()
      ensures Valid() && queue == [] && !closed && readIds == {} && idSeq == 0
    {
      queue, closed, readIds, idSeq := [], false, {}, 0;
    }

    /** Appends at the tail; a closed mailbox drops silently and returns the empty id. */
    method Append(d: Draft) returns (id: nat)
      requires Ordered()
      modifies this`queue, this`idSeq
      ensures Ordered() && (old(Valid()) ==> Valid())
      ensures closed ==> id == 0 && queue == old(queue) && idSeq == old(idSeq)
      ensures !closed ==> id == old(idSeq) + 1 == idSeq && queue == old(queue) + [Mail(id, d)]
    {
      if closed {
        return 0;
      }
      idSeq := idSeq + 1;
      id := idSeq;
      queue := queue + [Mail(id, d)];
    }

    function Unread(): seq<Mail>
      reads this
    {
      queue
    }

    /** Removes the given ids and remembers them; an id marked before is reported and not removed. So an id
        that is marked before the store has issued it can never be removed once it is queued. */
    method MarkRead(ids: seq<nat>) returns (alreadyRead: seq<nat>)
      requires Ordered()
      modifies this`queue, this`readIds
      ensures Ordered() && (old(Valid()) && (forall id :: id in ids ==> id <= idSeq) ==> Valid())
      ensures queue == Remaining(old(queue), set id | id in ids && id !in old(readIds))
      ensures old(Valid()) ==> queue == Remaining(old(queue), set id | id in ids)
      ensures forall id :: id in alreadyRead <==> id in ids && id != 0 && id in old(readIds)
      ensures readIds == old(readIds) + (set id | id in ids && id != 0)
    {
      var want: set<nat> := {};
      alreadyRead := [];
      for i := 0 to |ids|
        invariant forall id :: id in want <==> id in ids[..i] && id != 0 && id !in readIds
        invariant forall id :: id in alreadyRead <==> id in ids[..i] && id != 0 && id in readIds
      {
        assert ids[..i + 1] == ids[..i] + [ids[i]];
        if ids[i] != 0 {
          if ids[i] in readIds {
            alreadyRead := alreadyRead + [ids[i]];
          } else {
            want := want + {ids[i]};
          }
        }
      }
      assert ids[..|ids|] == ids;
      SameRemoval(queue, want, set id | id in ids && id !in readIds);
      if Valid() { SameRemoval(queue, want, set id | id in ids); }
      RemainingIncreasing(queue, want);
      RemainingMembers(queue, want);
      queue := Remaining(queue, want);
      readIds := readIds + want;
    }

    /** Drops everything and refuses further messages. */
    method Close()
      requires Ordered()
      modifies this
      ensures Ordered() && (old(Valid()) ==> Valid()) && queue == [] && closed && readIds == {} && idSeq == old(idSeq)
    {
      queue, readIds, closed := [], {}, true;
    }
  }

  lemma {:induction false} SameRemoval(ms: seq<Mail>, a: set<nat>, b: set<nat>)
    requires forall m :: m in ms ==> (m.id in a <==> m.id in b)
    ensures Remaining(ms, a) == Remaining(ms, b)
  {
    if ms != [] {
      assert forall m :: m in ms[1..] ==> m in ms;
      SameRemoval(ms[1..], a, b);
    }
  }
}
