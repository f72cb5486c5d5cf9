/** The batching progress sink: one dispatcher owns two batches and a timer (sink/buffered.go). */
module BufferedSink {

  /** The event types of sink/lifecycle.go, which are never batched; Delta stands for all others. */
  datatype EventType =
    | WorkflowStart | WorkflowEnd | StepStart | StepEnd | StepSkipped | ErrorEvent | MessageDropped
    | ResumeStarted | ResumeCompleted | ResumeFailed | ResumeQueued | TranscriptSealed | PlanReady
    | CoordinatorInboxMessage
    | Delta(name: string)

  datatype Item = Event(kind: EventType, text: string) | Output(text: string)

  predicate IsLifecycle(it: Item) {
    it.Event? && !it.kind.Delta?
  }

  /** What the dispatcher's select receives before the sentinel. */
  datatype Signal = Take(item: Item) | TimerFires

  function Events(s: seq<Item>): seq<Item> {
    if s == [] then [] else (if s[|s| - 1].Event? then Events(s[..|s| - 1]) + [s[|s| - 1]] else Events(s[..|s| - 1]))
  }

  function Outputs(s: seq<Item>): seq<Item> {
    if s == [] then [] else (if s[|s| - 1].Output? then Outputs(s[..|s| - 1]) + [s[|s| - 1]] else Outputs(s[..|s| - 1]))
  }

  /** The items among the signals, in order. */
  function Items(signals: seq<Signal>): seq<Item> {
    if signals == [] then []
    else
      var front := Items(signals[..|signals| - 1]);
      if signals[|signals| - 1].Take? then front + [signals[|signals| - 1].item] else front
  }

  lemma {:induction false} ProjectionsConcat(a: seq<Item>, b: seq<Item>)
    ensures Events(a + b) == Events(a) + Events(b)
    ensures Outputs(a + b) == Outputs(a) + Outputs(b)
  {
    if b == [] {
      assert a + b == a;
    } else {
      var n := |b| - 1;
      assert (a + b)[..|a + b| - 1] == a + b[..n];
      ProjectionsConcat(a, b[..n]);
    }
  }

  lemma {:induction false} PureEvents(evs: seq<Item>)
    requires forall i :: 0 <= i < |evs| ==> evs[i].Event?
    ensures Events(evs) == evs && Outputs(evs) == []
  {
    if evs != [] {
      PureEvents(evs[..|evs| - 1]);
      assert evs == evs[..|evs| - 1] + [evs[|evs| - 1]];
    }
  }

  lemma {:induction false} PureOutputs(outs: seq<Item>)
    requires forall i :: 0 <= i < |outs| ==> outs[i].Output?
    ensures Events(outs) == [] && Outputs(outs) == outs
  {
    if outs != [] {
      PureOutputs(outs[..|outs| - 1]);
      assert outs == outs[..|outs| - 1] + [outs[|outs| - 1]];
    }
  }

  lemma OneMore(s: seq<Item>, it: Item)
    ensures Events(s + [it]) == Events(s) + (if it.Event? then [it] else [])
    ensures Outputs(s + [it]) == Outputs(s) + (if it.Output? then [it] else [])
  {
    assert (s + [it])[..|s|] == s;
  }

  lemma {:induction false} SizesAdd(s: seq<Item>)
    ensures |Events(s)| + |Outputs(s)| == |s|
  {
    if s != [] { SizesAdd(s[..|s| - 1]); }
  }

  /** Position k of both sequences holds the same item, and the same events and the same outputs, each
      in their order, come before it. */
  ghost predicate Barrier(taken: seq<Item>, delivered: seq<Item>, k: nat) {
    k < |taken| && k < |delivered| && delivered[k] == taken[k]
    && Events(delivered[..k]) == Events(taken[..k]) && Outputs(delivered[..k]) == Outputs(taken[..k])
  }

  /** Every lifecycle event taken so far is a barrier. */
  ghost predicate Barriers(taken: seq<Item>, delivered: seq<Item>) {
    forall k: nat :: k < |taken| && IsLifecycle(taken[k]) ==> Barrier(taken, delivered, k)
  }

  /** What the batches still hold, and all lifecycle events are out already. */
  ghost predicate Pending(taken: seq<Item>, delivered: seq<Item>, batchEv: seq<Item>, batchOut: seq<Item>) {
    && Events(delivered) + batchEv == Events(taken)
    && Outputs(delivered) + batchOut == Outputs(taken)
    && (forall i :: 0 <= i < |batchEv| ==> batchEv[i].Event?)
    && (forall i :: 0 <= i < |batchOut| ==> batchOut[i].Output?)
    && Barriers(taken, delivered)
  }

  /** A signal that empties the batches. */
  predicate Flushes(g: Signal) {
    g.TimerFires? || (g.item.Event? && !g.item.kind.Delta?)
  }

  /** What signal k made come out: a lifecycle event or the timer sends whatever was taken since the last flush,
      its events before its outputs, and then the lifecycle event itself; any other item nothing. */
  ghost predicate Came(signals: seq<Signal>, log: seq<seq<Item>>, k: nat)
    requires k < |signals| && k + 1 < |log|
  {
    if Flushes(signals[k]) then
      && |log[k]| <= |Items(signals[..k])|
      && var window := Items(signals[..k])[|log[k]|..];
         log[k + 1] == log[k] + Events(window) + Outputs(window) + (if signals[k].Take? then [signals[k].item] else [])
    else log[k + 1] == log[k]
  }

  /** After a flush everything taken so far is out, each kind in its order. */
  ghost predicate AllOut(taken: seq<Item>, delivered: seq<Item>) {
    |delivered| == |taken| && Events(delivered) == Events(taken) && Outputs(delivered) == Outputs(taken)
  }

  lemma BarriersStay(taken: seq<Item>, delivered: seq<Item>, more: seq<Item>, out: seq<Item>)
    requires Barriers(taken, delivered) && forall i :: 0 <= i < |more| ==> !IsLifecycle(more[i])
    ensures Barriers(taken + more, delivered + out)
  {
    hide IsLifecycle, Events, Outputs;
    forall k: nat | k < |taken + more| && IsLifecycle((taken + more)[k])
      ensures Barrier(taken + more, delivered + out, k)
    {
      assert k < |taken|;
      assert Barrier(taken, delivered, k);
      assert (taken + more)[..k] == taken[..k];
      assert (delivered + out)[..k] == delivered[..k];
    }
  }

  lemma Flushed(taken: seq<Item>, delivered: seq<Item>, batchEv: seq<Item>, batchOut: seq<Item>)
    requires Pending(taken, delivered, batchEv, batchOut)
    ensures Pending(taken, delivered + batchEv + batchOut, [], [])
    ensures |delivered + batchEv + batchOut| == |taken|
  {
    hide Events, Outputs, Barriers;
    ProjectionsConcat(delivered, batchEv);
    ProjectionsConcat(delivered + batchEv, batchOut);
    PureEvents(batchEv);
    PureOutputs(batchOut);
    SizesAdd(taken);
    SizesAdd(delivered);
    BarriersStay(taken, delivered, [], batchEv + batchOut);
    assert taken + [] == taken;
    assert delivered + (batchEv + batchOut) == delivered + batchEv + batchOut;
  }

  lemma Batched(taken: seq<Item>, delivered: seq<Item>, batchEv: seq<Item>, batchOut: seq<Item>, it: Item)
    requires Pending(taken, delivered, batchEv, batchOut) && !IsLifecycle(it)
    ensures it.Event? ==> Pending(taken + [it], delivered, batchEv + [it], batchOut)
    ensures it.Output? ==> Pending(taken + [it], delivered, batchEv, batchOut + [it])
  {
    hide Events, Outputs, Barriers;
    OneMore(taken, it);
    BarriersStay(taken, delivered, [it], []);
    assert delivered + [] == delivered;
    assert Events(delivered) + (batchEv + [it]) == (Events(delivered) + batchEv) + [it];
    assert Outputs(delivered) + (batchOut + [it]) == (Outputs(delivered) + batchOut) + [it];
  }

  lemma PassedThrough(taken: seq<Item>, delivered: seq<Item>, it: Item)
    requires Pending(taken, delivered, [], []) && |delivered| == |taken|
    ensures Pending(taken + [it], delivered + [it], [], []) && |delivered + [it]| == |taken + [it]|
  {
    hide Events, Outputs, IsLifecycle;
    OneMore(taken, it);
    OneMore(delivered, it);
    forall k: nat | k < |taken + [it]| && IsLifecycle((taken + [it])[k])
      ensures Barrier(taken + [it], delivered + [it], k)
    {
      assert k < |taken| ==> Barrier(taken, delivered, k);
      assert (taken + [it])[..k] == taken[..k];
      assert (delivered + [it])[..k] == delivered[..k];
    }
  }

  /** The batches are the two kinds of what was taken since the last flush. */
  lemma WindowBatches(taken: seq<Item>, delivered: seq<Item>, batchEv: seq<Item>, batchOut: seq<Item>)
    requires Pending(taken, delivered, batchEv, batchOut)
    requires |delivered| <= |taken| && AllOut(taken[..|delivered|], delivered)
    ensures batchEv == Events(taken[|delivered|..]) && batchOut == Outputs(taken[|delivered|..])
  {
    var n := |delivered|;
    assert taken[..n] + taken[n..] == taken;
    ProjectionsConcat(taken[..n], taken[n..]);
    hide Events, Outputs;
    assert Events(delivered) + batchEv == Events(delivered) + Events(taken[n..]);
    assert Outputs(delivered) + batchOut == Outputs(delivered) + Outputs(taken[n..]);
    SameTail(Events(delivered), batchEv, Events(taken[n..]));
    SameTail(Outputs(delivered), batchOut, Outputs(taken[n..]));
  }

  lemma SameTail(a: seq<Item>, b: seq<Item>, c: seq<Item>)
    requires a + b == a + c
    ensures b == c
  {
    assert b == (a + b)[|a|..] && c == (a + c)[|a|..];
  }

  lemma AllIsOut(taken: seq<Item>, delivered: seq<Item>)
    requires Pending(taken, delivered, [], [])
    ensures AllOut(taken, delivered) && taken[..|delivered|] == taken
  {
    SizesAdd(taken);
    SizesAdd(delivered);
    assert Events(delivered) + [] == Events(delivered) && Outputs(delivered) + [] == Outputs(delivered);
  }

  lemma NothingWaits(taken: seq<Item>, delivered: seq<Item>)
    requires Pending(taken, delivered, [], [])
    ensures AllOut(taken, delivered) && |delivered| == |taken|
    ensures delivered + Events(taken[|delivered|..]) + Outputs(taken[|delivered|..]) == delivered
    ensures Barriers(taken, delivered)
  {
    AllIsOut(taken, delivered);
  }

  class Dispatcher {
    var batchEv: seq<Item>
    var batchOut: seq<Item>
    var timerRunning: bool
    /** What the wrapped sink has received. */
    var delivered: seq<Item>
    ghost var taken: seq<Item>

    /** Nothing waits without a timer. */
    ghost predicate Valid()
      reads this
    {
      && Pending(taken, delivered, batchEv, batchOut)
      && (timerRunning <==> |batchEv| + |batchOut| > 0)
      && |delivered| <= |taken| && AllOut(taken[..|delivered|], delivered)
    }

    constructor ()
      ensures Valid() && taken == delivered == []
    {
      batchEv, batchOut, timerRunning, delivered, taken := [], [], false, [], [];
    }

    method Flush()
      requires Valid()
      modifies this
      ensures Valid() && batchEv == batchOut == [] && !timerRunning && taken == old(taken)
      ensures delivered == old(delivered + batchEv + batchOut) && AllOut(taken, delivered)
      ensures var window := old(taken[|delivered|..]); delivered == old(delivered) + Events(window) + Outputs(window)
    {
      hide Pending, AllOut;
      WindowBatches(taken, delivered, batchEv, batchOut);
      Flushed(taken, delivered, batchEv, batchOut);
      var i := 0;
      while i < |batchEv|
        invariant 0 <= i <= |batchEv| && delivered == old(delivered) + batchEv[..i]
        modifies this`delivered
      {
        delivered := delivered + [batchEv[i]];
        i := i + 1;
      }
      assert batchEv[..|batchEv|] == batchEv;
      i := 0;
      while i < |batchOut|
        invariant 0 <= i <= |batchOut| && delivered == old(delivered) + batchEv + batchOut[..i]
        modifies this`delivered
      {
        delivered := delivered + [batchOut[i]];
        i := i + 1;
      }
      assert batchOut[..|batchOut|] == batchOut;
      batchEv, batchOut, timerRunning := [], [], false;
      AllIsOut(taken, delivered);
    }

    method Receive(it: Item)
      requires Valid()
      modifies this
      ensures Valid() && taken == old(taken) + [it] && old(delivered) <= delivered
      ensures it.Event? && !it.kind.Delta? ==>
                && batchEv == batchOut == [] && AllOut(taken, delivered)
                && var window := old(taken[|delivered|..]);
                   delivered == old(delivered) + Events(window) + Outputs(window) + [it]
      ensures it.Output? || it.kind.Delta? ==> delivered == old(delivered) && timerRunning
    {
      hide Pending, AllOut;
      if IsLifecycle(it) {
        Flush();
        PassedThrough(taken, delivered, it) by { AllIsOut(taken, delivered); }
        delivered := delivered + [it];
        taken := taken + [it];
        AllIsOut(taken, delivered);
      } else {
        Batched(taken, delivered, batchEv, batchOut, it);
        if it.Output? {
          batchOut := batchOut + [it];
        } else {
          batchEv := batchEv + [it];
        }
        timerRunning := true;
        assert (taken + [it])[..|delivered|] == taken[..|delivered|];
        taken := taken + [it];
      }
    }

    /** The loop up to Close's sentinel, and the items found behind it. log[k] is what has been delivered when k
        signals are handled: a lifecycle event or the timer sends everything taken so far, other items wait.
        All events and all outputs come out in the order they went in, no item crosses a lifecycle event, and
        nothing is left. */
    method Loop(signals: seq<Signal>, extras: seq<Item>) returns (ghost log: seq<seq<Item>>, ghost out: seq<Item>)
      requires Valid() && taken == []
      modifies this
      ensures taken == Items(signals) + extras
      ensures |log| == |signals| + 1 && log[0] == [] && forall k: nat :: k < |signals| ==> Came(signals, log, k)
      ensures forall k: nat :: k < |signals| && Flushes(signals[k]) ==> AllOut(Items(signals[..k + 1]), log[k + 1])
      ensures log[|signals|] <= out && AllOut(Items(signals), out) && delivered == out + extras
      ensures AllOut(taken, delivered) && batchEv == batchOut == []
      ensures forall k: nat :: k < |taken| && taken[k].Event? && !taken[k].kind.Delta? ==> Barrier(taken, delivered, k)
    {
      hide Pending, AllOut, Barrier, Events, Outputs;
      var i := 0;
      log, out := [delivered], delivered;
      while i < |signals|
        invariant 0 <= i <= |signals| && |log| == i + 1 && log[0] == [] && log[i] == delivered
        invariant Valid() && taken == Items(signals[..i])
        invariant forall k: nat :: k < i ==> Came(signals, log, k)
        invariant forall k: nat :: k < i && Flushes(signals[k]) ==> AllOut(Items(signals[..k + 1]), log[k + 1])
      {
        assert signals[..i + 1][..i] == signals[..i];
        ghost var before := log;
        if signals[i].Take? {
          Receive(signals[i].item);
        } else if timerRunning {
          Flush();
        } else {
          NothingWaits(taken, delivered);
        }
        log := log + [delivered];
        CameBefore(signals, before, delivered, i);
        i := i + 1;
      }
      assert signals[..|signals|] == signals;
      Flush();
      out := delivered;
      ForwardExtras(extras);
    }

    /** Items found behind the sentinel are forwarded one by one. */
    method ForwardExtras(extras: seq<Item>)
      requires Valid() && batchEv == batchOut == []
      modifies this
      ensures taken == old(taken) + extras && delivered == old(delivered) + extras && batchEv == batchOut == []
      ensures AllOut(taken, delivered) && Barriers(taken, delivered)
    {
      hide Pending, AllOut, Barriers;
      var i := 0;
      while i < |extras|
        invariant 0 <= i <= |extras| && taken == old(taken) + extras[..i] && delivered == old(delivered) + extras[..i]
        invariant Valid() && batchEv == batchOut == []
      {
        NothingWaits(taken, delivered);
        PassedThrough(taken, delivered, extras[i]);
        delivered, taken := delivered + [extras[i]], taken + [extras[i]];
        AllIsOut(taken, delivered);
        i := i + 1;
      }
      assert extras[..|extras|] == extras;
      NothingWaits(taken, delivered);
    }
  }

  lemma CameBefore(signals: seq<Signal>, log: seq<seq<Item>>, next: seq<Item>, i: nat)
    requires |log| == i + 1 <= |signals|
    ensures forall k: nat :: k < i && Came(signals, log, k) ==> Came(signals, log + [next], k)
  {
    hide Events, Outputs, Items;
    forall k: nat | k < i && Came(signals, log, k) ensures Came(signals, log + [next], k) {
      assert (log + [next])[k] == log[k] && (log + [next])[k + 1] == log[k + 1];
    }
  }

  // ------------------------------------------------------------------- order across the two kinds

  /** No output comes before an event. */
  ghost predicate EventsFirst(window: seq<Item>) {
    forall i, j :: 0 <= i < j < |window| && window[i].Output? ==> window[j].Output?
  }

  /** A flush sends a window's events and then its outputs: that is the order they came in iff no output
      came before an event. */
  lemma FlushKeepsOrderIff(window: seq<Item>)
    ensures Events(window) + Outputs(window) == window <==> EventsFirst(window)
  {
    ProjectedKinds(window);
    if EventsFirst(window) { InOrder(window); }
  }

  lemma {:induction false} ProjectedKinds(s: seq<Item>)
    ensures forall i :: 0 <= i < |Events(s)| ==> Events(s)[i].Event?
    ensures forall i :: 0 <= i < |Outputs(s)| ==> Outputs(s)[i].Output?
  {
    if s != [] { ProjectedKinds(s[..|s| - 1]); }
  }

  lemma {:induction false} InOrder(window: seq<Item>)
    requires EventsFirst(window)
    ensures Events(window) + Outputs(window) == window
  {
    if window != [] {
      var n := |window| - 1;
      InOrder(window[..n]);
      assert window == window[..n] + [window[n]];
      if window[n].Event? { PureEvents(window[..n]); }
    }
  }
}
