/** The wake loop of AgentRunner.Run: model calls, mailbox drains, drops and the transcript
    (internal/exec/agent_runner.go). */
module AgentRunner {
  import opened Mailbox
  import opened WakeLoop

  /** One Run of an agent: the mailbox and the collaborators it was given, and the run's own state. */
  class Session {
    const c: Config
    const script: Script
    const mailbox: Store
    var events: seq<Event>
    var store: seq<Turn>
    var persistedCount: nat
    var sealed: bool
    var errored: bool
    var appends: nat
    var calls: nat
    var contexts: nat
    var ctxDone: bool
    var submitted: bool
    var warned: bool
    var wakeCycles: nat
    var retried: bool
    ghost const stored: seq<Turn>
    ghost const waiting: seq<Mail>
    ghost var arrived: seq<Mail>
    ghost var fates: seq<Fate>
    ghost var snap: seq<Turn>
    /** The messages of the latest call, the turns of the latest drain, and whether the loop's context check
        came between that drain and the next call. */
    ghost var sent: seq<Turn>
    ghost var batch: seq<Mail>
    ghost var ctxStopped: bool
    /** Whether the context was done when the reason of the residual drops was chosen. */
    ghost var ctxLeft: bool
    /** Whether a result had been submitted then. */
    ghost var submitLeft: bool
    ghost var rs: seq<seq<Turn>>
    ghost var drained: seq<seq<Turn>>

    constructor (c: Config, script: Script, mailbox: Store, store: seq<Turn>, ctxDone: bool)
      requires mailbox.Valid()
      ensures this.c == c && this.script == script && this.mailbox == mailbox && this.ctxDone == ctxDone
      ensures this.store == stored == store && waiting == mailbox.queue
      ensures Untouched() && Booked() && Persisted() && Delivering()
    {
      this.c, this.script, this.mailbox, this.store, this.ctxDone := c, script, mailbox, store, ctxDone;
      events, persistedCount, sealed, errored, appends := [], 0, false, false, 0;
      calls, contexts, submitted, warned, wakeCycles, retried := 0, 0, false, false, 0, false;
      stored, waiting, arrived, fates := store, mailbox.queue, mailbox.queue, [];
      snap, sent, rs, drained, batch := [], [], [], [], [];
      ctxStopped, ctxLeft, submitLeft := false, false, false;
    }

    ghost predicate Untouched()
      reads this
    {
      && calls == 0 && contexts == 0 && wakeCycles == 0 && !submitted && !warned && !retried
      && rs == [] && drained == [] && fates == [] && snap == []
      && sent == [] && batch == [] && !ctxStopped && !ctxLeft && !submitLeft && arrived == waiting
      && events == [] && persistedCount == 0 && !sealed && !errored && appends == 0
    }

    /** No message is lost or duplicated, and each one's fate was announced. */
    ghost predicate Booked()
      reads this`arrived, this`fates, this`events, mailbox
    {
      && mailbox.Valid()
      && Accounted(arrived, fates, mailbox.queue, events, c.hasSink)
    }

    /** An open mailbox received exactly what the calls so far delivered. */
    ghost predicate Delivering()
      reads this`arrived, this`calls, mailbox`closed
    {
      && (!mailbox.closed ==> Drafts(arrived) == Drafts(waiting) + Delivered(script, calls))
      && (mailbox.closed ==> arrived == waiting)
    }

    /** The store holds exactly the first persistedCount messages of the latest snapshot; a tail is missing only
        when the latest append failed, which seals the transcript iff it was too large. */
    ghost predicate Persisted()
      reads this`persistedCount, this`store, this`snap, this`sealed, this`appends
    {
      && persistedCount <= |snap|
      && store == stored + snap[..persistedCount]
      && (!c.hasTranscript ==> store == stored && snap == [])
      && (sealed <==> appends > 0 && script.appends(appends - 1) == TooLarge)
      && (persistedCount == |snap| || (appends > 0 && script.appends(appends - 1) != Accepted))
    }

    /** messages and result are what the run's history says. */
    ghost predicate Conversing(first: seq<Turn>, messages: seq<Turn>, result: Merged)
      reads this`rs, this`drained, this`snap
    {
      Talk(first, rs, drained, snap, messages, result)
    }

    /** Marks the first n messages as read. */
    method Consume(n: nat)
      requires mailbox.Valid() && n <= |mailbox.queue|
      modifies mailbox`queue, mailbox`readIds
      ensures mailbox.Valid()
      ensures mailbox.queue == old(mailbox.queue)[n..]
    {
      var taken := mailbox.Unread()[..n];
      IdsMembers(taken);
      ghost var gone := set id | id in Ids(taken);
      forall i | 0 <= i < |mailbox.queue| ensures mailbox.queue[i].id in gone <==> i < n {
        if i < n { assert Ids(taken)[i] in gone; }
      }
      RemainingSuffix(mailbox.queue, n, gone);
      var _ := mailbox.MarkRead(Ids(taken));
    }

    /** One user turn and one drain event per message before the first cancel message. */
    method DeliverTurns(pending: seq<Mail>, msgs: seq<Turn>) returns (next: seq<Turn>, i: nat)
      modifies this`events
      ensures i == UpToCancel(pending)
      ensures next == msgs + MailTurns(pending[..i])
      ensures events == old(events) + Heard(c.hasSink, Turned(pending[..i]))
    {
      hide Heard, Turned, MailTurns;
      next, i := msgs, 0;
      StartTelling(pending, events, next);
      while i < |pending| && pending[i].draft.kind != Cancel
        invariant i <= UpToCancel(pending)
        invariant next == msgs + MailTurns(pending[..i])
        invariant events == old(events) + Heard(c.hasSink, Turned(pending[..i]))
      {
        OneMoreTurn(pending, i, c.hasSink);
        next := next + [FromMail(pending[i])];
        if c.hasSink {
          events := events + [InboxDrain(pending[i])];
        }
        i := i + 1;
      }
    }

    /** Turns everything up to the first cancel message into user turns, and consumes the marker too. */
    method DrainMailboxIntoMessages(msgs: seq<Turn>) returns (next: seq<Turn>, cancelled: bool, drainedAny: bool)
      requires Booked()
      modifies this`events, this`fates, this`batch, mailbox`queue, mailbox`readIds
      ensures Booked()
      ensures batch == if c.hasStepID then old(mailbox.queue)[..UpToCancel(old(mailbox.queue))] else []
      ensures !c.hasStepID ==>
                && next == msgs && !cancelled && !drainedAny
                && mailbox.queue == old(mailbox.queue) && fates == old(fates)
      ensures c.hasStepID ==>
                var queue := old(mailbox.queue);
                var n := UpToCancel(queue);
                && next == msgs + MailTurns(queue[..n])
                && (cancelled <==> n < |queue|) && (drainedAny <==> n > 0)
                && mailbox.queue == queue[DrainLength(queue)..]
                && fates == old(fates) + DrainFates(queue)
    {
      hide Accounted, Turned, MailTurns, DrainFates, Heard, NoDrops, TurnedMails, Mails;
      batch := [];
      if !c.hasStepID {
        return msgs, false, false;
      }
      var pending := mailbox.Unread();
      var i: nat;
      next, i := DeliverTurns(pending, msgs);
      cancelled, drainedAny := false, i > 0;
      DrainProjections(pending);
      AccountedMove(arrived, fates, pending, old(events), c.hasSink, DrainFates(pending), DrainLength(pending));
      fates, batch := fates + DrainFates(pending), pending[..i];
      if i < |pending| {
        cancelled := true;
        i := i + 1;
      }
      Consume(i);
    }

    /** Announces and consumes everything unread; without a sink it does nothing. */
    method EmitResidualDrops(why: Reason)
      requires Booked()
      modifies this`events, this`fates, mailbox`queue, mailbox`readIds
      ensures Booked() && old(events) <= events
      ensures !(c.mailboxMode && c.hasSink) ==> mailbox.queue == old(mailbox.queue) && fates == old(fates)
      ensures c.mailboxMode && c.hasSink ==>
                mailbox.queue == [] && fates == old(fates) + Dropped(old(mailbox.queue), why)
    {
      hide Accounted, Dropped, Announced;
      if !c.mailboxMode || !c.hasSink {
        return;
      }
      var remaining := mailbox.Unread();
      StartDropping(remaining, events, why);
      for i := 0 to |remaining|
        invariant events == old(events) + Announced(Dropped(remaining[..i], why))
        modifies this`events
      {
        OneMoreDrop(remaining, i, why);
        events := events + [MessageDropped(remaining[i], why)];
      }
      assert remaining[..|remaining|] == remaining;
      DroppedProjections(remaining, why);
      AccountedMove(arrived, fates, remaining, old(events), c.hasSink, Dropped(remaining, why), |remaining|);
      fates := fates + Dropped(remaining, why);
      Consume(|remaining|);
    }

    /** Appends the part of the conversation not stored yet. A size rejection seals the transcript for
        good; another error leaves the cursor where it is, so that the next flush retries. */
    method FlushTranscript(all: seq<Turn>)
      requires Booked() && Persisted() && snap <= all
      modifies this`events, this`store, this`persistedCount, this`sealed, this`errored, this`appends, this`snap
      ensures Booked() && Persisted() && old(events) <= events
      ensures snap == if c.hasTranscript then all else []
      ensures old(sealed) ==> sealed && store == old(store)
      ensures c.hasTranscript && !old(sealed) && |all| > old(persistedCount) ==>
                && appends == old(appends) + 1
                && match script.appends(old(appends)) {
                     case Accepted => store == stored + all && !sealed && !errored && events == old(events)
                     case Transient =>
                       && store == old(store) && !sealed && errored
                       && events == old(events) + (if old(errored) || !c.hasSink then [] else [TranscriptSealed(false)])
                     case TooLarge =>
                       && store == old(store) && sealed
                       && events == old(events) + (if c.hasSink then [TranscriptSealed(true)] else [])
                   }
      ensures !(c.hasTranscript && !old(sealed) && |all| > old(persistedCount)) ==>
                && store == old(store) && sealed == old(sealed) && errored == old(errored)
                && appends == old(appends) && events == old(events)
    {
      hide Booked;
      if c.hasTranscript {
        assert all[..persistedCount] == snap[..persistedCount];
        snap := all;
      }
      if !c.hasTranscript || sealed || |all| <= persistedCount {
        return;
      }
      var tail := all[persistedCount..];
      var answer := script.appends(appends);
      appends := appends + 1;
      if answer != Accepted {
        var emitEvent := false;
        if answer == TooLarge {
          sealed, emitEvent := true, true;
        } else if !errored {
          errored, emitEvent := true, true;
        }
        if emitEvent && c.hasSink {
          Emit(TranscriptSealed(answer == TooLarge));
        }
        return;
      }
      assert all[..persistedCount] + tail == all;
      store := store + tail;
      errored := false;
      persistedCount := |all|;
    }

    method Emit(e: Event)
      requires Booked() && !AboutMail(e)
      modifies this`events
      ensures Booked() && events == old(events) + [e]
    {
      AccountedOtherEvent(arrived, fates, mailbox.queue, events, c.hasSink, e);
      events := events + [e];
    }

    /** The messages of one call arrive; a closed mailbox drops them silently. */
    method Receive(arrivals: seq<Draft>)
      requires Booked()
      modifies this`arrived, mailbox`queue, mailbox`idSeq
      ensures Booked()
      ensures old(arrived) <= arrived && mailbox.queue == old(mailbox.queue) + arrived[|old(arrived)|..]
      ensures mailbox.closed ==> arrived == old(arrived)
      ensures !mailbox.closed ==> Drafts(arrived) == Drafts(old(arrived)) + arrivals
    {
      hide MailEvents, Heard, NoDrops, Mails, Drafts;
      for i := 0 to |arrivals|
        invariant Booked()
        invariant old(arrived) <= arrived && mailbox.queue == old(mailbox.queue) + arrived[|old(arrived)|..]
        invariant mailbox.closed ==> arrived == old(arrived)
        invariant !mailbox.closed ==> Drafts(arrived) == Drafts(old(arrived)) + arrivals[..i]
      {
        assert arrivals[..i + 1] == arrivals[..i] + [arrivals[i]];
        ReceiveOne(arrivals[i]);
      }
      assert arrivals[..|arrivals|] == arrivals;
    }

    method ReceiveOne(d: Draft)
      requires Booked()
      modifies this`arrived, mailbox`queue, mailbox`idSeq
      ensures Booked()
      ensures mailbox.closed ==> arrived == old(arrived) && mailbox.queue == old(mailbox.queue)
      ensures !mailbox.closed ==>
                && |arrived| == |old(arrived)| + 1 && old(arrived) <= arrived
                && mailbox.queue == old(mailbox.queue) + arrived[|old(arrived)|..]
                && Drafts(arrived) == Drafts(old(arrived)) + [d]
    {
      hide MailEvents, Heard, NoDrops, Mails;
      var id := mailbox.Append(d);
      if !mailbox.closed {
        arrived := arrived + [Mail(id, d)];
        DraftsConcat(old(arrived), [Mail(id, d)]);
        assert Drafts([Mail(id, d)]) == [d];
      }
    }

    /** The next model call of the wake loop. */
    method CallModel(msgs: seq<Turn>) returns (outcome: CallOutcome)
      requires Booked() && Delivering()
      modifies this`arrived, this`calls, this`ctxDone, this`submitted, this`sent, mailbox`queue, mailbox`idSeq
      ensures Booked() && Delivering()
      ensures calls == old(calls) + 1 && sent == msgs && outcome == script.calls(old(calls)).outcome
      ensures ctxDone == (old(ctxDone) || script.calls(old(calls)).cancels)
      ensures submitted == (old(submitted) || (c.wantsResult && script.calls(old(calls)).submits))
    {
      hide Booked, Drafts, Delivered;
      DeliveredNext(script, calls);
      var call := script.calls(calls);
      Receive(call.arrivals);
      ctxDone := ctxDone || call.cancels;
      submitted := submitted || (c.wantsResult && call.submits);
      calls, sent, outcome := calls + 1, msgs, call.outcome;
    }

    /** One user turn with the provider's snapshot, unless that is blank. */
    method AppendWakeContext(msgs: seq<Turn>) returns (next: seq<Turn>)
      modifies this`contexts
      ensures contexts == old(contexts) + 1
      ensures next == msgs + Context(script.contexts(old(contexts)))
    {
      var text := script.contexts(contexts);
      contexts := contexts + 1;
      next := msgs + Context(text);
    }

    /** The conversation holds every message taken so far. */
    ghost predicate Showing(before: seq<Mail>, messages: seq<Turn>)
      reads this`fates
    {
      OnlyTurns(fates) && InboxTurns(messages) == before + TurnedMails(fates)
    }

    /** What holds whenever the wake loop is about to make call number iter. */
    ghost predicate AtTop(first: seq<Turn>, before: seq<Mail>, messages: seq<Turn>, result: Merged, iter: nat)
      reads this, mailbox
    {
      && Booked() && Persisted() && Delivering()
      && Conversing(first, messages, result) && Showing(before, messages)
      && |rs| == |drained| == calls == wakeCycles == iter
      && TokensOf(result) == Spent(script, calls)
      && (!c.mailboxMode ==> fates == []) && (submitted ==> c.wantsResult)
      && (warned <==> c.mailboxMode && c.hasSink && WarnAt(c) <= calls)
      && !ctxStopped && Shown(before, batch) && ByScript(first)
    }

    /** The history so far is the script's. */
    ghost predicate ByScript(first: seq<Turn>)
      reads this`rs, this`drained, this`contexts, this`calls, this`sent
    {
      Scripted(script, first, rs, drained, contexts, calls, sent)
    }

    /** All messages turned so far but these have been shown to the model. */
    ghost predicate Shown(before: seq<Mail>, unsent: seq<Mail>)
      reads this`sent, this`calls, this`fates
    {
      ShownBut(sent, calls, before, TurnedMails(fates), unsent)
    }

    /** The turns that no call followed: those of the latest drain, if it met a cancel marker or the context
        check stopped the loop behind it. */
    ghost function Unsent(cancelled: bool): seq<Mail>
      reads this`batch, this`ctxStopped
    {
      if cancelled || ctxStopped then batch else []
    }

    lemma ShowingIsShown(before: seq<Mail>, messages: seq<Turn>)
      requires Showing(before, messages) && sent == messages && calls > 0
      ensures Shown(before, []) && OnlyTurns(fates)
    {
    }

    /** A reason to stop with messages still unread. */
    ghost predicate GaveUp()
      reads this`submitted, this`calls
    {
      submitted || !c.hasStepID || (calls > 0 && script.calls(calls - 1).outcome.CallError?)
    }

    /** The latest drain met a cancel marker. */
    ghost predicate EndsAtMarker()
      reads this`fates
    {
      BeforeDrops(fates) && fates != [] && fates[|fates| - 1].CancelSeen?
    }

    /** The latest call succeeded without a submission or an interruption by the wake channel. */
    ghost predicate RanDry()
      reads this`calls, this`rs, this`submitted, this`ctxStopped
    {
      && c.mailboxMode && c.hasSink && !ctxStopped && !submitted && calls > 0 && |rs| == calls
      && script.calls(calls - 1).outcome.CallResult? && !script.calls(calls - 1).outcome.stoppedByWake
    }

    /** What holds when the loop is left, before the residual drops. */
    ghost predicate LeftLoop(first: seq<Turn>, before: seq<Mail>, messages: seq<Turn>, result: Merged, exit: Exit)
      reads this, mailbox
    {
      && Booked() && Persisted() && Delivering() && Conversing(first, messages, result)
      && calls <= WakeCap(c) && (!c.mailboxMode ==> fates == [])
      && TokensOf(result) == Spent(script, calls) && wakeCycles <= calls <= wakeCycles + 1
      && (warned <==> c.mailboxMode && c.hasSink && WarnAt(c) <= calls)
      && (submitted ==> c.wantsResult)
      && Shown(before, Unsent(exit == CancelMarker)) && ByScript(first)
      && (ctxStopped ==> ctxDone && exit == Left(false) && calls == wakeCycles)
      && match exit {
           case Again => false
           case Failed(cancellation) =>
             && Showing(before, messages) && sent == messages && result.NoResult? && GaveUp()
             && calls > 0 && script.calls(calls - 1).outcome.CallError?
             && cancellation == (ctxDone || script.calls(calls - 1).outcome.cancellation)
           case CancelMarker =>
             EndsAtMarker() && result.Merged? && calls > 0
           case Left(hitWakeCap) =>
             && OnlyTurns(fates) && (calls > 0 ==> result.Merged?)
             && (hitWakeCap ==> calls == WakeCap(c) && |rs| == calls && !submitted && mailbox.queue != [])
             && (!hitWakeCap && calls == WakeCap(c) && |rs| == calls && !submitted && c.mailboxMode ==> mailbox.queue == [])
             && (!ctxDone ==> Showing(before, messages) && sent == messages && result.Merged?)
             && (!ctxDone && !hitWakeCap && c.mailboxMode ==> mailbox.queue == [] || GaveUp())
             && (!hitWakeCap && mailbox.queue == [] && RanDry() ==> AgentIdle in events)
         }
    }

    /** Once per run, from 80 percent of the cap on. */
    method WarnNearCap(iter: nat)
      requires Booked() && (warned <==> c.mailboxMode && c.hasSink && WarnAt(c) <= iter)
      modifies this`events, this`warned
      ensures Booked() && (warned <==> c.mailboxMode && c.hasSink && WarnAt(c) <= iter + 1)
      ensures events == old(events) + if warned && !old(warned) then [WakeCyclesWarning(iter + 1, |mailbox.queue|)] else []
    {
      if c.mailboxMode && !warned && iter + 1 >= WarnAt(c) && c.hasSink {
        warned := true;
        Emit(WakeCyclesWarning(iter + 1, |mailbox.Unread()|));
      }
    }

    /** Folds a call's result into the accumulated one and flushes the conversation. */
    method Absorb(ghost first: seq<Turn>, messages: seq<Turn>, result0: Merged,
                  call: CallOutcome) returns (result: Merged)
      requires Booked() && Persisted() && Conversing(first, messages, result0) && |rs| == |drained| && call.CallResult?
      modifies this`events, this`store, this`persistedCount, this`sealed, this`errored, this`appends, this`snap, this`rs
      ensures Booked() && Persisted() && Conversing(first, messages, result) && result.Merged?
      ensures rs == old(rs) + [AsResponses(call.responses)]
      ensures TokensOf(result) == TokensOf(result0) + call.tokens && result.exhausted == call.exhausted
      ensures c.hasTranscript ==> snap == messages + result.responses
    {
      hide Booked, Persisted, Talk;
      ghost var r := AsResponses(call.responses);
      TalkResponse(first, rs, drained, snap, messages, result0, r, call.exhausted, call.tokens);
      result := Merge(result0, AsResponses(call.responses), call.exhausted, call.tokens);
      rs := rs + [r];
      if c.hasTranscript {
        FlushTranscript(messages + result.responses);
      }
    }

    /** The sink has just heard of this wake. */
    ghost predicate Awake(pending: nat)
      reads this`events, this`wakeCycles
    {
      c.hasSink ==> events != [] && events[|events| - 1] == AgentWake(pending, wakeCycles)
    }

    /** Starts the next call's messages with everything said so far and what the mailbox holds. */
    method ReEnter(ghost first: seq<Turn>, ghost before: seq<Mail>, messages0: seq<Turn>, result: Merged)
      returns (messages: seq<Turn>, exit: Exit)
      requires Booked() && Persisted() && Delivering()
      requires Conversing(first, messages0, result) && Showing(before, messages0)
      requires result.Merged? && |rs| == |drained| + 1 == calls && c.mailboxMode && sent == messages0
      requires ByScript(first)
      modifies this`events, this`fates, this`batch, this`contexts, this`wakeCycles, this`drained,
               mailbox`queue, mailbox`readIds
      ensures Shown(before, if exit.Left? then [] else batch)
      ensures Booked() && Persisted() && Delivering() && Conversing(first, messages, result) && ByScript(first)
      ensures exit != Again ==> wakeCycles == old(wakeCycles)
      ensures match exit {
                case Again =>
                  && Showing(before, messages) && |rs| == |drained|
                  && wakeCycles == old(wakeCycles) + 1 && old(mailbox.queue) != []
                  && Awake(|old(mailbox.queue)|)
                case Left(hitWakeCap) =>
                  && Showing(before, messages) && messages == messages0 && !hitWakeCap
                  && (mailbox.queue == [] || !c.hasStepID) && mailbox.queue == old(mailbox.queue)
                case CancelMarker => EndsAtMarker()
                case Failed(_) => false
              }
    {
      hide Booked, Persisted, Delivering, InboxTurns, TurnedMails, Talk, OnlyTurns, DrainFates, BeforeDrops,
           MailTurns, Context, DrainLength, UpToCancel, ShownBut, Accounted, Scripted;
      messages, exit := messages0, Left(false);
      ShowingIsShown(before, messages);
      DrainIsUnsent(sent, calls, before, fates, mailbox.queue);
      Spoken(first, rs, drained, snap, messages, result);
      var pendingNow := |mailbox.Unread()|;
      ghost var queue := mailbox.queue;
      var next, cancelled, drainedAny := DrainMailboxIntoMessages(messages + result.responses);
      if cancelled {
        CancelEnds(old(fates), queue);
        return messages, CancelMarker;
      }
      if !drainedAny {
        if c.hasStepID { NothingDrained(queue); }
        assert fates == old(fates);
        ShowingIsShown(before, messages);
        return;
      }
      exit := Again;
      messages := Wake(first, before, messages, result, next, queue, old(fates), pendingNow);
    }

    /** After a drain without a marker: the context of the next call, and the wake event. */
    method Wake(ghost first: seq<Turn>, ghost before: seq<Mail>, ghost messages: seq<Turn>, ghost result: Merged,
                next: seq<Turn>, ghost queue: seq<Mail>, ghost turned: seq<Fate>, pendingNow: nat)
      returns (opening: seq<Turn>)
      requires Booked() && Conversing(first, messages, result) && |rs| == |drained| + 1 == calls && ByScript(first)
      requires InboxTurns(messages) == before + TurnedMails(turned) && OnlyTurns(turned)
      requires UpToCancel(queue) == |queue| && fates == turned + DrainFates(queue)
      requires result.Merged? && next == messages + result.responses + MailTurns(queue[..|queue|])
      modifies this`events, this`contexts, this`wakeCycles, this`drained
      ensures Booked() && Conversing(first, opening, result) && Showing(before, opening) && |rs| == |drained|
      ensures ByScript(first)
      ensures wakeCycles == old(wakeCycles) + 1
      ensures Awake(pendingNow)
    {
      hide Booked, InboxTurns, TurnedMails, Talk, OnlyTurns, DrainFates, MailTurns, Context, UpToCancel, Scripted;
      ScriptedWake(script, first, rs, drained, contexts, calls, sent, queue);
      ghost var context := Context(script.contexts(contexts));
      opening := AppendWakeContext(next);
      WakeShows(first, rs, drained, snap, before, messages, result, queue, context, turned);
      drained := drained + [MailTurns(queue) + context];
      wakeCycles := wakeCycles + 1;
      if c.hasSink {
        Emit(AgentWake(pendingNow, wakeCycles));
      }
    }

    /** What holds when a call has succeeded. */
    ghost predicate Answered(first: seq<Turn>, before: seq<Mail>, messages: seq<Turn>, result: Merged, iter: nat)
      reads this, mailbox
    {
      && Booked() && Persisted() && Delivering()
      && Conversing(first, messages, result) && Showing(before, messages)
      && |rs| == calls == iter + 1 && |drained| == wakeCycles == iter
      && TokensOf(result) == Spent(script, calls)
      && (!c.mailboxMode ==> fates == []) && (submitted ==> c.wantsResult)
      && (warned <==> c.mailboxMode && c.hasSink && WarnAt(c) <= calls)
      && sent == messages && result.Merged? && !ctxStopped && ByScript(first)
    }

    /** Stop, or go round again with what is pending. */
    method AfterCall(ghost first: seq<Turn>, ghost before: seq<Mail>, iter: nat, messages0: seq<Turn>,
                     result: Merged, stoppedByWake: bool)
      returns (messages: seq<Turn>, exit: Exit)
      requires iter < WakeCap(c) && Answered(first, before, messages0, result, iter)
      requires script.calls(iter).outcome.CallResult? && stoppedByWake == script.calls(iter).outcome.stoppedByWake
      modifies this`events, this`fates, this`batch, this`contexts, this`wakeCycles, this`drained,
               mailbox`queue, mailbox`readIds
      ensures exit == Again ==>
                iter + 1 < WakeCap(c) && AtTop(first, before, messages, result, iter + 1)
      ensures exit != Again ==> LeftLoop(first, before, messages, result, exit)
      ensures c.mailboxMode && !submitted && !stoppedByWake && old(mailbox.queue) == [] ==>
                exit == Left(false) && events == old(events) + if c.hasSink then [AgentIdle] else []
    {
      hide Booked, Persisted, Delivering, Talk, Showing, BeforeDrops, WarnAt, WakeCap, Shown, ByScript;
      messages, exit := messages0, Left(false);
      ShowingIsShown(before, messages);
      if submitted || !c.mailboxMode {
        return;
      }
      var pendingNow := |mailbox.Unread()|;
      if iter + 1 >= WakeCap(c) && pendingNow > 0 {
        exit := Left(true);
        return;
      }
      if !stoppedByWake && pendingNow == 0 {
        if c.hasSink {
          Emit(AgentIdle);
        }
        return;
      }
      messages, exit := ReEnter(first, before, messages, result);
      if exit.Left? { ShowingIsTurns(before, messages); }
    }

    /** One turn of the wake loop: a model call, and what follows from its answer. */
    method Cycle(ghost first: seq<Turn>, ghost before: seq<Mail>, iter: nat, messages0: seq<Turn>, result0: Merged)
      returns (messages: seq<Turn>, result: Merged, exit: Exit)
      requires iter < WakeCap(c) && AtTop(first, before, messages0, result0, iter)
      modifies this, mailbox`queue, mailbox`readIds, mailbox`idSeq
      ensures retried == old(retried)
      ensures exit == Again ==> iter + 1 < WakeCap(c) && AtTop(first, before, messages, result, iter + 1)
      ensures exit != Again ==> LeftLoop(first, before, messages, result, exit)
    {
      hide Booked, Persisted, Delivering, Talk, Showing, BeforeDrops, WarnAt, WakeCap, Conversing, Answered, Shown,
           LeftLoop, ByScript;
      messages, result, exit := messages0, result0, Left(false);
      if ctxDone {
        StopForContext(first, before, messages, result, iter);
        return;
      }
      var stoppedByWake: bool;
      WarnNearCap(iter);
      result, stoppedByWake, exit := Ask(first, before, iter, messages, result);
      if exit == Again {
        messages, exit := AfterCall(first, before, iter, messages, result, stoppedByWake);
      }
    }

    method StopForContext(ghost first: seq<Turn>, ghost before: seq<Mail>, ghost messages: seq<Turn>,
                          ghost result: Merged, ghost iter: nat)
      requires iter < WakeCap(c) && AtTop(first, before, messages, result, iter) && ctxDone
      modifies this`ctxStopped
      ensures LeftLoop(first, before, messages, result, Left(false))
    {
      hide Booked, Persisted, Delivering, Showing, BeforeDrops, WarnAt, WakeCap, Shown, Scripted, History, Flat;
      Spoken(first, rs, drained, snap, messages, result);
      ShowingIsTurns(before, messages);
      ctxStopped := true;
    }

    /** The model call; Again means that it succeeded. An error before any result fails the run, a
        later one ends the loop with what there is. */
    method Ask(ghost first: seq<Turn>, ghost before: seq<Mail>, iter: nat, messages: seq<Turn>, result0: Merged)
      returns (result: Merged, stoppedByWake: bool, exit: Exit)
      requires iter < WakeCap(c) && Booked() && Persisted() && Delivering()
      requires Conversing(first, messages, result0) && Showing(before, messages)
      requires |rs| == |drained| == calls == wakeCycles == iter && TokensOf(result0) == Spent(script, calls)
      requires (!c.mailboxMode ==> fates == []) && (submitted ==> c.wantsResult)
      requires !ctxStopped && (warned <==> c.mailboxMode && c.hasSink && WarnAt(c) <= iter + 1) && ByScript(first)
      modifies this`arrived, this`calls, this`ctxDone, this`submitted, this`sent, mailbox`queue, mailbox`idSeq,
               this`events, this`store, this`persistedCount, this`sealed, this`errored, this`appends, this`snap, this`rs
      ensures exit == Again ==> Answered(first, before, messages, result, iter)
      ensures exit == Again ==>
                script.calls(iter).outcome.CallResult? && stoppedByWake == script.calls(iter).outcome.stoppedByWake
      ensures exit != Again ==> LeftLoop(first, before, messages, result, exit)
    {
      hide Booked, Persisted, Delivering, Talk, Showing, BeforeDrops, WarnAt, WakeCap, Shown, LeftLoop, Conversing, Scripted;
      ScriptAsks(first, messages, result0);
      result, stoppedByWake, exit := result0, false, Again;
      var outcome := CallModel(messages);
      if outcome.CallError? {
        exit := if result.NoResult? then Failed(ctxDone || outcome.cancellation) else Left(false);
        ErrorLeaves(first, before, messages, result, iter, exit);
        return;
      }
      stoppedByWake := outcome.stoppedByWake;
      result := Absorb(first, messages, result, outcome);
    }

    lemma ScriptAsks(first: seq<Turn>, messages: seq<Turn>, result: Merged)
      requires ByScript(first) && Conversing(first, messages, result) && |rs| == |drained| == calls
      ensures script.calls(calls).outcome.CallError? ==>
                Scripted(script, first, rs, drained, contexts, calls + 1, messages)
      ensures script.calls(calls).outcome.CallResult? ==>
                Scripted(script, first, rs + [AsResponses(script.calls(calls).outcome.responses)], drained, contexts,
                         calls + 1, messages)
    {
      hide Scripted, History;
      ScriptedCall(script, first, rs, drained, contexts, calls, sent, messages);
    }

    lemma ErrorLeaves(first: seq<Turn>, before: seq<Mail>, messages: seq<Turn>, result: Merged, iter: nat, exit: Exit)
      requires iter < WakeCap(c) && Booked() && Persisted() && Delivering() && Conversing(first, messages, result)
      requires Showing(before, messages) && |rs| == |drained| == wakeCycles == iter && calls == iter + 1
      requires TokensOf(result) == Spent(script, iter) && script.calls(iter).outcome.CallError?
      requires (!c.mailboxMode ==> fates == []) && (submitted ==> c.wantsResult) && sent == messages && !ctxStopped
      requires (warned <==> c.mailboxMode && c.hasSink && WarnAt(c) <= calls) && ByScript(first)
      requires exit == if result.NoResult? then Failed(ctxDone || script.calls(iter).outcome.cancellation) else Left(false)
      ensures LeftLoop(first, before, messages, result, exit)
    {
      hide Booked, Persisted, Delivering, Talk, BeforeDrops, WarnAt, WakeCap, Scripted;
      Spoken(first, rs, drained, snap, messages, result);
      ShowingIsShown(before, messages);
    }

    lemma ShowingIsTurns(before: seq<Mail>, messages: seq<Turn>)
      requires Showing(before, messages)
      ensures OnlyTurns(fates)
    {
    }

    /** The first call's messages; a cancel message among what was waiting stops the run at once. */
    method StartUp(initial: seq<Turn>, prompt: string) returns (messages: seq<Turn>, cancelled: bool)
      requires Untouched() && Booked() && Persisted() && Delivering()
      modifies this`events, this`fates, this`batch, this`contexts, mailbox`queue, mailbox`readIds
      ensures cancelled <==> c.mailboxMode && c.hasStepID && UpToCancel(waiting) < |waiting|
      ensures initial + [Prompt(prompt)] <= messages
      ensures !cancelled ==> AtTop(messages, InboxTurns(initial), messages, NoResult, 0)
      ensures !cancelled ==>
                EndsWith(messages, initial + [Prompt(prompt)]
                                   + (if c.mailboxMode && c.hasStepID then MailTurns(waiting) else []), script.contexts(0))
      ensures cancelled ==>
                && fates == DrainFates(waiting) && mailbox.queue == waiting[DrainLength(waiting)..]
                && batch == waiting[..UpToCancel(waiting)] && Shown(InboxTurns(initial), batch)
                && Booked() && Persisted() && Delivering() && c.mailboxMode && EndsAtMarker()
    {
      hide Booked, Persisted, Delivering, InboxTurns, TurnedMails, DrainFates, BeforeDrops, WarnAt, MailTurns, AtTop,
           EndsWith;
      messages, cancelled := initial + [Prompt(prompt)], false;
      OpeningShows(initial, prompt);
      ghost var queue := mailbox.queue;
      UntouchedQueue();
      DrainIsUnsent(sent, calls, InboxTurns(initial), [], queue);
      if c.mailboxMode {
        var drainedAny: bool;
        messages, cancelled, drainedAny := DrainMailboxIntoMessages(messages);
        if cancelled {
          CancelEnds([], queue);
          assert fates == [] + DrainFates(queue);
          return;
        }
        if c.hasStepID {
          OpeningDrain(initial, prompt, queue);
          assert fates == [] + DrainFates(queue);
        }
      }
      OpenedWith(messages, initial + [Prompt(prompt)]);
      messages := OpenWith(InboxTurns(initial), messages);
    }

    /** The first snapshot behind the opening messages. */
    method OpenWith(ghost before: seq<Mail>, messages0: seq<Turn>) returns (messages: seq<Turn>)
      requires Booked() && Persisted() && Delivering() && Showing(before, messages0) && Shown(before, batch)
      requires calls == contexts == wakeCycles == 0 && rs == [] && drained == [] && snap == []
      requires !submitted && !warned && !ctxStopped && (!c.mailboxMode ==> fates == [])
      modifies this`contexts
      ensures AtTop(messages, before, messages, NoResult, 0) && EndsWith(messages, messages0, script.contexts(0))
      ensures messages0 <= messages
    {
      hide Booked, Persisted, Delivering, InboxTurns, TurnedMails, OnlyTurns, WarnAt, ShownBut, Scripted;
      messages := AppendWakeContext(messages0);
      ScriptedStart(script, messages, sent);
      NoInboxTurns(Context(script.contexts(0)));
      InboxTurnsConcat(messages0, Context(script.contexts(0)));
      WarnsLater();
    }

    lemma WarnsLater()
      ensures WarnAt(c) > 0
    {
    }

    /** What was waiting is in the opening messages. */
    lemma OpenedWith(messages: seq<Turn>, opening: seq<Turn>)
      requires if c.mailboxMode && c.hasStepID then messages == opening + MailTurns(waiting) else messages == opening
      ensures messages == opening + if c.mailboxMode && c.hasStepID then MailTurns(waiting) else []
    {
    }

    lemma UntouchedQueue()
      requires Untouched() && Booked()
      ensures mailbox.queue == waiting && Shown([], [])
    {
    }

    /** Calls the model until a cycle says stop. */
    method WakeLoop(ghost before: seq<Mail>, messages0: seq<Turn>)
      returns (messages: seq<Turn>, result: Merged, exit: Exit)
      requires AtTop(messages0, before, messages0, NoResult, 0)
      modifies this, mailbox`queue, mailbox`readIds, mailbox`idSeq
      ensures retried == old(retried) && LeftLoop(messages0, before, messages, result, exit)
    {
      hide AtTop, LeftLoop, WakeCap;
      messages, result, exit := messages0, NoResult, Again;
      var iter := 0;
      while exit == Again
        invariant retried == old(retried)
        invariant exit == Again ==> iter < WakeCap(c) && AtTop(messages0, before, messages, result, iter)
        invariant exit != Again ==> LeftLoop(messages0, before, messages, result, exit)
        decreases WakeCap(c) - iter, exit == Again
      {
        messages, result, exit := Cycle(messages0, before, iter, messages, result);
        if exit == Again {
          iter := iter + 1;
        }
      }
    }

    /** The residual drops of every way out of the loop. */
    method DropAfterLoop(ghost first: seq<Turn>, ghost before: seq<Mail>, ghost messages: seq<Turn>,
                         ghost result: Merged, exit: Exit)
      requires LeftLoop(first, before, messages, result, exit)
      modifies this`events, this`fates, this`ctxLeft, this`submitLeft, mailbox`queue, mailbox`readIds
      ensures Booked() && Settled(before, exit) && TerminalDrops() && Reasoned(exit == CancelMarker) && ctxLeft == ctxDone
      ensures IdleSaid(exit == CancelMarker, events)
    {
      hide Booked, InboxTurns, TurnedMails, BeforeDrops, LeftLoop, ShownBut, CancelAmong, Outcomes, GaveUp, TerminalDrops,
           NoDrops, Dropped, ReasonFor, Reasoned, WhyDropped;
      BeforeLast(first, before, messages, result, exit);
      ExitHasReason(first, before, messages, result, exit);
      ExitSaysIdle(first, before, messages, result, exit);
      ctxLeft, submitLeft := ctxDone, submitted;
      ghost var booked, queue := fates, mailbox.queue;
      SettledAs(before, exit, fates, mailbox.queue);
      EmitResidualDrops(ReasonFor(exit, ctxDone));
      DropsHaveReason(booked, queue, ReasonFor(exit, ctxDone));
      DropsGiveReason(booked, queue, ReasonFor(exit, ctxDone), exit == CancelMarker);
      if c.mailboxMode && c.hasSink { NoDropsNoQueue(booked, queue, ReasonFor(exit, ctxDone)); }
    }

    /** Why what is still unread is dropped: the run was cancelled by a message; its first call failed; the cap was
        reached with messages unread; the context is done; or the agent is simply finished. */
    ghost function WhyDropped(cancelled: bool, done: bool, hasResult: bool): Reason
      reads this`rs, this`calls
    {
      if cancelled then WorkflowCancelled
      else if calls > 0 && rs == [] && script.calls(calls - 1).outcome.CallError? then
        if done || script.calls(calls - 1).outcome.cancellation then WorkflowCancelled else TargetTerminal
      else if calls == WakeCap(c) && |rs| == calls && !hasResult then MaxWakeCycles
      else if done then WorkflowCancelled
      else TargetTerminal
    }

    ghost predicate Reasoned(cancelled: bool)
      reads this`rs, this`calls, this`ctxLeft, this`submitLeft, this`fates
    {
      forall i :: 0 <= i < |fates| && fates[i].WasDropped? ==> fates[i].reason == WhyDropped(cancelled, ctxLeft, submitLeft)
    }

    lemma ExitHasReason(first: seq<Turn>, before: seq<Mail>, messages: seq<Turn>, result: Merged, exit: Exit)
      requires LeftLoop(first, before, messages, result, exit)
      ensures c.mailboxMode && mailbox.queue != [] ==>
                ReasonFor(exit, ctxDone) == WhyDropped(exit == CancelMarker, ctxDone, submitted)
    {
      hide Booked, Persisted, Delivering, Showing, Shown, BeforeDrops, WarnAt, WakeCap, Scripted, History, Flat;
      Spoken(first, rs, drained, snap, messages, result);
      ScriptBounds(first);
    }

    lemma ScriptBounds(first: seq<Turn>)
      requires ByScript(first)
      ensures |drained| <= |rs| <= calls <= |rs| + 1
      ensures |rs| < calls ==> script.calls(calls - 1).outcome.CallError?
      ensures calls > 0 && |rs| == calls ==> !script.calls(calls - 1).outcome.CallError?
    {
    }

    lemma DropsGiveReason(booked: seq<Fate>, queue: seq<Mail>, why: Reason, cancelled: bool)
      requires NoDrops(booked) && (fates == booked || fates == booked + Dropped(queue, why))
      requires fates != booked && queue != [] ==> why == WhyDropped(cancelled, ctxLeft, submitLeft)
      ensures Reasoned(cancelled)
    {
      hide WhyDropped;
    }

    /** An agent that ran out of messages, and of whose messages none was dropped, has said so. */
    ghost predicate IdleSaid(cancelled: bool, events: seq<Event>)
      reads this`fates, this`calls, this`rs, this`submitLeft, this`ctxStopped
    {
      && NoDrops(fates) && !cancelled && c.mailboxMode && c.hasSink && !ctxStopped && !submitLeft
      && calls > 0 && |rs| == calls
      && script.calls(calls - 1).outcome.CallResult? && !script.calls(calls - 1).outcome.stoppedByWake ==>
        AgentIdle in events
    }

    lemma ExitSaysIdle(first: seq<Turn>, before: seq<Mail>, messages: seq<Turn>, result: Merged, exit: Exit)
      requires LeftLoop(first, before, messages, result, exit)
      ensures exit != CancelMarker && mailbox.queue == [] && RanDry() ==> AgentIdle in events
    {
      hide Booked, Persisted, Delivering, Showing, Shown, BeforeDrops, WarnAt, WakeCap, ByScript, History, Flat;
      Spoken(first, rs, drained, snap, messages, result);
    }

    lemma NoDropsNoQueue(booked: seq<Fate>, queue: seq<Mail>, why: Reason)
      requires fates == booked + Dropped(queue, why)
      ensures NoDrops(fates) ==> queue == []
    {
      if queue != [] { assert fates[|booked|].WasDropped?; }
    }

    lemma DropsHaveReason(booked: seq<Fate>, queue: seq<Mail>, why: Reason)
      requires NoDrops(booked) && (fates == booked || fates == booked + Dropped(queue, why))
      requires fates != booked && why == TargetTerminal ==> queue == [] || GaveUp()
      ensures TerminalDrops()
    {
      hide GaveUp;
    }

    /** The fates after the residual drops. */
    ghost predicate Settled(before: seq<Mail>, exit: Exit)
      reads this, mailbox`queue
    {
      && (c.mailboxMode && c.hasSink ==> mailbox.queue == [])
      && (!c.mailboxMode ==> fates == [])
      && Outcomes(before, exit, fates)
    }

    ghost predicate Outcomes(before: seq<Mail>, exit: Exit, fates: seq<Fate>)
      reads this`ctxLeft, this`sent, this`calls, this`batch, this`ctxStopped
    {
      && WellShaped(fates)
      && (CancelAmong(fates) <==> exit == CancelMarker)
      && (exit != CancelMarker && !ctxLeft ==> InboxTurns(sent) == before + TurnedMails(fates))
      && ShownBut(sent, calls, before, TurnedMails(fates), Unsent(exit == CancelMarker))
      && forall i :: 0 <= i < |fates| && fates[i].WasDropped? ==> fates[i].reason == ReasonFor(exit, ctxLeft)
    }

    lemma LeftParts(first: seq<Turn>, before: seq<Mail>, messages: seq<Turn>, result: Merged, exit: Exit)
      requires LeftLoop(first, before, messages, result, exit)
      ensures Persisted() && Delivering() && Conversing(first, messages, result) && exit != Again && ByScript(first)
      ensures calls <= WakeCap(c) && wakeCycles <= calls <= wakeCycles + 1 && TokensOf(result) == Spent(script, calls)
      ensures (submitted ==> c.wantsResult) && (exit == Left(true) ==> calls == WakeCap(c))
      ensures exit.Left? && result.NoResult? ==> ctxDone
      ensures exit == CancelMarker ==> result.Merged? && calls > 0
      ensures ctxStopped ==> ctxDone && exit == Left(false) && calls == wakeCycles
      ensures warned <==> c.mailboxMode && c.hasSink && WarnAt(c) <= calls
    {
      hide Booked, Persisted, Delivering, Conversing, BeforeDrops, WarnAt, WakeCap, Showing, Shown;
    }

    lemma BeforeLast(first: seq<Turn>, before: seq<Mail>, messages: seq<Turn>, result: Merged, exit: Exit)
      requires LeftLoop(first, before, messages, result, exit)
      ensures Booked() && BeforeDrops(fates) && (CancelAmong(fates) <==> exit == CancelMarker)
      ensures !c.mailboxMode ==> fates == []
      ensures exit != CancelMarker && !ctxDone ==> InboxTurns(sent) == before + TurnedMails(fates)
      ensures ShownBut(sent, calls, before, TurnedMails(fates), Unsent(exit == CancelMarker))
      ensures NoDrops(fates)
      ensures c.mailboxMode && ReasonFor(exit, ctxDone) == TargetTerminal ==> mailbox.queue == [] || GaveUp()
    {
    }

    lemma SettledAs(before: seq<Mail>, exit: Exit, fates: seq<Fate>, queue: seq<Mail>)
      requires BeforeDrops(fates) && (CancelAmong(fates) <==> exit == CancelMarker)
      requires exit != CancelMarker && !ctxLeft ==> InboxTurns(sent) == before + TurnedMails(fates)
      requires ShownBut(sent, calls, before, TurnedMails(fates), Unsent(exit == CancelMarker))
      ensures Outcomes(before, exit, fates)
      ensures Outcomes(before, exit, fates + Dropped(queue, ReasonFor(exit, ctxLeft)))
    {
      hide InboxTurns, TurnedMails, ShownBut;
      var why := ReasonFor(exit, ctxLeft);
      DropsLast(fates, queue, why);
      DropsTurnNothing(fates, queue, why);
      var all := fates + Dropped(queue, why);
      if CancelAmong(fates) {
        var i :| 0 <= i < |fates| && fates[i].CancelSeen?;
        assert all[i].CancelSeen?;
      }
      if CancelAmong(all) {
        var i :| 0 <= i < |all| && all[i].CancelSeen?;
        assert i < |fates| && fates[i].CancelSeen?;
      }
    }

    /** One more call with only the submit_result tool; its arrivals come after the residual drops. */
    method RetrySubmitResult(result0: Merged) returns (result: Merged)
      requires Booked() && Delivering() && result0.Merged?
      modifies this`arrived, this`ctxDone, this`submitted, this`retried, mailbox`queue, mailbox`idSeq
      ensures Booked() && retried && result.Merged? && result.responses == result0.responses
      ensures result.exhausted == result0.exhausted
      ensures result.tokens == result0.tokens + CallTokens(script.retry.outcome)
      ensures ctxDone == (old(ctxDone) || script.retry.cancels)
      ensures submitted == (old(submitted) || (c.wantsResult && script.retry.submits))
      ensures mailbox.closed ==> arrived == waiting && mailbox.queue == old(mailbox.queue)
      ensures !mailbox.closed ==>
                && Drafts(arrived) == Drafts(waiting) + Delivered(script, calls) + script.retry.arrivals
                && Drafts(mailbox.queue) == Drafts(old(mailbox.queue)) + script.retry.arrivals
    {
      hide Booked, Drafts, Delivered;
      result, retried := result0, true;
      ghost var queue, before := mailbox.queue, arrived;
      Receive(script.retry.arrivals);
      if !mailbox.closed {
        DraftsConcat(before, arrived[|before|..]);
        assert before + arrived[|before|..] == arrived;
        DraftsConcat(queue, arrived[|before|..]);
        SameTail(Drafts(before), Drafts(arrived[|before|..]), script.retry.arrivals);
      }
      ctxDone := ctxDone || script.retry.cancels;
      submitted := submitted || (c.wantsResult && script.retry.submits);
      if script.retry.outcome.CallResult? {
        result := result.(tokens := result.tokens + script.retry.outcome.tokens);
      }
    }

    /** The outcome of a run whose loop ended, after the retry if one is due. */
    method Conclude(result0: Merged, exit: Exit) returns (outcome: Outcome, result: Merged)
      requires Booked() && Delivering() && !retried && exit != Again && (submitted ==> c.wantsResult)
      requires exit.CancelMarker? ==> result0.Merged?
      modifies this`arrived, this`ctxDone, this`submitted, this`retried, mailbox`queue, mailbox`idSeq
      ensures Booked() && Responses(result) == Responses(result0) && (result.NoResult? <==> result0.NoResult?)
      ensures outcome.CancelledRun? <==> exit == CancelMarker
      ensures retried <==>
                && c.wantsResult && exit.Left? && result0.Merged?
                && !old(submitted) && !old(ctxDone) && !script.cancelsLate
      ensures Reports(outcome, TokensOf(result0) + if retried then CallTokens(script.retry.outcome) else 0)
      ensures submitted && exit.Left? && result0.Merged? ==> outcome.Submitted?
      ensures outcome.GenerateFailed? <==> exit.Failed? || (exit.Left? && result0.NoResult?)
      ensures outcome.Completed? ==> result0.Merged? && outcome.truncated == result0.exhausted
      ensures outcome.TurnLimitExceeded? ==> result0.Merged? && result0.exhausted
      ensures outcome.NoSubmitResult? ==> result0.Merged? && !result0.exhausted
      ensures old(ctxDone) ==> ctxDone
      ensures old(submitted) ==> submitted
      ensures mailbox.closed ==> arrived == waiting
      ensures mailbox.closed || !retried ==> mailbox.queue == old(mailbox.queue)
      ensures !mailbox.closed ==>
                Drafts(arrived) == Drafts(waiting) + Delivered(script, calls) + if retried then script.retry.arrivals else []
      ensures !mailbox.closed && retried ==> Drafts(mailbox.queue) == Drafts(old(mailbox.queue)) + script.retry.arrivals
      ensures outcome.Submitted? ==> submitted && c.wantsResult
      ensures outcome.Completed? ==> !c.wantsResult
      ensures outcome.TurnLimitExceeded? || outcome.NoSubmitResult? ==>
                c.wantsResult && !submitted && (retried || ctxDone)
    {
      hide Booked;
      result := result0;
      if exit.CancelMarker? {
        return CancelledRun(result.tokens), result;
      }
      if exit.Failed? || result.NoResult? {
        return GenerateFailed, result;
      }
      ctxDone := ctxDone || script.cancelsLate;
      if c.wantsResult && !submitted && !ctxDone {
        result := RetrySubmitResult(result);
      }
      outcome := if submitted then Submitted(result.tokens)
                 else if result.exhausted && c.wantsResult then TurnLimitExceeded
                 else if c.wantsResult then NoSubmitResult
                 else Completed(result.exhausted, result.tokens);
    }

    /** Every message that reached the mailbox has exactly one fate, in arrival order, or came with the
        retry and is still queued. */
    ghost predicate NothingLost()
      reads this`arrived, this`fates, this`calls, this`retried, mailbox`queue, mailbox`closed
    {
      && WellShaped(fates) && (!c.mailboxMode ==> fates == [])
      && (mailbox.closed ==> arrived == waiting)
      && (!mailbox.closed ==>
            Drafts(arrived) == Drafts(waiting) + Delivered(script, calls) + if retried then script.retry.arrivals else [])
      && (c.mailboxMode && c.hasSink ==>
            Drafts(mailbox.queue) == if retried && !mailbox.closed then script.retry.arrivals else [])
    }

    /** Drops name the way out. Every turn was shown to the model, but for those of the latest drain if it met a
        cancel marker or the context check came before the next call. */
    ghost predicate Explained(before: seq<Mail>, outcome: Outcome)
      reads this`fates, this`calls, this`ctxDone, this`ctxLeft, this`submitted, this`sent, this`wakeCycles, this`retried,
            this`batch, this`ctxStopped, this`rs, this`submitLeft
    {
      && (forall i :: 0 <= i < |fates| && fates[i].WasDropped? && fates[i].reason == MaxWakeCycles ==>
            calls == WakeCap(c))
      && (outcome.CancelledRun? <==> CancelAmong(fates))
      && (outcome.CancelledRun? ==>
            forall i :: 0 <= i < |fates| && fates[i].WasDropped? ==> fates[i].reason == WorkflowCancelled)
      && (!outcome.CancelledRun? && !ctxLeft ==> InboxTurns(sent) == before + TurnedMails(fates))
      && Shown(before, Unsent(outcome.CancelledRun?))
      && (ctxLeft ==> ctxDone) && (ctxStopped ==> ctxLeft && !outcome.CancelledRun? && calls == wakeCycles)
      && TerminalDrops() && Reasoned(outcome.CancelledRun?)
      && calls <= WakeCap(c) && wakeCycles <= calls <= wakeCycles + 1 && (retried ==> c.wantsResult)
    }

    /** The outcome follows from the submission, the retry and the context, and reports every token spent. */
    ghost predicate Decided(outcome: Outcome)
      reads this`calls, this`ctxDone, this`submitted, this`retried
    {
      && Reports(outcome, Spent(script, calls) + if retried then CallTokens(script.retry.outcome) else 0)
      && (outcome.Submitted? ==> submitted && c.wantsResult)
      && (submitted ==> outcome.Submitted? || outcome.CancelledRun? || outcome.GenerateFailed?)
      && (outcome.Completed? ==> !c.wantsResult)
      && (outcome.TurnLimitExceeded? || outcome.NoSubmitResult? ==> c.wantsResult && !submitted && (retried || ctxDone))
    }

    /** The store holds a prefix of the whole conversation: all of it, unless the transcript was sealed or
        the last append failed. A run cancelled before its first call stores nothing. */
    ghost predicate Transcribed(first: seq<Turn>, outcome: Outcome)
      reads this
    {
      && Persisted() && |drained| <= |rs| <= |drained| + 1
      && (c.hasTranscript && !(outcome.CancelledRun? && calls == 0) ==> snap == Conversation(first, rs, drained))
      && (outcome.CancelledRun? && calls == 0 ==> store == stored)
    }

    ghost predicate Justified(exit: Exit)
      reads this`fates, this`calls
    {
      && (forall i :: 0 <= i < |fates| && fates[i].WasDropped? && fates[i].reason == MaxWakeCycles ==>
            calls == WakeCap(c))
      && (CancelAmong(fates) <==> exit == CancelMarker)
      && (exit == CancelMarker ==>
            forall i :: 0 <= i < |fates| && fates[i].WasDropped? ==> fates[i].reason == WorkflowCancelled)
    }

    /** Drops at the target's end need a reason to stop with messages unread. */
    ghost predicate TerminalDrops()
      reads this`ctxLeft, this`fates, this`submitted, this`calls
    {
      !ctxLeft ==>
        forall i :: 0 <= i < |fates| && fates[i].WasDropped? && fates[i].reason == TargetTerminal ==> GaveUp()
    }

    lemma JustifiedBy(before: seq<Mail>, exit: Exit)
      requires Settled(before, exit) && exit != Again && (exit == Left(true) ==> calls == WakeCap(c))
      ensures Justified(exit)
      ensures exit != CancelMarker && !ctxLeft ==> InboxTurns(sent) == before + TurnedMails(fates)
      ensures Shown(before, Unsent(exit == CancelMarker))
      ensures WellShaped(fates) && (!c.mailboxMode ==> fates == [])
      ensures c.mailboxMode && c.hasSink ==> mailbox.queue == []
    {
      hide InboxTurns, TurnedMails, WakeCap, WellShaped;
    }

    /** After the residual drops: the retry and the outcome. */
    method Resolve(ghost before: seq<Mail>, result0: Merged, exit: Exit) returns (outcome: Outcome, result: Merged)
      requires Booked() && Delivering() && TerminalDrops() && Reasoned(exit == CancelMarker)
      requires calls <= WakeCap(c) && wakeCycles <= calls <= wakeCycles + 1
      requires TokensOf(result0) == Spent(script, calls) && (exit.Left? && result0.NoResult? ==> ctxDone)
      requires !retried && exit != Again && (submitted ==> c.wantsResult)
      requires exit == CancelMarker ==> result0.Merged? && calls > 0
      requires Shown(before, Unsent(exit == CancelMarker))
      requires (ctxLeft ==> ctxDone) && (ctxStopped ==> ctxLeft && exit == Left(false) && calls == wakeCycles)
      requires Justified(exit) && WellShaped(fates) && (!c.mailboxMode ==> fates == [])
      requires exit != CancelMarker && !ctxLeft ==> InboxTurns(sent) == before + TurnedMails(fates)
      requires c.mailboxMode && c.hasSink ==> mailbox.queue == []
      modifies this`arrived, this`ctxDone, this`submitted, this`retried, mailbox`queue, mailbox`idSeq
      ensures Booked() && Responses(result) == Responses(result0)
      ensures NothingLost() && Explained(before, outcome) && Decided(outcome)
      ensures outcome.CancelledRun? ==> calls > 0
      ensures outcome.CancelledRun? <==> exit == CancelMarker
    {
      hide Booked, InboxTurns, TurnedMails, WakeCap, WellShaped, Responses, Shown;
      outcome, result := Conclude(result0, exit);
    }

    /** The final flush. */
    method Finish(ghost first: seq<Turn>, messages: seq<Turn>, result: Merged, ghost outcome: Outcome)
      requires Booked() && Persisted() && Conversing(first, messages, result)
      requires outcome.CancelledRun? ==> calls > 0
      modifies this`events, this`store, this`persistedCount, this`sealed, this`errored, this`appends, this`snap
      ensures Booked() && Transcribed(first, outcome) && old(events) <= events
    {
      hide Booked, Persisted, Talk, Conversation;
      Spoken(first, rs, drained, snap, messages, result);
      FlushTranscript(messages + Responses(result));
    }

    /** Once the loop is left: the residual drops, the retry and the outcome. */
    method WindUp(ghost first: seq<Turn>, ghost before: seq<Mail>, ghost messages: seq<Turn>, result: Merged, exit: Exit)
      returns (outcome: Outcome, final: Merged)
      requires LeftLoop(first, before, messages, result, exit) && !retried
      modifies this`events, this`fates, this`ctxLeft, this`submitLeft, this`arrived, this`ctxDone, this`submitted,
               this`retried, mailbox`queue, mailbox`readIds, mailbox`idSeq
      ensures Booked() && NothingLost() && Explained(before, outcome) && Decided(outcome)
      ensures Persisted() && Conversing(first, messages, result) && Responses(final) == Responses(result)
      ensures ByScript(first) && IdleSaid(outcome.CancelledRun?, events)
      ensures c.mailboxMode && c.hasSink ==> (warned <==> WarnAt(c) <= calls)
      ensures outcome.CancelledRun? ==> calls > 0
    {
      hide Booked, Persisted, Delivering, Conversing, InboxTurns, TurnedMails, BeforeDrops, WarnAt, WakeCap, WellShaped,
           Settled, Justified, NothingLost, Explained, Decided, TerminalDrops, LeftLoop, Shown, Unsent, ByScript,
           Reasoned, IdleSaid, Responses;
      LeftParts(first, before, messages, result, exit);
      DropAfterLoop(first, before, messages, result, exit);
      JustifiedBy(before, exit);
      outcome, final := Resolve(before, result, exit);
    }

    /** A run whose loop starts: the calls, then the residual drops and the rest. */
    method Converse(ghost before: seq<Mail>, messages0: seq<Turn>) returns (outcome: Outcome)
      requires AtTop(messages0, before, messages0, NoResult, 0) && !retried
      modifies this, mailbox`queue, mailbox`readIds, mailbox`idSeq
      ensures Booked() && NothingLost() && Explained(before, outcome) && Transcribed(messages0, outcome)
      ensures ByScript(messages0) && IdleSaid(outcome.CancelledRun?, events)
      ensures c.mailboxMode && c.hasSink ==> (warned <==> WarnAt(c) <= calls)
      ensures outcome.CancelledRun? ==> calls > 0
      ensures Decided(outcome)
    {
      hide Booked, Persisted, Conversing, WarnAt, NothingLost, Explained, Transcribed, Decided, AtTop, LeftLoop, ByScript,
           IdleSaid;
      var messages, result, exit := WakeLoop(before, messages0);
      var final: Merged;
      outcome, final := WindUp(messages0, before, messages, result, exit);
      ghost var heard := events;
      Finish(messages0, messages, result, outcome);
      IdleStays(outcome.CancelledRun?, heard);
    }

    lemma IdleStays(cancelled: bool, heard: seq<Event>)
      requires IdleSaid(cancelled, heard) && heard <= events
      ensures IdleSaid(cancelled, events)
    {
    }

    lemma FirstIsSent(first: seq<Turn>)
      requires ByScript(first)
      ensures calls > 0 ==> first <= sent
    {
      if calls > 0 { HistoryBegins(first, rs, drained[..calls - 1]); }
    }

    /** A cancel message was waiting: the rest is dropped, and no call is made. */
    method StopAtOnce(ghost before: seq<Mail>) returns (outcome: Outcome)
      requires !retried && calls == 0 && wakeCycles == 0 && rs == [] && drained == []
      requires Booked() && Persisted() && Delivering() && c.mailboxMode && !submitted && store == stored
      requires !ctxStopped && !ctxLeft && EndsAtMarker() && Shown(before, batch)
      modifies this`events, this`fates, mailbox`queue, mailbox`readIds
      ensures Booked() && NothingLost() && Explained(before, outcome) && Decided(outcome)
      ensures outcome == CancelledRun(0)
      ensures fates == old(fates) + if c.hasSink then Dropped(old(mailbox.queue), WorkflowCancelled) else []
    {
      hide Booked, Persisted, InboxTurns, TurnedMails, WarnAt, WakeCap, WellShaped, ShownBut, Dropped;
      SettledAs(before, CancelMarker, fates, mailbox.queue);
      EmitResidualDrops(WorkflowCancelled);
      JustifiedBy(before, CancelMarker);
      outcome := CancelledRun(0);
    }

    /** A step's whole run: what was waiting is drained, the model is called until nothing is pending or
        the cap is reached, the rest is dropped with a reason, and the conversation is flushed. */
    method Run(initial: seq<Turn>, prompt: string) returns (outcome: Outcome, ghost first: seq<Turn>)
      requires Untouched() && Booked() && Persisted() && Delivering()
      modifies this, mailbox`queue, mailbox`readIds, mailbox`idSeq
      ensures Booked() && NothingLost() && Explained(InboxTurns(initial), outcome) && Transcribed(first, outcome)
      ensures Decided(outcome)
      // The conversation opens with what the run was given, what was waiting and the first snapshot; all of it is
      // in every call's messages, and the history is the script's.
      ensures initial + [Prompt(prompt)] <= first
      ensures !(c.mailboxMode && c.hasStepID && UpToCancel(waiting) < |waiting|) ==>
                && EndsWith(first, initial + [Prompt(prompt)]
                                   + (if c.mailboxMode && c.hasStepID then MailTurns(waiting) else []), script.contexts(0))
                && ByScript(first) && IdleSaid(outcome.CancelledRun?, events)
      ensures calls > 0 ==> first <= sent
      // A cancel message among what was waiting: no call is made, and the messages in front of it stay unsent.
      ensures c.mailboxMode && c.hasStepID && UpToCancel(waiting) < |waiting| ==>
                && outcome == CancelledRun(0) && calls == 0 && batch == waiting[..UpToCancel(waiting)]
                && fates == DrainFates(waiting)
                            + if c.hasSink then Dropped(waiting[DrainLength(waiting)..], WorkflowCancelled) else []
    {
      hide Booked, Delivering, InboxTurns, BeforeDrops, WarnAt, WakeCap, Conversation, AtTop, ShownBut, Shown,
           DrainFates, Dropped, NothingLost, Explained, Decided, ByScript, EndsWith, MailTurns, IdleSaid;
      ghost var before := InboxTurns(initial);
      var messages, cancelled := StartUp(initial, prompt);
      first := messages;
      if cancelled {
        outcome := StopAtOnce(before);
      } else {
        outcome := Converse(before, messages);
        FirstIsSent(first);
      }
    }
  }

  /** The documentation of the drain event takes it as proof that a message reached the model. For the messages
      in front of a cancel message that was waiting when the run began it is none: each is announced as drained,
      and the run ends without a call. */
  method AnnouncedButUnsent(s: Session, initial: seq<Turn>, prompt: string)
    requires s.Untouched() && s.Booked() && s.Persisted() && s.Delivering() && s.events == []
    requires s.c.mailboxMode && s.c.hasStepID && s.c.hasSink && UpToCancel(s.waiting) < |s.waiting|
    modifies s, s.mailbox
    ensures s.calls == 0
    ensures forall i :: 0 <= i < UpToCancel(s.waiting) ==> InboxDrain(s.waiting[i]) in s.events
  {
    hide s.Persisted, s.Delivering, s.Untouched, s.NothingLost, s.Explained, s.Transcribed, s.Decided;
    var outcome, _ := s.Run(initial, prompt);
    var n := UpToCancel(s.waiting);
    forall i | 0 <= i < n ensures InboxDrain(s.waiting[i]) in s.events {
      EachIsAnnounced(s.fates, i);
      MailEventsAreEvents(s.events, InboxDrain(s.waiting[i]));
    }
  }
}
