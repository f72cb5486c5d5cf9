/** The vocabulary of AgentRunner.Run: conversation turns, events, what becomes of each message, and
    what the conversation looks like after any number of wakes (internal/exec/agent_runner.go). */
module WakeLoop {
  import opened Mailbox

  /** One turn of the conversation. */
  datatype Turn =
    | Prompt(text: string)
    | FromMail(mail: Mail)
    | DynamicContext(text: string)
    | Response(text: string)

  datatype Reason = MaxWakeCycles | WorkflowCancelled | TargetTerminal

  datatype Event =
    | InboxDrain(mail: Mail)
    | MessageDropped(mail: Mail, reason: Reason)
    | AgentWake(pending: nat, cycle: nat)
    | AgentIdle
    | WakeCyclesWarning(cycle: nat, unread: nat)
    | TranscriptSealed(tooLarge: bool)

  /** How one model call goes: what arrives in the mailbox meanwhile, whether the context is
      cancelled by its end, whether submit_result was called, and the result or error. */
  datatype Call = Call(arrivals: seq<Draft>, cancels: bool, submits: bool, outcome: CallOutcome)

  datatype CallOutcome =
    | CallError(cancellation: bool)
    | CallResult(responses: seq<string>, stoppedByWake: bool, exhausted: bool, tokens: nat)

  datatype AppendOutcome = Accepted | Transient | TooLarge

  /** The outside world of one Run: the model's calls, the context provider's trimmed snapshots and
      the transcript store's answers, each by its position, whether the context is cancelled between the
      residual drops and the retry check, and the submit_result retry. A cancellation before the drops is
      noticed as if it came at the end of the latest call. */
  datatype Script = Script(calls: nat -> Call, contexts: nat -> string, appends: nat -> AppendOutcome,
                           cancelsLate: bool, retry: Call)

  /** Which of the optional collaborators are configured. */
  datatype Config = Config(mailboxMode: bool, hasStepID: bool, hasSink: bool, hasTranscript: bool,
                           wantsResult: bool, maxWakeCycles: int)

  /** What became of a message that left the mailbox. */
  datatype Fate =
    | BecameTurn(mail: Mail)
    | CancelSeen(mail: Mail)
    | WasDropped(mail: Mail, reason: Reason)

  datatype Outcome =
    | CancelledRun(tokens: nat)
    | GenerateFailed
    | Submitted(tokens: nat)
    | TurnLimitExceeded
    | NoSubmitResult
    | Completed(truncated: bool, tokens: nat)

  /** The accumulated model result. */
  datatype Merged = NoResult | Merged(responses: seq<Turn>, exhausted: bool, tokens: nat)

  /** How one turn of the wake loop ends. */
  datatype Exit = Again | Failed(cancellation: bool) | CancelMarker | Left(hitWakeCap: bool)

  const DEFAULT_MAX_WAKE_CYCLES: nat := 10

  /** One call without a mailbox; else the configured number of cycles, or ten. */
  function WakeCap(c: Config): (cap: nat)
    ensures cap >= 1
    ensures !c.mailboxMode ==> cap == 1
    ensures c.mailboxMode && c.maxWakeCycles > 0 ==> cap == c.maxWakeCycles
    ensures c.mailboxMode && c.maxWakeCycles <= 0 ==> cap == 10
  {
    if !c.mailboxMode then 1 else MaxCycles(c)
  }

  function MaxCycles(c: Config): (cap: nat)
    ensures cap >= 1
  {
    if c.maxWakeCycles > 0 then c.maxWakeCycles else DEFAULT_MAX_WAKE_CYCLES
  }

  /** 80 percent of the cap, rounded down, at least 1. */
  function WarnAt(c: Config): (at: nat)
    ensures 1 <= at <= MaxCycles(c)
    ensures 4 * MaxCycles(c) < 5 * (at + 1)
    ensures at == 1 || 5 * at <= 4 * MaxCycles(c)
  {
    var eighty := MaxCycles(c) * 4 / 5;
    if eighty < 1 then 1 else eighty
  }

  // ------------------------------------------------------------------- accounting

  function Mails(fates: seq<Fate>): seq<Mail> {
    if fates == [] then [] else [fates[0].mail] + Mails(fates[1..])
  }

  /** What a sink is told about a message leaving the mailbox. */
  function Announce(f: Fate): seq<Event> {
    match f
    case BecameTurn(m) => [InboxDrain(m)]
    case CancelSeen(_) => []
    case WasDropped(m, r) => [MessageDropped(m, r)]
  }

  function Announced(fates: seq<Fate>): seq<Event> {
    if fates == [] then [] else Announce(fates[0]) + Announced(fates[1..])
  }

  function Heard(hasSink: bool, fates: seq<Fate>): seq<Event> {
    if hasSink then Announced(fates) else []
  }

  predicate AboutMail(e: Event) {
    e.InboxDrain? || e.MessageDropped?
  }

  function IfAboutMail(e: Event): seq<Event> {
    if AboutMail(e) then [e] else []
  }

  function MailEvents(events: seq<Event>): seq<Event> {
    if events == [] then [] else IfAboutMail(events[0]) + MailEvents(events[1..])
  }

  function MailIn(t: Turn): seq<Mail> {
    if t.FromMail? then [t.mail] else []
  }

  /** The messages among the turns of a conversation. */
  function InboxTurns(turns: seq<Turn>): seq<Mail> {
    if turns == [] then [] else MailIn(turns[0]) + InboxTurns(turns[1..])
  }

  function TurnedMail(f: Fate): seq<Mail> {
    if f.BecameTurn? then [f.mail] else []
  }

  function TurnedMails(fates: seq<Fate>): seq<Mail> {
    if fates == [] then [] else TurnedMail(fates[0]) + TurnedMails(fates[1..])
  }

  lemma {:induction false} MailsConcat(a: seq<Fate>, b: seq<Fate>)
    ensures Mails(a + b) == Mails(a) + Mails(b)
  {
    if a == [] {
      assert a + b == b;
    } else {
      assert (a + b)[1..] == a[1..] + b;
      MailsConcat(a[1..], b);
      assert [a[0].mail] + (Mails(a[1..]) + Mails(b)) == ([a[0].mail] + Mails(a[1..])) + Mails(b);
    }
  }

  lemma {:induction false} AnnouncedConcat(a: seq<Fate>, b: seq<Fate>)
    ensures Announced(a + b) == Announced(a) + Announced(b)
  {
    hide Announce;
    if a == [] {
      assert a + b == b;
    } else {
      assert (a + b)[1..] == a[1..] + b;
      AnnouncedConcat(a[1..], b);
      assert Announce(a[0]) + (Announced(a[1..]) + Announced(b)) == (Announce(a[0]) + Announced(a[1..])) + Announced(b);
    }
  }

  lemma {:induction false} TurnedConcat(a: seq<Fate>, b: seq<Fate>)
    ensures TurnedMails(a + b) == TurnedMails(a) + TurnedMails(b)
  {
    hide TurnedMail;
    if a == [] {
      assert a + b == b;
    } else {
      assert (a + b)[1..] == a[1..] + b;
      TurnedConcat(a[1..], b);
      assert TurnedMail(a[0]) + (TurnedMails(a[1..]) + TurnedMails(b))
          == (TurnedMail(a[0]) + TurnedMails(a[1..])) + TurnedMails(b);
    }
  }

  lemma {:induction false} MailEventsConcat(a: seq<Event>, b: seq<Event>)
    ensures MailEvents(a + b) == MailEvents(a) + MailEvents(b)
  {
    hide IfAboutMail;
    if a == [] {
      assert a + b == b;
    } else {
      assert (a + b)[1..] == a[1..] + b;
      MailEventsConcat(a[1..], b);
      assert IfAboutMail(a[0]) + (MailEvents(a[1..]) + MailEvents(b))
          == (IfAboutMail(a[0]) + MailEvents(a[1..])) + MailEvents(b);
    }
  }

  lemma {:induction false} InboxTurnsConcat(a: seq<Turn>, b: seq<Turn>)
    ensures InboxTurns(a + b) == InboxTurns(a) + InboxTurns(b)
  {
    hide MailIn;
    if a == [] {
      assert a + b == b;
    } else {
      assert (a + b)[1..] == a[1..] + b;
      InboxTurnsConcat(a[1..], b);
      assert MailIn(a[0]) + (InboxTurns(a[1..]) + InboxTurns(b)) == (MailIn(a[0]) + InboxTurns(a[1..])) + InboxTurns(b);
    }
  }

  lemma {:induction false} AnnouncedAreMailEvents(fates: seq<Fate>)
    ensures MailEvents(Announced(fates)) == Announced(fates)
  {
    if fates != [] {
      AnnouncedAreMailEvents(fates[1..]);
      MailEventsConcat(Announce(fates[0]), Announced(fates[1..]));
    }
  }

  lemma {:induction false} EachIsAnnounced(fates: seq<Fate>, i: nat)
    requires i < |fates|
    ensures forall e :: e in Announce(fates[i]) ==> e in Announced(fates)
  {
    if i > 0 { EachIsAnnounced(fates[1..], i - 1); }
  }

  lemma {:induction false} MailEventsAreEvents(events: seq<Event>, e: Event)
    requires e in MailEvents(events)
    ensures e in events
  {
    if e !in IfAboutMail(events[0]) { MailEventsAreEvents(events[1..], e); }
  }

  /** Turns come first, then at most one cancel marker, then drops that all give one reason. */
  ghost predicate WellShaped(fates: seq<Fate>) {
    && (forall i, j :: 0 <= i < j < |fates| && !fates[i].BecameTurn? ==> fates[j].WasDropped?)
    && (forall i, j :: 0 <= i < j < |fates| && fates[i].WasDropped? && fates[j].WasDropped? ==>
          fates[i].reason == fates[j].reason)
  }

  ghost predicate OnlyTurns(fates: seq<Fate>) {
    forall i :: 0 <= i < |fates| ==> fates[i].BecameTurn?
  }

  ghost predicate NoDrops(fates: seq<Fate>) {
    forall i :: 0 <= i < |fates| ==> !fates[i].WasDropped?
  }

  // ------------------------------------------------------------------- what a drain does

  /** The position of the first cancel message, or the length. */
  function UpToCancel(ms: seq<Mail>): (n: nat)
    ensures n <= |ms|
    ensures n < |ms| ==> ms[n].draft.kind == Cancel
    ensures forall i :: 0 <= i < n ==> ms[i].draft.kind != Cancel
  {
    if ms == [] || ms[0].draft.kind == Cancel then 0 else 1 + UpToCancel(ms[1..])
  }

  function MailTurns(ms: seq<Mail>): (ts: seq<Turn>)
    ensures |ts| == |ms| && forall i :: 0 <= i < |ms| ==> ts[i] == FromMail(ms[i])
  {
    if ms == [] then [] else [FromMail(ms[0])] + MailTurns(ms[1..])
  }

  function Turned(ms: seq<Mail>): (fs: seq<Fate>)
    ensures |fs| == |ms| && forall i :: 0 <= i < |ms| ==> fs[i] == BecameTurn(ms[i])
  {
    if ms == [] then [] else [BecameTurn(ms[0])] + Turned(ms[1..])
  }

  function Dropped(ms: seq<Mail>, why: Reason): (fs: seq<Fate>)
    ensures |fs| == |ms| && forall i :: 0 <= i < |ms| ==> fs[i] == WasDropped(ms[i], why)
  {
    if ms == [] then [] else [WasDropped(ms[0], why)] + Dropped(ms[1..], why)
  }

  function AsResponses(texts: seq<string>): (ts: seq<Turn>)
    ensures |ts| == |texts| && forall i :: 0 <= i < |ts| ==> ts[i] == Response(texts[i])
  {
    if texts == [] then [] else [Response(texts[0])] + AsResponses(texts[1..])
  }

  lemma OneMoreTurn(ms: seq<Mail>, i: nat, hasSink: bool)
    requires i < |ms|
    ensures MailTurns(ms[..i + 1]) == MailTurns(ms[..i]) + [FromMail(ms[i])]
    ensures Heard(hasSink, Turned(ms[..i + 1])) == Heard(hasSink, Turned(ms[..i])) + (if hasSink then [InboxDrain(ms[i])] else [])
  {
    assert ms[..i + 1] == ms[..i] + [ms[i]];
    assert Turned(ms[..i + 1]) == Turned(ms[..i]) + [BecameTurn(ms[i])];
    AnnouncedConcat(Turned(ms[..i]), [BecameTurn(ms[i])]);
    assert Announced([BecameTurn(ms[i])]) == [InboxDrain(ms[i])];
  }

  lemma OneMoreDrop(ms: seq<Mail>, i: nat, why: Reason)
    requires i < |ms|
    ensures Announced(Dropped(ms[..i + 1], why)) == Announced(Dropped(ms[..i], why)) + [MessageDropped(ms[i], why)]
  {
    assert ms[..i + 1] == ms[..i] + [ms[i]];
    assert Dropped(ms[..i + 1], why) == Dropped(ms[..i], why) + [WasDropped(ms[i], why)];
    AnnouncedConcat(Dropped(ms[..i], why), [WasDropped(ms[i], why)]);
    assert Announced([WasDropped(ms[i], why)]) == [MessageDropped(ms[i], why)];
  }

  lemma {:induction false} TurnedProjections(ms: seq<Mail>)
    ensures Mails(Turned(ms)) == ms && TurnedMails(Turned(ms)) == ms && InboxTurns(MailTurns(ms)) == ms
  {
    if ms != [] {
      TurnedProjections(ms[1..]);
      assert ms == [ms[0]] + ms[1..];
    }
  }

  lemma {:induction false} DroppedProjections(ms: seq<Mail>, why: Reason)
    ensures Mails(Dropped(ms, why)) == ms && TurnedMails(Dropped(ms, why)) == []
  {
    if ms != [] {
      DroppedProjections(ms[1..], why);
      assert ms == [ms[0]] + ms[1..];
    }
  }

  lemma {:induction false} NoInboxTurns(ts: seq<Turn>)
    requires forall i :: 0 <= i < |ts| ==> !ts[i].FromMail?
    ensures InboxTurns(ts) == []
  {
    if ts != [] { NoInboxTurns(ts[1..]); }
  }

  // ------------------------------------------------------------------- the history

  function Flat(rs: seq<seq<Turn>>): seq<Turn> {
    if rs == [] then [] else Flat(rs[..|rs| - 1]) + rs[|rs| - 1]
  }

  /** The messages of the next call: each wake appends every response so far, then what was drained. */
  function History(first: seq<Turn>, rs: seq<seq<Turn>>, drained: seq<seq<Turn>>): seq<Turn>
    requires |drained| <= |rs|
  {
    var n := |drained|;
    if n == 0 then first else History(first, rs, drained[..n - 1]) + Flat(rs[..n]) + drained[n - 1]
  }

  /** The whole conversation: what was last sent, and every response so far. */
  function Conversation(first: seq<Turn>, rs: seq<seq<Turn>>, drained: seq<seq<Turn>>): seq<Turn>
    requires |drained| <= |rs|
  {
    History(first, rs, drained) + Flat(rs)
  }

  function Count(ts: seq<Turn>, t: Turn): nat {
    if ts == [] then 0 else (if ts[0] == t then 1 else 0) + Count(ts[1..], t)
  }

  lemma {:induction false} CountConcat(a: seq<Turn>, b: seq<Turn>, t: Turn)
    ensures Count(a + b, t) == Count(a, t) + Count(b, t)
  {
    if a == [] {
      assert a + b == b;
    } else {
      assert (a + b)[1..] == a[1..] + b;
      CountConcat(a[1..], b, t);
    }
  }

  lemma {:induction false} CountAbsent(ts: seq<Turn>, t: Turn)
    requires t !in ts
    ensures Count(ts, t) == 0
  {
    if ts != [] { CountAbsent(ts[1..], t); }
  }

  lemma {:induction false} FlatCount(rs: seq<seq<Turn>>, i: nat, t: Turn)
    requires forall k :: 0 <= k < |rs| && k != i ==> t !in rs[k]
    ensures Count(Flat(rs), t) == if i < |rs| then Count(rs[i], t) else 0
  {
    var n := |rs| - 1;
    if rs != [] {
      FlatCount(rs[..n], i, t);
      CountConcat(Flat(rs[..n]), rs[n], t);
      if i != n { CountAbsent(rs[n], t); }
    }
  }

  /** A turn that only call i produced, and only once. */
  ghost predicate OnlyFrom(t: Turn, first: seq<Turn>, rs: seq<seq<Turn>>, drained: seq<seq<Turn>>, i: nat) {
    && i < |rs| && t !in first && Count(rs[i], t) == 1
    && (forall k :: 0 <= k < |rs| && k != i ==> t !in rs[k])
    && (forall k :: 0 <= k < |drained| ==> t !in drained[k])
  }

  lemma {:induction false} HistoryCount(first: seq<Turn>, rs: seq<seq<Turn>>, drained: seq<seq<Turn>>, i: nat, t: Turn)
    requires |drained| <= |rs| && OnlyFrom(t, first, rs, drained, i)
    ensures Count(History(first, rs, drained), t) == if |drained| <= i then 0 else |drained| - i
  {
    var n := |drained|;
    if n == 0 {
      CountAbsent(first, t);
    } else {
      HistoryCount(first, rs, drained[..n - 1], i, t);
      FlatCount(rs[..n], i, t);
      CountAbsent(drained[n - 1], t);
      CountConcat(History(first, rs, drained[..n - 1]), Flat(rs[..n]), t);
      CountConcat(History(first, rs, drained[..n - 1]) + Flat(rs[..n]), drained[n - 1], t);
    }
  }

  /** A response of call i occurs once in the conversation, and once more for every wake after it:
      exactly once iff there was no wake since. */
  lemma ResponsesRepeat(first: seq<Turn>, rs: seq<seq<Turn>>, drained: seq<seq<Turn>>, i: nat, t: Turn)
    requires |drained| <= |rs| && OnlyFrom(t, first, rs, drained, i)
    ensures Count(Conversation(first, rs, drained), t) == 1 + if |drained| <= i then 0 else |drained| - i
    ensures Count(Conversation(first, rs, drained), t) == 1 <==> |drained| <= i
  {
    HistoryCount(first, rs, drained, i, t);
    FlatCount(rs, i, t);
    CountConcat(History(first, rs, drained), Flat(rs), t);
  }

  lemma {:induction false} HistoryIgnoresLater(first: seq<Turn>, rs: seq<seq<Turn>>, drained: seq<seq<Turn>>,
                                               r: seq<Turn>)
    requires |drained| <= |rs|
    ensures History(first, rs + [r], drained) == History(first, rs, drained)
  {
    var n := |drained|;
    if n > 0 {
      HistoryIgnoresLater(first, rs, drained[..n - 1], r);
      assert (rs + [r])[..n] == rs[..n];
    }
  }

  lemma {:induction false} ResponseAdds(first: seq<Turn>, rs: seq<seq<Turn>>, drained: seq<seq<Turn>>, r: seq<Turn>)
    requires |drained| <= |rs|
    ensures Flat(rs + [r]) == Flat(rs) + r
    ensures Conversation(first, rs + [r], drained) == Conversation(first, rs, drained) + r
  {
    hide History;
    HistoryIgnoresLater(first, rs, drained, r);
    var all := rs + [r];
    assert all[..|all| - 1] == rs;
    assert Flat(all) == Flat(all[..|all| - 1]) + all[|all| - 1];
    hide Flat;
    assert History(first, rs, drained) + (Flat(rs) + r) == (History(first, rs, drained) + Flat(rs)) + r;
  }

  lemma {:induction false} WakeAdds(first: seq<Turn>, rs: seq<seq<Turn>>, drained: seq<seq<Turn>>, d: seq<Turn>)
    requires |rs| == |drained| + 1
    ensures History(first, rs, drained + [d]) == Conversation(first, rs, drained) + d
  {
    assert (drained + [d])[..|drained|] == drained;
    assert rs[..|rs|] == rs;
  }

  /** Conversation after a wake and one more response, and after a wake alone, both only append. */
  lemma ConversationGrows(first: seq<Turn>, rs: seq<seq<Turn>>, drained: seq<seq<Turn>>, r: seq<Turn>, d: seq<Turn>)
    requires |rs| == |drained| + 1
    ensures Conversation(first, rs, drained) <= Conversation(first, rs, drained + [d])
    ensures Conversation(first, rs, drained + [d]) <= Conversation(first, rs + [r], drained + [d])
  {
    WakeAdds(first, rs, drained, d);
    ResponseAdds(first, rs, drained + [d], r);
  }

  // ------------------------------------------------------------------- moving messages

  /** Every arrival, in order, has one fate or is still queued, and the sink heard of each fate. */
  ghost predicate Accounted(arrived: seq<Mail>, fates: seq<Fate>, queue: seq<Mail>, events: seq<Event>, hasSink: bool) {
    && arrived == Mails(fates) + queue
    && MailEvents(events) == Heard(hasSink, fates)
    && (!hasSink ==> NoDrops(fates))
  }

  lemma AccountedMove(arrived: seq<Mail>, fates: seq<Fate>, queue: seq<Mail>, events: seq<Event>, hasSink: bool,
                      more: seq<Fate>, k: nat)
    requires Accounted(arrived, fates, queue, events, hasSink)
    requires k <= |queue| && Mails(more) == queue[..k] && (!hasSink ==> NoDrops(more))
    ensures Accounted(arrived, fates + more, queue[k..],
                      events + Heard(hasSink, more), hasSink)
  {
    hide Mails, Announced;
    MailsConcat(fates, more);
    AnnouncedConcat(fates, more);
    AnnouncedAreMailEvents(more);
    MailEventsConcat(events, Heard(hasSink, more));
    assert queue == queue[..k] + queue[k..];
  }

  /** What one drain books: the turns, and the cancel marker if there is one. */
  function DrainFates(queue: seq<Mail>): seq<Fate> {
    var n := UpToCancel(queue);
    Turned(queue[..n]) + if n < |queue| then [CancelSeen(queue[n])] else []
  }

  /** How many messages one drain consumes. */
  function DrainLength(queue: seq<Mail>): (k: nat)
    ensures k <= |queue|
  {
    var n := UpToCancel(queue);
    if n < |queue| then n + 1 else n
  }

  lemma MarkerProjections(ms: seq<Mail>, m: Mail)
    ensures Mails(Turned(ms) + [CancelSeen(m)]) == ms + [m]
    ensures Announced(Turned(ms) + [CancelSeen(m)]) == Announced(Turned(ms))
    ensures TurnedMails(Turned(ms) + [CancelSeen(m)]) == ms
  {
    hide Turned;
    TurnedProjections(ms);
    MailsConcat(Turned(ms), [CancelSeen(m)]);
    AnnouncedConcat(Turned(ms), [CancelSeen(m)]);
    TurnedConcat(Turned(ms), [CancelSeen(m)]);
    assert Announced([CancelSeen(m)]) == [];
    assert Mails([CancelSeen(m)]) == [m];
    assert TurnedMails([CancelSeen(m)]) == [];
  }

  lemma DrainProjections(queue: seq<Mail>)
    ensures Mails(DrainFates(queue)) == queue[..DrainLength(queue)]
    ensures forall hasSink :: Heard(hasSink, DrainFates(queue)) == Heard(hasSink, Turned(queue[..UpToCancel(queue)]))
    ensures NoDrops(DrainFates(queue))
    ensures TurnedMails(DrainFates(queue)) == queue[..UpToCancel(queue)]
  {
    hide Turned, Mails, Announced, TurnedMails;
    var n := UpToCancel(queue);
    if n < |queue| {
      MarkerProjections(queue[..n], queue[n]);
      assert queue[..n] + [queue[n]] == queue[..n + 1];
    } else {
      TurnedProjections(queue[..n]);
      assert DrainFates(queue) == Turned(queue[..n]);
    }
  }

  lemma StartTelling(ms: seq<Mail>, events: seq<Event>, turns: seq<Turn>)
    ensures forall hasSink :: events + Heard(hasSink, Turned(ms[..0])) == events
    ensures turns + MailTurns(ms[..0]) == turns
  {
  }

  lemma StartDropping(ms: seq<Mail>, events: seq<Event>, why: Reason)
    ensures events + Announced(Dropped(ms[..0], why)) == events
  {
  }

  lemma AccountedOtherEvent(arrived: seq<Mail>, fates: seq<Fate>, queue: seq<Mail>, events: seq<Event>,
                            hasSink: bool, e: Event)
    requires Accounted(arrived, fates, queue, events, hasSink) && !AboutMail(e)
    ensures Accounted(arrived, fates, queue, events + [e], hasSink)
  {
    MailEventsConcat(events, [e]);
  }

  lemma {:induction false} DraftsConcat(a: seq<Mail>, b: seq<Mail>)
    ensures Drafts(a + b) == Drafts(a) + Drafts(b)
  {
    if a == [] {
      assert a + b == b;
    } else {
      assert (a + b)[1..] == a[1..] + b;
      DraftsConcat(a[1..], b);
      assert [a[0].draft] + (Drafts(a[1..]) + Drafts(b)) == ([a[0].draft] + Drafts(a[1..])) + Drafts(b);
    }
  }

  ghost predicate NoMail(ts: seq<Turn>) {
    forall i :: 0 <= i < |ts| ==> !ts[i].FromMail?
  }

  lemma DrainOnlyTurns(fates: seq<Fate>, queue: seq<Mail>)
    requires OnlyTurns(fates) && UpToCancel(queue) == |queue|
    ensures OnlyTurns(fates + DrainFates(queue))
  {
  }

  /** After a drain without a cancel marker the conversation shows every message taken so far. */
  lemma DrainShows(before: seq<Mail>, messages: seq<Turn>, responses: seq<Turn>, queue: seq<Mail>,
                   context: seq<Turn>, fates: seq<Fate>)
    requires InboxTurns(messages) == before + TurnedMails(fates) && OnlyTurns(fates)
    requires NoMail(responses) && NoMail(context) && UpToCancel(queue) == |queue|
    ensures OnlyTurns(fates + DrainFates(queue))
    ensures InboxTurns(messages + responses + MailTurns(queue) + context) == before + TurnedMails(fates + DrainFates(queue))
  {
    hide InboxTurns, TurnedMails, MailTurns, Turned, DrainFates, OnlyTurns, Mails, Heard, NoDrops, UpToCancel;
    assert queue[..|queue|] == queue;
    DrainOnlyTurns(fates, queue);
    DrainProjections(queue);
    TurnedConcat(fates, DrainFates(queue));
    NoInboxTurns(responses);
    NoInboxTurns(context);
    TurnedProjections(queue);
    InboxTurnsConcat(messages, responses);
    InboxTurnsConcat(messages + responses, MailTurns(queue));
    InboxTurnsConcat(messages + responses + MailTurns(queue), context);
  }

  /** Of the messages turned so far, the last ones, unsent, are what the latest call did not show: its messages
      hold those the conversation began with and the rest of the turned ones, in order. */
  ghost predicate ShownBut(sent: seq<Turn>, calls: nat, before: seq<Mail>, turned: seq<Mail>, unsent: seq<Mail>) {
    && |unsent| <= |turned| && unsent == turned[|turned| - |unsent|..]
    && if calls == 0 then unsent == turned else InboxTurns(sent) == before + turned[..|turned| - |unsent|]
  }

  /** So the latest call shows everything iff unsent is empty, and it shows turned message i iff i comes before
      those. */
  lemma SentIff(sent: seq<Turn>, calls: nat, before: seq<Mail>, turned: seq<Mail>, unsent: seq<Mail>, i: nat)
    requires ShownBut(sent, calls, before, turned, unsent) && calls > 0 && i < |turned|
    ensures InboxTurns(sent) == before + turned <==> unsent == []
    ensures before + turned[..i + 1] <= InboxTurns(sent) <==> i < |turned| - |unsent|
  {
    hide InboxTurns;
    var shown := |turned| - |unsent|;
    if i < shown { assert turned[..shown][..i + 1] == turned[..i + 1]; }
  }

  /** After a call that showed everything, a drain's own turns are what is unsent. */
  lemma DrainIsUnsent(sent: seq<Turn>, calls: nat, before: seq<Mail>, fates: seq<Fate>, queue: seq<Mail>)
    requires ShownBut(sent, calls, before, TurnedMails(fates), [])
    ensures ShownBut(sent, calls, before, TurnedMails(fates + DrainFates(queue)), queue[..UpToCancel(queue)])
  {
    hide InboxTurns, TurnedMails, Turned, DrainFates, Mails, Heard, NoDrops;
    TurnedConcat(fates, DrainFates(queue));
    DrainProjections(queue);
    var turned, unsent := TurnedMails(fates), queue[..UpToCancel(queue)];
    assert turned[..|turned|] == turned == (turned + unsent)[..|turned|];
    assert unsent == (turned + unsent)[|turned|..];
  }

  /** Fates booked before the final drops: turns, then possibly the cancel marker. */
  ghost predicate BeforeDrops(fates: seq<Fate>) {
    && NoDrops(fates)
    && forall i :: 0 <= i < |fates| - 1 ==> fates[i].BecameTurn?
  }

  lemma DropsLast(fates: seq<Fate>, queue: seq<Mail>, why: Reason)
    requires BeforeDrops(fates)
    ensures WellShaped(fates) && WellShaped(fates + Dropped(queue, why))
  {
  }

  lemma DropsTurnNothing(fates: seq<Fate>, queue: seq<Mail>, why: Reason)
    ensures TurnedMails(fates + Dropped(queue, why)) == TurnedMails(fates)
  {
    hide TurnedMails, Dropped;
    TurnedConcat(fates, Dropped(queue, why));
    DroppedProjections(queue, why);
  }

  lemma CancelEnds(fates: seq<Fate>, queue: seq<Mail>)
    requires OnlyTurns(fates) && UpToCancel(queue) < |queue|
    ensures BeforeDrops(fates + DrainFates(queue))
    ensures fates + DrainFates(queue) != []
    ensures (fates + DrainFates(queue))[|fates + DrainFates(queue)| - 1].CancelSeen?
  {
  }

  lemma NothingDrained(queue: seq<Mail>)
    requires UpToCancel(queue) == |queue| == 0
    ensures DrainFates(queue) == []
  {
  }

  ghost predicate CancelAmong(fates: seq<Fate>) {
    exists i :: 0 <= i < |fates| && fates[i].CancelSeen?
  }

  /** Why residual messages are dropped, by the way out. */
  function ReasonFor(exit: Exit, ctxDone: bool): Reason {
    match exit
    case Failed(cancellation) => if cancellation then WorkflowCancelled else TargetTerminal
    case CancelMarker => WorkflowCancelled
    case Left(hitWakeCap) =>
      if hitWakeCap then MaxWakeCycles else if ctxDone then WorkflowCancelled else TargetTerminal
    case Again => TargetTerminal
  }

  lemma OpeningShows(initial: seq<Turn>, prompt: string)
    ensures InboxTurns(initial + [Prompt(prompt)]) == InboxTurns(initial) + TurnedMails([])
  {
    InboxTurnsConcat(initial, [Prompt(prompt)]);
    assert InboxTurns([Prompt(prompt)]) == [];
  }

  lemma OpeningDrain(initial: seq<Turn>, prompt: string, queue: seq<Mail>)
    requires UpToCancel(queue) == |queue|
    ensures OnlyTurns([] + DrainFates(queue))
    ensures InboxTurns(initial + [Prompt(prompt)] + MailTurns(queue[..|queue|]))
         == InboxTurns(initial) + TurnedMails([] + DrainFates(queue))
  {
    hide InboxTurns, TurnedMails, MailTurns, DrainFates;
    OpeningShows(initial, prompt);
    DrainShows(InboxTurns(initial), initial + [Prompt(prompt)], [], queue, [], []);
    assert queue[..|queue|] == queue;
    var opening := initial + [Prompt(prompt)];
    assert opening + [] + MailTurns(queue) + [] == opening + MailTurns(queue);
  }

  function Merge(acc: Merged, responses: seq<Turn>, exhausted: bool, tokens: nat): Merged {
    if acc.NoResult? then Merged(responses, exhausted, tokens)
    else Merged(acc.responses + responses, exhausted, acc.tokens + tokens)
  }

  lemma SameTail<T>(a: seq<T>, b: seq<T>, c: seq<T>)
    requires a + b == a + c
    ensures b == c
  {
    assert |b| == |c|;
    assert forall i :: 0 <= i < |b| ==> (a + b)[|a| + i] == b[i] && (a + c)[|a| + i] == c[i];
  }

  /** Everything delivered during the first n model calls. */
  function Delivered(s: Script, n: nat): seq<Draft> {
    if n == 0 then [] else Delivered(s, n - 1) + s.calls(n - 1).arrivals
  }

  lemma DeliveredNext(s: Script, n: nat)
    ensures Delivered(s, n + 1) == Delivered(s, n) + s.calls(n).arrivals
  {
  }

  function CallTokens(outcome: CallOutcome): nat {
    if outcome.CallResult? then outcome.tokens else 0
  }

  /** What the first n calls cost. */
  function Spent(s: Script, n: nat): nat {
    if n == 0 then 0 else Spent(s, n - 1) + CallTokens(s.calls(n - 1).outcome)
  }

  function TokensOf(result: Merged): nat {
    if result.Merged? then result.tokens else 0
  }

  /** The outcome reports these tokens, if it reports any. */
  predicate Reports(outcome: Outcome, tokens: nat) {
    match outcome
    case CancelledRun(n) => n == tokens
    case Submitted(n) => n == tokens
    case Completed(_, n) => n == tokens
    case _ => true
  }

  function Responses(result: Merged): seq<Turn> {
    if result.Merged? then result.responses else []
  }

  function Context(text: string): (ts: seq<Turn>)
    ensures NoMail(ts)
  {
    if text == "" then [] else [DynamicContext(text)]
  }

  // ------------------------------------------------------------------- what the script says

  /** r are the texts of this call's result. */
  predicate AnswerOf(outcome: CallOutcome, r: seq<Turn>) {
    && outcome.CallResult? && |r| == |outcome.responses|
    && forall i :: 0 <= i < |r| ==> r[i] == Response(outcome.responses[i])
  }

  /** A turn with the snapshot, unless that is blank. */
  ghost predicate EndsWith(d: seq<Turn>, messages: seq<Turn>, text: string) {
    d == messages + if text != "" then [DynamicContext(text)] else []
  }

  /** d are some messages of the mailbox and the provider's snapshot. */
  ghost predicate WokenWith(d: seq<Turn>, text: string) {
    exists ms :: EndsWith(d, MailTurns(ms), text)
  }

  /** The history is the script's: every call so far, but for a last one that failed, answered what is in rs, every
      wake brought the next snapshot, and the latest call was sent all that came before it. */
  ghost predicate Scripted(s: Script, first: seq<Turn>, rs: seq<seq<Turn>>, drained: seq<seq<Turn>>,
                           contexts: nat, calls: nat, sent: seq<Turn>) {
    && |drained| <= |rs| <= calls <= |rs| + 1
    && (|rs| < calls ==> s.calls(calls - 1).outcome.CallError?)
    && (forall k: nat :: k < |rs| ==> AnswerOf(s.calls(k).outcome, rs[k]))
    && contexts == |drained| + 1
    && (forall k: nat :: k < |drained| ==> WokenWith(drained[k], s.contexts(k + 1)))
    && (calls > 0 ==> calls - 1 <= |drained| && sent == History(first, rs, drained[..calls - 1]))
  }

  lemma ScriptedStart(s: Script, first: seq<Turn>, sent: seq<Turn>)
    ensures Scripted(s, first, [], [], 1, 0, sent)
  {
  }

  lemma {:induction false} ScriptedCall(s: Script, first: seq<Turn>, rs: seq<seq<Turn>>, drained: seq<seq<Turn>>,
                                        contexts: nat, calls: nat, sent: seq<Turn>, messages: seq<Turn>)
    requires Scripted(s, first, rs, drained, contexts, calls, sent) && |rs| == |drained| == calls
    requires messages == History(first, rs, drained)
    ensures s.calls(calls).outcome.CallError? ==> Scripted(s, first, rs, drained, contexts, calls + 1, messages)
    ensures s.calls(calls).outcome.CallResult? ==>
              Scripted(s, first, rs + [AsResponses(s.calls(calls).outcome.responses)], drained, contexts, calls + 1, messages)
  {
    hide History;
    assert drained[..|drained|] == drained;
    if s.calls(calls).outcome.CallResult? {
      HistoryIgnoresLater(first, rs, drained, AsResponses(s.calls(calls).outcome.responses));
    }
  }

  lemma {:induction false} ScriptedWake(s: Script, first: seq<Turn>, rs: seq<seq<Turn>>, drained: seq<seq<Turn>>,
                                        contexts: nat, calls: nat, sent: seq<Turn>, ms: seq<Mail>)
    requires Scripted(s, first, rs, drained, contexts, calls, sent) && |rs| == |drained| + 1 == calls
    ensures Scripted(s, first, rs, drained + [MailTurns(ms) + Context(s.contexts(contexts))], contexts + 1, calls, sent)
  {
    hide History;
    var d := MailTurns(ms) + Context(s.contexts(contexts));
    assert EndsWith(d, MailTurns(ms), s.contexts(contexts));
    assert (drained + [d])[..|drained|] == drained == drained[..|drained|];
  }

  lemma {:induction false} HistoryBegins(first: seq<Turn>, rs: seq<seq<Turn>>, drained: seq<seq<Turn>>)
    requires |drained| <= |rs|
    ensures first <= History(first, rs, drained)
  {
    if drained != [] { HistoryBegins(first, rs, drained[..|drained| - 1]); }
  }

  /** The loop's variables are what the history of responses and drains says, and the latest
      transcript snapshot is a prefix of the conversation. */
  ghost predicate Talk(first: seq<Turn>, rs: seq<seq<Turn>>, drained: seq<seq<Turn>>, snap: seq<Turn>,
                       messages: seq<Turn>, result: Merged) {
    && |drained| <= |rs| <= |drained| + 1
    && messages == History(first, rs, drained)
    && (result.NoResult? <==> rs == [])
    && (result.Merged? ==> result.responses == Flat(rs))
    && snap <= messages + Responses(result) && NoMail(Responses(result))
  }

  lemma TalkResponse(first: seq<Turn>, rs: seq<seq<Turn>>, drained: seq<seq<Turn>>, snap: seq<Turn>,
                     messages: seq<Turn>, result: Merged, r: seq<Turn>, exhausted: bool, tokens: nat)
    requires Talk(first, rs, drained, snap, messages, result) && |rs| == |drained| && NoMail(r)
    ensures var merged := Merge(result, r, exhausted, tokens);
            && snap <= messages + merged.responses
            && Talk(first, rs + [r], drained, snap, messages, merged)
            && Talk(first, rs + [r], drained, messages + merged.responses, messages, merged)
  {
    hide Flat, History;
    ResponseAdds(first, rs, drained, r);
    HistoryIgnoresLater(first, rs, drained, r);
    if rs == [] { NothingSaid(); }
    assert messages + Responses(Merge(result, r, exhausted, tokens)) == messages + Responses(result) + r;
  }

  lemma Spoken(first: seq<Turn>, rs: seq<seq<Turn>>, drained: seq<seq<Turn>>, snap: seq<Turn>,
               messages: seq<Turn>, result: Merged)
    requires Talk(first, rs, drained, snap, messages, result)
    ensures NoMail(Responses(result)) && (result.NoResult? <==> rs == [])
    ensures snap <= messages + Responses(result)
    ensures |drained| <= |rs| <= |drained| + 1
    ensures messages + Responses(result) == Conversation(first, rs, drained)
  {
  }

  lemma NothingSaid()
    ensures Flat([]) == []
  {
  }

  lemma TalkWake(first: seq<Turn>, rs: seq<seq<Turn>>, drained: seq<seq<Turn>>, snap: seq<Turn>,
                 messages: seq<Turn>, result: Merged, d: seq<Turn>)
    requires Talk(first, rs, drained, snap, messages, result) && |rs| == |drained| + 1
    ensures Talk(first, rs, drained + [d], snap, messages + result.responses + d, result)
  {
    hide Flat, History;
    WakeAdds(first, rs, drained, d);
    assert snap <= messages + result.responses;
  }

  lemma WakeShows(first: seq<Turn>, rs: seq<seq<Turn>>, drained: seq<seq<Turn>>, snap: seq<Turn>, before: seq<Mail>,
                  messages: seq<Turn>, result: Merged, queue: seq<Mail>, context: seq<Turn>, fates: seq<Fate>)
    requires Talk(first, rs, drained, snap, messages, result) && |rs| == |drained| + 1
    requires InboxTurns(messages) == before + TurnedMails(fates) && OnlyTurns(fates)
    requires NoMail(context) && UpToCancel(queue) == |queue|
    ensures var next := messages + result.responses + MailTurns(queue[..|queue|]) + context;
            && Talk(first, rs, drained + [MailTurns(queue) + context], snap, next, result)
            && OnlyTurns(fates + DrainFates(queue))
            && InboxTurns(next) == before + TurnedMails(fates + DrainFates(queue))
  {
    hide InboxTurns, TurnedMails, Talk, DrainFates, OnlyTurns, NoMail, MailTurns;
    Spoken(first, rs, drained, snap, messages, result);
    assert queue[..|queue|] == queue;
    DrainShows(before, messages, result.responses, queue, context, fates);
    TalkWake(first, rs, drained, snap, messages, result, MailTurns(queue) + context);
    assert messages + result.responses + MailTurns(queue) + context
        == messages + result.responses + (MailTurns(queue) + context);
  }
}
