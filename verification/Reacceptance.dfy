/** Literal runs from the empty stream in which receipts, or a grant, end before their users expect it. */
module Reacceptance {
  import opened Contract
  import opened Tables
  import opened EventLog
  import opened Stream
  import opened StreamSafety
  import opened StreamTheorems
  import opened RecentIds
  import opened Delivery
  import opened QueueRefinement
  import Q = QueueReference

  // ----- One grant, one consumer, two publications a receipt retention apart -----

  const SCOPE: Route := Route(0, false, 0, 0)
  const GRANT: Grant := Grant(0, 0, 0, SCOPE, 1, 0, 4 * RECEIPT_RETENTION_MS, Active, None)
  const LOOKUP: GrantLookup := GrantLookup(0, Some(0), 0, 0, SCOPE)

  function Publication(id: EventId): AppendInput {
    AppendInput(id, 0, SCOPE, 1, 0, 2, true, None, false)
  }

  const ISSUE: Step := IssueAt(GrantRequest(0, 0, 0, 0, SCOPE, 1, None, 0, 4 * RECEIPT_RETENTION_MS, false), 0)
  const CONNECT: Step := AcceptSocketAt(LOOKUP, 0)
  const REGISTER: Step := MessageAt(0, RegisterMessage, 0, 0, true, Sent)
  const PUBLISH: Step := AppendAt(Publication(0), 0, 0, Sent)
  const CONFIRM: Step := MessageAt(0, AckMessage(0), 0, 0, true, Sent)

  function PublishLater(id: EventId): Step {
    AppendAt(Publication(id), 1, RECEIPT_RETENTION_MS, Sent)
  }

  function ConfirmLater(cursor: Cursor): Step {
    MessageAt(0, AckMessage(cursor), 0, RECEIPT_RETENTION_MS, true, Sent)
  }

  // ----- The states they pass through -----

  const FIRST: Entry := Entry(0, 0, 0, 0, 2, 0, None, 1)

  function Second(id: EventId): Entry {
    Entry(id, 0, 1, 0, 2, RECEIPT_RETENTION_MS, None, 1)
  }

  const WAITING: Attachment := Attachment(0, 0, SCOPE, false, 0, 0, None, 0, None)
  const SELECTED: Attachment := WAITING.(registered := true, epoch := 1)

  const GRANTED: State := INITIAL.(route := Some(SCOPE), grants := map[0 := GRANT])
  const CONNECTED: State := GRANTED.(sockets := [Some(WAITING)])
  const REGISTERED: State := CONNECTED.(desk := Desk(true, 1, Some(0)), sockets := [Some(SELECTED)])
  const PUBLISHED: State :=
    REGISTERED.(revision := Some(1), sockets := [Some(SELECTED.(sent := 1, sentCursor := Some(0)))],
                log := Log([FIRST], [], [], 0, 2, 1, 2, 0, None, None,
                           [EventOf(FIRST, 1)], [ReceiptOf(FIRST, 1)], [Ingress(0, 0)]))
  const CONFIRMED: State :=
    PUBLISHED.(sockets := [Some(SELECTED.(sent := 1, sentCursor := Some(0), acked := 1, ackedCursor := Some(0)))],
               log := PUBLISHED.log.(fates := [Acknowledged], events := [], count := 0, bytes := 0,
                                     acked := 1, ackedCursor := Some(0)))

  function PublishedLater(id: EventId): State {
    CONFIRMED.(sockets := [Some(SELECTED.(sent := 2, sentCursor := Some(1), acked := 1, ackedCursor := Some(0)))],
               log := Log([FIRST, Second(id)], [Acknowledged], [], RECEIPT_RETENTION_MS, 3, 1, 2, 1, Some(0), None,
                          [EventOf(Second(id), 2)], [ReceiptOf(Second(id), 2)], [Ingress(id, RECEIPT_RETENTION_MS)]))
  }

  function ConfirmedLater(id: EventId): State {
    var s := PublishedLater(id);
    s.(sockets := [Some(SELECTED.(sent := 2, sentCursor := Some(1), acked := 2, ackedCursor := Some(1)))],
       log := s.log.(fates := [Acknowledged, Acknowledged], events := [], count := 0, bytes := 0,
                     acked := 2, ackedCursor := Some(1)))
  }

  lemma Granted()
    ensures Next(INITIAL, ISSUE) == GRANTED
  {
    assert INITIAL.grants == map[];
    assert ReplaceActive(map[], 0) == map[] && DropAged(map[], 0) == map[] && DropOverflow(map[]) == map[];
  }

  lemma Connected()
    ensures Next(GRANTED, CONNECT) == CONNECTED
  {
  }

  lemma Registered()
    ensures Next(CONNECTED, REGISTER) == REGISTERED && Emitted(CONNECTED, REGISTER).None?
  {
  }

  lemma Published()
    ensures Next(REGISTERED, PUBLISH) == PUBLISHED && Emitted(REGISTERED, PUBLISH) == Some(Frame(0, EventOf(FIRST, 1)))
  {
  }

  lemma FilterOne<T>(row: T, keep: T -> bool)
    ensures Filter([row], keep) == if keep(row) then [row] else []
  {
    assert [row][1..] == [];
  }

  /** Acknowledging the only row empties the events table. */
  lemma AcknowledgesOnly(log: Log, event: Event)
    requires log.events == [event] && log.count == 1 && log.bytes == event.payloadBytes
    ensures HasRow(log.events, event.sequence, event.cursor)
    ensures AcknowledgeThrough(log, event.sequence, event.cursor)
            == log.(events := [], acked := event.sequence, ackedCursor := Some(event.cursor), count := 0, bytes := 0,
                    fates := log.fates + [Acknowledged])
  {
    FilterOne(event, Through(event.sequence));
    FilterOne(event, Beyond(event.sequence));
    assert SumBytes([event]) == event.payloadBytes by {
      assert [event][1..] == [];
    }
    assert event in log.events;
    assert Repeat(Acknowledged, 1) == [Acknowledged];
  }

  lemma Acked()
    ensures Next(PUBLISHED, CONFIRM) == CONFIRMED && Emitted(PUBLISHED, CONFIRM).None?
  {
    AcknowledgesOnly(PUBLISHED.log, EventOf(FIRST, 1));
    hide HasRow, AcknowledgeThrough;
  }

  /** One receipt retention after the first publication nothing recalls it. */
  lemma Forgotten()
    ensures PruneStep(CONFIRMED, RECEIPT_RETENTION_MS)
            == CONFIRMED.(log := CONFIRMED.log.(receipts := [], ingress := [], clock := RECEIPT_RETENTION_MS))
    ensures ExpiredCount(CONFIRMED.log, RECEIPT_RETENTION_MS) == 0
  {
    FilterOne(ReceiptOf(FIRST, 1), ReceiptLiveAt(RECEIPT_RETENTION_MS));
    FilterOne(Ingress(0, 0), IngressAfter(RECEIPT_RETENTION_MS - 1_000));
  }

  lemma PublishedAgain(id: EventId)
    ensures Next(CONFIRMED, PublishLater(id)) == PublishedLater(id)
    ensures Emitted(CONFIRMED, PublishLater(id)) == Some(Frame(0, EventOf(Second(id), 2)))
    ensures AppendStep(CONFIRMED, Publication(id), 1, RECEIPT_RETENTION_MS, Sent).result == Accepted(2, RECEIPT_RETENTION_MS)
  {
    Forgotten();
    hide PruneStep;
    FilterOne(EventOf(Second(id), 2), Beyond(1));
    hide Filter;
    assert Filter<Ingress>([], IngressAfter(RECEIPT_RETENTION_MS - 1_000)) == [];
  }

  lemma AckedAgain(id: EventId)
    ensures Next(PublishedLater(id), ConfirmLater(1)) == ConfirmedLater(id)
    ensures Emitted(PublishedLater(id), ConfirmLater(1)).None?
  {
    AcknowledgesOnly(PublishedLater(id).log, EventOf(Second(id), 2));
    hide HasRow, AcknowledgeThrough;
  }

  // ----- The browser skips what comes back -----

  /** The consumer is connected, the event published, handled and acknowledged; one receipt retention later the
      same event is published again, received and acknowledged. */
  const TWICE: seq<Move> :=
    [StreamMove(ISSUE), StreamMove(CONNECT), Open(0), StreamMove(REGISTER),
     StreamMove(PUBLISH), Receive(true), DeliverAck(0, 0, 0, Sent),
     StreamMove(PublishLater(0)), Receive(true), DeliverAck(0, 0, RECEIPT_RETENTION_MS, Sent)]

  const OPENED: Browser := START.browser.(reading := Some(0), used := 1)
  const TAKEN: Browser := OPENED.(recent := [0], handled := [EventOf(FIRST, 1)], seen := 1)

  const READING: World := World(REGISTERED, OPENED, 0)
  const SHOWN: World := World(PUBLISHED, OPENED.(frames := map[0 := EventOf(FIRST, 1)]), 0)
  const HANDLED: World := World(PUBLISHED, TAKEN.(acks := map[0 := 0]), 0)
  const SETTLED: World := World(CONFIRMED, TAKEN, 0)
  const SHOWN_AGAIN: World :=
    World(PublishedLater(0), TAKEN.(frames := map[0 := EventOf(Second(0), 2)]), RECEIPT_RETENTION_MS)
  const SKIPPED: World := World(PublishedLater(0), TAKEN.(acks := map[0 := 1], seen := 2), RECEIPT_RETENTION_MS)
  const SETTLED_AGAIN: World := World(ConfirmedLater(0), TAKEN.(seen := 2), RECEIPT_RETENTION_MS)

  /** The worlds after each move. */
  const WORLDS: seq<World> :=
    [START, World(GRANTED, START.browser, 0), World(CONNECTED, START.browser, 0), World(CONNECTED, OPENED, 0), READING,
     SHOWN, HANDLED, SETTLED, SHOWN_AGAIN, SKIPPED, SETTLED_AGAIN]

  predicate Leads(w: World, cap: nat, move: Move, after: World) {
    Allowed(w, move) && Do(w, cap, move) == after
  }

  lemma {:induction false} Follows(worlds: seq<World>, cap: nat, moves: seq<Move>)
    requires |worlds| == |moves| + 1
    requires forall i :: 0 <= i < |moves| ==> Leads(worlds[i], cap, moves[i], worlds[i + 1])
    ensures AllowedRun(worlds[0], cap, moves) && DoAll(worlds[0], cap, moves) == worlds[|moves|]
    decreases |moves|
  {
    hide Allowed, Do;
    if moves != [] {
      assert Leads(worlds[0], cap, moves[0], worlds[1]);
      Follows(worlds[1..], cap, moves[1..]);
    }
  }

  lemma Connects(cap: nat)
    ensures Leads(START, cap, StreamMove(ISSUE), World(GRANTED, START.browser, 0))
    ensures Leads(World(GRANTED, START.browser, 0), cap, StreamMove(CONNECT), World(CONNECTED, START.browser, 0))
    ensures Leads(World(CONNECTED, START.browser, 0), cap, Open(0), World(CONNECTED, OPENED, 0))
    ensures Leads(World(CONNECTED, OPENED, 0), cap, StreamMove(REGISTER), READING)
  {
    Granted();
    Connected();
    Registered();
    assert Emitted(INITIAL, ISSUE).None? && Emitted(GRANTED, CONNECT).None?;
    hide Next, Emitted;
  }

  lemma Shows(cap: nat)
    ensures Leads(READING, cap, StreamMove(PUBLISH), SHOWN)
    ensures Leads(SETTLED, cap, StreamMove(PublishLater(0)), SHOWN_AGAIN)
  {
    Published();
    PublishedAgain(0);
    hide Next, Emitted;
  }

  lemma Handles(cap: nat)
    requires cap >= 1
    ensures Leads(SHOWN, cap, Receive(true), HANDLED)
    ensures Leads(SHOWN_AGAIN, cap, Receive(true), SKIPPED)
  {
    assert Remember([], cap, 0) == [0];
    assert SHOWN.browser.frames - {0} == map[] && SHOWN_AGAIN.browser.frames - {0} == map[];
    hide Remember;
  }

  lemma Settles(cap: nat)
    ensures Leads(HANDLED, cap, DeliverAck(0, 0, 0, Sent), SETTLED)
    ensures Leads(SKIPPED, cap, DeliverAck(0, 0, RECEIPT_RETENTION_MS, Sent), SETTLED_AGAIN)
  {
    Acked();
    AckedAgain(0);
    hide Next, Emitted;
    assert HANDLED.browser.acks - {0} == map[] && SKIPPED.browser.acks - {0} == map[];
  }

  /** An event accepted again one receipt retention later is acknowledged without being handled: a run in which the
      stream has accepted and settled two events and the browser has handled one. */
  lemma ReacceptedIdIsSkipped(cap: nat)
    requires cap >= 1
    ensures AllowedRun(START, cap, TWICE)
    ensures var w := DoAll(START, cap, TWICE);
            && w.stream.log.accepted == [FIRST, Second(0)] && w.stream.log.acked == 2
            && w.browser.seen == 2 && w.browser.handled == [EventOf(FIRST, 1)]
  {
    hide Leads, AllowedRun, DoAll;
    Connects(cap);
    Shows(cap);
    Handles(cap);
    Settles(cap);
    Follows(WORLDS, cap, TWICE);
  }

  // ----- The queue never forgets -----

  const CONNECTING: seq<Step> := [ISSUE, CONNECT, REGISTER, PUBLISH, CONFIRM]

  lemma CalmWithoutBindings(s: State, step: Step)
    requires s.bindings == map[] && Next(s, step).bindings == map[] && s.log.clock <= step.now <= MAX_SAFE_INTEGER
    requires ExpiredCount(s.log, step.now) == 0 && !(step.IssueAt? && step.request.resetBacklog)
    requires step.AppendAt? ==> Addressed(s, step.input, step.cursor, step.now)
    ensures Calm(s, step)
  {
    hide Next, ExpiredCount, Addressed;
  }

  lemma ConnectsCalmly()
    ensures Calm(INITIAL, ISSUE) && Supported(INITIAL, ISSUE)
    ensures Calm(GRANTED, CONNECT) && Supported(GRANTED, CONNECT)
    ensures Calm(CONNECTED, REGISTER) && Supported(CONNECTED, REGISTER)
  {
    Granted();
    Connected();
    Registered();
    hide Next;
    CalmWithoutBindings(INITIAL, ISSUE);
    CalmWithoutBindings(GRANTED, CONNECT);
    CalmWithoutBindings(CONNECTED, REGISTER);
  }

  lemma PublishesCalmly()
    ensures Calm(REGISTERED, PUBLISH) && Supported(REGISTERED, PUBLISH)
  {
    Published();
    hide Next;
    CalmWithoutBindings(REGISTERED, PUBLISH);
  }

  lemma SettlesCalmly()
    ensures Calm(PUBLISHED, CONFIRM) && Supported(PUBLISHED, CONFIRM)
  {
    Acked();
    hide Next;
    FilterOne(EventOf(FIRST, 1), ExpiredAt(0));
    CalmWithoutBindings(PUBLISHED, CONFIRM);
  }

  lemma PublishesLaterCalmly(id: EventId)
    ensures Calm(CONFIRMED, PublishLater(id))
    ensures Supported(CONFIRMED, PublishLater(id)) <==> id != 0
  {
    PublishedAgain(id);
    Forgotten();
    hide Next, PruneStep, ExpiredCount;
    CalmWithoutBindings(CONFIRMED, PublishLater(id));
    assert CONFIRMED.log.accepted[0] == FIRST;
  }

  lemma SettlesLaterCalmly(id: EventId)
    ensures Calm(PublishedLater(id), ConfirmLater(1)) && Supported(PublishedLater(id), ConfirmLater(1))
  {
    AckedAgain(id);
    hide Next;
    FilterOne(EventOf(Second(id), 2), ExpiredAt(RECEIPT_RETENTION_MS));
    CalmWithoutBindings(PublishedLater(id), ConfirmLater(1));
    assert PublishedLater(id).log.accepted[0].cursor == 0;
  }

  /** The first acknowledgement once more: its receipt has gone, and it is not the last one. */
  lemma ConfirmsLate(id: EventId)
    ensures Calm(ConfirmedLater(id), ConfirmLater(0)) && !Supported(ConfirmedLater(id), ConfirmLater(0))
    ensures AnswerOf(ConfirmedLater(id), ConfirmLater(0)) == Q.Invalid
  {
    var s := ConfirmedLater(id);
    assert Next(s, ConfirmLater(0)) == Cleared(s);
    hide Next;
    CalmWithoutBindings(s, ConfirmLater(0));
    assert s.log.accepted[0].cursor == 0 && Acknowledges(s, ConfirmLater(0));
  }

  lemma {:induction false} CalmThrough(states: seq<State>, steps: seq<Step>, last: Step)
    requires |states| == |steps| + 1 && Calm(states[|steps|], last)
    requires forall i :: 0 <= i < |steps| ==>
               Calm(states[i], steps[i]) && Supported(states[i], steps[i]) && Next(states[i], steps[i]) == states[i + 1]
    ensures CalmRun(states[0], steps + [last]) && SupportedRun(states[0], steps)
    ensures SupportedRun(states[0], steps + [last]) <==> Supported(states[|steps|], last)
    ensures Run(states[0], steps) == states[|steps|]
    decreases |steps|
  {
    hide Calm, Supported, Next;
    if steps == [] {
      assert ([last])[1..] == [] && steps + [last] == [last];
    } else {
      assert (steps + [last])[0] == steps[0] && (steps + [last])[1..] == steps[1..] + [last];
      assert Calm(states[0], steps[0]) && Next(states[0], steps[0]) == states[1];
      CalmThrough(states[1..], steps[1..], last);
    }
  }

  lemma ConnectingIsCalm()
    ensures var states := [INITIAL, GRANTED, CONNECTED, REGISTERED, PUBLISHED, CONFIRMED];
            forall i :: 0 <= i < |CONNECTING| ==>
              Calm(states[i], CONNECTING[i]) && Supported(states[i], CONNECTING[i])
              && Next(states[i], CONNECTING[i]) == states[i + 1]
  {
    Granted();
    Connected();
    Registered();
    Published();
    Acked();
    hide Next, Calm, Supported;
    ConnectsCalmly();
    PublishesCalmly();
    SettlesCalmly();
  }

  /** The same event published again one receipt retention later: the stream accepts it, the queue knows it. */
  lemma QueueKnowsForgottenId()
    ensures var steps := CONNECTING + [PublishLater(0)];
            && CalmRun(INITIAL, steps) && SupportedRun(INITIAL, CONNECTING) && !SupportedRun(INITIAL, steps)
            && |StreamTrace(INITIAL, steps)| == |QueueTrace(INITIAL, Q.NOTHING, steps)| == 6
            && StreamTrace(INITIAL, steps)[5].outcome == Some(Q.Taken)
            && QueueTrace(INITIAL, Q.NOTHING, steps)[5].outcome == Some(Q.Known)
  {
    hide Valid, Mirrors, Calm, Supported, Next, Run, CalmRun, SupportedRun, StreamTrace, QueueTrace, AppendStep, Q.Publish;
    ConnectingIsCalm();
    PublishesLaterCalmly(0);
    CalmThrough([INITIAL, GRANTED, CONNECTED, REGISTERED, PUBLISHED, CONFIRMED], CONNECTING, PublishLater(0));
    InitialMirrors();
    var q := LastStep(INITIAL, Q.NOTHING, CONNECTING, PublishLater(0));
    PublishedAgain(0);
    KnowsFirst(q);
  }

  lemma KnowsFirst(q: Q.Queue)
    requires Mirrors(CONFIRMED, q)
    ensures Q.Publish(q, EntryOf(Publication(0), 1, RECEIPT_RETENTION_MS)).outcome == Q.Known
  {
    assert CONFIRMED.log.accepted[0] == FIRST;
    hide Q.Expire, Q.Push, Filter;
  }

  /** An old acknowledgement repeated one receipt retention later: the stream ends the consumer, the queue does not. */
  lemma QueueKnowsForgottenCursor(id: EventId)
    requires id != 0
    ensures var before := CONNECTING + [PublishLater(id), ConfirmLater(1)];
            var steps := before + [ConfirmLater(0)];
            && CalmRun(INITIAL, steps) && SupportedRun(INITIAL, before) && !SupportedRun(INITIAL, steps)
            && |StreamTrace(INITIAL, steps)| == |QueueTrace(INITIAL, Q.NOTHING, steps)| == 8
            && StreamTrace(INITIAL, steps)[7].answer == Some(Q.Invalid)
            && QueueTrace(INITIAL, Q.NOTHING, steps)[7].answer == Some(Q.Repeated)
  {
    hide Valid, Mirrors, Calm, Supported, Next, Run, CalmRun, SupportedRun, StreamTrace, QueueTrace, Q.Acknowledge, AnswerOf;
    var before := CONNECTING + [PublishLater(id), ConfirmLater(1)];
    ConnectingIsCalm();
    PublishesLaterCalmly(id);
    PublishedAgain(id);
    SettlesLaterCalmly(id);
    AckedAgain(id);
    ConfirmsLate(id);
    CalmThrough([INITIAL, GRANTED, CONNECTED, REGISTERED, PUBLISHED, CONFIRMED, PublishedLater(id), ConfirmedLater(id)],
                before, ConfirmLater(0));
    InitialMirrors();
    var q := LastStep(INITIAL, Q.NOTHING, before, ConfirmLater(0));
    KnowsCursor(id, q);
  }

  lemma KnowsCursor(id: EventId, q: Q.Queue)
    requires Mirrors(ConfirmedLater(id), q)
    ensures Q.Acknowledge(q, 0).answer == Q.Repeated
    ensures ActionOf(ConfirmedLater(id), ConfirmLater(0)) == Confirm(0)
    ensures Acknowledges(ConfirmedLater(id), ConfirmLater(0))
  {
    var s := ConfirmedLater(id);
    assert s.log.accepted[0].cursor == 0 && s.log.accepted[0].cursor in q.acknowledged;
    assert SelectedAt(s.desk, s.sockets, 0) && CurrentSocket(s).Some?;
    assert Next(s, ConfirmLater(0)) == Cleared(s);
    hide Next, Q.Deliver;
  }

  // ----- The queue knows of no grants -----

  const REGISTERING: seq<Step> := [ISSUE, CONNECT, REGISTER]

  // The first publication ever, when the connected consumer's grant has just expired and no alarm has run yet.
  const PUBLISH_LATE: Step := AppendAt(Publication(0), 0, 4 * RECEIPT_RETENTION_MS, Sent)

  lemma NothingToPrune(now: nat)
    ensures PruneStep(REGISTERED, now) == REGISTERED.(log := EMPTY.(clock := now)) && ExpiredCount(REGISTERED.log, now) == 0
  {
  }

  lemma PublishesLate()
    ensures Calm(REGISTERED, PUBLISH_LATE) && !Supported(REGISTERED, PUBLISH_LATE)
    ensures AppendStep(REGISTERED, Publication(0), 0, 4 * RECEIPT_RETENTION_MS, Sent).result == Refused(ConsumerUnavailable)
    ensures Emitted(REGISTERED, PUBLISH_LATE).None?
  {
    NothingToPrune(4 * RECEIPT_RETENTION_MS);
    hide PruneStep, ExpiredCount;
    assert CurrentSocket(REGISTERED) == Some(0);
    CalmWithoutBindings(REGISTERED, PUBLISH_LATE);
  }

  lemma TakesLate(q: Q.Queue)
    requires Mirrors(REGISTERED, q)
    ensures Q.Publish(q, EntryOf(Publication(0), 0, 4 * RECEIPT_RETENTION_MS)).outcome == Q.Taken
  {
    NothingToPrune(4 * RECEIPT_RETENTION_MS);
    ExpireIsCalm(REGISTERED.log, q, 4 * RECEIPT_RETENTION_MS);
    assert q.items == [] && q.bytes == 0 && q.times == [] && q.consumer.Some?;
    hide Q.Expire, Q.Push;
  }

  /** A publication after the connected consumer's grant has expired: refused for want of a consumer by the stream,
      taken by the queue. */
  lemma QueueServesLapsedGrant()
    ensures var steps := REGISTERING + [PUBLISH_LATE];
            && CalmRun(INITIAL, steps) && SupportedRun(INITIAL, REGISTERING) && !SupportedRun(INITIAL, steps)
            && |StreamTrace(INITIAL, steps)| == |QueueTrace(INITIAL, Q.NOTHING, steps)| == 4
            && StreamTrace(INITIAL, steps)[3].outcome == Some(Q.Rejected(ConsumerUnavailable))
            && QueueTrace(INITIAL, Q.NOTHING, steps)[3].outcome == Some(Q.Taken)
  {
    hide Valid, Mirrors, Calm, Supported, Next, Run, CalmRun, SupportedRun, StreamTrace, QueueTrace, AppendStep, Q.Publish;
    Granted();
    Connected();
    Registered();
    ConnectsCalmly();
    PublishesLate();
    CalmThrough([INITIAL, GRANTED, CONNECTED, REGISTERED], REGISTERING, PUBLISH_LATE);
    InitialMirrors();
    var q := LastStep(INITIAL, Q.NOTHING, REGISTERING, PUBLISH_LATE);
    TakesLate(q);
  }
}
