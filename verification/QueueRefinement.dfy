/** The SQL stream refines the test runtime's queue: without gaps, resets or binding moves both make the same
    decisions and offer the same frames, exactly as long as the stream's receipts recall what the queue never forgets
    and the connected consumer's grant, of which the queue knows nothing, holds. */
module QueueRefinement {
  import opened Contract
  import opened Tables
  import opened EventLog
  import opened Stream
  import opened StreamSafety
  import opened StreamTheorems
  import opened Delivery
  import Q = QueueReference

  // ----- What a stream step is for the queue -----

  /** The queue's user: publishes, connects, or acknowledges; a connected user always has a read pending. */
  datatype Action = Publish(entry: Entry) | Connect | Confirm(cursor: Cursor) | Idle

  /** What a publication comes to, what an acknowledgement comes to, and the event offered. */
  datatype Observation = Observation(outcome: Option<Q.Outcome>, answer: Option<Q.Answer>, frame: Option<Event>)

  const NOTHING_SEEN := Observation(None, None, None)

  datatype Driven = Driven(queue: Q.Queue, seen: Observation)

  function Settle(served: Q.Served, survives: bool, seen: Observation): Driven {
    if served.queue.consumer.Some? && !survives then Driven(Q.Disconnect(served.queue), seen.(frame := None))
    else Driven(served.queue, seen.(frame := served.frame))
  }

  /** One action; a connection that does not survive it is dropped, and its pending read with it. */
  function Drive(q: Q.Queue, action: Action, survives: bool): Driven {
    match action
    case Publish(entry) =>
      var p := Q.Publish(q, entry);
      Settle(Q.Served(p.queue, p.frame), survives, Observation(Some(p.outcome), None, None))
    case Connect =>
      Settle(if survives then Q.Read(Q.Attach(q)) else Q.Served(Q.Attach(q), None), survives, NOTHING_SEEN)
    case Confirm(cursor) =>
      var a := Q.Acknowledge(q, cursor);
      Settle(if survives && a.answer.Removed? && a.queue.consumer.Some? then Q.Read(a.queue)
             else Q.Served(a.queue, a.frame), survives, Observation(None, Some(a.answer), None))
    case Idle => Settle(Q.Served(q, None), survives, NOTHING_SEEN)
  }

  predicate Acknowledges(s: State, step: Step) {
    step.MessageAt? && step.message.AckMessage? && SelectedAt(s.desk, s.sockets, step.socket)
  }

  function ActionOf(s: State, step: Step): Action {
    if step.AppendAt? then Publish(EntryOf(step.input, step.cursor, step.now))
    else if step.MessageAt? && Next(s, step).desk.epoch > s.desk.epoch then Connect
    else if Acknowledges(s, step) then Confirm(step.message.cursor)
    else Idle
  }

  function Decision(result: AppendResult): Q.Outcome {
    match result
    case Accepted(_, _) => Q.Taken
    case Replayed(_, _) => Q.Known
    case Refused(code) => Q.Rejected(code)
  }

  /** What an acknowledgement did to the stream: moved the cursor, nothing, or ended the consumer. */
  function AnswerOf(s: State, step: Step): Q.Answer {
    if Next(s, step).log.acked > s.log.acked then Q.Removed else if Next(s, step) == s then Q.Repeated else Q.Invalid
  }

  function Observed(s: State, step: Step): Observation {
    Observation(if step.AppendAt?
                then Some(Decision(AppendStep(s, step.input, step.cursor, step.now, step.send).result)) else None,
                if Acknowledges(s, step) then Some(AnswerOf(s, step)) else None,
                var frame := Emitted(s, step); if frame.Some? then Some(frame.value.event) else None)
  }

  predicate Survives(s: State, step: Step) {
    CurrentSocket(Next(s, step)).Some?
  }

  // ----- Runs the comparison covers -----

  ghost predicate Unmoved(s: State) {
    forall g :: g in s.grants && s.grants[g].status == Active ==> !MovedPast(s.bindings, s.grants[g].revision)
  }

  ghost predicate Addressed(s: State, input: AppendInput, cursor: Cursor, now: nat) {
    && WellFormed(input) && !input.recoveryOnly
    && Bind(PruneStep(s, now), input).Some?
    && (forall k :: 0 <= k < |s.log.accepted| ==> s.log.accepted[k].cursor != cursor)
  }

  /** No event expires, nothing is reset, no binding advances or lies past an active grant, and publications address
      this stream. */
  ghost predicate Calm(s: State, step: Step) {
    && s.log.clock <= step.now <= MAX_SAFE_INTEGER
    && ExpiredCount(s.log, step.now) == 0
    && !(step.IssueAt? && step.request.resetBacklog)
    && !Advanced(s.bindings, Next(s, step).bindings)
    && Unmoved(s)
    && (step.AppendAt? ==> Addressed(s, step.input, step.cursor, step.now))
  }

  predicate NeverAccepted(accepted: seq<Entry>, id: EventId) {
    forall k :: 0 <= k < |accepted| ==> accepted[k].eventId != id
  }

  /** An event ID that was accepted before was accepted within receipt retention. */
  ghost predicate IdRecalled(accepted: seq<Entry>, id: EventId, now: nat) {
    || NeverAccepted(accepted, id)
    || (exists k :: 0 <= k < |accepted| && accepted[k].eventId == id
                    && accepted[k].acceptedAt + RECEIPT_RETENTION_MS > now)
  }

  /** A cursor acknowledged before is the last one, or its receipt is still in the table. */
  ghost predicate CursorRecalled(log: Log, cursor: Cursor) {
    forall k :: 0 <= k < log.acked <= |log.accepted| && log.accepted[k].cursor == cursor ==>
      k == log.acked - 1 || |log.accepted| - |log.receipts| <= k
  }

  /** A new publication to a connected consumer finds that consumer's grant active, unexpired, of its route and
      revision, and not passed by a binding the publication brings. */
  predicate GrantHolds(s: State, input: AppendInput, now: nat) {
    var bound := Bind(PruneStep(s, now), input);
    bound.Some? && CurrentSocket(s).Some? && NeverAccepted(s.log.accepted, input.eventId) ==>
      GrantViable(bound.value, input, now)
  }

  /** The stream still recalls what the step names, which the queue recalls for ever, and the grant by which it counts
      a consumer as connected still holds, which the queue does not know of. */
  ghost predicate Supported(s: State, step: Step) {
    && (step.AppendAt? ==> IdRecalled(s.log.accepted, step.input.eventId, step.now) && GrantHolds(s, step.input, step.now))
    && (Acknowledges(s, step) ==> CursorRecalled(s.log, step.message.cursor))
  }

  // ----- Simulation relation -----

  ghost predicate TablesMirror(log: Log, q: Q.Queue) {
    && q.items == log.events && q.bytes == log.bytes && q.next == log.next
    && !q.gap && !q.moved && log.gap.None?
  }

  ghost predicate ReceiptsMirror(accepted: seq<Entry>, receipts: map<EventId, Fingerprint>) {
    && (forall k :: 0 <= k < |accepted| ==>
          accepted[k].eventId in receipts && receipts[accepted[k].eventId] == accepted[k].fingerprint)
    && (forall id :: id in receipts ==> exists k :: 0 <= k < |accepted| && accepted[k].eventId == id)
  }

  ghost predicate CursorsMirror(accepted: seq<Entry>, acked: nat, ackedCursor: Option<Cursor>, acknowledged: set<Cursor>) {
    && acked <= |accepted|
    && (forall i, j :: 0 <= i < j < |accepted| ==> accepted[i].cursor != accepted[j].cursor)
    && (forall k :: 0 <= k < acked ==> accepted[k].cursor in acknowledged)
    && (forall c :: c in acknowledged ==> exists k :: 0 <= k < acked && accepted[k].cursor == c)
    && ackedCursor == if acked == 0 then None else Some(accepted[acked - 1].cursor)
  }

  /** The kept times are the latest acceptances; those dropped have left the rate window. */
  ghost predicate TimesMirror(accepted: seq<Entry>, times: seq<nat>, clock: nat) {
    && |times| <= |accepted|
    && (forall i :: 0 <= i < |times| ==> times[i] == accepted[|accepted| - |times| + i].acceptedAt)
    && (forall i :: 0 <= i < |accepted| - |times| ==> accepted[i].acceptedAt + 1_000 <= clock)
  }

  function ConnectionOf(s: State): Option<Q.Connection> {
    var socket := CurrentSocket(s);
    if socket.None? then None
    else
      var a := s.sockets[socket.value].value;
      Some(if a.sent > a.acked then Q.Connection(a.sentCursor, false) else Q.Connection(None, true))
  }

  ghost predicate LogMirrors(log: Log, q: Q.Queue) {
    && TablesMirror(log, q)
    && ReceiptsMirror(log.accepted, q.receipts)
    && CursorsMirror(log.accepted, log.acked, log.ackedCursor, q.acknowledged)
    && TimesMirror(log.accepted, q.times, log.clock)
  }

  ghost predicate Mirrors(s: State, q: Q.Queue) {
    && LogMirrors(s.log, q)
    && (s.desk.consumer.Some? ==> s.desk.ready)
    && q.consumer == ConnectionOf(s)
  }

  /** Driving the queue by what the step does keeps the two alike and shows the same. */
  ghost predicate StepMirrors(s: State, step: Step, q: Q.Queue) {
    var d := Drive(q, ActionOf(s, step), Survives(s, step));
    Mirrors(Next(s, step), d.queue) && d.seen == Observed(s, step)
  }

  // ----- Time passing -----

  lemma NothingExpires(log: Log, now: nat)
    requires ExpiredCount(log, now) == 0
    ensures Boundary(log.events, LiveAt(now)) == 0
  {
    assert log.events != [] ==> !ExpiredAt(now)(log.events[0]);
  }

  lemma PruneMirrors(log: Log, q: Q.Queue, now: nat)
    requires Inv(log) && log.clock <= now && ExpiredCount(log, now) == 0 && LogMirrors(log, q)
    ensures LogMirrors(Prune(log, now), q)
  {
    hide Inv, Prune, ExpiredCount, CursorsMirror, ReceiptsMirror, TimesMirror;
    PruneIdle(log, now);
    TimesLater(log.accepted, q.times, log.clock, now);
  }

  lemma TimesLater(accepted: seq<Entry>, times: seq<nat>, clock: nat, now: nat)
    requires TimesMirror(accepted, times, clock) && clock <= now
    ensures TimesMirror(accepted, times, now)
  {
  }

  /** Ten acceptances a second: no clock reaches the sequence limit. */
  lemma SequencesFit(log: Log)
    requires Inv(log) && log.clock <= MAX_SAFE_INTEGER
    ensures log.next < MAX_SAFE_INTEGER
  {
    assert log.next == |log.accepted| + 1;
    if log.accepted != [] {
      var windows := (|log.accepted| - 1) / MAX_INGRESS_PER_SECOND;
      SpacedByWindows(log.accepted, 0, windows);
      assert log.accepted[MAX_INGRESS_PER_SECOND * windows].acceptedAt <= log.clock;
    }
    hide Inv;
  }

  /** The kept times within the window are a suffix, and only older acceptances lie before it. */
  lemma TimesBoundary(accepted: seq<Entry>, times: seq<nat>, now: nat) returns (m: nat)
    requires Ordered(accepted, now) && TimesMirror(accepted, times, now)
    ensures m <= |times| && Filter(times, Q.TimeAfter(now - 1_000)) == times[m..]
    ensures forall i :: 0 <= i < |accepted| - |times| + m ==> accepted[i].acceptedAt + 1_000 <= now
    ensures m < |times| ==> accepted[|accepted| - |times| + m].acceptedAt + 1_000 > now
  {
    var keep := Q.TimeAfter(now - 1_000);
    var offset := |accepted| - |times|;
    m := Boundary(times, keep);
    forall i | m <= i < |times|
      ensures keep(times[i])
    {
      assert keep(times[m]);
      assert accepted[offset + m].acceptedAt <= accepted[offset + i].acceptedAt || m == i;
    }
    FilterSuffix(times, keep, m);
    forall i | 0 <= i < offset + m
      ensures accepted[i].acceptedAt + 1_000 <= now
    {
      assert i >= offset ==> !keep(times[i - offset]);
    }
  }

  lemma TimesSuffix(accepted: seq<Entry>, times: seq<nat>, now: nat, m: nat)
    requires TimesMirror(accepted, times, now) && m <= |times|
    requires forall i :: 0 <= i < |accepted| - |times| + m ==> accepted[i].acceptedAt + 1_000 <= now
    ensures TimesMirror(accepted, times[m..], now)
  {
  }

  /** The runtime's kept times and the ingress table count the same acceptances. */
  lemma RecentCounts(accepted: seq<Entry>, times: seq<nat>, ingress: seq<Ingress>, now: nat)
    requires Ordered(accepted, now)
    requires TimesMirror(accepted, times, now) && IngressMatch(accepted, ingress, now)
    ensures |Filter(times, Q.TimeAfter(now - 1_000))| == |Filter(ingress, IngressAfter(now - 1_000))|
    ensures TimesMirror(accepted, Filter(times, Q.TimeAfter(now - 1_000)), now)
  {
    FilterKeeps(ingress, IngressAfter(now - 1_000));
    hide Filter, Ordered;
    var n := IngressBoundary(accepted, ingress, now, now);
    var m := TimesBoundary(accepted, times, now);
    TimesSuffix(accepted, times, now, m);
    assert n < |ingress| ==> IngressAfter(now - 1_000)(ingress[n..][0]);
    SplitIsUnique(accepted, |accepted| - |times| + m, |accepted| - |ingress| + n, now);
  }

  lemma SplitIsUnique(accepted: seq<Entry>, a: nat, b: nat, now: nat)
    requires a <= |accepted| && b <= |accepted|
    requires forall i :: 0 <= i < a || 0 <= i < b ==> accepted[i].acceptedAt + 1_000 <= now
    requires a < |accepted| ==> accepted[a].acceptedAt + 1_000 > now
    requires b < |accepted| ==> accepted[b].acceptedAt + 1_000 > now
    ensures a == b
  {
  }

  // ----- Publishing -----

  /** On a pruned log the stream finds what the queue knows, exactly when the ID is recalled. */
  lemma KnownIds(log: Log, q: Q.Queue, id: EventId)
    requires Inv(log) && ReceiptsMirror(log.accepted, q.receipts)
    ensures FindReceipt(log.receipts, id).Some? ==>
              id in q.receipts && FindReceipt(log.receipts, id).value.fingerprint == q.receipts[id]
    ensures id in q.receipts ==> (FindReceipt(log.receipts, id).Some? <==> IdRecalled(log.accepted, id, log.clock))
    ensures id !in q.receipts ==> IdRecalled(log.accepted, id, log.clock)
  {
    hide Inv, FindReceipt;
    if FindReceipt(log.receipts, id).Some? {
      var k := ReceiptWasAccepted(log, FindReceipt(log.receipts, id).value);
      assert log.accepted[k].eventId == id && log.accepted[k].acceptedAt + RECEIPT_RETENTION_MS > log.clock;
    }
    if id in q.receipts && IdRecalled(log.accepted, id, log.clock) {
      var any :| 0 <= any < |log.accepted| && log.accepted[any].eventId == id;
      var k :| 0 <= k < |log.accepted| && log.accepted[k].eventId == id
               && log.accepted[k].acceptedAt + RECEIPT_RETENTION_MS > log.clock;
      ReceiptIsOriginal(log, k);
    }
  }

  lemma ReceiptWasAccepted(log: Log, receipt: Receipt) returns (k: nat)
    requires Inv(log) && receipt in log.receipts
    ensures k < |log.accepted| && receipt == ReceiptOf(log.accepted[k], k + 1) && receipt.expiresAt > log.clock
  {
    hide Ordered, Spaced, AcceptedOnce, EventsMatch, IngressMatch, CursorsMatch, ExpiryRecorded;
    var i :| 0 <= i < |log.receipts| && log.receipts[i] == receipt;
    k := |log.accepted| - |log.receipts| + i;
  }

  lemma FreshCursorIsUntaken(log: Log, cursor: Cursor)
    requires Inv(log)
    requires forall k :: 0 <= k < |log.accepted| ==> log.accepted[k].cursor != cursor
    ensures !CursorTaken(log.events, log.receipts, cursor)
  {
    hide Ordered, Spaced, AcceptedOnce, IngressMatch, CursorsMatch, ExpiryRecorded;
    forall i | 0 <= i < |log.events|
      ensures log.events[i].cursor != cursor
    {
      assert log.events[i] == EventOf(log.accepted[|log.fates| + i], |log.fates| + i + 1);
    }
    forall i | 0 <= i < |log.receipts|
      ensures log.receipts[i].cursor != cursor
    {
      var k := |log.accepted| - |log.receipts| + i;
      assert log.receipts[i] == ReceiptOf(log.accepted[k], k + 1);
    }
  }

  /** On a pruned log an event without a receipt is refused only for want of a consumer or of room. */
  lemma RefusalIsPlain(s: State, b: State, input: AppendInput, cursor: Cursor, now: nat)
    requires Valid(s) && s.log.clock <= now && s.log.gap.None?
    requires ExpiredCount(s.log, now) == 0 && now <= MAX_SAFE_INTEGER
    requires b.log == Prune(s.log, now) && b.sockets == s.sockets && b.desk == s.desk
    requires FindReceipt(b.log.receipts, input.eventId).None?
    requires forall k :: 0 <= k < |s.log.accepted| ==> s.log.accepted[k].cursor != cursor
    requires CurrentSocket(s).Some? ==> GrantViable(b, input, now)
    ensures Refusal(b, input, cursor, now)
            == if CurrentSocket(s).None? then Some(ConsumerUnavailable)
               else if StreamIsFull(b.log, input.payloadBytes, now) then Some(StreamFull) else None
  {
    PruneKeepsInv(s.log, now);
    SequencesFit(b.log);
    ReceiptCapsUnreachable(s.log, now);
    FreshIdIsUntaken(s.log, now, input.eventId);
    FreshCursorIsUntaken(b.log, cursor);
    assert b.log.next >= 1;
    hide Inv, Prune, StreamIsFull, ReceiptsAreFull, EventIdTaken, CursorTaken, GrantViable, FindReceipt, FindSelected;
  }

  /** Recording a binding that does not advance leaves the consumer columns alone. */
  lemma BindDesk(p: State, input: AppendInput)
    requires Bind(p, input).Some?
    ensures var b := Bind(p, input).value;
            && b.log == p.log && b.sockets == p.sockets && b.grants == p.grants
            && (!Advanced(p.bindings, b.bindings) ==> b.desk == p.desk)
  {
  }

  lemma BoundIsCalm(s: State, step: Step)
    requires step.AppendAt? && Calm(s, step)
    requires FindReceipt(Prune(s.log, step.now).receipts, step.input.eventId).None?
    ensures var p := s.(log := Prune(s.log, step.now));
            && PruneStep(s, step.now) == p && Bind(p, step.input).Some?
            && var b := Bind(p, step.input).value;
            && b.log == p.log && b.sockets == s.sockets && b.desk == s.desk && b.grants == s.grants
            && AppendStep(s, step.input, step.cursor, step.now, step.send)
               == AppendBound(b, step.input, step.cursor, step.now, step.send)
  {
    var p := s.(log := Prune(s.log, step.now));
    assert PruneStep(s, step.now) == p;
    hide Prune, AppendBound, FindReceipt, Unmoved, Bind, ExpiredCount, PruneStep;
    BindDesk(p, step.input);
    BoundIsQuiet(Bind(p, step.input).value, step.input, step.cursor, step.now, step.send);
  }

  // ----- Sending -----

  /** The queue reads when nothing is outstanding. */
  function Serve(q: Q.Queue): Q.Served
    requires q.consumer.Some?
  {
    if q.consumer.value.outstanding.Some? then Q.Served(q, None) else Q.Read(q)
  }

  function EventIn(frame: Option<Frame>): Option<Event> {
    if frame.Some? then Some(frame.value.event) else None
  }

  predicate SameOutstanding(a: Attachment, consumer: Option<Q.Connection>) {
    && consumer.Some?
    && if a.sent > a.acked then consumer == Some(Q.Connection(a.sentCursor, false)) else consumer.value.outstanding.None?
  }

  lemma CurrentIsSelected(s: State, socket: SocketId)
    requires Valid(s) && s.desk.ready && SelectedAt(s.desk, s.sockets, socket)
    ensures CurrentSocket(s) == Some(socket)
  {
    SelectedIsUnique(s, socket, FindSelected(s.desk, s.sockets, 0).value);
  }

  /** Sending the next row is the queue's read. */
  lemma SendMirrors(s: State, socket: SocketId, now: nat, send: Send, q: Q.Queue)
    requires Valid(s) && s.desk.ready && SelectedAt(s.desk, s.sockets, socket)
    requires TablesMirror(s.log, q) && SameOutstanding(s.sockets[socket].value, q.consumer)
    ensures var d := SendNext(s, socket, now, send);
            && d.state.log == s.log
            && (d.state.desk.consumer.Some? ==> d.state.desk.ready)
            && (CurrentSocket(d.state).None? ==> d.frame.None?)
            && (CurrentSocket(d.state).Some? ==>
                  Serve(q) == Q.Served(q.(consumer := ConnectionOf(d.state)), EventIn(d.frame)))
  {
    var d := SendNext(s, socket, now, send);
    SendNextKeeps(s, socket, now, send);
    NextRowIsOldest(s.log);
    assert Outstanding(s.log, s.sockets[socket].value);
    hide Inv, NextRow, MovedPast, GrantEnded;
    if d.state.desk == s.desk {
      CurrentIsSelected(d.state, socket);
    }
  }

  // ----- Each step mirrors -----

  function Pushed(q: Q.Queue, entry: Entry): Q.Queue {
    q.(items := q.items + [EventOf(entry, q.next)], receipts := q.receipts[entry.eventId := entry.fingerprint],
       times := q.times + [entry.acceptedAt], bytes := q.bytes + entry.payloadBytes, next := q.next + 1)
  }

  lemma InsertMirrors(log: Log, q: Q.Queue, entry: Entry)
    requires LogMirrors(log, q) && entry.eventId !in q.receipts
    requires forall k :: 0 <= k < |log.accepted| ==> log.accepted[k].cursor != entry.cursor
    ensures LogMirrors(Insert(log, entry), Pushed(q, entry))
  {
    ReceiptsSnocMirror(log.accepted, q.receipts, entry);
    CursorsSnocMirror(log.accepted, log.acked, log.ackedCursor, q.acknowledged, entry);
    TimesSnocMirror(log.accepted, q.times, log.clock, entry);
    hide ReceiptsMirror, CursorsMirror, TimesMirror;
  }

  lemma TimesSnocMirror(accepted: seq<Entry>, times: seq<nat>, clock: nat, entry: Entry)
    requires TimesMirror(accepted, times, clock)
    ensures TimesMirror(accepted + [entry], times + [entry.acceptedAt], clock)
  {
  }

  lemma CursorsSnocMirror(accepted: seq<Entry>, acked: nat, ackedCursor: Option<Cursor>, acknowledged: set<Cursor>,
                          entry: Entry)
    requires CursorsMirror(accepted, acked, ackedCursor, acknowledged)
    requires forall k :: 0 <= k < |accepted| ==> accepted[k].cursor != entry.cursor
    ensures CursorsMirror(accepted + [entry], acked, ackedCursor, acknowledged)
  {
    forall c | c in acknowledged
      ensures exists k :: 0 <= k < acked && (accepted + [entry])[k].cursor == c
    {
      var k :| 0 <= k < acked && accepted[k].cursor == c;
      assert (accepted + [entry])[k].cursor == c;
    }
  }

  lemma ReceiptsSnocMirror(accepted: seq<Entry>, receipts: map<EventId, Fingerprint>, entry: Entry)
    requires ReceiptsMirror(accepted, receipts) && entry.eventId !in receipts
    ensures ReceiptsMirror(accepted + [entry], receipts[entry.eventId := entry.fingerprint])
  {
    var accepted', receipts' := accepted + [entry], receipts[entry.eventId := entry.fingerprint];
    forall id | id in receipts'
      ensures exists k :: 0 <= k < |accepted'| && accepted'[k].eventId == id
    {
      if id == entry.eventId {
        assert accepted'[|accepted|].eventId == id;
      } else {
        var k :| 0 <= k < |accepted| && accepted[k].eventId == id;
        assert accepted'[k].eventId == id;
      }
    }
  }

  function RecentOnly(q: Q.Queue, now: nat): Q.Queue {
    q.(times := Filter(q.times, Q.TimeAfter(now - 1_000)))
  }

  /** The admission checks agree, and so do the tables a publication leaves. */
  lemma AdmissionMirrors(log: Log, q: Q.Queue, bytes: nat, now: nat)
    requires Ordered(log.accepted, now) && IngressMatch(log.accepted, log.ingress, now) && log.count == |log.events|
    requires log.clock == now && Filter(log.ingress, IngressAfter(now - 1_000)) == log.ingress && LogMirrors(log, q)
    ensures var kept := RecentOnly(q, now);
            (Q.IsFull(kept, bytes) <==> StreamIsFull(log, bytes, now)) && LogMirrors(log, kept)
  {
    hide Filter, Ordered, IngressMatch, ReceiptsMirror, CursorsMirror, TimesMirror;
    RecentCounts(log.accepted, q.times, log.ingress, now);
  }

  lemma AcceptedMirrors(b: State, q: Q.Queue, input: AppendInput, cursor: Cursor, now: nat, send: Send)
    requires Valid(b) && Pruned(b.log, now) && Mirrors(b, q)
    requires FindReceipt(b.log.receipts, input.eventId).None? && input.eventId !in q.receipts
    requires forall k :: 0 <= k < |b.log.accepted| ==> b.log.accepted[k].cursor != cursor
    requires Refusal(b, input, cursor, now).None? && CurrentSocket(b).Some?
    ensures var out, served := AppendBound(b, input, cursor, now, send), Q.Push(q, EntryOf(input, cursor, now));
            && out.result.Accepted?
            && LogMirrors(out.state.log, served.queue) && served.queue.consumer.Some?
            && (out.state.desk.consumer.Some? ==> out.state.desk.ready)
            && (CurrentSocket(out.state).None? ==> out.frame.None?)
            && (CurrentSocket(out.state).Some? ==>
                  served.queue.consumer == ConnectionOf(out.state) && served.frame == EventIn(out.frame))
  {
    var entry := EntryOf(input, cursor, now);
    var socket := CurrentSocket(b).value;
    hide Inv, Refusal, ReceiptsMirror, CursorsMirror, TimesMirror, SendNext, FindSelected, Q.Push, Q.Read;
    AcceptSends(b, input, cursor, now, send);
    AcceptKeeps(b, input, cursor, now);
    InsertMirrors(b.log, q, entry);
    assert TablesMirror(Insert(b.log, entry), Pushed(q, entry));
    assert b.sockets[socket].value.sent > b.sockets[socket].value.acked ==> b.sockets[socket].value.sentCursor.Some? by {
      assert Outstanding(b.log, b.sockets[socket].value);
    }
    hide Valid, Insert, EntryOf, TablesMirror, LogMirrors;
    SendMirrors(Accept(b, input, cursor, now), socket, now, send, Pushed(q, entry));
    PushServes(q, entry);
    hide AppendBound;
  }

  lemma AcceptSends(b: State, input: AppendInput, cursor: Cursor, now: nat, send: Send)
    requires Refusal(b, input, cursor, now).None? && CurrentSocket(b).Some?
    ensures var d := SendNext(Accept(b, input, cursor, now), CurrentSocket(b).value, now, send);
            AppendBound(b, input, cursor, now, send) == Append(d.state, Accepted(b.log.next, now), d.frame)
  {
    hide Refusal, SendNext, Insert;
  }

  lemma PushServes(q: Q.Queue, entry: Entry)
    requires q.consumer.Some? && q.consumer.value.waiting == q.consumer.value.outstanding.None?
    ensures Q.Push(q, entry) == Serve(Pushed(q, entry))
  {
    hide Q.Read;
  }

  lemma ExpireIsCalm(log: Log, q: Q.Queue, now: nat)
    requires TablesMirror(log, q) && ExpiredCount(log, now) == 0
    ensures Q.Expire(q, now) == Q.Served(q, None)
  {
    NothingExpires(log, now);
  }

  lemma PublishUnknown(q: Q.Queue, entry: Entry)
    requires entry.eventId !in q.receipts && !q.gap && !q.moved
    requires Q.Expire(q, entry.acceptedAt) == Q.Served(q, None)
    ensures var kept := RecentOnly(q, entry.acceptedAt);
            Q.Publish(q, entry)
            == if q.consumer.None? then Q.Published(q, Q.Rejected(ConsumerUnavailable), None)
               else if Q.IsFull(kept, entry.payloadBytes) then Q.Published(kept, Q.Rejected(StreamFull), None)
               else Q.Published(Q.Push(kept, entry).queue, Q.Taken, Q.Push(kept, entry).frame)
  {
    hide Q.Expire, Q.Push, Filter;
  }

  ghost predicate Agrees(s: State, out: Append, p: Q.Published) {
    && LogMirrors(out.state.log, p.queue) && p.outcome == Decision(out.result)
    && (p.queue.consumer.Some? <==> CurrentSocket(s).Some?)
    && (p.queue.consumer.None? ==> p.frame.None?)
    && (out.state.desk.consumer.Some? ==> out.state.desk.ready)
    && (CurrentSocket(out.state).Some? ==> CurrentSocket(s).Some? && p.queue.consumer == ConnectionOf(out.state))
    && (if CurrentSocket(out.state).Some? then p.frame == EventIn(out.frame) else out.frame.None?)
  }

  /** What an unknown event ID leads to, in both: no consumer, no room, or acceptance. */
  lemma UnknownCases(s: State, b: State, q: Q.Queue, input: AppendInput, cursor: Cursor, now: nat)
    requires Valid(s) && s.log.clock <= now && Mirrors(s, q)
    requires ExpiredCount(s.log, now) == 0 && now <= MAX_SAFE_INTEGER
    requires Valid(b) && Pruned(b.log, now) && LogMirrors(b.log, q)
    requires b.log == Prune(s.log, now) && b.sockets == s.sockets && b.desk == s.desk
    requires b.log.accepted == s.log.accepted
    requires FindReceipt(b.log.receipts, input.eventId).None? && input.eventId !in q.receipts
    requires forall k :: 0 <= k < |s.log.accepted| ==> s.log.accepted[k].cursor != cursor
    requires CurrentSocket(s).Some? ==> GrantViable(b, input, now)
    ensures var entry, kept := EntryOf(input, cursor, now), RecentOnly(q, now);
            var refusal, published := Refusal(b, input, cursor, now), Q.Publish(q, entry);
            && LogMirrors(b.log, kept)
            && if CurrentSocket(s).None? then
                 refusal == Some(ConsumerUnavailable) && published == Q.Published(q, Q.Rejected(ConsumerUnavailable), None)
               else if Q.IsFull(kept, input.payloadBytes) then
                 refusal == Some(StreamFull) && published == Q.Published(kept, Q.Rejected(StreamFull), None)
               else
                 refusal.None? && published == Q.Published(Q.Push(kept, entry).queue, Q.Taken, Q.Push(kept, entry).frame)
  {
    assert Ordered(b.log.accepted, now) && IngressMatch(b.log.accepted, b.log.ingress, now) && b.log.count == |b.log.events|;
    assert LogMirrors(s.log, q) && TablesMirror(s.log, q) && (q.consumer.Some? <==> CurrentSocket(s).Some?);
    hide Prune, Bind, Filter, StreamIsFull, Q.IsFull, FindSelected, Q.Expire, Q.Publish, Q.Push, Inv, Refusal,
      GrantViable, EntryOf, Ordered, IngressMatch, FindReceipt, ReceiptsMirror, CursorsMirror, TimesMirror, ConnectionOf;
    EntryCarries(input, cursor, now);
    RefusalIsPlain(s, b, input, cursor, now);
    ExpireIsCalm(s.log, q, now);
    PublishUnknown(q, EntryOf(input, cursor, now));
    AdmissionMirrors(b.log, q, input.payloadBytes, now);
    hide Valid, Mirrors, LogMirrors, CurrentSocket, RecentOnly;
  }

  lemma UnknownMirrors(s: State, b: State, q: Q.Queue, input: AppendInput, cursor: Cursor, now: nat, send: Send)
    requires Valid(s) && s.log.clock <= now && Mirrors(s, q)
    requires ExpiredCount(s.log, now) == 0 && now <= MAX_SAFE_INTEGER
    requires Valid(b) && Pruned(b.log, now) && LogMirrors(b.log, q)
    requires b.log == Prune(s.log, now) && b.sockets == s.sockets && b.desk == s.desk
    requires b.log.accepted == s.log.accepted
    requires FindReceipt(b.log.receipts, input.eventId).None? && input.eventId !in q.receipts
    requires forall k :: 0 <= k < |s.log.accepted| ==> s.log.accepted[k].cursor != cursor
    requires CurrentSocket(s).Some? ==> GrantViable(b, input, now)
    ensures Agrees(s, AppendBound(b, input, cursor, now, send), Q.Publish(q, EntryOf(input, cursor, now)))
  {
    assert CurrentSocket(b) == CurrentSocket(s) && ConnectionOf(b) == ConnectionOf(s);
    hide Inv, Valid, LogMirrors, ConnectionOf, CurrentSocket, Refusal, AppendBound, Agrees, Q.Publish, Q.Push, Q.IsFull,
      EntryOf, FindReceipt, Prune, Pruned, ExpiredCount, GrantViable;
    UnknownCases(s, b, q, input, cursor, now);
    var kept := RecentOnly(q, now);
    assert Mirrors(b, q) && Mirrors(b, kept);
    hide Mirrors;
    if CurrentSocket(s).None? {
      RefusedAgrees(s, b, q, input, cursor, now, send);
    } else if Q.IsFull(kept, input.payloadBytes) {
      RefusedAgrees(s, b, kept, input, cursor, now, send);
    } else {
      AcceptedAgrees(s, b, kept, input, cursor, now, send);
    }
  }

  lemma RefusedAgrees(s: State, b: State, q: Q.Queue, input: AppendInput, cursor: Cursor, now: nat, send: Send)
    requires Mirrors(b, q) && b.desk == s.desk && CurrentSocket(b) == CurrentSocket(s)
    requires Refusal(b, input, cursor, now).Some?
    ensures Agrees(s, AppendBound(b, input, cursor, now, send),
                   Q.Published(q, Q.Rejected(Refusal(b, input, cursor, now).value), None))
  {
    assert AppendBound(b, input, cursor, now, send) == Append(b, Refused(Refusal(b, input, cursor, now).value), None);
    hide AppendBound, Refusal, LogMirrors, FindSelected;
  }

  lemma AcceptedAgrees(s: State, b: State, q: Q.Queue, input: AppendInput, cursor: Cursor, now: nat, send: Send)
    requires Valid(b) && Pruned(b.log, now) && Mirrors(b, q) && CurrentSocket(b) == CurrentSocket(s)
    requires FindReceipt(b.log.receipts, input.eventId).None? && input.eventId !in q.receipts
    requires forall k :: 0 <= k < |b.log.accepted| ==> b.log.accepted[k].cursor != cursor
    requires Refusal(b, input, cursor, now).None? && CurrentSocket(b).Some?
    ensures var served := Q.Push(q, EntryOf(input, cursor, now));
            Agrees(s, AppendBound(b, input, cursor, now, send), Q.Published(served.queue, Q.Taken, served.frame))
  {
    AcceptedMirrors(b, q, input, cursor, now, send);
    hide AppendBound, Refusal, LogMirrors, FindSelected, Q.Push, Valid, ConnectionOf, Mirrors, EntryOf, FindReceipt;
  }

  lemma EntryCarries(input: AppendInput, cursor: Cursor, now: nat)
    ensures var entry := EntryOf(input, cursor, now);
            entry.eventId == input.eventId && entry.acceptedAt == now && entry.payloadBytes == input.payloadBytes
            && entry.cursor == cursor
  {
  }

  /** A replay or a conflict, in both. */
  lemma KnownMirrors(s: State, q: Q.Queue, input: AppendInput, cursor: Cursor, now: nat, send: Send)
    requires LogMirrors(Prune(s.log, now), q) && Mirrors(s, q) && WellFormed(input)
    requires PruneStep(s, now) == s.(log := Prune(s.log, now))
    requires input.eventId in q.receipts
    requires var r := FindReceipt(Prune(s.log, now).receipts, input.eventId);
             r.Some? && r.value.fingerprint == q.receipts[input.eventId]
    ensures Agrees(s, AppendStep(s, input, cursor, now, send), Q.Publish(q, EntryOf(input, cursor, now)))
  {
    hide Prune, FindReceipt, LogMirrors, FindSelected, PruneStep, AppendBound, Bind, Q.Expire, Q.IsFull, Q.Push, Filter;
  }

  lemma AppendAgrees(s: State, step: Step, q: Q.Queue)
    requires Valid(s) && step.AppendAt? && Calm(s, step) && Supported(s, step) && Mirrors(s, q)
    ensures Agrees(s, AppendStep(s, step.input, step.cursor, step.now, step.send),
                   Q.Publish(q, EntryOf(step.input, step.cursor, step.now)))
  {
    var input, now := step.input, step.now;
    var p := s.(log := Prune(s.log, now));
    PruneStepKeeps(s, now);
    assert PruneStep(s, now) == p && p.log.clock == now;
    PruneMirrors(s.log, q, now);
    assert Inv(p.log) && IdRecalled(p.log.accepted, input.eventId, now);
    hide Inv, Valid, Prune, FindReceipt, LogMirrors, FindSelected, AppendBound, AppendStep, Bind, Pruned,
      Refusal, Unmoved, ExpiredCount, GrantViable, Q.Publish, PruneStep, Agrees, EntryOf, IdRecalled;
    assert ReceiptsMirror(p.log.accepted, q.receipts) by {
      MirrorsReceipts(s, q);
    }
    KnownIds(p.log, q, input.eventId);
    if input.eventId !in q.receipts {
      assert NeverAccepted(s.log.accepted, input.eventId);
      BoundIsCalm(s, step);
      BindKeeps(p, input);
      UnknownMirrors(s, Bind(p, input).value, q, input, step.cursor, now, step.send);
    } else {
      KnownMirrors(s, q, input, step.cursor, now, step.send);
    }
  }

  lemma ForgottenHasNoReceipt(s: State, step: Step, q: Q.Queue)
    requires Valid(s) && step.AppendAt? && Calm(s, step) && Mirrors(s, q)
    requires !IdRecalled(s.log.accepted, step.input.eventId, step.now)
    ensures FindReceipt(Prune(s.log, step.now).receipts, step.input.eventId).None? && step.input.eventId in q.receipts
  {
    PruneStepKeeps(s, step.now);
    var log := Prune(s.log, step.now);
    assert PruneStep(s, step.now).log == log && log.clock == step.now && log.accepted == s.log.accepted;
    hide Calm, Mirrors, Inv, FindReceipt, IdRecalled, PruneStep, Pruned;
    assert Inv(log);
    MirrorsReceipts(s, q);
    hide Valid, Prune;
    KnownIds(log, q, step.input.eventId);
  }

  lemma KnownToQueue(q: Q.Queue, entry: Entry)
    requires entry.eventId in q.receipts
    ensures Q.Publish(q, entry).outcome in {Q.Known, Q.Rejected(SourceConflict)}
  {
    hide Q.Expire, Q.IsFull, Q.Push, Filter;
  }

  /** An event the stream has forgotten and the queue has not: the stream treats it as new. */
  lemma ForgottenIdDiffers(s: State, step: Step, q: Q.Queue)
    requires Valid(s) && step.AppendAt? && Calm(s, step) && Mirrors(s, q)
    requires !IdRecalled(s.log.accepted, step.input.eventId, step.now)
    ensures Decision(AppendStep(s, step.input, step.cursor, step.now, step.send).result)
            != Q.Publish(q, EntryOf(step.input, step.cursor, step.now)).outcome
  {
    var p := s.(log := Prune(s.log, step.now));
    hide Valid, Calm, Mirrors, IdRecalled, Q.Publish, AppendStep, AppendBound, Bind, FindReceipt, Prune, PruneStep;
    ForgottenHasNoReceipt(s, step, q);
    BoundIsCalm(s, step);
    NeverConflicts(Bind(p, step.input).value, step.input, step.cursor, step.now, step.send);
    KnownToQueue(q, EntryOf(step.input, step.cursor, step.now));
  }

  lemma NewHasNoReceipt(log: Log, q: Q.Queue, id: EventId)
    requires Inv(log) && ReceiptsMirror(log.accepted, q.receipts) && NeverAccepted(log.accepted, id)
    ensures FindReceipt(log.receipts, id).None? && id !in q.receipts
  {
    if FindReceipt(log.receipts, id).Some? {
      var _ := ReceiptWasAccepted(log, FindReceipt(log.receipts, id).value);
    }
    hide Inv;
  }

  lemma LapsedIsUnavailable(b: State, input: AppendInput, cursor: Cursor, now: nat, send: Send)
    requires b.log.gap.None? && CurrentSocket(b).Some? && !GrantViable(b, input, now)
    ensures AppendBound(b, input, cursor, now, send).result == Refused(ConsumerUnavailable)
  {
    hide GrantViable, FindSelected, Accept, SendNext;
  }

  lemma TakenOrFull(q: Q.Queue, entry: Entry)
    requires entry.eventId !in q.receipts && !q.gap && !q.moved && q.consumer.Some?
    requires Q.Expire(q, entry.acceptedAt) == Q.Served(q, None)
    ensures Q.Publish(q, entry).outcome in {Q.Taken, Q.Rejected(StreamFull)}
  {
    hide Q.Publish, Q.Expire, Q.IsFull;
    PublishUnknown(q, entry);
  }

  /** A new event for a consumer whose grant does not hold: the stream refuses it for want of a consumer. */
  lemma LapsedGrantDiffers(s: State, step: Step, q: Q.Queue)
    requires Valid(s) && step.AppendAt? && Calm(s, step) && Mirrors(s, q) && !GrantHolds(s, step.input, step.now)
    ensures AppendStep(s, step.input, step.cursor, step.now, step.send).result == Refused(ConsumerUnavailable)
    ensures Q.Publish(q, EntryOf(step.input, step.cursor, step.now)).outcome in {Q.Taken, Q.Rejected(StreamFull)}
  {
    var input, now := step.input, step.now;
    var p := s.(log := Prune(s.log, now));
    PruneStepKeeps(s, now);
    assert PruneStep(s, now) == p && Inv(p.log);
    PruneMirrors(s.log, q, now);
    assert LogMirrors(p.log, q) && TablesMirror(s.log, q) && p.log.gap.None? && q.consumer.Some?;
    assert ExpiredCount(s.log, now) == 0;
    hide Valid, Inv, Calm, Mirrors, Prune, PruneStep, Pruned, AppendStep, AppendBound, Bind, FindReceipt, FindSelected, GrantViable,
      ConnectionOf, ExpiredCount, Q.Publish, Q.Expire, NeverAccepted, EntryOf;
    NewHasNoReceipt(p.log, q, input.eventId);
    BoundIsCalm(s, step);
    LapsedIsUnavailable(Bind(p, input).value, input, step.cursor, now, step.send);
    EntryCarries(input, step.cursor, now);
    ExpireIsCalm(s.log, q, now);
    TakenOrFull(q, EntryOf(input, step.cursor, now));
  }

  lemma NeverConflicts(b: State, input: AppendInput, cursor: Cursor, now: nat, send: Send)
    ensures var result := AppendBound(b, input, cursor, now, send).result;
            !result.Replayed? && result != Refused(SourceConflict)
  {
    hide Accept, SendNext, FindSelected;
  }

  lemma MirrorsReceipts(s: State, q: Q.Queue)
    requires Mirrors(s, q)
    ensures ReceiptsMirror(s.log.accepted, q.receipts)
  {
  }

  lemma DisconnectedMirrors(log: Log, q: Q.Queue)
    requires LogMirrors(log, q)
    ensures LogMirrors(log, Q.Disconnect(q))
  {
  }

  lemma AppendMirrors(s: State, step: Step, q: Q.Queue)
    requires Valid(s) && step.AppendAt? && Calm(s, step) && Supported(s, step) && Mirrors(s, q)
    ensures StepMirrors(s, step, q)
  {
    hide Calm, Valid, LogMirrors, AppendStep, EntryOf, FindSelected, Q.Publish;
    AppendAgrees(s, step, q);
    DisconnectedMirrors(Next(s, step).log, Q.Publish(q, EntryOf(step.input, step.cursor, step.now)).queue);
  }

  /** A step that keeps the consumer, or ends it, is nothing or a disconnect. */
  lemma IdleMirrors(s: State, after: State, q: Q.Queue, seen: Observation)
    requires Mirrors(s, q) && LogMirrors(after.log, q)
    requires after.desk.consumer.Some? ==> after.desk.ready
    requires CurrentSocket(after).Some? ==> ConnectionOf(after) == ConnectionOf(s)
    ensures var d := Settle(Q.Served(q, None), CurrentSocket(after).Some?, seen);
            Mirrors(after, d.queue) && d.seen == seen.(frame := None)
  {
    DisconnectedMirrors(after.log, q);
    hide LogMirrors, FindSelected;
  }

  /** A fresh read, or a disconnect when sending ended the consumer. */
  lemma SentMirrors(s: State, socket: SocketId, now: nat, send: Send, q: Q.Queue, seen: Observation)
    requires Valid(s) && s.desk.ready && SelectedAt(s.desk, s.sockets, socket) && LogMirrors(s.log, q)
    requires q.consumer == Some(Q.Connection(None, false))
    requires s.sockets[socket].value.sent <= s.sockets[socket].value.acked
    ensures var out := SendNext(s, socket, now, send);
            var survives := CurrentSocket(out.state).Some?;
            var d := Settle(if survives then Q.Read(q) else Q.Served(q, None), survives, seen);
            Mirrors(out.state, d.queue) && d.seen == seen.(frame := EventIn(out.frame))
  {
    SendMirrors(s, socket, now, send, q);
    DisconnectedMirrors(s.log, q);
    hide Valid, SendNext, FindSelected, TablesMirror, ReceiptsMirror, CursorsMirror, TimesMirror;
  }

  lemma RegisterShape(s: State, step: Step)
    requires step.MessageAt? && step.message.RegisterMessage?
    requires step.socket < |s.sockets| && s.sockets[step.socket].Some? && !s.sockets[step.socket].value.registered
    ensures var a, after := s.sockets[step.socket].value, Next(s, step);
            var enrolled := Enrolled(s, step.socket, a);
            var sent := SendNext(enrolled, step.socket, step.now, step.send);
            || (after == s && Emitted(s, step).None?)
            || (&& s.log.gap.None? && a.grantId in s.grants && s.grants[a.grantId].status == Active
                && after.desk.epoch == s.desk.epoch + 1
                && (|| (after == sent.state && Emitted(s, step) == sent.frame)
                    || (after == Cleared(enrolled) && Emitted(s, step).None?)))
  {
    hide SendNext;
    SendNextIsQuiet(Enrolled(s, step.socket, s.sockets[step.socket].value), step.socket, step.now, step.send);
  }

  /** Whatever became of the new consumer's first frame, the queue's connection fared alike. */
  lemma EnrollMirrors(s: State, step: Step, q: Q.Queue, enrolled: State)
    requires Valid(enrolled) && enrolled.desk.ready && LogMirrors(enrolled.log, q)
    requires step.MessageAt? && SelectedAt(enrolled.desk, enrolled.sockets, step.socket)
    requires enrolled.sockets[step.socket].value.sent == enrolled.sockets[step.socket].value.acked
    requires Next(s, step).desk.epoch > s.desk.epoch && !Acknowledges(s, step)
    requires var sent := SendNext(enrolled, step.socket, step.now, step.send);
             || (Next(s, step) == sent.state && Emitted(s, step) == sent.frame)
             || (Next(s, step) == Cleared(enrolled) && Emitted(s, step).None?)
    ensures StepMirrors(s, step, q)
  {
    assert LogMirrors(enrolled.log, Q.Attach(q)) && LogMirrors(enrolled.log, Q.Disconnect(q));
    hide Next, Emitted, Valid, FindSelected, SendNext, Q.Read, LogMirrors, ConnectionOf, CurrentSocket, Acknowledges, AnswerOf;
    assert ActionOf(s, step).Connect?;
    hide ActionOf;
    if Next(s, step) == SendNext(enrolled, step.socket, step.now, step.send).state
       && Emitted(s, step) == SendNext(enrolled, step.socket, step.now, step.send).frame {
      SentMirrors(enrolled, step.socket, step.now, step.send, Q.Attach(q), NOTHING_SEEN);
      hide Mirrors, Settle;
    } else {
      ClearedHasNone(enrolled);
    }
  }

  lemma ClearedHasNone(s: State)
    ensures CurrentSocket(Cleared(s)).None? && ConnectionOf(Cleared(s)).None?
  {
  }

  /** A registration by which no binding has moved selects its socket, with nothing outstanding. */
  lemma EnrolledFacts(s: State, socket: SocketId)
    requires Valid(s) && Unmoved(s) && s.log.gap.None? && socket < |s.sockets| && s.sockets[socket].Some?
    requires var a := s.sockets[socket].value;
             !a.registered && a.grantId in s.grants && s.grants[a.grantId].status == Active
    ensures var enrolled := Enrolled(s, socket, s.sockets[socket].value);
            && Valid(enrolled) && enrolled.desk.ready && enrolled.log == s.log
            && SelectedAt(enrolled.desk, enrolled.sockets, socket)
            && enrolled.sockets[socket].value.sent == enrolled.sockets[socket].value.acked
  {
    EnrolledKeeps(s, socket, s.sockets[socket].value);
    hide Valid, MovedPast;
  }

  lemma RegisterMirrors(s: State, step: Step, q: Q.Queue)
    requires Valid(s) && step.MessageAt? && step.message.RegisterMessage? && Mirrors(s, q) && Unmoved(s)
    requires step.socket < |s.sockets| && s.sockets[step.socket].Some? && !s.sockets[step.socket].value.registered
    ensures StepMirrors(s, step, q)
  {
    assert LogMirrors(s.log, q);
    hide Valid, Mirrors, LogMirrors, Unmoved, Next, Emitted, SendNext, StepMirrors, Enrolled;
    RegisterShape(s, step);
    if Next(s, step).desk.epoch == s.desk.epoch {
      DroppedMirrors(s, step, q);
    } else {
      EnrolledFacts(s, step.socket);
      EnrollMirrors(s, step, q, Enrolled(s, step.socket, s.sockets[step.socket].value));
    }
  }

  /** The queue's state once its head is acknowledged. */
  function Shifted(q: Q.Queue, cursor: Cursor): Q.Queue
    requires q.items != []
  {
    q.(items := q.items[1..], bytes := q.bytes - q.items[0].payloadBytes, acknowledged := q.acknowledged + {cursor},
       consumer := Some(Q.Connection(None, false)))
  }

  /** Whether the stream recognises a cursor as acknowledged. */
  predicate Recognised(log: Log, cursor: Cursor) {
    log.ackedCursor == Some(cursor) || AcknowledgedBefore(log.receipts, cursor, log.acked)
  }

  /** The stream recognises only what the queue remembers, and all of it exactly when the cursor is recalled. */
  lemma AckedCursors(log: Log, q: Q.Queue, cursor: Cursor)
    requires LogMirrors(log, q) && ReceiptRows(log.accepted, log.receipts)
    ensures Recognised(log, cursor) ==> cursor in q.acknowledged
    ensures cursor in q.acknowledged ==> (Recognised(log, cursor) <==> CursorRecalled(log, cursor))
    ensures cursor !in q.acknowledged ==> CursorRecalled(log, cursor)
  {
    hide TablesMirror, ReceiptsMirror, TimesMirror;
    var kept := |log.accepted| - |log.receipts|;
    if AcknowledgedBefore(log.receipts, cursor, log.acked) {
      var r :| r in log.receipts && r.cursor == cursor && r.sequence <= log.acked;
      var i :| 0 <= i < |log.receipts| && log.receipts[i] == r;
      assert r == ReceiptOf(log.accepted[kept + i], kept + i + 1) && log.accepted[kept + i].cursor in q.acknowledged;
    }
    if cursor in q.acknowledged {
      var k :| 0 <= k < log.acked && log.accepted[k].cursor == cursor;
      if k >= kept {
        assert log.receipts[k - kept] == ReceiptOf(log.accepted[k], k + 1) && log.receipts[k - kept] in log.receipts;
      }
    }
  }

  lemma HeadIsFresh(log: Log, q: Q.Queue)
    requires Inv(log) && LogMirrors(log, q) && log.events != []
    ensures log.events[0] == EventOf(log.accepted[log.acked], log.acked + 1)
    ensures log.events[0].cursor !in q.acknowledged
  {
    NextRowIsOldest(log);
    hide Inv, ReceiptsMirror, TimesMirror;
  }

  /** An acknowledgement on the selected socket: the outstanding head, an earlier one, or neither. */
  lemma AckCases(log: Log, q: Q.Queue, a: Attachment, cursor: Cursor)
    requires Inv(log) && LogMirrors(log, q) && Outstanding(log, a)
    requires q.consumer == Some(if a.sent > a.acked then Q.Connection(a.sentCursor, false) else Q.Connection(None, true))
    ensures a.sentCursor == Some(cursor) && a.sent > log.acked ==>
              && log.events != [] && log.events[0].cursor == cursor
              && Q.Acknowledge(q, cursor) == Q.Confirmed(Shifted(q, cursor), Q.Removed, None)
              && CursorRecalled(log, cursor)
    ensures !(a.sentCursor == Some(cursor) && a.sent > log.acked) ==>
              && (CursorRecalled(log, cursor) ==>
                    Q.Acknowledge(q, cursor)
                    == Q.Confirmed(q, if Recognised(log, cursor) then Q.Repeated else Q.Invalid, None))
              && (!CursorRecalled(log, cursor) ==>
                    Q.Acknowledge(q, cursor) == Q.Confirmed(q, Q.Repeated, None) && !Recognised(log, cursor))
  {
    assert ReceiptRows(log.accepted, log.receipts);
    AckedCursors(log, q, cursor);
    if log.events != [] {
      HeadIsFresh(log, q);
    }
    hide Inv, ReceiptsMirror, TimesMirror, CursorsMirror, Recognised, CursorRecalled, Q.Read;
  }

  lemma CursorsShift(accepted: seq<Entry>, acked: nat, ackedCursor: Option<Cursor>, acknowledged: set<Cursor>)
    requires CursorsMirror(accepted, acked, ackedCursor, acknowledged) && acked < |accepted|
    ensures var cursor := accepted[acked].cursor;
            CursorsMirror(accepted, acked + 1, Some(cursor), acknowledged + {cursor})
  {
    forall c | c in acknowledged + {accepted[acked].cursor}
      ensures exists k :: 0 <= k < acked + 1 && accepted[k].cursor == c
    {
      if c in acknowledged {
        var k :| 0 <= k < acked && accepted[k].cursor == c;
      }
    }
  }

  /** Acknowledging the oldest row keeps the tables alike. */
  lemma ShiftMirrors(log: Log, q: Q.Queue, cursor: Cursor)
    requires Inv(log) && LogMirrors(log, q) && log.events != [] && log.events[0].cursor == cursor
    ensures LogMirrors(AcknowledgeThrough(log, log.acked + 1, cursor), Shifted(q, cursor))
  {
    hide Inv, ReceiptsMirror, TimesMirror, CursorsMirror, Filter;
    AcknowledgeKeepsInv(log, cursor);
    HeadIsFresh(log, q);
    Totals(log);
    Totals(AcknowledgeThrough(log, log.acked + 1, cursor));
    CursorsShift(log.accepted, log.acked, log.ackedCursor, q.acknowledged);
  }

  lemma Totals(log: Log)
    requires Inv(log)
    ensures log.count == |log.events| && log.bytes == SumBytes(log.events)
    ensures log.acked <= |log.accepted| && (log.gap.None? && log.events != [] ==> log.acked < |log.accepted|)
  {
    hide Ordered, Spaced, AcceptedOnce, ReceiptsMatch, IngressMatch, ExpiryRecorded;
  }

  // ----- Acknowledging -----

  lemma AckShape(s: State, step: Step)
    requires Valid(s) && step.MessageAt? && step.message.AckMessage? && SelectedAt(s.desk, s.sockets, step.socket)
    ensures var a, after, cursor := s.sockets[step.socket].value, Next(s, step), step.message.cursor;
            var settled := Settled(s, step.socket, a, cursor);
            var sent := SendNext(settled, step.socket, step.now, step.send);
            if a.sentCursor == Some(cursor) && a.sent > s.log.acked then
              after == sent.state && Emitted(s, step) == sent.frame
            else
              Emitted(s, step).None?
              && after == if Recognised(s.log, cursor) then s else Cleared(s)
  {
    hide SendNext, Settled, AcknowledgedBefore, Inv;
    var a, cursor := s.sockets[step.socket].value, step.message.cursor;
    if a.sentCursor == Some(cursor) && a.sent > s.log.acked {
      AcknowledgeMovesOne(s, step.socket, cursor);
    }
    hide Valid, HasRow;
  }

  lemma SettledShape(s: State, socket: SocketId, cursor: Cursor)
    requires SelectedAt(s.desk, s.sockets, socket) && s.sockets[socket].value.sent == s.log.acked + 1
    ensures var settled := Settled(s, socket, s.sockets[socket].value, cursor);
            && settled.desk == s.desk && settled.log == AcknowledgeThrough(s.log, s.log.acked + 1, cursor)
            && SelectedAt(settled.desk, settled.sockets, socket)
            && settled.sockets[socket].value.sent == settled.sockets[socket].value.acked
  {
    hide AcknowledgeThrough;
  }

  lemma SettledMirrors(s: State, socket: SocketId, cursor: Cursor, now: nat, send: Send, q: Q.Queue, seen: Observation)
    requires Valid(s) && Mirrors(s, q) && SelectedAt(s.desk, s.sockets, socket) && s.desk.ready
    requires var a := s.sockets[socket].value; a.sentCursor == Some(cursor) && a.sent > s.log.acked
    requires s.log.events != [] && s.log.events[0].cursor == cursor && q.items == s.log.events
    ensures var out := SendNext(Settled(s, socket, s.sockets[socket].value, cursor), socket, now, send);
            var survives := CurrentSocket(out.state).Some?;
            var d := Settle(if survives then Q.Read(Shifted(q, cursor)) else Q.Served(Shifted(q, cursor), None), survives, seen);
            Mirrors(out.state, d.queue) && d.seen == seen.(frame := EventIn(out.frame))
  {
    assert Inv(s.log) && LogMirrors(s.log, q);
    hide Inv, Valid, LogMirrors, Mirrors, FindSelected, SendNext, Q.Read, AcknowledgeThrough, HasRow, Settle;
    AcknowledgeMovesOne(s, socket, cursor);
    SettledKeeps(s, socket, cursor);
    ShiftMirrors(s.log, q, cursor);
    SettledShape(s, socket, cursor);
    hide Settled;
    SentMirrors(Settled(s, socket, s.sockets[socket].value, cursor), socket, now, send, Shifted(q, cursor), seen);
  }

  /** What the stream's acknowledgement comes to. */
  lemma AnswerIs(s: State, step: Step)
    requires Valid(s) && Acknowledges(s, step)
    ensures var a, cursor := s.sockets[step.socket].value, step.message.cursor;
            AnswerOf(s, step)
            == if a.sentCursor == Some(cursor) && a.sent > s.log.acked then Q.Removed
               else if Recognised(s.log, cursor) then Q.Repeated else Q.Invalid
  {
    var a, cursor := s.sockets[step.socket].value, step.message.cursor;
    AckShape(s, step);
    SendNextKeepsLog(Settled(s, step.socket, a, cursor), step.socket, step.now, step.send);
    hide Next, Valid, Recognised, SendNext, Filter;
    assert Cleared(s) != s;
  }

  lemma RefusedAckMirrors(s: State, step: Step, q: Q.Queue)
    requires Mirrors(s, q) && Acknowledges(s, step)
    requires Emitted(s, step).None?
    requires var acknowledged := Q.Acknowledge(q, step.message.cursor);
             || (Next(s, step) == s && acknowledged == Q.Confirmed(q, Q.Repeated, None) && AnswerOf(s, step).Repeated?)
             || (Next(s, step) == Cleared(s) && acknowledged == Q.Confirmed(q, Q.Invalid, None) && AnswerOf(s, step).Invalid?)
    ensures StepMirrors(s, step, q)
  {
    assert LogMirrors(s.log, q);
    var seen := Observation(None, Some(AnswerOf(s, step)), None);
    hide Next, Emitted, LogMirrors, FindSelected, Q.Acknowledge, Q.Read, AnswerOf;
    assert ActionOf(s, step) == Confirm(step.message.cursor);
    assert Observed(s, step) == seen;
    hide ActionOf, Observed, Acknowledges;
    if Next(s, step) == s {
      IdleMirrors(s, s, q, seen);
    } else {
      IdleMirrors(s, Cleared(s), q, seen);
    }
    hide Mirrors, Settle;
  }

  lemma DriveRemoves(q: Q.Queue, cursor: Cursor, survives: bool)
    requires q.items != [] && Q.Acknowledge(q, cursor) == Q.Confirmed(Shifted(q, cursor), Q.Removed, None)
    ensures Drive(q, Confirm(cursor), survives)
            == Settle(if survives then Q.Read(Shifted(q, cursor)) else Q.Served(Shifted(q, cursor), None), survives,
                      Observation(None, Some(Q.Removed), None))
  {
    hide Q.Acknowledge;
  }

  lemma OutstandingAckMirrors(s: State, step: Step, q: Q.Queue)
    requires Valid(s) && Mirrors(s, q) && Acknowledges(s, step)
    requires var a, cursor := s.sockets[step.socket].value, step.message.cursor;
             && a.sentCursor == Some(cursor) && a.sent > s.log.acked
             && s.log.events != [] && s.log.events[0].cursor == cursor
             && q.items == s.log.events
             && Q.Acknowledge(q, cursor) == Q.Confirmed(Shifted(q, cursor), Q.Removed, None)
    requires AnswerOf(s, step).Removed?
    ensures StepMirrors(s, step, q)
  {
    var a, cursor := s.sockets[step.socket].value, step.message.cursor;
    assert s.desk.ready;
    hide Next, Emitted, Valid, FindSelected, SendNext, Q.Acknowledge, AnswerOf, Recognised, Mirrors, Drive, Settle,
      CurrentSocket, Settled, Shifted;
    AckKeepsEpoch(s, step);
    AckShape(s, step);
    DriveRemoves(q, cursor, Survives(s, step));
    hide SelectedAt, Q.Read;
    SettledMirrors(s, step.socket, cursor, step.now, step.send, q, Observation(None, Some(Q.Removed), None));
  }

  lemma AckFacts(s: State, step: Step, q: Q.Queue)
    requires Valid(s) && Mirrors(s, q) && Acknowledges(s, step)
    ensures Inv(s.log) && LogMirrors(s.log, q) && q.items == s.log.events && s.desk.ready
    ensures Outstanding(s.log, s.sockets[step.socket].value)
    ensures var a := s.sockets[step.socket].value;
            q.consumer == Some(if a.sent > a.acked then Q.Connection(a.sentCursor, false) else Q.Connection(None, true))
  {
    hide Inv;
    CurrentIsSelected(s, step.socket);
  }

  lemma AckMirrors(s: State, step: Step, q: Q.Queue)
    requires Valid(s) && Mirrors(s, q) && Acknowledges(s, step) && CursorRecalled(s.log, step.message.cursor)
    ensures StepMirrors(s, step, q)
  {
    var a, cursor := s.sockets[step.socket].value, step.message.cursor;
    hide StepMirrors, Next, Emitted, Valid, Inv, Mirrors, ConnectionOf, FindSelected, SendNext, Settled, LogMirrors,
      Q.Acknowledge, Recognised, CursorRecalled, Outstanding, AnswerOf;
    AckFacts(s, step, q);
    AckShape(s, step);
    AnswerIs(s, step);
    AckCases(s.log, q, a, cursor);
    if a.sentCursor == Some(cursor) && a.sent > s.log.acked {
      OutstandingAckMirrors(s, step, q);
    } else {
      RefusedAckMirrors(s, step, q);
    }
  }

  /** A cursor the stream has forgotten ends the consumer; the queue only repeats itself. */
  lemma ForgottenCursorDiffers(s: State, step: Step, q: Q.Queue)
    requires Valid(s) && Mirrors(s, q) && Acknowledges(s, step) && !CursorRecalled(s.log, step.message.cursor)
    ensures AnswerOf(s, step) != Q.Acknowledge(q, step.message.cursor).answer
  {
    hide Next, Valid, Inv, Mirrors, LogMirrors, Q.Acknowledge, Recognised, CursorRecalled, Outstanding, AnswerOf;
    AckFacts(s, step, q);
    AnswerIs(s, step);
    AckCases(s.log, q, s.sockets[step.socket].value, step.message.cursor);
  }

  // ----- Everything else -----

  predicate Registers(s: State, step: Step) {
    && step.MessageAt? && step.message.RegisterMessage?
    && step.socket < |s.sockets| && s.sockets[step.socket].Some? && !s.sockets[step.socket].value.registered
  }

  /** A message that neither registers nor acknowledges changes nothing, or ends the consumer that sent it. */
  lemma DroppedShape(s: State, step: Step)
    requires step.MessageAt? && !Registers(s, step) && !Acknowledges(s, step)
    ensures Next(s, step) == s || Next(s, step) == Cleared(s)
    ensures Emitted(s, step).None? && ActionOf(s, step).Idle?
  {
  }

  lemma MessageMirrors(s: State, step: Step, q: Q.Queue)
    requires Valid(s) && step.MessageAt? && Calm(s, step) && Supported(s, step) && Mirrors(s, q)
    ensures StepMirrors(s, step, q)
  {
    hide Valid, Mirrors, StepMirrors, Next, Emitted, CursorRecalled, IdRecalled, Unmoved, ExpiredCount;
    if Registers(s, step) {
      RegisterMirrors(s, step, q);
    } else if Acknowledges(s, step) {
      AckMirrors(s, step, q);
    } else {
      DroppedShape(s, step);
      DroppedMirrors(s, step, q);
    }
  }

  lemma UnseenMirrors(s: State, step: Step, q: Q.Queue)
    requires Mirrors(s, q) && LogMirrors(Next(s, step).log, q)
    requires Next(s, step).desk.consumer.Some? ==> Next(s, step).desk.ready
    requires CurrentSocket(Next(s, step)).Some? ==> ConnectionOf(Next(s, step)) == ConnectionOf(s)
    requires Emitted(s, step).None? && ActionOf(s, step).Idle? && !step.AppendAt?
    ensures StepMirrors(s, step, q)
  {
    hide Next, Emitted, LogMirrors, CurrentSocket, ConnectionOf;
    IdleMirrors(s, Next(s, step), q, NOTHING_SEEN);
    hide Mirrors;
  }

  /** A message that changes nothing, or ends the consumer whose socket broke the protocol. */
  lemma DroppedMirrors(s: State, step: Step, q: Q.Queue)
    requires Mirrors(s, q)
    requires Next(s, step) == s || Next(s, step) == Cleared(s)
    requires Emitted(s, step).None? && ActionOf(s, step).Idle? && !step.AppendAt?
    ensures StepMirrors(s, step, q)
  {
    assert LogMirrors(s.log, q);
    ClearedHasNone(s);
    hide Next, Emitted, LogMirrors, FindSelected, StepMirrors;
    UnseenMirrors(s, step, q);
  }

  /** The remaining steps keep the consumer columns or clear them. */
  lemma OtherDesk(s: State, step: Step)
    requires !step.AppendAt? && !step.MessageAt?
    requires !Advanced(s.bindings, Next(s, step).bindings) && ExpiredCount(s.log, step.now) == 0
    ensures var after := Next(s, step).desk; after == s.desk || (after.consumer.None? && !after.ready)
    ensures forall i :: SelectedAt(s.desk, Next(s, step).sockets, i) ==>
              i < |s.sockets| && Next(s, step).sockets[i] == s.sockets[i]
  {
    hide Prune, FindSelected, MovedPast, GrantUsable, GrantEnded, RenewGrants, Reset, AppendStep, MessageStep, ExpiredCount;
  }

  lemma SameConnection(s: State, after: State)
    requires Valid(s) && after.desk == s.desk
    requires forall i :: SelectedAt(s.desk, after.sockets, i) ==> i < |s.sockets| && after.sockets[i] == s.sockets[i]
    ensures CurrentSocket(after).Some? ==> ConnectionOf(after) == ConnectionOf(s)
  {
    hide Inv;
    if CurrentSocket(after).Some? {
      CurrentIsSelected(s, CurrentSocket(after).value);
    }
  }

  lemma OtherMirrors(s: State, step: Step, q: Q.Queue)
    requires Valid(s) && !step.AppendAt? && !step.MessageAt? && Calm(s, step) && Mirrors(s, q)
    ensures StepMirrors(s, step, q)
  {
    var after := Next(s, step);
    NextFollows(s, step);
    OtherDesk(s, step);
    assert Inv(s.log) && LogMirrors(s.log, q);
    PruneMirrors(s.log, q, step.now);
    assert LogMirrors(after.log, q);
    hide Next, Inv, Prune, LogMirrors, FindSelected, ExpiredCount, Unmoved, Advanced, AppendStep, StepMirrors;
    if after.desk == s.desk {
      SameConnection(s, after);
    }
    hide Valid, ConnectionOf;
    UnseenMirrors(s, step, q);
  }

  /** Each calm step shows what the queue shows and keeps the two alike, exactly when the stream supports it. */
  lemma NextMirrors(s: State, step: Step, q: Q.Queue)
    requires Valid(s) && Calm(s, step) && Mirrors(s, q)
    ensures Supported(s, step) ==> StepMirrors(s, step, q)
    ensures Drive(q, ActionOf(s, step), Survives(s, step)).seen == Observed(s, step) <==> Supported(s, step)
  {
    if Supported(s, step) {
      hide Valid, Mirrors, StepMirrors;
      if step.AppendAt? {
        AppendMirrors(s, step, q);
      } else if step.MessageAt? {
        MessageMirrors(s, step, q);
      } else {
        OtherMirrors(s, step, q);
      }
    } else {
      UnsupportedDiffers(s, step, q);
    }
    Shows(s, step, q);
    hide StepMirrors, Drive, Observed;
  }

  lemma Shows(s: State, step: Step, q: Q.Queue)
    ensures StepMirrors(s, step, q) ==> Drive(q, ActionOf(s, step), Survives(s, step)).seen == Observed(s, step)
  {
    hide Drive, Observed, ActionOf, Survives, Mirrors;
  }

  /** What a publication and an acknowledgement show of the queue. */
  lemma PublicationShows(s: State, step: Step, q: Q.Queue)
    requires step.AppendAt?
    ensures Drive(q, ActionOf(s, step), Survives(s, step)).seen.outcome
            == Some(Q.Publish(q, EntryOf(step.input, step.cursor, step.now)).outcome)
  {
    hide Next, Q.Publish, EntryOf, Survives, Acknowledges;
  }

  lemma AcknowledgementShows(s: State, step: Step, q: Q.Queue)
    requires Valid(s) && Acknowledges(s, step)
    ensures Drive(q, ActionOf(s, step), Survives(s, step)).seen.answer == Some(Q.Acknowledge(q, step.message.cursor).answer)
  {
    AckKeepsEpoch(s, step);
    hide Valid, Next, Q.Acknowledge, Q.Read, Survives;
  }

  lemma UnsupportedDiffers(s: State, step: Step, q: Q.Queue)
    requires Valid(s) && Calm(s, step) && Mirrors(s, q) && !Supported(s, step)
    ensures Drive(q, ActionOf(s, step), Survives(s, step)).seen != Observed(s, step)
  {
    hide Valid, Calm, Mirrors, IdRecalled, GrantHolds, CursorRecalled, Next, AppendStep, EntryOf, Drive, ActionOf, Survives,
      Emitted, AnswerOf, Q.Publish, Q.Acknowledge;
    if step.AppendAt? {
      PublicationShows(s, step, q);
      if IdRecalled(s.log.accepted, step.input.eventId, step.now) {
        LapsedGrantDiffers(s, step, q);
      } else {
        ForgottenIdDiffers(s, step, q);
      }
    } else {
      AcknowledgementShows(s, step, q);
      ForgottenCursorDiffers(s, step, q);
    }
  }

  lemma AckKeepsEpoch(s: State, step: Step)
    requires Valid(s) && Acknowledges(s, step)
    ensures Next(s, step).desk.epoch <= s.desk.epoch
  {
    AckShape(s, step);
    SendNextIsQuiet(Settled(s, step.socket, s.sockets[step.socket].value, step.message.cursor), step.socket, step.now, step.send);
    hide Next, Valid, SendNext, Recognised;
  }

  // ----- Runs -----

  ghost predicate CalmRun(s: State, steps: seq<Step>)
    decreases |steps|
  {
    steps == [] || (Calm(s, steps[0]) && CalmRun(Next(s, steps[0]), steps[1..]))
  }

  ghost predicate SupportedRun(s: State, steps: seq<Step>)
    decreases |steps|
  {
    steps == [] || (Supported(s, steps[0]) && SupportedRun(Next(s, steps[0]), steps[1..]))
  }

  /** What the publisher and the consumer see of the stream. */
  function StreamTrace(s: State, steps: seq<Step>): seq<Observation>
    decreases |steps|
  {
    if steps == [] then [] else [Observed(s, steps[0])] + StreamTrace(Next(s, steps[0]), steps[1..])
  }

  /** What they see of the queue, driven by the same publications, connections and acknowledgements. */
  function QueueTrace(s: State, q: Q.Queue, steps: seq<Step>): seq<Observation>
    decreases |steps|
  {
    if steps == [] then []
    else
      var d := Drive(q, ActionOf(s, steps[0]), Survives(s, steps[0]));
      [d.seen] + QueueTrace(Next(s, steps[0]), d.queue, steps[1..])
  }

  lemma {:induction false} TracesAgree(s: State, q: Q.Queue, steps: seq<Step>)
    requires Valid(s) && Mirrors(s, q) && CalmRun(s, steps)
    ensures StreamTrace(s, steps) == QueueTrace(s, q, steps) <==> SupportedRun(s, steps)
    decreases |steps|
  {
    hide Valid, Mirrors, StepMirrors, Calm, Next, Drive, Observed, ActionOf, Survives, Supported;
    if steps != [] {
      var d, next := Drive(q, ActionOf(s, steps[0]), Survives(s, steps[0])), Next(s, steps[0]);
      CalmMoves(s, steps[0]);
      NextMirrors(s, steps[0], q);
      NextKeeps(s, steps[0]);
      var shown, mirrored := StreamTrace(next, steps[1..]), QueueTrace(next, d.queue, steps[1..]);
      if Supported(s, steps[0]) {
        MirrorsCarry(s, steps[0], q);
        TracesAgree(next, d.queue, steps[1..]);
      }
      assert [Observed(s, steps[0])] + shown == [d.seen] + mirrored <==> Observed(s, steps[0]) == d.seen && shown == mirrored by {
        assert ([Observed(s, steps[0])] + shown)[1..] == shown && ([d.seen] + mirrored)[1..] == mirrored;
        assert ([Observed(s, steps[0])] + shown)[0] == Observed(s, steps[0]) && ([d.seen] + mirrored)[0] == d.seen;
      }
    }
  }

  lemma MirrorsCarry(s: State, step: Step, q: Q.Queue)
    requires StepMirrors(s, step, q)
    ensures Mirrors(Next(s, step), Drive(q, ActionOf(s, step), Survives(s, step)).queue)
  {
    hide Next, Drive, Observed, ActionOf, Survives, Mirrors;
  }

  lemma CalmMoves(s: State, step: Step)
    requires Calm(s, step)
    ensures s.log.clock <= step.now
  {
  }

  lemma InitialMirrors()
    ensures Valid(INITIAL) && Mirrors(INITIAL, Q.NOTHING)
  {
    EmptyInv();
  }

  /** From empty, in every calm run of any length, the SQL stream accepts, refuses, acknowledges and offers exactly
      what the queue does, if and only if every step names only what the stream still recalls, and every new publication
      to a connected consumer finds the consumer's grant holding. */
  lemma StreamRefinesQueue(steps: seq<Step>)
    requires CalmRun(INITIAL, steps)
    ensures StreamTrace(INITIAL, steps) == QueueTrace(INITIAL, Q.NOTHING, steps) <==> SupportedRun(INITIAL, steps)
  {
    hide Calm, Next, Drive, StreamTrace, QueueTrace, CalmRun, SupportedRun;
    InitialMirrors();
    TracesAgree(INITIAL, Q.NOTHING, steps);
  }

  /** The last step of a calm run whose other steps are supported: both have stayed alike until it. */
  lemma {:induction false} LastStep(s: State, q: Q.Queue, steps: seq<Step>, last: Step) returns (before: Q.Queue)
    requires Valid(s) && Mirrors(s, q) && CalmRun(s, steps + [last]) && SupportedRun(s, steps)
    ensures Valid(Run(s, steps)) && Mirrors(Run(s, steps), before) && Calm(Run(s, steps), last)
    ensures |StreamTrace(s, steps + [last])| == |QueueTrace(s, q, steps + [last])| == |steps| + 1
    ensures StreamTrace(s, steps + [last])[|steps|] == Observed(Run(s, steps), last)
    ensures QueueTrace(s, q, steps + [last])[|steps|]
            == Drive(before, ActionOf(Run(s, steps), last), Survives(Run(s, steps), last)).seen
    decreases |steps|
  {
    hide Valid, Mirrors, StepMirrors, Calm, Next, Drive, Observed, ActionOf, Survives, Supported;
    var all := steps + [last];
    if steps == [] {
      before := q;
      assert all[0] == last && all[1..] == [];
    } else {
      assert all[0] == steps[0] && all[1..] == steps[1..] + [last];
      CalmMoves(s, steps[0]);
      NextMirrors(s, steps[0], q);
      NextKeeps(s, steps[0]);
      MirrorsCarry(s, steps[0], q);
      before := LastStep(Next(s, steps[0]), Drive(q, ActionOf(s, steps[0]), Survives(s, steps[0])).queue, steps[1..], last);
    }
  }
}
