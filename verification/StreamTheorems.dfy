/** The stream's promises over whole runs: conservation, fencing, idempotence, admission, route fencing. */
module StreamTheorems {
  import opened Contract
  import opened Tables
  import opened EventLog
  import opened Stream
  import opened StreamSafety

  // ----- Runs -----

  lemma {:induction false} RunKeeps(s: State, steps: seq<Step>)
    requires Valid(s) && Monotone(s.log.clock, steps)
    ensures Valid(Run(s, steps))
    decreases |steps|
  {
    if steps != [] {
      NextKeeps(s, steps[0]);
      ClockFollows(s, steps[0]);
      MonotoneLater(Next(s, steps[0]).log.clock, steps[0].now, steps[1..]);
      RunKeeps(Next(s, steps[0]), steps[1..]);
    }
  }

  lemma MonotoneLater(clock: nat, later: nat, steps: seq<Step>)
    requires clock <= later && Monotone(later, steps)
    ensures Monotone(clock, steps)
  {
  }

  /** The log after a step: untouched, pruned, or changed by the one operation the step performs. */
  ghost predicate LogFollows(s: State, step: Step, log: Log) {
    match step
    case AppendAt(input, cursor, now, send) =>
      if AppendStep(s, input, cursor, now, send).result.Accepted?
      then log == Insert(Prune(s.log, now), EntryOf(input, cursor, now))
      else log == s.log || log == Prune(s.log, now)
    case AlarmAt(now, _) => log == Prune(s.log, now)
    case IssueAt(request, _) => log == s.log || (request.resetBacklog && log == Reset(s.log))
    case MessageAt(socket, message, _, _, _, _) =>
      || log == s.log
      || (&& message.AckMessage?
          && SelectedAt(s.desk, s.sockets, socket) && s.sockets[socket].value.sent == s.log.acked + 1
          && s.log.gap.None? && s.log.events != [] && s.log.events[0].cursor == message.cursor
          && log == AcknowledgeThrough(s.log, s.log.acked + 1, message.cursor))
    case _ => log == s.log
  }

  lemma SendNextKeepsLog(s: State, socket: SocketId, now: nat, send: Send)
    ensures SendNext(s, socket, now, send).state.log == s.log
  {
  }

  lemma AppendFollows(s: State, input: AppendInput, cursor: Cursor, now: nat, send: Send)
    requires Valid(s) && s.log.clock <= now
    ensures LogFollows(s, AppendAt(input, cursor, now, send), AppendStep(s, input, cursor, now, send).state.log)
  {
    hide Inv, Refusal, Prune, Insert, RequireBinding, SendNext;
    PruneStepKeeps(s, now);
    hide Valid, PruneStep;
    var p := PruneStep(s, now);
    if FindReceipt(p.log.receipts, input.eventId).None? && Bind(p, input).Some? {
      BindKeeps(p, input);
      var b := Bind(p, input).value;
      hide Bind;
      if Refusal(b, input, cursor, now).None? {
        var accepted := Accept(b, input, cursor, now);
        if CurrentSocket(accepted).Some? {
          SendNextKeepsLog(accepted, CurrentSocket(accepted).value, now, send);
        }
      }
    }
  }

  lemma MessageFollows(s: State, socket: SocketId, message: Message, environment: nat, now: nat,
                       readySent: bool, send: Send)
    requires Valid(s)
    ensures LogFollows(s, MessageAt(socket, message, environment, now, readySent, send),
                       MessageStep(s, socket, message, environment, now, readySent, send).state.log)
  {
    hide Inv, SendNext, AcknowledgeThrough;
    if socket < |s.sockets| && s.sockets[socket].Some? {
      var a := s.sockets[socket].value;
      if message.AckMessage? && Selected(s.desk, a) && a.sentCursor == Some(message.cursor) && a.sent > s.log.acked {
        AcknowledgeMovesOne(s, socket, message.cursor);
        SendNextKeepsLog(Settled(s, socket, a, message.cursor), socket, now, send);
      }
      SendNextKeepsLog(Enrolled(s, socket, a), socket, now, send);
    }
  }

  lemma NextFollows(s: State, step: Step)
    requires Valid(s) && s.log.clock <= step.now
    ensures LogFollows(s, step, Next(s, step).log)
  {
    hide AppendStep, MessageStep, RequireBinding, RenewGrants, Reset, Prune, Insert, AcknowledgeThrough, FindSelected,
      MovedPast, GrantUsable, GrantEnded, SelectedAt;
    match step
    case AppendAt(input, cursor, now, send) => AppendFollows(s, input, cursor, now, send);
    case MessageAt(socket, message, environment, now, readySent, send) =>
      MessageFollows(s, socket, message, environment, now, readySent, send);
    case AlarmAt(now, enabled) =>
      PruneStepKeeps(s, now);
    case IssueAt(request, _) =>
      if BindGrant(s, request).Some? && request.route.shareable {
        RequireBindingKeeps(s, request.binding.value);
      }
    case _ =>
  }

  lemma ClockFollows(s: State, step: Step)
    requires Valid(s) && s.log.clock <= step.now
    ensures s.log.clock <= Next(s, step).log.clock <= step.now
  {
    NextFollows(s, step);
    hide Inv;
  }

  predicate Accepts(s: State, step: Step) {
    step.AppendAt? && AppendStep(s, step.input, step.cursor, step.now, step.send).result.Accepted?
  }

  /** Only an accepted append extends the acceptance history, by its own entry. */
  lemma NextAccepts(s: State, step: Step)
    requires Valid(s) && s.log.clock <= step.now
    ensures Next(s, step).log.accepted
            == s.log.accepted + if Accepts(s, step) then [EntryOf(step.input, step.cursor, step.now)] else []
  {
    NextFollows(s, step);
    PruneStepKeeps(s, step.now);
    hide Next, Valid, Prune, AppendStep;
  }

  // ----- No silent loss -----

  /** Histories only grow: acceptances and settled fates are never rewritten. */
  ghost predicate Extends(before: Log, after: Log) {
    before.accepted <= after.accepted && before.fates <= after.fates
  }

  lemma NextExtends(s: State, step: Step)
    requires Valid(s) && s.log.clock <= step.now
    ensures Extends(s.log, Next(s, step).log)
  {
    NextFollows(s, step);
    PruneExtends(s.log, step.now);
    hide Next, AppendStep, Valid;
  }

  lemma PruneExtends(log: Log, now: nat)
    ensures Extends(log, Prune(log, now))
  {
  }

  lemma {:induction false} RunExtends(s: State, steps: seq<Step>)
    requires Valid(s) && Monotone(s.log.clock, steps)
    ensures Extends(s.log, Run(s, steps).log)
    decreases |steps|
  {
    if steps != [] {
      NextExtends(s, steps[0]);
      NextKeeps(s, steps[0]);
      ClockFollows(s, steps[0]);
      MonotoneLater(Next(s, steps[0]).log.clock, steps[0].now, steps[1..]);
      RunExtends(Next(s, steps[0]), steps[1..]);
    }
  }

  ghost predicate Retained(log: Log, sequence: nat) {
    exists e :: e in log.events && e.sequence == sequence
  }

  ghost predicate HasFate(log: Log, sequence: nat, fate: Fate) {
    1 <= sequence <= |log.fates| && log.fates[sequence - 1] == fate
  }

  ghost predicate Recorded(log: Log, sequence: nat) {
    (log.gap.Some? && Covers(log.gap.value, sequence)) || exists r :: r in log.audit && Covers(r, sequence)
  }

  /** In every reachable state each accepted sequence is retained or has exactly one fate; expired ones lie
      in a recorded range; the cursors bound the retained range; the counters equal the table's totals. */
  lemma NothingIsLost(steps: seq<Step>, sequence: nat)
    requires Monotone(0, steps)
    requires 1 <= sequence < Run(INITIAL, steps).log.next
    ensures var log := Run(INITIAL, steps).log;
            && log.next == |log.accepted| + 1
            && (Retained(log, sequence) <==> !(sequence <= |log.fates|))
            && (sequence <= |log.fates| <==>
                  HasFate(log, sequence, Acknowledged) || HasFate(log, sequence, Expired)
                  || HasFate(log, sequence, Discarded))
            && (HasFate(log, sequence, Expired) <==> Recorded(log, sequence))
            && (log.gap.None? ==> (Retained(log, sequence) <==> log.acked < sequence))
            && (log.gap.Some? ==> log.gap.value.first == log.acked + 1
                                  && (Retained(log, sequence) <==> log.gap.value.last < sequence))
            && log.count == |log.events| && log.bytes == SumBytes(log.events)
  {
    EmptyInv();
    RunKeeps(INITIAL, steps);
    var log := Run(INITIAL, steps).log;
    if sequence > |log.fates| {
      assert log.events[sequence - 1 - |log.fates|].sequence == sequence;
    }
  }

  /** While a gap stands, no event is accepted and none acknowledged; only an operator reset clears it. */
  lemma GapFreezes(s: State, step: Step)
    requires Valid(s) && s.log.clock <= step.now
    requires s.log.gap.Some?
    ensures var after := Next(s, step).log;
            (after.accepted == s.log.accepted && after.acked == s.log.acked && after.gap.Some?)
            || (step.IssueAt? && step.request.resetBacklog && after == Reset(s.log))
  {
    NextFollows(s, step);
    hide Inv;
    if step.AppendAt? {
      GapRefuses(s, step.input, step.cursor, step.now, step.send);
    }
  }

  lemma GapRefuses(s: State, input: AppendInput, cursor: Cursor, now: nat, send: Send)
    requires Valid(s) && s.log.clock <= now
    requires s.log.gap.Some?
    ensures !AppendStep(s, input, cursor, now, send).result.Accepted?
  {
    PruneStepKeeps(s, now);
    assert Prune(s.log, now).gap.Some?;
    hide Inv, Prune, PruneStep;
    var p := PruneStep(s, now);
    if FindReceipt(p.log.receipts, input.eventId).None? && Bind(p, input).Some? {
      BindKeeps(p, input);
    }
  }

  // ----- Rate limit -----

  /** In every run, every second admits at most ten events, live receipts stay within 72,000 rows of
      192 bytes, and so the receipt caps never refuse an append. */
  lemma ReceiptCapsNeverBind(steps: seq<Step>, end: int, now: nat)
    requires Monotone(0, steps)
    requires Run(INITIAL, steps).log.clock <= now
    ensures var log := Run(INITIAL, steps).log;
            && |Filter(log.accepted, Within(end))| <= MAX_INGRESS_PER_SECOND
            && |Prune(log, now).receipts| <= 72_000
            && SumMetadata(Prune(log, now).receipts) <= 72_000 * 192
            && !ReceiptsAreFull(Prune(log, now))
  {
    EmptyInv();
    RunKeeps(INITIAL, steps);
    var log := Run(INITIAL, steps).log;
    WindowHoldsTen(log.accepted, end);
    ReceiptCapsUnreachable(log, now);
  }

  // ----- Idempotence -----

  /** Within receipt retention a stream accepts an event ID at most once, in every run. */
  lemma AcceptedAtMostOnce(steps: seq<Step>, i: nat, j: nat)
    requires Monotone(0, steps)
    requires i < j < |Run(INITIAL, steps).log.accepted|
    requires var a := Run(INITIAL, steps).log.accepted; a[i].eventId == a[j].eventId
    ensures var a := Run(INITIAL, steps).log.accepted;
            a[i].acceptedAt + RECEIPT_RETENTION_MS <= a[j].acceptedAt
  {
    EmptyInv();
    RunKeeps(INITIAL, steps);
  }

  predicate WellFormed(input: AppendInput) {
    input.payloadValid && (input.route.shareable && !input.recoveryOnly ==> BindingAgrees(input))
  }

  /** The live receipt of an event ID is that of its latest acceptance. */
  lemma ReceiptIsOriginal(log: Log, k: nat)
    requires Inv(log)
    requires k < |log.accepted| && log.accepted[k].acceptedAt + RECEIPT_RETENTION_MS > log.clock
    ensures FindReceipt(log.receipts, log.accepted[k].eventId) == Some(ReceiptOf(log.accepted[k], k + 1))
  {
    LiveReceiptFound(log.accepted, log.receipts, log.clock, k);
    var receipt := FindReceipt(log.receipts, log.accepted[k].eventId).value;
    var i :| 0 <= i < |log.receipts| && log.receipts[i] == receipt;
    LiveIdIsUnique(log.accepted, log.receipts, log.clock, i, k);
  }

  lemma LiveIdIsUnique(accepted: seq<Entry>, receipts: seq<Receipt>, clock: nat, i: nat, k: nat)
    requires Ordered(accepted, clock) && AcceptedOnce(accepted) && ReceiptsMatch(accepted, receipts, clock)
    requires i < |receipts| && k < |accepted| && receipts[i].eventId == accepted[k].eventId
    requires accepted[k].acceptedAt + RECEIPT_RETENTION_MS > clock
    ensures receipts[i] == ReceiptOf(accepted[k], k + 1)
  {
    var m := |accepted| - |receipts| + i;
    assert receipts[i] == ReceiptOf(accepted[m], m + 1) && receipts[i].expiresAt > clock;
    assert accepted[k].acceptedAt <= clock && accepted[m].acceptedAt <= clock;
    assert m == k;
  }

  /** A replay inside receipt retention returns the original sequence and time and changes nothing but the
      pruning; a different fingerprint is refused. */
  lemma ReplayReturnsOriginal(s: State, input: AppendInput, cursor: Cursor, now: nat, send: Send, k: nat)
    requires Valid(s) && s.log.clock <= now
    requires WellFormed(input)
    requires k < |s.log.accepted| && s.log.accepted[k].eventId == input.eventId
    requires s.log.accepted[k].acceptedAt + RECEIPT_RETENTION_MS > now
    ensures var out := AppendStep(s, input, cursor, now, send);
            && out.state == PruneStep(s, now)
            && out.result == if s.log.accepted[k].fingerprint == input.fingerprint
                             then Replayed(k + 1, s.log.accepted[k].acceptedAt)
                             else Refused(SourceConflict)
  {
    PruneStepKeeps(s, now);
    var p := PruneStep(s, now);
    assert p.log.clock == now;
    ReceiptIsOriginal(p.log, k);
  }

  // ----- Consumer fencing -----

  /** Nothing but registration raises the epoch, restores readiness or names a consumer. */
  ghost predicate Quiet(before: Desk, after: Desk) {
    && after.epoch == before.epoch
    && (after.ready ==> before.ready)
    && (after.consumer.Some? ==> after.consumer == before.consumer)
  }

  /** Stored binding rows only advance: a row is kept, or replaced at a higher revision. */
  ghost predicate BindingsAdvance(before: map<Direction, Binding>, after: map<Direction, Binding>) {
    forall d :: d in before ==>
      d in after && (after[d] == before[d] || after[d].revision > before[d].revision)
  }

  ghost predicate Advanced(before: map<Direction, Binding>, after: map<Direction, Binding>) {
    exists d :: d in before && d in after && after[d] != before[d]
  }

  /** What a step may do to the consumer columns and the bindings. */
  ghost predicate DeskFollows(s: State, step: Step, after: State) {
    && BindingsAdvance(s.bindings, after.bindings)
    && (Advanced(s.bindings, after.bindings) ==> !after.desk.ready)
    && (|| Quiet(s.desk, after.desk)
        || (&& step.MessageAt? && step.message.RegisterMessage?
            && step.socket < |s.sockets| && s.sockets[step.socket].Some?
            && !s.sockets[step.socket].value.registered
            && after.bindings == s.bindings
            && after.desk.epoch == s.desk.epoch + 1))
  }

  lemma SendNextIsQuiet(s: State, socket: SocketId, now: nat, send: Send)
    ensures Quiet(s.desk, SendNext(s, socket, now, send).state.desk)
    ensures SendNext(s, socket, now, send).state.bindings == s.bindings
  {
  }

  lemma RequireBindingAdvances(s: State, ref: BindingRef)
    requires RequireBinding(s, ref).Some?
    ensures var b := RequireBinding(s, ref).value;
            && Quiet(s.desk, b.desk) && BindingsAdvance(s.bindings, b.bindings)
            && (Advanced(s.bindings, b.bindings) ==> !b.desk.ready)
            && ref.direction in b.bindings
            && b.bindings[ref.direction] == Binding(ref.revision, Some(ref.source), true)
  {
  }

  lemma BoundIsQuiet(b: State, input: AppendInput, cursor: Cursor, now: nat, send: Send)
    ensures Quiet(b.desk, AppendBound(b, input, cursor, now, send).state.desk)
    ensures AppendBound(b, input, cursor, now, send).state.bindings == b.bindings
  {
    hide Refusal, Insert, SendNext, FindSelected;
    var accepted := Accept(b, input, cursor, now);
    if CurrentSocket(accepted).Some? {
      SendNextIsQuiet(accepted, CurrentSocket(accepted).value, now, send);
    }
  }

  lemma BindAdvances(s: State, input: AppendInput)
    requires Bind(s, input).Some?
    ensures var b := Bind(s, input).value;
            Quiet(s.desk, b.desk) && BindingsAdvance(s.bindings, b.bindings)
            && (Advanced(s.bindings, b.bindings) ==> !b.desk.ready)
  {
    hide RequireBinding;
    if input.route.shareable {
      RequireBindingAdvances(s, input.binding.value);
    }
  }

  lemma PruneIsQuiet(s: State, now: nat)
    ensures Quiet(s.desk, PruneStep(s, now).desk) && PruneStep(s, now).bindings == s.bindings
  {
    hide Prune, FindSelected;
  }

  lemma StillBindings(bindings: map<Direction, Binding>)
    ensures BindingsAdvance(bindings, bindings) && !Advanced(bindings, bindings)
  {
  }

  lemma AppendDesk(s: State, input: AppendInput, cursor: Cursor, now: nat, send: Send)
    ensures DeskFollows(s, AppendAt(input, cursor, now, send), AppendStep(s, input, cursor, now, send).state)
  {
    hide PruneStep, Bind, AppendBound, FindReceipt, BindingsAdvance, Advanced;
    var p := PruneStep(s, now);
    PruneIsQuiet(s, now);
    StillBindings(s.bindings);
    if FindReceipt(p.log.receipts, input.eventId).None? && Bind(p, input).Some? {
      BindAdvances(p, input);
      BoundIsQuiet(Bind(p, input).value, input, cursor, now, send);
    }
  }

  lemma MessageDesk(s: State, socket: SocketId, message: Message, environment: nat, now: nat,
                    readySent: bool, send: Send)
    ensures DeskFollows(s, MessageAt(socket, message, environment, now, readySent, send),
                        MessageStep(s, socket, message, environment, now, readySent, send).state)
  {
    hide SendNext, AcknowledgeThrough, HasRow, BindingsAdvance, Advanced, GrantUsable, MovedPast;
    StillBindings(s.bindings);
    if socket < |s.sockets| && s.sockets[socket].Some? {
      var a := s.sockets[socket].value;
      SendNextIsQuiet(Enrolled(s, socket, a), socket, now, send);
      if message.AckMessage? {
        SendNextIsQuiet(Stream.Settled(s, socket, a, message.cursor), socket, now, send);
      }
    }
  }

  lemma IssueDesk(s: State, request: GrantRequest, now: nat)
    ensures DeskFollows(s, IssueAt(request, now), IssueGrantStep(s, request).state)
  {
    hide RenewGrants, Reset, RequireBinding;
    if BindGrant(s, request).Some? && request.route.shareable {
      RequireBindingAdvances(s, request.binding.value);
    }
  }

  lemma NotifyDesk(s: State, n: Notification, now: nat)
    ensures DeskFollows(s, NotifyAt(n, now), NotifyStep(s, n))
  {
    hide FindSelected;
  }

  lemma AlarmDesk(s: State, now: nat, enabled: bool)
    ensures DeskFollows(s, AlarmAt(now, enabled), AlarmStep(s, now, enabled))
  {
    hide Prune, FindSelected, GrantEnded, GrantMoved;
  }

  lemma NextDesk(s: State, step: Step)
    ensures DeskFollows(s, step, Next(s, step))
  {
    hide AppendStep, MessageStep, IssueGrantStep, NotifyStep, AlarmStep, FindSelected, GrantUsable;
    match step
    case AppendAt(input, cursor, now, send) => AppendDesk(s, input, cursor, now, send);
    case MessageAt(socket, message, environment, now, readySent, send) =>
      MessageDesk(s, socket, message, environment, now, readySent, send);
    case IssueAt(request, now) => IssueDesk(s, request, now);
    case NotifyAt(notification, now) => NotifyDesk(s, notification, now);
    case AlarmAt(now, enabled) => AlarmDesk(s, now, enabled);
    case _ =>
  }

  /** Only registering an unregistered socket raises the epoch or restores readiness, and any binding
      that advances leaves the stream without readiness. */
  lemma ReadinessNeedsRegistration(s: State, step: Step)
    ensures var after := Next(s, step);
            && s.desk.epoch <= after.desk.epoch
            && BindingsAdvance(s.bindings, after.bindings)
            && (Advanced(s.bindings, after.bindings) ==> !after.desk.ready)
            && (after.desk.ready && !s.desk.ready ==>
                  step.MessageAt? && step.message.RegisterMessage? && after.desk.epoch == s.desk.epoch + 1)
  {
    NextDesk(s, step);
    hide Next;
  }

  /** The acknowledged sequence moves only by one, to the event outstanding on the newest registration. */
  lemma OnlyNewestAcknowledges(s: State, step: Step)
    requires Valid(s) && s.log.clock <= step.now
    requires Next(s, step).log.acked != s.log.acked
    ensures (step.IssueAt? && step.request.resetBacklog)
            || (&& step.MessageAt? && step.message.AckMessage?
                && SelectedAt(s.desk, s.sockets, step.socket)
                && Next(s, step).log.acked == s.log.acked + 1
                && s.log.events != [] && s.log.events[0].sequence == s.log.acked + 1
                && s.log.events[0].cursor == step.message.cursor
                && forall i :: 0 <= i < |s.sockets| && i != step.socket && s.sockets[i].Some?
                               && s.sockets[i].value.registered ==>
                     s.sockets[i].value.epoch < s.sockets[step.socket].value.epoch)
  {
    NextFollows(s, step);
    NextRowIsOldestWhenOpen(s.log);
    PruneKeepsCursor(s.log, step.now);
    hide Next, Inv, AppendStep, Prune, OneActiveGrant, CursorInv, DeskInv;
  }

  // ----- The same over whole runs -----

  predicate Enrolls(s: State, step: Step) {
    step.MessageAt? && step.message.RegisterMessage? && Next(s, step).desk.epoch > s.desk.epoch
  }

  function Registrations(s: State, steps: seq<Step>): nat
    decreases |steps|
  {
    if steps == [] then 0
    else (if Enrolls(s, steps[0]) then 1 else 0) + Registrations(Next(s, steps[0]), steps[1..])
  }

  /** Over any run the epoch counts the registrations, stored bindings only advance, and a stream that was not ready,
      or whose bindings advanced, is ready only after a new registration. */
  lemma {:induction false} ReadinessOverRuns(s: State, steps: seq<Step>)
    ensures var after := Run(s, steps);
            && after.desk.epoch == s.desk.epoch + Registrations(s, steps)
            && BindingsAdvance(s.bindings, after.bindings)
            && (after.desk.ready && (!s.desk.ready || Advanced(s.bindings, after.bindings)) ==> Registrations(s, steps) >= 1)
    decreases |steps|
  {
    if steps != [] {
      NextDesk(s, steps[0]);
      hide Next;
      ReadinessOverRuns(Next(s, steps[0]), steps[1..]);
    }
  }

  /** The acknowledgement of the event outstanding on the newest registration. */
  predicate Confirms(s: State, step: Step) {
    && step.MessageAt? && step.message.AckMessage? && SelectedAt(s.desk, s.sockets, step.socket)
    && s.sockets[step.socket].value.sentCursor == Some(step.message.cursor)
    && s.sockets[step.socket].value.sent > s.log.acked
  }

  predicate Resets(step: Step) {
    step.IssueAt? && step.request.resetBacklog
  }

  lemma AckedMoves(s: State, step: Step)
    requires Valid(s) && s.log.clock <= step.now && !Resets(step)
    ensures Next(s, step).log.acked == s.log.acked + if Confirms(s, step) then 1 else 0
  {
    if Confirms(s, step) {
      ConfirmMoves(s, step);
    } else if step.MessageAt? {
      OtherMessageKeepsAcked(s, step);
    } else {
      NextFollows(s, step);
      PruneKeepsCursor(s.log, step.now);
      hide Next, Valid, AppendStep, Prune;
    }
  }

  lemma ConfirmMoves(s: State, step: Step)
    requires Valid(s) && Confirms(s, step)
    ensures Next(s, step).log.acked == s.log.acked + 1
  {
    AcknowledgeMovesOne(s, step.socket, step.message.cursor);
    SendNextKeepsLog(Stream.Settled(s, step.socket, s.sockets[step.socket].value, step.message.cursor), step.socket,
                     step.now, step.send);
    hide Valid, Filter, HasRow, SendNext;
  }

  lemma OtherMessageKeepsAcked(s: State, step: Step)
    requires step.MessageAt? && !Confirms(s, step)
    ensures Next(s, step).log.acked == s.log.acked
  {
    hide Filter, HasRow;
  }

  function Confirmations(s: State, steps: seq<Step>): nat
    decreases |steps|
  {
    if steps == [] then 0
    else (if Confirms(s, steps[0]) then 1 else 0) + Confirmations(Next(s, steps[0]), steps[1..])
  }

  /** Over any run without a reset, the acknowledged sequence rises by exactly the number of acknowledgements of an
      event outstanding on the newest registration. */
  lemma {:induction false} AckedCountsConfirmations(s: State, steps: seq<Step>)
    requires Valid(s) && Monotone(s.log.clock, steps) && (forall i :: 0 <= i < |steps| ==> !Resets(steps[i]))
    ensures Run(s, steps).log.acked == s.log.acked + Confirmations(s, steps)
    decreases |steps|
  {
    hide Valid, Next, Confirms, Resets;
    if steps != [] {
      NextKeeps(s, steps[0]);
      ClockFollows(s, steps[0]);
      MonotoneLater(Next(s, steps[0]).log.clock, steps[0].now, steps[1..]);
      AckedMoves(s, steps[0]);
      AckedCountsConfirmations(Next(s, steps[0]), steps[1..]);
    }
  }

  lemma NextRowIsOldestWhenOpen(log: Log)
    requires Inv(log)
    ensures log.gap.None? && log.events != [] ==> log.events[0].sequence == log.acked + 1
  {
  }

  lemma PruneKeepsCursor(log: Log, now: nat)
    ensures Prune(log, now).acked == log.acked
  {
  }

  /** Late messages, closes and errors of a registration that is no longer selected change nothing. */
  lemma StaleSocketIsInert(s: State, socket: SocketId, message: Message, environment: nat, now: nat,
                           readySent: bool, send: Send)
    requires socket < |s.sockets| && s.sockets[socket].Some?
    requires s.sockets[socket].value.registered
    requires s.sockets[socket].value.epoch < s.desk.epoch
             || s.desk.consumer != Some(s.sockets[socket].value.grantId)
    ensures MessageStep(s, socket, message, environment, now, readySent, send) == Delivery(s, None)
    ensures CloseStep(s, socket) == s.(sockets := s.sockets[socket := None])
  {
  }

  // ----- Admission -----

  /** Every acceptance happens with a live socket of the newest registration, under its active, unexpired
      grant for this route and revision, and with no binding moved past that revision. */
  lemma AdmissionIsAuthorised(s: State, input: AppendInput, cursor: Cursor, now: nat, send: Send)
    requires Valid(s) && s.log.clock <= now
    requires AppendStep(s, input, cursor, now, send).result.Accepted?
    ensures s.desk.ready && s.desk.epoch >= 1 && s.desk.consumer.Some? && s.log.gap.None?
    ensures exists i :: SelectedAt(s.desk, s.sockets, i)
    ensures s.desk.consumer.value in s.grants
    ensures var grant := s.grants[s.desk.consumer.value];
            grant.status == Active && grant.expiresAt > now && grant.route == input.route
            && grant.revision == input.revision
    ensures !MovedPast(AppendStep(s, input, cursor, now, send).state.bindings, input.revision)
  {
    PruneStepKeeps(s, now);
    hide Inv, Prune, Insert, StreamIsFull, ReceiptsAreFull, EventIdTaken, CursorTaken;
    var p := PruneStep(s, now);
    BindKeeps(p, input);
    var b := Bind(p, input).value;
    assert Refusal(b, input, cursor, now).None?;
    if input.route.shareable {
      RequireBindingKeeps(p, input.binding.value);
    }
    var i := CurrentSocket(b).value;
    assert SelectedAt(s.desk, s.sockets, i);
    var accepted := Accept(b, input, cursor, now);
    if CurrentSocket(accepted).Some? {
      SendNextIsQuiet(accepted, CurrentSocket(accepted).value, now, send);
    }
  }

  /** In every run at most one grant is active, and the recorded consumer's grant is that one, never a replaced or
      revoked one; readiness names such a consumer; on its socket at most the next event is outstanding. */
  lemma ConsumerHoldsTheGrant(steps: seq<Step>, g: GrantId, h: GrantId, i: nat)
    requires Monotone(0, steps)
    ensures var s := Run(INITIAL, steps);
            && (g in s.grants && h in s.grants && s.grants[g].status == Active && s.grants[h].status == Active ==> g == h)
            && (s.desk.consumer == Some(g) ==> g in s.grants && s.grants[g].status == Active)
            && (s.desk.ready ==> s.desk.consumer.Some? && s.log.gap.None?)
            && (SelectedAt(s.desk, s.sockets, i) ==>
                  s.sockets[i].value.sent == s.log.acked || s.sockets[i].value.sent == s.log.acked + 1)
  {
    EmptyInv();
    RunKeeps(INITIAL, steps);
    hide Run, Inv;
  }

  // ----- Binding moves fence old routes -----

  /** Per direction, accepted revisions never decrease and never exceed the stored one. */
  ghost predicate Fenced(accepted: seq<Entry>, bindings: map<Direction, Binding>) {
    && (forall k :: 0 <= k < |accepted| && accepted[k].direction.Some? ==>
          accepted[k].direction.value in bindings
          && accepted[k].revision <= bindings[accepted[k].direction.value].revision)
    && (forall i, j :: 0 <= i < j < |accepted| && accepted[i].direction.Some?
                       && accepted[i].direction == accepted[j].direction ==>
          accepted[i].revision <= accepted[j].revision)
  }

  lemma FencedSnoc(accepted: seq<Entry>, before: map<Direction, Binding>, after: map<Direction, Binding>, entry: Entry)
    requires Fenced(accepted, before) && BindingsAdvance(before, after)
    requires entry.direction.Some? ==>
               var d := entry.direction.value;
               d in after && after[d].revision == entry.revision
    ensures Fenced(accepted + [entry], after)
  {
  }

  /** The event a step accepts carries the stored revision of its direction, at or above the one before
      the step, and strictly above it when that binding had moved. */
  lemma AcceptedAboveStored(s: State, step: Step)
    requires Valid(s) && s.log.clock <= step.now
    requires Accepts(s, step)
    ensures var entry := EntryOf(step.input, step.cursor, step.now);
            entry.direction.Some? ==>
              var d := entry.direction.value;
              var after := Next(s, step).bindings;
              && d in after && after[d].revision == entry.revision
              && (d in s.bindings ==> s.bindings[d].revision <= entry.revision)
              && (d in s.bindings && !s.bindings[d].active ==> s.bindings[d].revision < entry.revision)
  {
    hide Inv, Prune, Insert, Refusal, FindSelected;
    var input := step.input;
    var p := PruneStep(s, step.now);
    var b := Bind(p, input).value;
    if input.route.shareable {
      RequireBindingAdvances(p, input.binding.value);
    }
    var accepted := Accept(b, input, step.cursor, step.now);
    if CurrentSocket(accepted).Some? {
      SendNextIsQuiet(accepted, CurrentSocket(accepted).value, step.now, step.send);
    }
  }

  lemma NextFences(s: State, step: Step)
    requires Valid(s) && s.log.clock <= step.now
    requires Fenced(s.log.accepted, s.bindings)
    ensures Fenced(Next(s, step).log.accepted, Next(s, step).bindings)
  {
    hide Valid, Next, AppendStep;
    NextAccepts(s, step);
    NextDesk(s, step);
    if Accepts(s, step) {
      AcceptedAboveStored(s, step);
      FencedSnoc(s.log.accepted, s.bindings, Next(s, step).bindings, EntryOf(step.input, step.cursor, step.now));
    }
  }

  lemma {:induction false} RunFences(s: State, steps: seq<Step>)
    requires Valid(s) && Monotone(s.log.clock, steps)
    requires Fenced(s.log.accepted, s.bindings)
    ensures Fenced(Run(s, steps).log.accepted, Run(s, steps).bindings)
    decreases |steps|
  {
    if steps != [] {
      NextKeeps(s, steps[0]);
      NextFences(s, steps[0]);
      ClockFollows(s, steps[0]);
      MonotoneLater(Next(s, steps[0]).log.clock, steps[0].now, steps[1..]);
      RunFences(Next(s, steps[0]), steps[1..]);
    }
  }

  /** However notifications are ordered, duplicated or lost: once a direction's stored row has a revision,
      every later acceptance on it is at or above that revision, and strictly above it if it had moved. */
  lemma {:induction false} MovesFence(s: State, steps: seq<Step>, d: Direction, k: nat)
    requires Valid(s) && Monotone(s.log.clock, steps)
    requires d in s.bindings
    requires |s.log.accepted| <= k < |Run(s, steps).log.accepted|
    requires Run(s, steps).log.accepted[k].direction == Some(d)
    ensures s.bindings[d].revision <= Run(s, steps).log.accepted[k].revision
    ensures !s.bindings[d].active ==> s.bindings[d].revision < Run(s, steps).log.accepted[k].revision
    decreases |steps|
  {
    if steps != [] {
      var step, next := steps[0], Next(s, steps[0]);
      NextKeeps(s, step);
      ClockFollows(s, step);
      MonotoneLater(next.log.clock, step.now, steps[1..]);
      NextDesk(s, step);
      RunExtends(next, steps[1..]);
      if k >= |next.log.accepted| {
        MovesFence(next, steps[1..], d, k);
      } else {
        NextAccepts(s, step);
        AcceptedAboveStored(s, step);
      }
    }
  }
}
