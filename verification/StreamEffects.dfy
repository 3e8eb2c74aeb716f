/** What each request, message and alarm answers and leaves, stated over the stream's history and columns with the
    limits written out: a second account of the steps, independent of the tables' queries. */
module StreamEffects {
  import opened Contract
  import opened Tables
  import opened EventLog
  import opened Stream
  import opened StreamSafety
  import opened StreamTheorems

  // ----- What an append depends on -----

  /** The ID was accepted within two hours. */
  predicate Standing(accepted: seq<Entry>, id: EventId, now: nat) {
    exists k :: 0 <= k < |accepted| && accepted[k].eventId == id && accepted[k].acceptedAt + 7_200_000 > now
  }

  /** The oldest retained event is half an hour old. */
  predicate Overdue(log: Log, now: nat) {
    |log.fates| < |log.accepted| && log.accepted[|log.fates|].acceptedAt + 1_800_000 <= now
  }

  predicate Refuses(bindings: map<Direction, Binding>, d: Direction, revision: nat, source: nat) {
    d in bindings
    && (revision < bindings[d].revision
        || (revision == bindings[d].revision && (!bindings[d].active || bindings[d].source != Some(source))))
  }

  predicate Raises(bindings: map<Direction, Binding>, d: Direction, revision: nat) {
    d in bindings && bindings[d].revision < revision
  }

  predicate CarriesBinding(input: AppendInput) {
    input.binding.Some? && input.binding.value.revision == input.revision && input.binding.value.source == input.route.realm
  }

  /** The route, the local revision or the stored binding is not the publication's. */
  predicate Misdirected(s: State, input: AppendInput) {
    || (s.route.Some? && s.route.value != input.route)
    || (!input.route.shareable && s.revision.Some? && s.revision.value != input.revision)
    || (input.route.shareable
        && (input.binding.None?
            || Refuses(s.bindings, input.binding.value.direction, input.binding.value.revision, input.binding.value.source)))
  }

  /** The newest registration's socket is open, under its active and unexpired grant for this route and revision, past
      which no stored binding lies, and the publication brings no newer one. */
  predicate Served(s: State, input: AppendInput, now: nat) {
    && s.desk.ready && s.desk.consumer.Some? && s.desk.consumer.value in s.grants
    && (var grant := s.grants[s.desk.consumer.value];
        grant.status == Active && grant.expiresAt > now && grant.route == input.route && grant.revision == input.revision)
    && (forall d :: d in s.bindings ==> s.bindings[d].active && s.bindings[d].revision <= input.revision)
    && !(input.route.shareable && input.binding.Some? && Raises(s.bindings, input.binding.value.direction, input.revision))
    && (exists i :: 0 <= i < |s.sockets| && OpenAt(s, i))
  }

  predicate OpenAt(s: State, i: nat)
    requires i < |s.sockets|
  {
    s.sockets[i].Some? && s.sockets[i].value.registered && s.sockets[i].value.epoch == s.desk.epoch
    && s.desk.consumer == Some(s.sockets[i].value.grantId)
  }

  function Bytes(entries: seq<Entry>): nat {
    if entries == [] then 0 else entries[0].payloadBytes + Bytes(entries[1..])
  }

  /** A thousand retained events, a mebibyte of payloads, or ten acceptances within the second. */
  predicate Crowded(log: Log, bytes: nat, now: nat)
    requires |log.fates| <= |log.accepted|
  {
    || |log.accepted| - |log.fates| >= 1_000
    || Bytes(log.accepted[|log.fates|..]) + bytes > 1_048_576
    || (|log.accepted| >= 10 && log.accepted[|log.accepted| - 10].acceptedAt + 1_000 > now)
  }

  predicate CursorUsed(log: Log, cursor: Cursor, now: nat) {
    exists k :: 0 <= k < |log.accepted| && log.accepted[k].cursor == cursor
                && (k >= |log.fates| || log.accepted[k].acceptedAt + 7_200_000 > now)
  }

  /** What an append is answered, from the history and the columns alone. */
  ghost function Answer(s: State, input: AppendInput, cursor: Cursor, now: nat): AppendResult
    requires |s.log.fates| <= |s.log.accepted|
  {
    var log := s.log;
    if !input.payloadValid then Refused(PayloadInvalid)
    else if input.route.shareable && !input.recoveryOnly && !CarriesBinding(input) then Refused(Transition)
    else if Standing(log.accepted, input.eventId, now) then
      var k :| 0 <= k < |log.accepted| && log.accepted[k].eventId == input.eventId
               && log.accepted[k].acceptedAt + 7_200_000 > now;
      if log.accepted[k].fingerprint == input.fingerprint then Replayed(k + 1, log.accepted[k].acceptedAt)
      else Refused(SourceConflict)
    else if input.recoveryOnly || Misdirected(s, input) then Refused(Transition)
    else if log.gap.Some? || Overdue(log, now) then Refused(GapRequiresReset)
    else if !Served(s, input, now) then Refused(ConsumerUnavailable)
    else if Crowded(log, input.payloadBytes, now) || |log.accepted| + 1 >= 9_007_199_254_740_991 then Refused(StreamFull)
    else if CursorUsed(log, cursor, now) then Refused(ServiceUnavailable)
    else Accepted(|log.accepted| + 1, now)
  }

  // ----- Time passing -----

  lemma ExpiryLeaves(log: Log, now: nat) returns (n: nat)
    requires EventsMatch(log.accepted, log.fates, log.events) && Ordered(log.accepted, log.clock) && CursorsMatch(log)
    ensures n <= |log.events| && |log.fates| + |log.events| == |log.accepted| && ExpiredCount(log, now) == n
    ensures n > 0 <==> Overdue(log, now)
    ensures forall k :: |log.fates| <= k < |log.accepted| ==>
              (log.accepted[k].acceptedAt + 1_800_000 <= now <==> k < |log.fates| + n)
    ensures var out := ExpireEvents(log, now);
            out == if n == 0 then log
                   else log.(events := log.events[n..], count := log.count - n, bytes := log.bytes - SumBytes(log.events[..n]),
                             gap := Some(Gap(log.acked + 1, |log.fates| + n)), fates := log.fates + Repeat(Expired, n))
  {
    n := ExpirySplits(log.accepted, log.fates, log.events, log.clock, now);
    forall k | |log.fates| <= k < |log.accepted|
      ensures log.accepted[k].acceptedAt + 1_800_000 <= now <==> k < |log.fates| + n
    {
      assert log.events[k - |log.fates|] == EventOf(log.accepted[k], k + 1);
    }
    if n > 0 {
      ExpiryShape(log, now, n);
    }
    hide EventsMatch, Ordered, CursorsMatch, Filter, SumBytes;
  }

  /** Pruning expires exactly the events half an hour old, which opens the gap, and touches nothing else. */
  lemma PruneLogLeaves(log: Log, now: nat)
    requires Inv(log) && log.clock <= now
    ensures var p := Prune(log, now);
            && |log.fates| <= |p.fates| <= |log.accepted| && log.fates <= p.fates
            && (forall k :: |log.fates| <= k < |log.accepted| ==>
                  (log.accepted[k].acceptedAt + 1_800_000 <= now <==> k < |p.fates|))
            && (forall k :: |log.fates| <= k < |p.fates| ==> p.fates[k] == Expired)
            && (p.gap.Some? <==> log.gap.Some? || Overdue(log, now))
            && (ExpiredCount(log, now) > 0 <==> Overdue(log, now))
            && p.accepted == log.accepted && p.acked == log.acked && p.ackedCursor == log.ackedCursor && p.clock == now
  {
    var n := ExpiryLeaves(log, now);
    hide Inv, ExpireEvents, Filter, SumBytes, Overdue, ExpiredCount;
  }

  lemma PruneLeaves(s: State, now: nat)
    requires Valid(s) && s.log.clock <= now
    ensures var p := PruneStep(s, now);
            p == s.(log := Prune(s.log, now), desk := if Overdue(s.log, now) then Desk(false, s.desk.epoch, None) else s.desk)
  {
    PruneLogLeaves(s.log, now);
    hide Valid, Prune, Overdue, ExpiredCount;
  }

  // ----- Append, stage by stage -----

  /** The receipt found is that of the one acceptance still standing. */
  lemma ReceiptStands(log: Log, id: EventId)
    requires Inv(log)
    ensures Standing(log.accepted, id, log.clock) <==> FindReceipt(log.receipts, id).Some?
    ensures forall k :: 0 <= k < |log.accepted| && log.accepted[k].eventId == id && log.accepted[k].acceptedAt + 7_200_000 > log.clock ==>
              FindReceipt(log.receipts, id) == Some(ReceiptOf(log.accepted[k], k + 1))
  {
    hide FindReceipt;
    forall k | 0 <= k < |log.accepted| && log.accepted[k].eventId == id && log.accepted[k].acceptedAt + 7_200_000 > log.clock
      ensures FindReceipt(log.receipts, id) == Some(ReceiptOf(log.accepted[k], k + 1))
    {
      ReceiptIsOriginal(log, k);
    }
    if FindReceipt(log.receipts, id).Some? {
      var receipt := FindReceipt(log.receipts, id).value;
      var i :| 0 <= i < |log.receipts| && log.receipts[i] == receipt;
      var k := |log.accepted| - |log.receipts| + i;
      assert log.receipts[i] == ReceiptOf(log.accepted[k], k + 1);
    }
  }

  /** Recording a publication's binding: refused exactly when it is misdirected; a newer one costs the stream its readiness. */
  lemma BindLeaves(s: State, input: AppendInput)
    requires input.route.shareable ==> CarriesBinding(input)
    ensures Bind(s, input).None? <==> Misdirected(s, input)
    ensures !Misdirected(s, input) ==>
              Bind(s, input).value
              == if input.route.shareable
                 then s.(route := Some(input.route), bindings := Bound(s, input),
                         desk := s.desk.(ready := s.desk.ready && !Raises(s.bindings, input.binding.value.direction, input.revision)))
                 else s
  {
    if input.route.shareable && input.binding.value.direction in s.bindings {
      assert s.bindings[input.binding.value.direction := s.bindings[input.binding.value.direction]] == s.bindings;
    }
  }

  /** The bindings with the publication's own recorded. */
  function Bound(s: State, input: AppendInput): map<Direction, Binding> {
    if input.route.shareable && input.binding.Some?
    then s.bindings[input.binding.value.direction := Binding(input.revision, Some(input.route.realm), true)]
    else s.bindings
  }

  lemma {:induction false} BytesAre(accepted: seq<Entry>, fates: seq<Fate>, events: seq<Event>)
    requires EventsMatch(accepted, fates, events)
    ensures Bytes(accepted[|fates|..]) == SumBytes(events)
    decreases |events|
  {
    if events != [] {
      var fates' := fates + [Acknowledged];
      forall i | 0 <= i < |events[1..]|
        ensures events[1..][i] == EventOf(accepted[|fates'| + i], |fates'| + i + 1)
      {
        assert events[1..][i] == events[i + 1];
      }
      BytesAre(accepted, fates', events[1..]);
      assert accepted[|fates|..][1..] == accepted[|fates'|..];
      assert events[0] == EventOf(accepted[|fates|], |fates| + 1);
    }
  }

  lemma RecentAre(log: Log, now: nat)
    requires Inv(log) && Pruned(log, now)
    ensures |log.ingress| >= 10 <==> |log.accepted| >= 10 && log.accepted[|log.accepted| - 10].acceptedAt + 1_000 > now
  {
    FilterKeeps(log.ingress, IngressAfter(now - 1_000));
    if |log.ingress| >= 10 {
      assert IngressAfter(now - 1_000)(log.ingress[|log.ingress| - 10]);
    }
    hide Filter;
  }

  lemma CrowdedIsFull(log: Log, bytes: nat, now: nat)
    requires Inv(log) && Pruned(log, now)
    ensures StreamIsFull(log, bytes, now) <==> Crowded(log, bytes, now)
  {
    BytesAre(log.accepted, log.fates, log.events);
    RecentAre(log, now);
    hide Filter, SumBytes, Bytes, Ordered, Spaced, AcceptedOnce, ReceiptsMatch, IngressMatch, ExpiryRecorded;
  }

  lemma UsedIsTaken(log: Log, cursor: Cursor)
    requires Inv(log)
    ensures CursorTaken(log.events, log.receipts, cursor) <==> CursorUsed(log, cursor, log.clock)
  {
    hide Ordered, Spaced, AcceptedOnce, IngressMatch, CursorsMatch, ExpiryRecorded;
    forall k | 0 <= k < |log.accepted| && log.accepted[k].cursor == cursor
               && (k >= |log.fates| || log.accepted[k].acceptedAt + 7_200_000 > log.clock)
      ensures CursorTaken(log.events, log.receipts, cursor)
    {
      if k >= |log.fates| {
        assert log.events[k - |log.fates|] == EventOf(log.accepted[k], k + 1) && log.events[k - |log.fates|] in log.events;
      } else {
        var i := k - (|log.accepted| - |log.receipts|);
        assert log.receipts[i] == ReceiptOf(log.accepted[k], k + 1) && log.receipts[i] in log.receipts;
      }
    }
    if CursorTaken(log.events, log.receipts, cursor) {
      if e :| e in log.events && e.cursor == cursor {
        var i :| 0 <= i < |log.events| && log.events[i] == e;
        assert log.accepted[|log.fates| + i].cursor == cursor;
      } else {
        var r :| r in log.receipts && r.cursor == cursor;
        var i :| 0 <= i < |log.receipts| && log.receipts[i] == r;
        assert log.receipts[i] == ReceiptOf(log.accepted[|log.accepted| - |log.receipts| + i], |log.accepted| - |log.receipts| + i + 1);
        assert log.accepted[|log.accepted| - |log.receipts| + i].cursor == cursor;
      }
    }
  }

  lemma ServedIs(s: State, b: State, input: AppendInput, now: nat)
    requires Valid(s) && (input.route.shareable ==> CarriesBinding(input)) && !Misdirected(s, input)
    requires b.sockets == s.sockets && b.grants == s.grants && b.bindings == Bound(s, input)
    requires b.desk == s.desk.(ready := s.desk.ready
                                        && !(input.route.shareable && Raises(s.bindings, input.binding.value.direction, input.revision)))
    ensures b.desk.ready && GrantViable(b, input, now) && CurrentSocket(b).Some? <==> Served(s, input, now)
  {
    assert DeskInv(s.log.gap, s.desk, s.grants);
    assert s.desk.ready ==> s.desk.consumer.Some? && s.desk.epoch >= 1;
    hide Valid;
    if !(input.route.shareable && Raises(s.bindings, input.binding.value.direction, input.revision)) {
      MovedIs(s, input);
    }
    assert forall i: nat :: i < |s.sockets| ==> (OpenAt(s, i) <==> SelectedAt(s.desk, s.sockets, i));
    assert forall i :: SelectedAt(b.desk, b.sockets, i) <==> SelectedAt(s.desk, s.sockets, i);
    if Served(s, input, now) {
      var i :| 0 <= i < |s.sockets| && OpenAt(s, i);
      assert SelectedAt(b.desk, b.sockets, i);
    }
    hide MovedPast, Misdirected, Raises;
  }

  /** With the publication's binding recorded, no binding lies past its revision exactly when none did before. */
  lemma MovedIs(s: State, input: AppendInput)
    requires (input.route.shareable ==> CarriesBinding(input)) && !Misdirected(s, input)
    requires !(input.route.shareable && Raises(s.bindings, input.binding.value.direction, input.revision))
    ensures MovedPast(Bound(s, input), input.revision)
            <==> !(forall d :: d in s.bindings ==> s.bindings[d].active && s.bindings[d].revision <= input.revision)
  {
    var after := Bound(s, input);
    if d :| d in s.bindings && !(s.bindings[d].active && s.bindings[d].revision <= input.revision) {
      assert d in after && after[d] == s.bindings[d];
    }
  }

  /** The admission checks of a pruned stream for an event without a receipt, in their order. */
  lemma RefusalIs(log: Log, b: State, input: AppendInput, cursor: Cursor, now: nat)
    requires Inv(log) && log.clock <= now && b.log == Prune(log, now) && DeskInv(b.log.gap, b.desk, b.grants)
    requires FindReceipt(b.log.receipts, input.eventId).None?
    ensures |b.log.fates| <= |b.log.accepted|
    ensures Refusal(b, input, cursor, now)
            == if b.log.gap.Some? then Some(GapRequiresReset)
               else if !(b.desk.ready && GrantViable(b, input, now) && CurrentSocket(b).Some?) then Some(ConsumerUnavailable)
               else if Crowded(b.log, input.payloadBytes, now) || |b.log.accepted| + 1 >= 9_007_199_254_740_991 then Some(StreamFull)
               else if CursorUsed(b.log, cursor, now) then Some(ServiceUnavailable)
               else None
  {
    hide Inv, Prune, Pruned, StreamIsFull, ReceiptsAreFull, EventIdTaken, CursorTaken, GrantViable, FindReceipt, FindSelected,
      Crowded, CursorUsed;
    AdmissionIs(log, input.eventId, input.payloadBytes, cursor, now);
  }

  lemma AdmissionIs(log: Log, id: EventId, bytes: nat, cursor: Cursor, now: nat)
    requires Inv(log) && log.clock <= now && FindReceipt(Prune(log, now).receipts, id).None?
    ensures var p := Prune(log, now);
            && |p.fates| <= |p.accepted| && p.next == |p.accepted| + 1
            && !ReceiptsAreFull(p) && !EventIdTaken(p.events, p.receipts, p.ingress, id)
            && (StreamIsFull(p, bytes, now) <==> Crowded(p, bytes, now))
            && (CursorTaken(p.events, p.receipts, cursor) <==> CursorUsed(p, cursor, now))
  {
    hide Prune, Pruned, StreamIsFull, ReceiptsAreFull, EventIdTaken, CursorTaken, FindReceipt, Crowded, CursorUsed,
      Ordered, Spaced, AcceptedOnce, ReceiptsMatch, IngressMatch, ExpiryRecorded;
    PruneKeepsInv(log, now);
    PruneLogLeaves(log, now);
    PruneIsPruned(log, now);
    ReceiptCapsUnreachable(log, now);
    FreshIdIsUntaken(log, now, id);
    CrowdedIsFull(Prune(log, now), bytes, now);
    UsedIsTaken(Prune(log, now), cursor);
  }

  /** Without an expiry the retained range, and so what crowds it, is unchanged by pruning. */
  lemma PrunedAlike(log: Log, bytes: nat, cursor: Cursor, now: nat)
    requires Inv(log) && log.clock <= now && !Overdue(log, now)
    ensures |log.fates| <= |log.accepted| && Prune(log, now).fates == log.fates && Prune(log, now).accepted == log.accepted
    ensures Crowded(Prune(log, now), bytes, now) <==> Crowded(log, bytes, now)
    ensures CursorUsed(Prune(log, now), cursor, now) <==> CursorUsed(log, cursor, now)
  {
    PruneLogLeaves(log, now);
    hide Inv, Prune, Bytes;
  }

  /** The one answer an append gives. */
  lemma AppendAnswers(s: State, input: AppendInput, cursor: Cursor, now: nat, send: Send)
    requires Valid(s) && s.log.clock <= now
    ensures |s.log.fates| <= |s.log.accepted|
    ensures AppendStep(s, input, cursor, now, send).result == Answer(s, input, cursor, now)
  {
    var log, p := s.log, PruneStep(s, now);
    PruneStepKeeps(s, now);
    PruneLogLeaves(log, now);
    PruneLeaves(s, now);
    assert Inv(log) && Inv(p.log) && p.log.clock == now && DeskInv(p.log.gap, p.desk, p.grants);
    hide Inv, Valid, Prune, PruneStep, Pruned, FindReceipt, Bind, AppendBound, Standing, Misdirected, Served, Crowded, CursorUsed, Overdue;
    ReceiptStands(p.log, input.eventId);
    if input.payloadValid && (input.route.shareable && !input.recoveryOnly ==> CarriesBinding(input)) {
      if Standing(log.accepted, input.eventId, now) {
        StandingAnswers(s, input, cursor, now, send);
      } else if !input.recoveryOnly {
        BindLeaves(p, input);
        DirectedAlike(s, p, input);
        if !Misdirected(s, input) {
          BoundAnswersAs(s, input, cursor, now, send);
        }
      }
    }
  }

  lemma DirectedAlike(s: State, p: State, input: AppendInput)
    requires p.route == s.route && p.revision == s.revision && p.bindings == s.bindings
    ensures Misdirected(p, input) <==> Misdirected(s, input)
  {
  }

  lemma StandingAnswers(s: State, input: AppendInput, cursor: Cursor, now: nat, send: Send)
    requires Valid(s) && s.log.clock <= now && input.payloadValid && |s.log.fates| <= |s.log.accepted|
    requires input.route.shareable && !input.recoveryOnly ==> CarriesBinding(input)
    requires Standing(s.log.accepted, input.eventId, now)
    ensures AppendStep(s, input, cursor, now, send).result == Answer(s, input, cursor, now)
  {
    var accepted := s.log.accepted;
    var k :| 0 <= k < |accepted| && accepted[k].eventId == input.eventId && accepted[k].acceptedAt + 7_200_000 > now;
    ReplayReturnsOriginal(s, input, cursor, now, send, k);
    assert AcceptedOnce(accepted) && Ordered(accepted, s.log.clock);
    forall j | 0 <= j < |accepted| && accepted[j].eventId == input.eventId && accepted[j].acceptedAt + 7_200_000 > now
      ensures j == k
    {
    }
    hide Valid, AppendStep, PruneStep, Ordered, AcceptedOnce;
  }

  /** An event neither standing nor misdirected is answered by the admission checks. */
  lemma BoundAnswersAs(s: State, input: AppendInput, cursor: Cursor, now: nat, send: Send)
    requires Valid(s) && s.log.clock <= now && input.payloadValid && !input.recoveryOnly
    requires |s.log.fates| <= |s.log.accepted|
    requires input.route.shareable ==> CarriesBinding(input)
    requires !Standing(s.log.accepted, input.eventId, now) && !Misdirected(s, input)
    ensures AppendStep(s, input, cursor, now, send).result == Answer(s, input, cursor, now)
  {
    var p := PruneStep(s, now);
    PruneStepKeeps(s, now);
    PruneLogLeaves(s.log, now);
    PruneLeaves(s, now);
    assert Inv(s.log) && Inv(p.log) && p.log.clock == now;
    hide Inv, Valid, Prune, PruneStep, Pruned, FindReceipt, Bind, AppendBound, Standing, Misdirected, Served, Crowded, CursorUsed, Overdue,
      Refusal, DeskInv, GrantViable, CurrentSocket;
    ReceiptStands(p.log, input.eventId);
    BindLeaves(p, input);
    DirectedAlike(s, p, input);
    var b := Bind(p, input).value;
    BindKeeps(p, input);
    assert DeskInv(b.log.gap, b.desk, b.grants) by {
      ValidDesk(b);
    }
    RefusalIs(s.log, b, input, cursor, now);
    BoundResult(b, input, cursor, now, send);
    assert AppendStep(s, input, cursor, now, send).result == AppendBound(b, input, cursor, now, send).result;
    hide AppendStep;
    if !Overdue(s.log, now) {
      PrunedAlike(s.log, input.payloadBytes, cursor, now);
      ServedIs(s, b, input, now);
    }
  }

  lemma ValidDesk(s: State)
    requires Valid(s)
    ensures DeskInv(s.log.gap, s.desk, s.grants)
  {
  }

  lemma BoundResult(b: State, input: AppendInput, cursor: Cursor, now: nat, send: Send)
    ensures var refusal := Refusal(b, input, cursor, now);
            AppendBound(b, input, cursor, now, send).result == if refusal.Some? then Refused(refusal.value) else Accepted(b.log.next, now)
  {
    hide Refusal, Accept, SendNext, FindSelected;
  }

  /** Transition is answered exactly for a binding not the publication's own, and, without a standing acceptance, for a
      lookup, another route, another local revision, a lower stored revision, or an equal one inactive or of another source. */
  lemma TransitionExactly(s: State, input: AppendInput, cursor: Cursor, now: nat, send: Send)
    requires Valid(s) && s.log.clock <= now
    ensures AppendStep(s, input, cursor, now, send).result == Refused(Transition) <==>
            && input.payloadValid
            && (|| (input.route.shareable && !input.recoveryOnly && !CarriesBinding(input))
                || (!Standing(s.log.accepted, input.eventId, now)
                    && (|| input.recoveryOnly
                        || (s.route.Some? && s.route.value != input.route)
                        || (!input.route.shareable && s.revision.Some? && s.revision.value != input.revision)
                        || (input.route.shareable && input.binding.value.direction in s.bindings
                            && var stored := s.bindings[input.binding.value.direction];
                               || input.revision < stored.revision
                               || (input.revision == stored.revision
                                   && (!stored.active || stored.source != Some(input.route.realm)))))))
  {
    hide Valid, AppendStep, Standing, Served, Crowded, CursorUsed, Overdue;
    AppendAnswers(s, input, cursor, now, send);
  }

  // ----- Sending -----

  /** The grant under which a socket is served has gone, was ended, or has expired. */
  predicate Ended(s: State, id: GrantId, now: nat) {
    id !in s.grants || s.grants[id].status != Active || s.grants[id].expiresAt <= now
  }

  predicate Past(bindings: map<Direction, Binding>, revision: nat) {
    exists d :: d in bindings && (!bindings[d].active || bindings[d].revision > revision)
  }

  /** The event with the next sequence, as it was accepted, half an hour from its expiry then. */
  function NextEvent(log: Log): Event
    requires log.acked < |log.accepted|
  {
    var e := log.accepted[log.acked];
    Event(log.acked + 1, e.eventId, e.cursor, e.payload, e.payloadBytes, e.acceptedAt, e.acceptedAt + 1_800_000)
  }

  /** Offering the next event on the newest registration's socket: nothing while one is outstanding; the consumer ends
      when a gap stands, the grant has ended, the frame cannot be sent, or nothing is left of a stream that has moved. */
  ghost predicate Offered(s: State, i: nat, now: nat, send: Send, after: State, frame: Option<Frame>)
    requires i < |s.sockets| && s.sockets[i].Some?
  {
    var a := s.sockets[i].value;
    var closed := s.(desk := Desk(false, s.desk.epoch, None));
    if s.log.gap.Some? || Ended(s, a.grantId, now) then after == closed && frame.None?
    else if a.sent > a.acked then after == s && frame.None?
    else if s.log.acked >= |s.log.accepted| then
      frame.None? && after == if Past(s.bindings, s.grants[a.grantId].revision) then closed else s
    else if send != Sent then after == closed && frame.None?
    else
      var event := NextEvent(s.log);
      && frame == Some(Frame(i, event))
      && after == s.(sockets := s.sockets[i := Some(a.(sent := event.sequence, sentCursor := Some(event.cursor)))])
  }

  lemma SendOffers(s: State, i: nat, now: nat, send: Send)
    requires Valid(s) && i < |s.sockets| && OpenAt(s, i)
    ensures Offered(s, i, now, send, SendNext(s, i, now, send).state, SendNext(s, i, now, send).frame)
  {
    if s.log.gap.None? {
      NextRowIsOldest(s.log);
      assert s.log.acked <= |s.log.accepted|;
    }
    hide Valid, Inv, NextRow;
  }

  // ----- What an append leaves -----

  /** The publication is one whose binding the stream comes to record. */
  predicate Binds(s: State, input: AppendInput, now: nat) {
    && input.payloadValid && !input.recoveryOnly && (input.route.shareable ==> CarriesBinding(input))
    && !Standing(s.log.accepted, input.eventId, now) && !Misdirected(s, input)
  }

  predicate Reaches(input: AppendInput) {
    input.payloadValid && (input.route.shareable && !input.recoveryOnly ==> CarriesBinding(input))
  }

  function BindingDesk(s: State, input: AppendInput, now: nat): Desk {
    var kept := if Overdue(s.log, now) then Desk(false, s.desk.epoch, None) else s.desk;
    if Binds(s, input, now) && input.route.shareable && Raises(s.bindings, input.binding.value.direction, input.revision)
    then kept.(ready := false) else kept
  }

  /** The columns a refused append leaves: an unreadable one changes nothing; any other prunes; one that binds records
      its route and binding, and a newer binding leaves the stream without readiness. */
  function Checked(s: State, input: AppendInput, now: nat): State {
    if !Reaches(input) then s
    else
      var binds := Binds(s, input, now);
      s.(log := Prune(s.log, now), desk := BindingDesk(s, input, now),
         bindings := if binds then Bound(s, input) else s.bindings,
         route := if binds && input.route.shareable then Some(input.route) else s.route)
  }

  lemma CheckedIs(s: State, input: AppendInput, now: nat)
    requires Valid(s) && s.log.clock <= now && Reaches(input)
    ensures !Binds(s, input, now) ==> Checked(s, input, now) == PruneStep(s, now)
    ensures Binds(s, input, now) ==> Bind(PruneStep(s, now), input) == Some(Checked(s, input, now))
  {
    PruneLeaves(s, now);
    DirectedAlike(s, PruneStep(s, now), input);
    hide Valid, Prune, PruneStep, Standing, Misdirected, Overdue, Raises, Bind;
    if Binds(s, input, now) {
      BindLeaves(PruneStep(s, now), input);
    }
  }

  lemma AppendShape(s: State, input: AppendInput, cursor: Cursor, now: nat, send: Send)
    requires Reaches(input)
    ensures var out, p := AppendStep(s, input, cursor, now, send), PruneStep(s, now);
            if FindReceipt(p.log.receipts, input.eventId).None? && !input.recoveryOnly && Bind(p, input).Some?
            then out == AppendBound(Bind(p, input).value, input, cursor, now, send)
            else out.state == p && out.frame.None? && !out.result.Accepted?
  {
    hide PruneStep, FindReceipt, Bind, AppendBound;
  }

  lemma PrunedFacts(s: State, now: nat)
    requires Valid(s) && s.log.clock <= now
    ensures var p := PruneStep(s, now);
            && Valid(p) && Inv(p.log) && p.log.clock == now && p.log.accepted == s.log.accepted
            && p.route == s.route && p.revision == s.revision && p.bindings == s.bindings
  {
    PruneStepKeeps(s, now);
    PruneLeaves(s, now);
    hide Inv, PruneStep, Pruned;
  }

  lemma AppendStage(s: State, input: AppendInput, cursor: Cursor, now: nat, send: Send)
    requires Valid(s) && s.log.clock <= now && Reaches(input)
    ensures var out, c := AppendStep(s, input, cursor, now, send), Checked(s, input, now);
            if Binds(s, input, now) then
              Valid(c) && FindReceipt(c.log.receipts, input.eventId).None? && out == AppendBound(c, input, cursor, now, send)
            else out.state == c && out.frame.None? && !out.result.Accepted?
  {
    var p := PruneStep(s, now);
    hide Inv, Valid, Checked, PruneStep, AppendStep, FindReceipt, Bind, AppendBound, Standing, Misdirected;
    PrunedFacts(s, now);
    AppendShape(s, input, cursor, now, send);
    CheckedIs(s, input, now);
    ReceiptStands(p.log, input.eventId);
    if !input.recoveryOnly {
      BindMisdirected(s, p, input);
      if !Misdirected(s, input) {
        BindKeeps(p, input);
      }
    }
  }

  lemma BindMisdirected(s: State, p: State, input: AppendInput)
    requires p.route == s.route && p.revision == s.revision && p.bindings == s.bindings
    requires input.route.shareable ==> CarriesBinding(input)
    ensures Bind(p, input).None? <==> Misdirected(s, input)
  {
    BindLeaves(p, input);
    DirectedAlike(s, p, input);
    hide Bind, Misdirected;
  }

  /** An acceptance appends one entry, records the stream's route and local revision, and offers the next event. */
  function Recorded(s: State, input: AppendInput, cursor: Cursor, now: nat): Entry {
    Entry(input.eventId, input.fingerprint, cursor, input.payload, input.payloadBytes, now,
          if input.route.shareable && input.binding.Some? then Some(input.binding.value.direction) else None, input.revision)
  }

  function Entered(c: State, input: AppendInput, cursor: Cursor, now: nat): State {
    c.(log := Insert(c.log, Recorded(c, input, cursor, now)), route := Some(input.route),
       revision := if input.route.shareable then c.revision else Some(input.revision))
  }

  lemma EnteredIs(c: State, input: AppendInput, cursor: Cursor, now: nat)
    requires !Misdirected(c, input)
    ensures Accept(c, input, cursor, now) == Entered(c, input, cursor, now)
  {
    hide Insert;
  }

  /** What admission found: a ready consumer with an open socket. */
  lemma AdmittedIsOpen(c: State, input: AppendInput, cursor: Cursor, now: nat)
    requires Valid(c) && Refusal(c, input, cursor, now).None?
    ensures c.desk.ready && c.desk.consumer.Some? && CurrentSocket(c).Some?
    ensures CurrentSocket(c).value < |c.sockets| && OpenAt(c, CurrentSocket(c).value)
  {
    hide Inv, StreamIsFull, ReceiptsAreFull, EventIdTaken, CursorTaken, GrantViable;
  }

  lemma AcceptanceOffers(c: State, input: AppendInput, cursor: Cursor, now: nat, send: Send)
    requires Valid(c) && Pruned(c.log, now) && FindReceipt(c.log.receipts, input.eventId).None? && !Misdirected(c, input)
    requires AppendBound(c, input, cursor, now, send).result.Accepted?
    ensures c.desk.ready && c.desk.consumer.Some?
    ensures exists i :: 0 <= i < |c.sockets| && OpenAt(c, i)
                        && Offered(Entered(c, input, cursor, now), i, now, send, AppendBound(c, input, cursor, now, send).state,
                                   AppendBound(c, input, cursor, now, send).frame)
  {
    hide Valid, Pruned, Entered, Misdirected, Refusal, SendNext, Offered, FindReceipt, OpenAt, Insert, FindSelected;
    BoundResult(c, input, cursor, now, send);
    AdmittedIsOpen(c, input, cursor, now);
    EnteredIs(c, input, cursor, now);
    AcceptKeeps(c, input, cursor, now);
    var e, i := Accept(c, input, cursor, now), CurrentSocket(c).value;
    assert e.sockets == c.sockets && e.desk == c.desk && CurrentSocket(e) == CurrentSocket(c);
    SameOpen(c, e, i);
    hide Accept, CurrentSocket;
    SendOffers(e, i, now, send);
  }

  lemma SameOpen(s: State, e: State, i: nat)
    requires e.sockets == s.sockets && i < |s.sockets|
    requires e.desk.epoch == s.desk.epoch && e.desk.consumer == s.desk.consumer
    ensures OpenAt(s, i) <==> OpenAt(e, i)
  {
  }

  /** Recording the publication's binding leaves the publication well directed. */
  lemma CheckedIsDirected(s: State, input: AppendInput, now: nat)
    requires Valid(s) && s.log.clock <= now && Binds(s, input, now)
    ensures !Misdirected(Checked(s, input, now), input)
    ensures Pruned(Checked(s, input, now).log, now)
    ensures Checked(s, input, now).desk.consumer.Some? ==>
              Checked(s, input, now).desk.epoch == s.desk.epoch && Checked(s, input, now).desk.consumer == s.desk.consumer
  {
    PruneIsPruned(s.log, now);
    hide Valid, Prune, Standing, Overdue, Pruned;
  }

  /** What every append leaves: refused, the checked columns; accepted, one more entry, the route and local revision
      recorded, and the next event offered on the newest registration's socket. */
  lemma AppendLeaves(s: State, input: AppendInput, cursor: Cursor, now: nat, send: Send)
    requires Valid(s) && s.log.clock <= now
    ensures var out, c := AppendStep(s, input, cursor, now, send), Checked(s, input, now);
            if out.result.Accepted? then
              && out.state.log.accepted == s.log.accepted + [Recorded(s, input, cursor, now)]
              && exists i :: 0 <= i < |s.sockets| && OpenAt(s, i) && i < |c.sockets| && c.sockets[i].Some?
                             && Offered(Entered(c, input, cursor, now), i, now, send, out.state, out.frame)
            else out.state == c && out.frame.None?
  {
    var out, c := AppendStep(s, input, cursor, now, send), Checked(s, input, now);
    if Reaches(input) {
      hide Valid, AppendStep, AppendBound, Checked, Binds, Offered, Entered, FindReceipt, Misdirected, OpenAt, Pruned, Insert;
      AppendStage(s, input, cursor, now, send);
      if out.result.Accepted? {
        CheckedIsDirected(s, input, now);
        AcceptanceOffers(c, input, cursor, now, send);
        NextAccepts(s, AppendAt(input, cursor, now, send));
        CheckedSockets(s, input, now);
        var i :| 0 <= i < |c.sockets| && OpenAt(c, i)
                 && Offered(Entered(c, input, cursor, now), i, now, send, out.state, out.frame);
        SameOpen(s, c, i);
        assert c.sockets[i].Some? by {
          OpenIsSome(c, i);
        }
      }
    }
  }

  lemma OpenIsSome(s: State, i: nat)
    requires i < |s.sockets| && OpenAt(s, i)
    ensures s.sockets[i].Some?
  {
  }

  lemma CheckedSockets(s: State, input: AppendInput, now: nat)
    ensures Checked(s, input, now).sockets == s.sockets && Checked(s, input, now).grants == s.grants
  {
    hide Prune;
  }

  /** A publication on the stream's route that brings the first or a newer binding of its direction records it, at the
      cost of readiness when it is newer, and is not answered Transition. */
  lemma NewBindingIsRecorded(s: State, input: AppendInput, cursor: Cursor, now: nat, send: Send)
    requires Valid(s) && s.log.clock <= now
    requires input.payloadValid && !input.recoveryOnly && input.route.shareable && CarriesBinding(input)
    requires !Standing(s.log.accepted, input.eventId, now) && (s.route.Some? ==> s.route.value == input.route)
    requires var d := input.binding.value.direction; d in s.bindings ==> s.bindings[d].revision < input.revision
    ensures var out, d := AppendStep(s, input, cursor, now, send), input.binding.value.direction;
            && out.state.bindings == s.bindings[d := Binding(input.revision, Some(input.route.realm), true)]
            && out.state.route == Some(input.route)
            && (d in s.bindings ==> !out.state.desk.ready && !out.result.Accepted?)
            && out.result != Refused(Transition)
  {
    hide Valid, AppendStep, Standing, Insert;
    AppendAnswers(s, input, cursor, now, send);
    AppendLeaves(s, input, cursor, now, send);
    hide Overdue, Crowded, CursorUsed;
  }

  // ----- Grants -----

  predicate InScope(s: State, r: GrantRequest) {
    && (s.route.Some? ==> s.route.value == r.route)
    && (if r.route.shareable
        then r.binding.Some? && r.binding.value.revision == r.revision && r.binding.value.source == r.route.realm
             && !Refuses(s.bindings, r.binding.value.direction, r.revision, r.route.realm)
        else r.route.realm == r.target)
  }

  /** The columns once a grant request in scope has recorded its binding. */
  function GrantChecked(s: State, r: GrantRequest): State {
    if r.route.shareable && r.binding.Some? then
      var d := r.binding.value.direction;
      s.(bindings := s.bindings[d := Binding(r.revision, Some(r.route.realm), true)],
         desk := s.desk.(ready := s.desk.ready && !Raises(s.bindings, d, r.revision)))
    else s
  }

  /** A reset discards every retained event, acknowledges up to the newest, and moves the gap into the audit. */
  ghost predicate Emptied(log: Log, after: Log) {
    && after.events == [] && after.count == 0 && after.bytes == 0
    && after.acked == |log.accepted| && after.ackedCursor.None? && after.gap.None?
    && after.accepted == log.accepted && |after.fates| == |log.accepted| && log.fates <= after.fates
    && (forall k :: |log.fates| <= k < |after.fates| ==> after.fates[k] == Discarded)
    && after.audit == (if log.gap.Some? then log.audit + [log.gap.value] else log.audit)
    && after.receipts == log.receipts && after.ingress == log.ingress && after.next == log.next && after.clock == log.clock
  }

  lemma ResetEmpties(log: Log)
    requires Inv(log)
    ensures Emptied(log, Reset(log))
  {
    hide Ordered, Spaced, AcceptedOnce, ReceiptsMatch, IngressMatch, ExpiryRecorded;
  }

  /** The previous active grant was replaced; ended ones are kept for seven days, the latest 999 of them. */
  ghost predicate Superseded(before: map<GrantId, Grant>, r: GrantRequest, after: map<GrantId, Grant>) {
    && r.grantId in after
    && after[r.grantId] == Grant(r.secret, r.environment, r.target, r.route, r.revision, r.issuedAt, r.expiresAt, Active, None)
    && (forall g :: g in after && g != r.grantId ==>
          g in before && after[g] == EndedBy(before[g], r.issuedAt) && !Aged(after[g], r.issuedAt))
    && (forall g :: g in before && g != r.grantId && g !in after ==>
          Aged(EndedBy(before[g], r.issuedAt), r.issuedAt)
          || |set h | h in before && LaterEnd(before, r.issuedAt, h, g)| >= 999)
  }

  function EndedBy(grant: Grant, now: nat): Grant {
    if grant.status == Active then grant.(status := Replaced, revokedAt := Some(now)) else grant
  }

  predicate Aged(grant: Grant, now: nat) {
    grant.expiresAt + 604_800_000 < now || (grant.revokedAt.Some? && grant.revokedAt.value + 604_800_000 < now)
  }

  function EndOf(grant: Grant): nat { if grant.revokedAt.Some? then grant.revokedAt.value else grant.expiresAt }

  predicate LaterEnd(grants: map<GrantId, Grant>, now: nat, h: GrantId, g: GrantId)
    requires h in grants && g in grants
  {
    var a, b := EndOf(EndedBy(grants[h], now)), EndOf(EndedBy(grants[g], now));
    a > b || (a == b && h > g)
  }

  lemma RenewSupersedes(grants: map<GrantId, Grant>, r: GrantRequest)
    ensures Superseded(grants, r, RenewGrants(grants, r))
  {
    var replaced := ReplaceActive(grants, r.issuedAt);
    var aged := DropAged(replaced, r.issuedAt);
    var kept := DropOverflow(aged);
    assert forall g :: g in aged ==> g in grants && aged[g] == EndedBy(grants[g], r.issuedAt) && aged[g].status != Active;
    forall g | g in grants && g != r.grantId && g !in RenewGrants(grants, r) && !Aged(EndedBy(grants[g], r.issuedAt), r.issuedAt)
      ensures |set h | h in grants && LaterEnd(grants, r.issuedAt, h, g)| >= 999
    {
      assert g in aged && g !in kept;
      assert forall h :: h in EndedAfter(aged, g) ==> h in grants && LaterEnd(grants, r.issuedAt, h, g);
      SubsetSize(EndedAfter(aged, g), set h | h in grants && LaterEnd(grants, r.issuedAt, h, g));
    }
  }

  /** A grant request: out of scope it changes nothing; in scope it records its binding, and unless its ID is known or a
      gap stands unreset it becomes the active grant, with no consumer until one registers. */
  lemma IssueLeaves(s: State, r: GrantRequest)
    requires Valid(s)
    ensures var out, c := IssueGrantStep(s, r), GrantChecked(s, r);
            if !InScope(s, r) then out == Issue(s, false)
            else if r.grantId in s.grants then
              out == Issue(c, s.grants[r.grantId].secret == r.secret && s.grants[r.grantId].route == r.route)
            else if s.log.gap.Some? && !r.resetBacklog then out == Issue(c, false)
            else
              && out.created
              && out.state == c.(log := out.state.log, desk := Desk(false, s.desk.epoch, None), grants := out.state.grants,
                                 route := Some(r.route))
              && (if r.resetBacklog then Emptied(s.log, out.state.log) else out.state.log == s.log)
              && Superseded(s.grants, r, out.state.grants)
  {
    assert Inv(s.log);
    hide Valid, Inv, Reset, Emptied, Superseded, RenewGrants, InScope, GrantChecked, BindGrant;
    ResetEmpties(s.log);
    RenewSupersedes(s.grants, r);
    GrantBinds(s, r);
  }

  lemma GrantBinds(s: State, r: GrantRequest)
    ensures BindGrant(s, r) == if InScope(s, r) then Some(GrantChecked(s, r)) else None
    ensures var c := GrantChecked(s, r); c == s.(bindings := c.bindings, desk := s.desk.(ready := c.desk.ready))
  {
    if r.route.shareable && r.binding.Some? && r.binding.value.direction in s.bindings {
      assert s.bindings[r.binding.value.direction := s.bindings[r.binding.value.direction]] == s.bindings;
    }
  }

  predicate Usable(s: State, lookup: GrantLookup, now: nat) {
    && lookup.grantId in s.grants && !Ended(s, lookup.grantId, now)
    && var grant := s.grants[lookup.grantId];
       && (lookup.secret.Some? ==> grant.secret == lookup.secret.value)
       && grant.environment == lookup.environment && grant.target == lookup.target && grant.route == lookup.route
  }

  /** A usable grant is revoked, and its consumer ended; any other request changes nothing. */
  lemma RevokeLeaves(s: State, lookup: GrantLookup, now: nat)
    ensures Next(s, RevokeAt(lookup, now))
            == if !Usable(s, lookup, now) then s
               else s.(grants := s.grants[lookup.grantId := s.grants[lookup.grantId].(status := Revoked, revokedAt := Some(now))],
                       desk := if s.desk.consumer == Some(lookup.grantId) then Desk(false, s.desk.epoch, None) else s.desk)
  {
  }

  // ----- Binding notifications -----

  predicate HasOpen(s: State)
    ensures HasOpen(s) ==> s.desk.consumer.Some?
  {
    exists i :: 0 <= i < |s.sockets| && OpenAt(s, i)
  }

  /** Issued against the row as it is stored, for this route and environment. */
  predicate Applies(s: State, n: Notification) {
    && n.direction in s.bindings
    && s.bindings[n.direction].revision == n.previousRevision < n.revision
    && s.bindings[n.direction].source == Some(n.previousSource)
    && (s.route.Some? ==> s.route.value == n.route && s.route.value.environment == n.environment)
  }

  function MovedRow(s: State, n: Notification): Binding {
    Binding(n.revision, n.source, s.route.Some? && n.source == Some(s.route.value.realm))
  }

  /** A notification changes the stored row if and only if it applies; then the row is the announced one, active exactly
      while its source is the stream's realm, the stream is not ready, and a drained consumer is ended. */
  lemma NotifyLeaves(s: State, n: Notification, now: nat)
    requires Valid(s)
    ensures var after := Next(s, NotifyAt(n, now));
            && (after.bindings != s.bindings <==> Applies(s, n))
            && after == if !Applies(s, n) then s
                        else s.(bindings := s.bindings[n.direction := MovedRow(s, n)],
                                desk := if |s.log.accepted| == |s.log.fates| && HasOpen(s) then Desk(false, s.desk.epoch, None)
                                        else s.desk.(ready := false))
  {
    assert s.log.count == |s.log.accepted| - |s.log.fates|;
    hide Valid;
    assert forall i: nat :: i < |s.sockets| ==> (OpenAt(s, i) <==> SelectedAt(s.desk, s.sockets, i));
    if Applies(s, n) {
      assert s.bindings[n.direction := MovedRow(s, n)][n.direction] != s.bindings[n.direction];
      var applied := ApplyBinding(s, n);
      assert forall i :: SelectedAt(applied.desk, applied.sockets, i) <==> SelectedAt(s.desk, s.sockets, i);
    }
  }

  /** A move that applied closes the old route: no later event on its direction carries an older revision, nor, unless
      the announced source is the stream's own realm, the announced one. */
  lemma MovedRouteIsClosed(s: State, n: Notification, now: nat, steps: seq<Step>, k: nat)
    requires Valid(s) && s.log.clock <= now && Applies(s, n) && Monotone(now, steps)
    requires var after := Run(Next(s, NotifyAt(n, now)), steps);
             |s.log.accepted| <= k < |after.log.accepted| && after.log.accepted[k].direction == Some(n.direction)
    ensures var after := Run(Next(s, NotifyAt(n, now)), steps);
            && n.revision <= after.log.accepted[k].revision
            && (s.route.None? || n.source != Some(s.route.value.realm) ==> n.revision < after.log.accepted[k].revision)
  {
    var step := NotifyAt(n, now);
    NotifyLeaves(s, n, now);
    NextKeeps(s, step);
    ClockFollows(s, step);
    MonotoneLater(Next(s, step).log.clock, now, steps);
    hide Valid, Next, Run;
    MovesFence(Next(s, step), steps, n.direction, k);
  }

  // ----- Sockets -----

  lemma AcceptSocketLeaves(s: State, lookup: GrantLookup, now: nat)
    ensures Next(s, AcceptSocketAt(lookup, now))
            == if !Usable(s, lookup.(secret := None), now) then s
               else s.(sockets := s.sockets
                                  + [Some(Attachment(lookup.grantId, lookup.target, lookup.route, false, 0, 0, None, 0, None))])
  {
  }

  predicate Registrable(s: State, a: Attachment, environment: nat, now: nat) {
    && Usable(s, GrantLookup(a.grantId, None, environment, a.target, a.route), now)
    && s.route == Some(a.route) && s.log.gap.None? && s.desk.epoch < 9_007_199_254_740_991
  }

  /** The new registration: the next epoch, ready unless a binding lies past its grant, at the acknowledged cursor. */
  function Newest(s: State, i: nat): State
    requires i < |s.sockets| && s.sockets[i].Some? && s.sockets[i].value.grantId in s.grants
  {
    var a := s.sockets[i].value;
    s.(desk := Desk(!Past(s.bindings, s.grants[a.grantId].revision), s.desk.epoch + 1, Some(a.grantId)),
       sockets := s.sockets[i := Some(Attachment(a.grantId, a.target, a.route, true, s.desk.epoch + 1, s.log.acked,
                                                 s.log.ackedCursor, s.log.acked, s.log.ackedCursor))])
  }

  lemma RegisterLeaves(s: State, i: nat, environment: nat, now: nat, readySent: bool, send: Send)
    requires Valid(s) && i < |s.sockets| && s.sockets[i].Some? && !s.sockets[i].value.registered
    ensures var a, step := s.sockets[i].value, MessageAt(i, RegisterMessage, environment, now, readySent, send);
            var out := MessageStep(s, i, RegisterMessage, environment, now, readySent, send);
            Next(s, step) == out.state
            && if !Registrable(s, a, environment, now) then out == Delivery(s, None)
               else if !readySent then out == Delivery(Newest(s, i).(desk := Desk(false, s.desk.epoch + 1, None)), None)
               else Offered(Newest(s, i), i, now, send, out.state, out.frame)
  {
    var a := s.sockets[i].value;
    hide SendNext, Offered;
    if Registrable(s, a, environment, now) {
      EnrolledKeeps(s, i, a);
      hide Valid;
      assert Enrolled(s, i, a) == Newest(s, i);
      SendOffers(Newest(s, i), i, now, send);
    }
  }

  /** The oldest retained event acknowledged: it alone leaves, and the cursor moves onto it. */
  ghost predicate MovedOn(log: Log, cursor: Cursor, after: Log) {
    && after.accepted == log.accepted && after.fates == log.fates + [EventLog.Acknowledged]
    && after.acked == log.acked + 1 && after.ackedCursor == Some(cursor)
    && log.events != [] && after.events == log.events[1..]
    && after == log.(events := after.events, fates := after.fates, acked := after.acked, ackedCursor := after.ackedCursor,
                     count := log.count - 1, bytes := log.bytes - log.events[0].payloadBytes)
  }

  /** An old cursor: the last acknowledged, or an acknowledged one whose receipt row is still kept. */
  predicate KnownCursor(log: Log, cursor: Cursor) {
    log.ackedCursor == Some(cursor)
    || exists k :: 0 <= k < |log.accepted| && |log.accepted| - |log.receipts| <= k < log.acked && log.accepted[k].cursor == cursor
  }

  lemma AcknowledgesOldest(s: State, i: nat, cursor: Cursor)
    requires Valid(s) && i < |s.sockets| && OpenAt(s, i)
    requires var a := s.sockets[i].value; a.sentCursor == Some(cursor) && a.sent > s.log.acked
    ensures MovedOn(s.log, cursor, AcknowledgeThrough(s.log, s.log.acked + 1, cursor))
    ensures Stream.Settled(s, i, s.sockets[i].value, cursor)
            == s.(log := AcknowledgeThrough(s.log, s.log.acked + 1, cursor),
                  sockets := s.sockets[i := Some(s.sockets[i].value.(acked := s.log.acked + 1, ackedCursor := Some(cursor)))])
  {
    AcknowledgeMovesOne(s, i, cursor);
    var log, q := s.log, s.log.acked + 1;
    assert Inv(log);
    SumBytesSplit(log.events, 1);
    assert SumBytes(log.events[..1]) == log.events[0].payloadBytes by {
      assert log.events[..1][0] == log.events[0] && log.events[..1][1..] == [];
    }
    forall k | 0 <= k < |log.events|
      ensures log.events[k].sequence == q + k
    {
    }
    FilterPrefix(log.events, Through(q), 1);
    assert Filter(log.events, Through(q)) == log.events[..1];
    hide Valid, Inv, Filter, SumBytes;
  }

  lemma KnownIs(log: Log, cursor: Cursor)
    requires Inv(log)
    ensures KnownCursor(log, cursor) <==> log.ackedCursor == Some(cursor) || AcknowledgedBefore(log.receipts, cursor, log.acked)
  {
    hide Ordered, Spaced, AcceptedOnce, IngressMatch, CursorsMatch, ExpiryRecorded, EventsMatch;
    var offset := |log.accepted| - |log.receipts|;
    if r :| r in log.receipts && r.cursor == cursor && r.sequence <= log.acked {
      var i :| 0 <= i < |log.receipts| && log.receipts[i] == r;
      assert log.receipts[i] == ReceiptOf(log.accepted[offset + i], offset + i + 1);
    }
    if k :| 0 <= k < |log.accepted| && offset <= k < log.acked && log.accepted[k].cursor == cursor {
      assert log.receipts[k - offset] == ReceiptOf(log.accepted[k], k + 1) && log.receipts[k - offset] in log.receipts;
    }
  }

  /** A message of a registered socket: the outstanding event is acknowledged and the next offered; an old cursor
      changes nothing; anything else ends the consumer; and a superseded socket changes nothing. */
  lemma AcknowledgeLeaves(s: State, i: nat, cursor: Cursor, environment: nat, now: nat, readySent: bool, send: Send)
    requires Valid(s) && i < |s.sockets| && s.sockets[i].Some? && s.sockets[i].value.registered
    ensures var a := s.sockets[i].value;
            var out := MessageStep(s, i, AckMessage(cursor), environment, now, readySent, send);
            if !OpenAt(s, i) then out == Delivery(s, None)
            else if a.sentCursor == Some(cursor) && a.sent > s.log.acked then
              exists log :: MovedOn(s.log, cursor, log)
                && Offered(s.(log := log, sockets := s.sockets[i := Some(a.(acked := s.log.acked + 1, ackedCursor := Some(cursor)))]),
                           i, now, send, out.state, out.frame)
            else if KnownCursor(s.log, cursor) then out == Delivery(s, None)
            else out == Delivery(s.(desk := Desk(false, s.desk.epoch, None)), None)
  {
    var a := s.sockets[i].value;
    assert Inv(s.log);
    hide Inv, Valid, MessageStep, Offered, MovedOn, SendNext, Stream.Settled, KnownCursor, AcknowledgeThrough, AcknowledgedBefore,
      HasRow, OpenAt;
    KnownIs(s.log, cursor);
    AcknowledgementIs(s, i, cursor, environment, now, readySent, send);
    if OpenAt(s, i) && a.sentCursor == Some(cursor) && a.sent > s.log.acked {
      OldestIsOffered(s, i, cursor, now, send);
    }
  }

  lemma AcknowledgementIs(s: State, i: nat, cursor: Cursor, environment: nat, now: nat, readySent: bool, send: Send)
    requires i < |s.sockets| && s.sockets[i].Some? && s.sockets[i].value.registered
    ensures var a, closed := s.sockets[i].value, Delivery(s.(desk := Desk(false, s.desk.epoch, None)), None);
            MessageStep(s, i, AckMessage(cursor), environment, now, readySent, send)
            == if !OpenAt(s, i) then Delivery(s, None)
               else if a.sentCursor == Some(cursor) && a.sent > s.log.acked then
                 if HasRow(s.log.events, a.sent, cursor) then SendNext(Stream.Settled(s, i, a, cursor), i, now, send) else closed
               else if s.log.ackedCursor == Some(cursor) || AcknowledgedBefore(s.log.receipts, cursor, s.log.acked) then
                 Delivery(s, None)
               else closed
  {
    hide SendNext, Stream.Settled, AcknowledgedBefore, HasRow;
  }

  lemma OldestIsOffered(s: State, i: nat, cursor: Cursor, now: nat, send: Send)
    requires Valid(s) && i < |s.sockets| && OpenAt(s, i) && s.sockets[i].Some?
    requires var a := s.sockets[i].value; a.sentCursor == Some(cursor) && a.sent > s.log.acked
    ensures var a := s.sockets[i].value;
            var out := SendNext(Stream.Settled(s, i, a, cursor), i, now, send);
            && HasRow(s.log.events, a.sent, cursor)
            && exists log :: MovedOn(s.log, cursor, log)
                 && Offered(s.(log := log, sockets := s.sockets[i := Some(a.(acked := s.log.acked + 1, ackedCursor := Some(cursor)))]),
                            i, now, send, out.state, out.frame)
  {
    var a := s.sockets[i].value;
    hide Valid, Inv, Offered, MovedOn, SendNext, Stream.Settled, AcknowledgeThrough, HasRow;
    AcknowledgesOldest(s, i, cursor);
    SettledKeeps(s, i, cursor);
    AcknowledgeMovesOne(s, i, cursor);
    SendOffers(Stream.Settled(s, i, a, cursor), i, now, send);
  }

  /** Any other message ends the consumer when the newest registration sent it, and changes nothing otherwise. */
  lemma OtherMessageLeaves(s: State, i: nat, message: Message, environment: nat, now: nat, readySent: bool, send: Send)
    requires i < |s.sockets| && s.sockets[i].Some?
    requires message.InvalidMessage? || (s.sockets[i].value.registered <==> message.RegisterMessage?)
    ensures MessageStep(s, i, message, environment, now, readySent, send)
            == Delivery(if OpenAt(s, i) then s.(desk := Desk(false, s.desk.epoch, None)) else s, None)
  {
  }

  lemma CloseLeaves(s: State, i: nat, now: nat)
    requires i < |s.sockets| && s.sockets[i].Some?
    ensures Next(s, CloseAt(i, now))
            == s.(sockets := s.sockets[i := None], desk := if OpenAt(s, i) then Desk(false, s.desk.epoch, None) else s.desk)
  {
  }

  /** The alarm expires what is half an hour old, and ends a connected consumer when events are disabled, its grant has
      ended, or its stream has moved and nothing is left to deliver. */
  lemma AlarmLeaves(s: State, now: nat, enabled: bool)
    requires Valid(s) && s.log.clock <= now
    ensures var after, log := Next(s, AlarmAt(now, enabled)), Prune(s.log, now);
            var ends := Overdue(s.log, now)
                        || (HasOpen(s)
                            && (!enabled || Ended(s, s.desk.consumer.value, now)
                                || (|log.accepted| == |log.fates| && Past(s.bindings, s.grants[s.desk.consumer.value].revision))));
            after == s.(log := log, desk := if ends then Desk(false, s.desk.epoch, None) else s.desk)
  {
    PruneStepKeeps(s, now);
    PruneLeaves(s, now);
    var p := PruneStep(s, now);
    assert p.log.count == |p.log.accepted| - |p.log.fates|;
    hide Valid, Prune, PruneStep, Overdue, Pruned;
    assert forall i: nat :: i < |s.sockets| ==> (OpenAt(s, i) <==> SelectedAt(s.desk, s.sockets, i));
    assert !Overdue(s.log, now) ==> forall i :: SelectedAt(p.desk, p.sockets, i) <==> SelectedAt(s.desk, s.sockets, i);
  }
}
