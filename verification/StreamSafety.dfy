/** What every step of the stream keeps, and what that gives over whole runs. */
module StreamSafety {
  import opened Contract
  import opened Tables
  import opened EventLog
  import opened Stream

  // ----- Invariant -----

  /** A recorded gap leaves no consumer; readiness names one; a recorded grant is an active one. */
  ghost predicate DeskInv(gap: Option<Gap>, desk: Desk, grants: map<GrantId, Grant>) {
    && (gap.Some? ==> desk.consumer.None?)
    && (desk.ready ==> desk.consumer.Some?)
    && (desk.consumer.Some? ==> desk.epoch >= 1)
    && (desk.consumer.Some? ==> desk.consumer.value in grants && grants[desk.consumer.value].status == Active)
  }

  ghost predicate OneActiveGrant(grants: map<GrantId, Grant>) {
    forall g, h :: g in grants && h in grants && grants[g].status == Active && grants[h].status == Active ==> g == h
  }

  /** Registrations carry distinct epochs up to the recorded one. */
  ghost predicate EpochsInv(sockets: Sockets, epoch: nat) {
    && (forall i :: 0 <= i < |sockets| && sockets[i].Some? && sockets[i].value.registered ==>
          1 <= sockets[i].value.epoch <= epoch)
    && (forall i, j :: 0 <= i < j < |sockets| && sockets[i].Some? && sockets[j].Some?
                       && sockets[i].value.registered && sockets[j].value.registered ==>
          sockets[i].value.epoch != sockets[j].value.epoch)
  }

  /** A selected socket has at most the oldest retained event outstanding. */
  ghost predicate Outstanding(log: Log, attachment: Attachment) {
    && attachment.acked == log.acked
    && (|| attachment.sent == log.acked
        || (&& attachment.sent == log.acked + 1
            && log.events != []
            && attachment.sentCursor == Some(log.events[0].cursor)))
  }

  ghost predicate CursorInv(log: Log, desk: Desk, sockets: Sockets) {
    forall i :: SelectedAt(desk, sockets, i) ==> Outstanding(log, sockets[i].value)
  }

  ghost predicate Valid(s: State) {
    && Inv(s.log)
    && DeskInv(s.log.gap, s.desk, s.grants)
    && OneActiveGrant(s.grants)
    && EpochsInv(s.sockets, s.desk.epoch)
    && CursorInv(s.log, s.desk, s.sockets)
  }

  lemma SelectedIsUnique(s: State, i: int, j: int)
    requires EpochsInv(s.sockets, s.desk.epoch)
    requires SelectedAt(s.desk, s.sockets, i) && SelectedAt(s.desk, s.sockets, j)
    ensures i == j
  {
  }

  // ----- Building blocks keep it -----

  lemma ClearedKeeps(s: State)
    requires Valid(s)
    ensures Valid(Cleared(s))
  {
    hide Inv;
  }

  lemma DetachKeeps(s: State, attachment: Attachment)
    requires Valid(s)
    ensures Valid(Detach(s, attachment))
  {
    ClearedKeeps(s);
  }

  lemma TerminateKeeps(s: State, grant: Option<GrantId>)
    requires Valid(s)
    ensures Valid(Terminate(s, grant))
  {
    ClearedKeeps(s);
  }

  lemma NextRowIsOldest(log: Log)
    requires Inv(log)
    requires log.gap.None?
    ensures NextRow(log) == if log.events == [] then None else Some(log.events[0])
    ensures log.events != [] ==> log.events[0] == EventOf(log.accepted[log.acked], log.acked + 1)
    ensures log.events == [] <==> log.acked == |log.accepted|
  {
    FilterSuffix(log.events, Beyond(log.acked), 0);
  }

  lemma SendNextKeeps(s: State, socket: SocketId, now: nat, send: Send)
    requires Valid(s)
    ensures Valid(SendNext(s, socket, now, send).state)
  {
    ClearedKeeps(s);
    var d := SendNext(s, socket, now, send);
    if d.frame.Some? {
      NextRowIsOldest(s.log);
      hide Inv;
      var row := NextRow(s.log).value;
      var attachment := s.sockets[socket].value.(sent := row.sequence, sentCursor := Some(row.cursor));
      SocketUpdateKeeps(s, socket, attachment);
    }
  }

  /** Changing what a socket has been sent, within the outstanding rule. */
  lemma SocketUpdateKeeps(s: State, socket: SocketId, attachment: Attachment)
    requires Valid(s)
    requires socket < |s.sockets| && s.sockets[socket].Some?
    requires var prior := s.sockets[socket].value;
             attachment.registered == prior.registered && attachment.epoch == prior.epoch
             && attachment.grantId == prior.grantId
    requires Selected(s.desk, attachment) ==> Outstanding(s.log, attachment)
    ensures Valid(s.(sockets := s.sockets[socket := Some(attachment)]))
  {
    hide Inv, Outstanding;
  }

  lemma PruneStepKeeps(s: State, now: nat)
    requires Valid(s)
    requires s.log.clock <= now
    ensures Valid(PruneStep(s, now))
    ensures PruneStep(s, now).log == Prune(s.log, now)
    ensures Prune(s.log, now).accepted == s.log.accepted
    ensures Pruned(Prune(s.log, now), now)
  {
    PruneKeepsInv(s.log, now);
    PruneIsPruned(s.log, now);
    var pruned := s.(log := Prune(s.log, now));
    if ExpiredCount(s.log, now) == 0 {
      PruneIdle(s.log, now);
      assert s.log.gap == pruned.log.gap && s.log.events == pruned.log.events && s.log.acked == pruned.log.acked;
      hide Inv, Prune, Pruned, Outstanding;
      assert forall i :: SelectedAt(s.desk, s.sockets, i) ==> Outstanding(pruned.log, s.sockets[i].value) by {
        OutstandingFrame(s, pruned.log);
      }
    } else {
      hide Inv, Prune, Pruned, Outstanding;
      TerminateKeeps(Cleared(pruned), None);
    }
  }

  lemma OutstandingFrame(s: State, log: Log)
    requires CursorInv(s.log, s.desk, s.sockets)
    requires s.log.events == log.events && s.log.acked == log.acked
    ensures CursorInv(log, s.desk, s.sockets)
  {
  }

  lemma RequireBindingKeeps(s: State, ref: BindingRef)
    requires Valid(s)
    requires RequireBinding(s, ref).Some?
    ensures Valid(RequireBinding(s, ref).value)
    ensures var b := RequireBinding(s, ref).value;
            b.log == s.log && b.grants == s.grants && b.sockets == s.sockets && b.route == s.route
            && b.desk.(ready := s.desk.ready) == s.desk && (b.desk.ready ==> s.desk.ready)
  {
    hide Inv;
  }

  lemma BindKeeps(s: State, input: AppendInput)
    requires Valid(s)
    requires Bind(s, input).Some?
    ensures Valid(Bind(s, input).value)
    ensures Bind(s, input).value.log == s.log && Bind(s, input).value.grants == s.grants
    ensures Bind(s, input).value.desk.ready ==> s.desk.ready
  {
    hide Inv;
    if input.route.shareable {
      RequireBindingKeeps(s, input.binding.value);
    }
  }

  lemma AcceptKeeps(s: State, input: AppendInput, cursor: Cursor, now: nat)
    requires Valid(s)
    requires Pruned(s.log, now)
    requires FindReceipt(s.log.receipts, input.eventId).None?
    requires Refusal(s, input, cursor, now).None?
    ensures Valid(Accept(s, input, cursor, now))
  {
    InsertKeepsInv(s.log, EntryOf(input, cursor, now));
    hide Inv;
  }

  lemma AppendBoundKeeps(s: State, input: AppendInput, cursor: Cursor, now: nat, send: Send)
    requires Valid(s)
    requires Pruned(s.log, now)
    requires FindReceipt(s.log.receipts, input.eventId).None?
    ensures Valid(AppendBound(s, input, cursor, now, send).state)
  {
    if Refusal(s, input, cursor, now).None? {
      AcceptKeeps(s, input, cursor, now);
      hide Inv, Valid, Refusal, Accept;
      var accepted := Accept(s, input, cursor, now);
      var socket := CurrentSocket(accepted);
      if socket.Some? {
        SendNextKeeps(accepted, socket.value, now, send);
      }
    }
  }

  lemma AppendStepKeeps(s: State, input: AppendInput, cursor: Cursor, now: nat, send: Send)
    requires Valid(s)
    requires s.log.clock <= now
    ensures Valid(AppendStep(s, input, cursor, now, send).state)
  {
    hide Valid, PruneStep, AppendBound, Bind;
    PruneStepKeeps(s, now);
    var p := PruneStep(s, now);
    if FindReceipt(p.log.receipts, input.eventId).None? && Bind(p, input).Some? {
      BindKeeps(p, input);
      AppendBoundKeeps(Bind(p, input).value, input, cursor, now, send);
    }
  }

  lemma RenewKeepsOneActive(grants: map<GrantId, Grant>, r: GrantRequest)
    ensures OneActiveGrant(RenewGrants(grants, r))
  {
    var replaced := ReplaceActive(grants, r.issuedAt);
    assert forall g :: g in replaced ==> replaced[g].status != Active;
    var aged := DropAged(replaced, r.issuedAt);
    assert forall g :: g in aged ==> aged[g].status != Active;
    hide EndedLater;
    var kept := DropOverflow(aged);
    assert forall g :: g in kept ==> kept[g].status != Active;
  }

  lemma {:induction false} EndedFirst(grants: map<GrantId, Grant>, kept: set<GrantId>) returns (first: GrantId)
    requires kept <= grants.Keys && kept != {}
    ensures first in kept
    ensures forall h :: h in kept && h != first ==> EndedLater(grants[h], h, grants[first], first)
    decreases kept
  {
    var some :| some in kept;
    var rest := kept - {some};
    first := some;
    if rest != {} {
      first := EndedFirst(grants, rest);
      if EndedLater(grants[first], first, grants[some], some) {
        first := some;
      }
    }
    forall h | h in kept && h != first
      ensures EndedLater(grants[h], h, grants[first], first)
    {
      assert h in rest || h == some;
    }
  }

  lemma {:induction false} SubsetSize(a: set<GrantId>, b: set<GrantId>)
    requires a <= b
    ensures |a| <= |b|
    decreases a
  {
    if a != {} {
      var x :| x in a;
      SubsetSize(a - {x}, b - {x});
    }
  }

  /** However many grants are issued, at most a thousand rows are kept, the new one the only active. */
  lemma GrantHistoryIsBounded(grants: map<GrantId, Grant>, r: GrantRequest)
    ensures var renewed := RenewGrants(grants, r);
            && |renewed| <= MAX_GRANT_ROWS
            && r.grantId in renewed && renewed[r.grantId].status == Active
            && forall g :: g in renewed && g != r.grantId ==> renewed[g].status != Active
  {
    var aged := DropAged(ReplaceActive(grants, r.issuedAt), r.issuedAt);
    assert forall g :: g in aged ==> aged[g].status != Active;
    var kept := DropOverflow(aged);
    assert forall g :: g in kept ==> kept[g].status != Active && |EndedAfter(aged, g)| < MAX_GRANT_ROWS - 1;
    if kept != map[] {
      var first := EndedFirst(aged, kept.Keys);
      SubsetSize(kept.Keys - {first}, EndedAfter(aged, first));
    }
    SubsetSize(RenewGrants(grants, r).Keys, kept.Keys + {r.grantId});
  }

  lemma IssuedKeeps(s: State, r: GrantRequest)
    requires Valid(s)
    requires s.log.gap.Some? ==> r.resetBacklog
    ensures Valid(Issued(s, r))
  {
    ResetKeepsInv(s.log);
    RenewKeepsOneActive(s.grants, r);
    hide Inv, OneActiveGrant, RenewGrants, Reset, Outstanding;
  }

  lemma IssueGrantKeeps(s: State, r: GrantRequest)
    requires Valid(s)
    ensures Valid(IssueGrantStep(s, r).state)
  {
    hide Valid, Issued, RequireBinding;
    if BindGrant(s, r).Some? {
      if r.route.shareable {
        RequireBindingKeeps(s, r.binding.value);
      }
      var b := BindGrant(s, r).value;
      if b.log.gap.Some? ==> r.resetBacklog {
        IssuedKeeps(b, r);
      }
    }
  }

  lemma RevokeKeeps(s: State, lookup: GrantLookup, now: nat)
    requires Valid(s)
    ensures Valid(RevokeGrantStep(s, lookup, now))
  {
    hide Inv, Outstanding;
    if GrantUsable(GrantOf(s, lookup.grantId), lookup, now) {
      var grant := s.grants[lookup.grantId].(status := Revoked, revokedAt := Some(now));
      var revoked := s.(grants := s.grants[lookup.grantId := grant]);
      var ended := if s.desk.consumer == Some(lookup.grantId) then Cleared(revoked) else revoked;
      assert Valid(ended);
      TerminateKeeps(ended, Some(lookup.grantId));
    }
  }

  lemma AcceptSocketKeeps(s: State, lookup: GrantLookup, now: nat)
    requires Valid(s)
    ensures Valid(AcceptSocketStep(s, lookup, now))
  {
    hide Inv, Outstanding;
  }

  lemma EnrolledKeeps(s: State, socket: SocketId, attachment: Attachment)
    requires Valid(s)
    requires socket < |s.sockets| && s.log.gap.None?
    requires attachment.grantId in s.grants && s.grants[attachment.grantId].status == Active
    ensures Valid(Enrolled(s, socket, attachment))
  {
    hide Inv;
  }

  lemma RegisterKeeps(s: State, socket: SocketId, environment: nat, now: nat, readySent: bool, send: Send)
    requires Valid(s)
    requires socket < |s.sockets| && s.sockets[socket].Some?
    ensures Valid(RegisterStep(s, socket, environment, now, readySent, send).state)
  {
    hide Valid, SendNext, Detach;
    var attachment := s.sockets[socket].value;
    var lookup := GrantLookup(attachment.grantId, None, environment, attachment.target, attachment.route);
    if GrantUsable(GrantOf(s, attachment.grantId), lookup, now) && s.log.gap.None? {
      EnrolledKeeps(s, socket, attachment);
      var enrolled := Enrolled(s, socket, attachment);
      DetachKeeps(enrolled, enrolled.sockets[socket].value);
      SendNextKeeps(enrolled, socket, now, send);
    }
  }

  lemma AcknowledgeMovesOne(s: State, socket: SocketId, cursor: Cursor)
    requires Valid(s)
    requires SelectedAt(s.desk, s.sockets, socket)
    requires var a := s.sockets[socket].value; a.sentCursor == Some(cursor) && a.sent > s.log.acked
    ensures s.log.gap.None? && s.log.events != []
    ensures s.sockets[socket].value.sent == s.log.acked + 1 && s.log.events[0].cursor == cursor
    ensures HasRow(s.log.events, s.log.acked + 1, cursor)
    ensures var out := AcknowledgeThrough(s.log, s.log.acked + 1, cursor);
            Inv(out) && out.events == s.log.events[1..] && out.fates == s.log.fates + [EventLog.Acknowledged]
  {
    assert Outstanding(s.log, s.sockets[socket].value);
    NextRowIsOldest(s.log);
    AcknowledgeKeepsInv(s.log, cursor);
    assert s.log.events[0] in s.log.events;
  }

  lemma SettledKeeps(s: State, socket: SocketId, cursor: Cursor)
    requires Valid(s)
    requires SelectedAt(s.desk, s.sockets, socket)
    requires var a := s.sockets[socket].value; a.sentCursor == Some(cursor) && a.sent > s.log.acked
    ensures Valid(Settled(s, socket, s.sockets[socket].value, cursor))
  {
    AcknowledgeMovesOne(s, socket, cursor);
    var out := AcknowledgeThrough(s.log, s.log.acked + 1, cursor);
    assert out.acked == s.log.acked + 1 && out.gap == s.log.gap;
    hide Inv, AcknowledgeThrough;
    forall i | SelectedAt(s.desk, s.sockets, i)
      ensures i == socket
    {
      SelectedIsUnique(s, i, socket);
    }
  }

  lemma AcknowledgeKeeps(s: State, socket: SocketId, cursor: Cursor, now: nat, send: Send)
    requires Valid(s)
    requires socket < |s.sockets| && s.sockets[socket].Some?
    ensures Valid(AcknowledgeStep(s, socket, cursor, now, send).state)
  {
    hide Valid, SendNext, Settled;
    var attachment := s.sockets[socket].value;
    DetachKeeps(s, attachment);
    if Selected(s.desk, attachment) && attachment.sentCursor == Some(cursor) && attachment.sent > s.log.acked {
      SettledKeeps(s, socket, cursor);
      SendNextKeeps(Settled(s, socket, attachment, cursor), socket, now, send);
    }
  }

  lemma CloseKeeps(s: State, socket: SocketId)
    requires Valid(s)
    ensures Valid(CloseStep(s, socket))
  {
    hide Inv, Outstanding;
  }

  lemma NotifyKeeps(s: State, n: Notification)
    requires Valid(s)
    ensures Valid(NotifyStep(s, n))
  {
    assert Valid(ApplyBinding(s, n)) by {
      hide Inv, Outstanding;
    }
    TerminateKeeps(ApplyBinding(s, n), None);
  }

  lemma AlarmKeeps(s: State, now: nat, enabled: bool)
    requires Valid(s)
    requires s.log.clock <= now
    ensures Valid(AlarmStep(s, now, enabled))
  {
    PruneStepKeeps(s, now);
    var pruned := PruneStep(s, now);
    ClearedKeeps(pruned);
    TerminateKeeps(pruned, None);
    TerminateKeeps(Cleared(pruned), None);
    hide Valid, PruneStep;
  }

  /** Every step keeps the invariant. */
  lemma NextKeeps(s: State, step: Step)
    requires Valid(s)
    requires s.log.clock <= step.now
    ensures Valid(Next(s, step))
  {
    hide Valid, AppendStep, IssueGrantStep, RevokeGrantStep, AcceptSocketStep, RegisterStep, AcknowledgeStep,
      CloseStep, NotifyStep, AlarmStep, Detach;
    match step
    case AppendAt(input, cursor, now, send) => AppendStepKeeps(s, input, cursor, now, send);
    case IssueAt(request, _) => IssueGrantKeeps(s, request);
    case RevokeAt(lookup, now) => RevokeKeeps(s, lookup, now);
    case AcceptSocketAt(lookup, now) => AcceptSocketKeeps(s, lookup, now);
    case MessageAt(socket, message, environment, now, readySent, send) =>
      if socket < |s.sockets| && s.sockets[socket].Some? {
        DetachKeeps(s, s.sockets[socket].value);
        RegisterKeeps(s, socket, environment, now, readySent, send);
        if message.AckMessage? {
          AcknowledgeKeeps(s, socket, message.cursor, now, send);
        }
      }
    case CloseAt(socket, _) => CloseKeeps(s, socket);
    case NotifyAt(notification, _) => NotifyKeeps(s, notification);
    case AlarmAt(now, enabled) => AlarmKeeps(s, now, enabled);
  }
}
