/** The stream object as the program keeps it: tables and metadata columns updated in place. Each method
    is proved to perform exactly the step of module Stream that it is named after. */
module StreamBackend {
  import opened Contract
  import opened Tables
  import opened EventLog
  import opened Stream
  import opened StreamSafety

  /** The single row of durable_event_stream_metadata. */
  datatype Metadata = Metadata(route: Option<Route>, bindingRevision: Option<nat>, next: nat, count: int, bytes: int,
                               acked: nat, ackedCursor: Option<Cursor>, gap: Option<Gap>,
                               ready: bool, epoch: nat, consumer: Option<GrantId>)

  /** What the specification remembers of the past. */
  datatype History = History(accepted: seq<Entry>, fates: seq<Fate>, audit: seq<Gap>, clock: nat)

  class DurableEventStream {
    var meta: Metadata
    var events: seq<Event>
    var receipts: seq<Receipt>
    var ingress: seq<Ingress>
    var bindings: map<Direction, Binding>
    var grants: map<GrantId, Grant>
    var sockets: Sockets
    ghost var history: History  // written alongside the tables, never read by the program

    ghost function Model(): State
      reads this
    {
      State(meta.route, meta.bindingRevision,
            Log(history.accepted, history.fates, history.audit, history.clock, meta.next, meta.count, meta.bytes,
                meta.acked, meta.ackedCursor, meta.gap, events, receipts, ingress),
            Desk(meta.ready, meta.epoch, meta.consumer), sockets, bindings, grants)
    }

    constructor ()
      ensures Model() == INITIAL && Valid(Model())
    {
      EmptyInv();
      meta := Metadata(None, None, 1, 0, 0, 0, None, None, false, 0, None);
      events, receipts, ingress := [], [], [];
      bindings, grants, sockets := map[], map[], [];
      history := History([], [], [], 0);
    }

    method PruneExpired(now: nat) returns (total: nat)
      modifies this
      ensures total == ExpiredCount(old(Model()).log, now)
      ensures var pruned := old(Model()).(log := Prune(old(Model()).log, now));
              Model() == if total > 0 then Cleared(pruned) else pruned
    {
      hide Filter, SumBytes, Repeat;
      var expired := Filter(events, ExpiredAt(now));
      total := |expired|;
      if total > 0 {
        events := Filter(events, LiveAt(now));
        var first := if meta.gap.Some? then meta.gap.value.first else expired[0].sequence;
        var last := Max(if meta.gap.Some? then meta.gap.value.last else 0, expired[total - 1].sequence);
        meta := meta.(count := meta.count - total, bytes := meta.bytes - SumBytes(expired),
                      gap := Some(Gap(first, last)), ready := false, consumer := None);
        history := history.(fates := history.fates + Repeat(Expired, total));
      }
      receipts := Filter(receipts, ReceiptLiveAt(now));
      ingress := Filter(ingress, IngressAfter(now - 1_000));
      history := history.(clock := now);
    }

    method DetachSocket(attachment: Attachment) returns (changed: bool)
      modifies this`meta
      ensures Model() == Detach(old(Model()), attachment)
      ensures changed == Selected(old(Model()).desk, attachment)
    {
      changed := attachment.registered && meta.epoch == attachment.epoch
                 && meta.consumer == Some(attachment.grantId);
      if changed {
        meta := meta.(ready := false, consumer := None);
      }
    }

    method TerminateSockets(grant: Option<GrantId>)
      modifies this`meta
      ensures Model() == Terminate(old(Model()), grant)
    {
      ghost var before := Model();
      ghost var found := false;
      for i := 0 to |sockets|
        invariant Model() == if found then Cleared(before) else before
        invariant found ==> FindSelected(before.desk, sockets, 0).Some? && (grant.None? || before.desk.consumer == grant)
        invariant !found ==> forall j :: 0 <= j < i ==>
                                !(SelectedAt(before.desk, sockets, j) && (grant.None? || before.desk.consumer == grant))
      {
        if sockets[i].Some? && sockets[i].value.registered
           && (grant.None? || sockets[i].value.grantId == grant.value) {
          var changed := DetachSocket(sockets[i].value);
          if changed {
            assert SelectedAt(before.desk, sockets, i);
            found := true;
          }
        }
      }
    }

    method FindCurrentSocket() returns (socket: Option<SocketId>)
      ensures socket == CurrentSocket(Model())
    {
      if !meta.ready || meta.epoch < 1 || meta.consumer.None? {
        return None;
      }
      var i := 0;
      while i < |sockets|
        invariant i <= |sockets|
        invariant FindSelected(Model().desk, sockets, 0) == FindSelected(Model().desk, sockets, i)
      {
        if sockets[i].Some? && sockets[i].value.registered && sockets[i].value.epoch == meta.epoch
           && Some(sockets[i].value.grantId) == meta.consumer {
          return Some(i);
        }
        i := i + 1;
      }
      return None;
    }

    method SendNextEvent(socket: SocketId, now: nat, send: Send) returns (frame: Option<Frame>)
      modifies this`meta, this`sockets
      ensures var d := SendNext(old(Model()), socket, now, send); Model() == d.state && frame == d.frame
    {
      frame := None;
      if socket >= |sockets| || sockets[socket].None? {
        return;
      }
      var attachment := sockets[socket].value;
      if !attachment.registered || meta.epoch != attachment.epoch
         || meta.consumer != Some(attachment.grantId) {
        return;
      }
      var grant := if attachment.grantId in grants then Some(grants[attachment.grantId]) else None;
      if meta.gap.Some? || GrantEnded(grant, now) {
        var _ := DetachSocket(attachment);
        return;
      }
      if attachment.sent > attachment.acked {
        return;
      }
      var rows := Filter(events, Beyond(meta.acked));
      if rows == [] {
        if MovedPast(bindings, grant.value.revision) {
          var _ := DetachSocket(attachment);
        }
        return;
      }
      if send != Sent {
        var _ := DetachSocket(attachment);
        return;
      }
      sockets := sockets[socket := Some(attachment.(sent := rows[0].sequence, sentCursor := Some(rows[0].cursor)))];
      frame := Some(Frame(socket, rows[0]));
    }

    method RequireEffectiveBinding(ref: BindingRef) returns (ok: bool)
      modifies this`bindings, this`meta
      ensures var b := RequireBinding(old(Model()), ref);
              ok == b.Some? && Model() == if ok then b.value else old(Model())
    {
      var row := Binding(ref.revision, Some(ref.source), true);
      if ref.direction !in bindings {
        bindings := bindings[ref.direction := row];
        return true;
      }
      var existing := bindings[ref.direction];
      if ref.revision < existing.revision
         || (ref.revision == existing.revision && (!existing.active || existing.source != Some(ref.source))) {
        return false;
      }
      if ref.revision > existing.revision {
        bindings := bindings[ref.direction := row];
        meta := meta.(ready := false);
      }
      return true;
    }

    method AppendEvent(input: AppendInput, cursor: Cursor, now: nat, send: Send)
      returns (result: AppendResult, frame: Option<Frame>)
      requires Valid(Model()) && history.clock <= now
      modifies this
      ensures var a := AppendStep(old(Model()), input, cursor, now, send);
              Model() == a.state && result == a.result && frame == a.frame
      ensures Valid(Model())
    {
      hide Valid;
      NextKeeps(Model(), AppendAt(input, cursor, now, send));
      frame := None;
      if !input.payloadValid {
        return Refused(PayloadInvalid), None;
      }
      if input.route.shareable && !input.recoveryOnly && !BindingAgrees(input) {
        return Refused(Transition), None;
      }
      var expired := PruneExpired(now);
      if expired > 0 {
        TerminateSockets(None);
      }
      assert Model() == PruneStep(old(Model()), now);
      var existing := FindReceipt(receipts, input.eventId);
      if existing.Some? {
        if existing.value.fingerprint != input.fingerprint {
          return Refused(SourceConflict), None;
        }
        return Replayed(existing.value.sequence, existing.value.acceptedAt), None;
      }
      if input.recoveryOnly {
        return Refused(Transition), None;
      }
      ghost var pruned := Model();
      var bound := BindAppend(input);
      if !bound {
        return Refused(Transition), None;
      }
      result, frame := InsertEvent(input, cursor, now, send);
    }

    /** First transaction of an append: route, local revision and stored binding. */
    method BindAppend(input: AppendInput) returns (ok: bool)
      modifies this`bindings, this`meta
      ensures var b := Bind(old(Model()), input);
              ok == b.Some? && Model() == if ok then b.value else old(Model())
    {
      if meta.route.Some? && meta.route.value != input.route {
        return false;
      }
      if !input.route.shareable {
        return meta.bindingRevision.None? || meta.bindingRevision.value == input.revision;
      }
      if input.binding.None? {
        return false;
      }
      ok := RequireEffectiveBinding(input.binding.value);
      if ok {
        meta := meta.(route := Some(input.route));
      }
    }

    /** The checks of an append's second transaction. */
    method CheckAdmission(input: AppendInput, cursor: Cursor, now: nat) returns (refusal: Option<Code>)
      ensures refusal == Refusal(Model(), input, cursor, now)
    {
      if meta.gap.Some? {
        return Some(GapRequiresReset);
      }
      var viable := meta.consumer.Some? && meta.consumer.value in grants;
      if viable {
        var grant := grants[meta.consumer.value];
        viable := grant.status == Active && grant.expiresAt > now && grant.route == input.route
                  && grant.revision == input.revision && !MovedPast(bindings, grant.revision);
      }
      assert viable == GrantViable(Model(), input, now);
      var live := FindCurrentSocket();
      if !meta.ready || (meta.epoch > 0 && (!viable || live.None?)) {
        return Some(ConsumerUnavailable);
      }
      var recent := |Filter(ingress, IngressAfter(now - 1_000))|;
      if meta.count >= MAX_RETAINED_EVENTS || meta.bytes + input.payloadBytes > MAX_RETAINED_BYTES
         || recent >= MAX_INGRESS_PER_SECOND {
        return Some(StreamFull);
      }
      if meta.next < 1 || meta.next >= MAX_SAFE_INTEGER {
        return Some(StreamFull);
      }
      if |receipts| >= MAX_RECEIPT_ROWS || SumMetadata(receipts) + RECEIPT_ROW_BYTES > MAX_RECEIPT_METADATA_BYTES {
        return Some(StreamFull);
      }
      if EventIdTaken(events, receipts, ingress, input.eventId) || CursorTaken(events, receipts, cursor) {
        return Some(ServiceUnavailable);
      }
      return None;
    }

    /** The writes of an append's second transaction: three inserts and the counters. */
    method InsertRows(input: AppendInput, cursor: Cursor, now: nat)
      modifies this
      ensures Model() == Accept(old(Model()), input, cursor, now)
    {
      var sequence := meta.next;
      events := events + [Event(sequence, input.eventId, cursor, input.payload, input.payloadBytes, now,
                                now + RETENTION_MS)];
      receipts := receipts + [Receipt(input.eventId, input.fingerprint, cursor, sequence, now,
                                      now + RECEIPT_RETENTION_MS, RECEIPT_ROW_BYTES)];
      ingress := ingress + [Ingress(input.eventId, now)];
      var localRevision := if input.route.shareable then None else Some(input.revision);
      meta := meta.(route := if meta.route.Some? then meta.route else Some(input.route),
                    bindingRevision := if meta.bindingRevision.Some? then meta.bindingRevision else localRevision,
                    next := sequence + 1, count := meta.count + 1, bytes := meta.bytes + input.payloadBytes);
      history := history.(accepted := history.accepted + [EntryOf(input, cursor, now)]);
    }

    /** Second transaction of an append, then the push to the current socket. */
    method InsertEvent(input: AppendInput, cursor: Cursor, now: nat, send: Send)
      returns (result: AppendResult, frame: Option<Frame>)
      modifies this
      ensures var a := AppendBound(old(Model()), input, cursor, now, send);
              Model() == a.state && result == a.result && frame == a.frame
    {
      hide Refusal, Accept, SendNext, CurrentSocket;
      var refusal := CheckAdmission(input, cursor, now);
      if refusal.Some? {
        return Refused(refusal.value), None;
      }
      result, frame := Accepted(meta.next, now), None;
      InsertRows(input, cursor, now);
      var live := FindCurrentSocket();
      if live.Some? {
        frame := SendNextEvent(live.value, now, send);
      }
    }

    /** Issues a grant for this stream, replacing the active one; optionally discards the backlog. */
    method IssueGrant(r: GrantRequest) returns (created: bool)
      requires Valid(Model())
      modifies this
      ensures var i := IssueGrantStep(old(Model()), r); Model() == i.state && created == i.created
      ensures Valid(Model())
    {
      hide Valid;
      NextKeeps(Model(), IssueAt(r, history.clock));
      hide Filter, RenewGrants, RequireBinding;
      if (meta.route.Some? && meta.route.value != r.route)
         || (if r.route.shareable
             then r.binding.None? || r.binding.value.revision != r.revision || r.binding.value.source != r.route.realm
             else r.route.realm != r.target) {
        return false;
      }
      if r.route.shareable {
        var bound := RequireEffectiveBinding(r.binding.value);
        if !bound {
          return false;
        }
      }
      assert BindGrant(old(Model()), r) == Some(Model());
      if r.grantId in grants {
        return grants[r.grantId].secret == r.secret && grants[r.grantId].route == r.route;
      }
      if meta.gap.Some? && !r.resetBacklog {
        return false;
      }
      ghost var bound := Model();
      if r.resetBacklog {
        ResetBacklog();
      }
      grants := RenewGrants(grants, r);
      meta := meta.(route := Some(r.route), ready := false, consumer := None);
      assert Model() == Issued(bound, r);
      return true;
    }

    method ResetBacklog()
      modifies this
      ensures Model() == Cleared(old(Model())).(log := Reset(old(Model()).log))
    {
      history := history.(fates := history.fates + Repeat(Discarded, |events|),
                          audit := if meta.gap.Some? then history.audit + [meta.gap.value] else history.audit);
      events := [];
      meta := meta.(count := 0, bytes := 0, acked := if meta.next == 0 then 0 else meta.next - 1,
                    ackedCursor := None, gap := None, ready := false, consumer := None);
    }

    method RevokeGrant(lookup: GrantLookup, now: nat)
      requires Valid(Model()) && history.clock <= now
      modifies this`grants, this`meta
      ensures Model() == RevokeGrantStep(old(Model()), lookup, now)
      ensures Valid(Model())
    {
      hide Valid;
      NextKeeps(Model(), RevokeAt(lookup, now));
      var grant := if lookup.grantId in grants then Some(grants[lookup.grantId]) else None;
      if !GrantUsable(grant, lookup, now) {
        return;
      }
      grants := grants[lookup.grantId := grant.value.(status := Revoked, revokedAt := Some(now))];
      if meta.consumer == Some(lookup.grantId) {
        meta := meta.(ready := false, consumer := None);
      }
      TerminateSockets(Some(lookup.grantId));
    }

    method AcceptSocket(lookup: GrantLookup, now: nat)
      requires Valid(Model()) && history.clock <= now
      modifies this`sockets
      ensures Model() == AcceptSocketStep(old(Model()), lookup, now)
      ensures Valid(Model())
    {
      hide Valid;
      NextKeeps(Model(), AcceptSocketAt(lookup, now));
      var grant := if lookup.grantId in grants then Some(grants[lookup.grantId]) else None;
      if GrantUsable(grant, lookup.(secret := None), now) {
        sockets := sockets + [Some(Attachment(lookup.grantId, lookup.target, lookup.route, false, 0, 0, None, 0, None))];
      }
    }

    method RegisterSocket(socket: SocketId, environment: nat, now: nat, readySent: bool, send: Send)
      returns (frame: Option<Frame>)
      requires socket < |sockets| && sockets[socket].Some?
      modifies this`sockets, this`meta
      ensures var d := RegisterStep(old(Model()), socket, environment, now, readySent, send);
              Model() == d.state && frame == d.frame
    {
      hide Filter, SendNext;
      frame := None;
      var attachment := sockets[socket].value;
      var grant := if attachment.grantId in grants then Some(grants[attachment.grantId]) else None;
      var lookup := GrantLookup(attachment.grantId, None, environment, attachment.target, attachment.route);
      if !GrantUsable(grant, lookup, now) || meta.route != Some(attachment.route) || meta.gap.Some?
         || meta.epoch >= MAX_SAFE_INTEGER {
        return;
      }
      var moved := MovedPast(bindings, grant.value.revision);
      meta := meta.(epoch := meta.epoch + 1, consumer := Some(attachment.grantId), ready := !moved);
      attachment := attachment.(registered := true, epoch := meta.epoch,
                                acked := meta.acked, ackedCursor := meta.ackedCursor,
                                sent := meta.acked, sentCursor := meta.ackedCursor);
      sockets := sockets[socket := Some(attachment)];
      assert Model() == Enrolled(old(Model()), socket, old(sockets)[socket].value);
      if readySent {
        frame := SendNextEvent(socket, now, send);
      } else {
        var _ := DetachSocket(attachment);
      }
    }

    method AcknowledgeSocketEvent(socket: SocketId, cursor: Cursor, now: nat, send: Send)
      returns (frame: Option<Frame>)
      requires socket < |sockets| && sockets[socket].Some?
      modifies this
      ensures var d := AcknowledgeStep(old(Model()), socket, cursor, now, send);
              Model() == d.state && frame == d.frame
    {
      hide Filter, SumBytes, SendNext;
      frame := None;
      var attachment := sockets[socket].value;
      if !attachment.registered || meta.epoch != attachment.epoch
         || meta.consumer != Some(attachment.grantId) {
        return;
      }
      if attachment.sentCursor == Some(cursor) && attachment.sent > meta.acked {
        if !HasRow(events, attachment.sent, cursor) {
          var _ := DetachSocket(attachment);
          return;
        }
        var removed := Filter(events, Through(attachment.sent));
        events := Filter(events, Beyond(attachment.sent));
        meta := meta.(acked := attachment.sent, ackedCursor := Some(cursor),
                      count := Max(0, meta.count - |removed|), bytes := Max(0, meta.bytes - SumBytes(removed)));
        history := history.(fates := history.fates + Repeat(EventLog.Acknowledged, |removed|));
        sockets := sockets[socket := Some(attachment.(acked := attachment.sent, ackedCursor := Some(cursor)))];
        assert Model() == Settled(old(Model()), socket, attachment, cursor);
        frame := SendNextEvent(socket, now, send);
        return;
      }
      if meta.ackedCursor != Some(cursor) && !AcknowledgedBefore(receipts, cursor, meta.acked) {
        var _ := DetachSocket(attachment);
      }
    }

    method HandleMessage(socket: SocketId, message: Message, environment: nat, now: nat, readySent: bool, send: Send)
      returns (frame: Option<Frame>)
      requires Valid(Model()) && history.clock <= now
      modifies this
      ensures var d := MessageStep(old(Model()), socket, message, environment, now, readySent, send);
              Model() == d.state && frame == d.frame
      ensures Valid(Model())
    {
      hide Valid;
      NextKeeps(Model(), MessageAt(socket, message, environment, now, readySent, send));
      hide RegisterStep, AcknowledgeStep;
      frame := None;
      if socket >= |sockets| || sockets[socket].None? {
        return;
      }
      var attachment := sockets[socket].value;
      if !attachment.registered && message.RegisterMessage? {
        frame := RegisterSocket(socket, environment, now, readySent, send);
      } else if attachment.registered && message.AckMessage? {
        frame := AcknowledgeSocketEvent(socket, message.cursor, now, send);
      } else {
        var _ := DetachSocket(attachment);
      }
    }

    method CloseSocket(socket: SocketId)
      requires Valid(Model())
      modifies this`sockets, this`meta
      ensures Model() == CloseStep(old(Model()), socket)
      ensures Valid(Model())
    {
      hide Valid;
      NextKeeps(Model(), CloseAt(socket, history.clock));
      if socket < |sockets| && sockets[socket].Some? {
        var _ := DetachSocket(sockets[socket].value);
        sockets := sockets[socket := None];
      }
    }

    method ApplyBindingNotification(n: Notification) returns (stale: bool)
      modifies this`bindings, this`meta
      ensures Model() == ApplyBinding(old(Model()), n)
      ensures stale <==> Model() == old(Model())
    {
      stale := true;
      if n.revision <= n.previousRevision || (meta.route.Some? && meta.route.value != n.route) || n.direction !in bindings {
        return;
      }
      var row := bindings[n.direction];
      if n.revision <= row.revision || row.revision != n.previousRevision || row.source != Some(n.previousSource)
         || (meta.route.Some? && meta.route.value.environment != n.environment) {
        return;
      }
      var current := n.source.Some? && meta.route.Some? && n.source.value == meta.route.value.realm;
      bindings := bindings[n.direction := Binding(n.revision, n.source, current)];
      meta := meta.(ready := false);
      stale := false;
      assert bindings[n.direction] != old(bindings)[n.direction];
    }

    method HandleBindingNotification(n: Notification)
      requires Valid(Model())
      modifies this`bindings, this`meta
      ensures Model() == NotifyStep(old(Model()), n)
      ensures Valid(Model())
    {
      hide Valid;
      NextKeeps(Model(), NotifyAt(n, history.clock));
      var stale := ApplyBindingNotification(n);
      if !stale && meta.count == 0 {
        TerminateSockets(None);
      }
    }

    method TerminateInvalidSockets(now: nat, enabled: bool)
      modifies this`meta
      ensures var s := old(Model());
              var selected := FindSelected(s.desk, s.sockets, 0);
              Model() == if selected.Some? && (!enabled || GrantEnded(GrantOf(s, s.desk.consumer.value), now))
                         then Cleared(s) else s
    {
      ghost var before := Model();
      ghost var found := false;
      for i := 0 to |sockets|
        invariant Model() == if found then Cleared(before) else before
        invariant found ==> FindSelected(before.desk, sockets, 0).Some?
                            && (!enabled || GrantEnded(GrantOf(before, before.desk.consumer.value), now))
        invariant !found ==> forall j :: 0 <= j < i && SelectedAt(before.desk, sockets, j) ==>
                               enabled && !GrantEnded(GrantOf(before, before.desk.consumer.value), now)
      {
        if sockets[i].Some? && sockets[i].value.registered {
          var attachment := sockets[i].value;
          var grant := if attachment.grantId in grants then Some(grants[attachment.grantId]) else None;
          if !enabled || GrantEnded(grant, now) {
            var changed := DetachSocket(attachment);
            if changed {
              assert SelectedAt(before.desk, sockets, i);
              found := true;
            }
          }
        }
      }
    }

    method Alarm(now: nat, enabled: bool)
      requires Valid(Model()) && history.clock <= now
      modifies this
      ensures Model() == AlarmStep(old(Model()), now, enabled)
      ensures Valid(Model())
    {
      hide Valid;
      NextKeeps(Model(), AlarmAt(now, enabled));
      hide Filter, Prune, FindSelected, GrantEnded;
      var expired := PruneExpired(now);
      if expired > 0 {
        TerminateSockets(None);
      }
      assert Model() == PruneStep(old(Model()), now);
      TerminateInvalidSockets(now, enabled);
      if meta.count == 0 && meta.consumer.Some? && meta.consumer.value in grants
         && MovedPast(bindings, grants[meta.consumer.value].revision) {
        TerminateSockets(None);
      }
    }
  }
}
