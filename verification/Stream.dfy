/** The durable event stream object: every request, socket message and alarm as one atomic step. */
module Stream {
  import opened Contract
  import opened Tables
  import opened EventLog

  const MAX_GRANT_ROWS := 1_000
  const GRANT_ROW_LIFETIME_MS := 7 * 24 * 60 * 60 * 1_000

  // ----- State -----

  datatype Binding = Binding(revision: nat, source: Option<nat>, active: bool)

  datatype GrantStatus = Active | Replaced | Revoked

  datatype Grant = Grant(secret: nat, environment: nat, target: nat, route: Route, revision: nat,
                         issuedAt: nat, expiresAt: nat, status: GrantStatus, revokedAt: Option<nat>)

  /** What a socket carries in its attachment. */
  datatype Attachment = Attachment(grantId: GrantId, target: nat, route: Route, registered: bool, epoch: nat,
                                   acked: nat, ackedCursor: Option<Cursor>,
                                   sent: nat, sentCursor: Option<Cursor>)

  /** Sockets are numbered in acceptance order; a closed one leaves None. */
  type Sockets = seq<Option<Attachment>>

  /** The consumer columns of the metadata row. */
  datatype Desk = Desk(ready: bool, epoch: nat, consumer: Option<GrantId>)

  datatype State = State(route: Option<Route>, revision: Option<nat>, log: Log, desk: Desk, sockets: Sockets,
                         bindings: map<Direction, Binding>, grants: map<GrantId, Grant>)

  const INITIAL: State := State(None, None, EMPTY, Desk(false, 0, None), [], map[], map[])

  // ----- Requests -----

  datatype BindingRef = BindingRef(direction: Direction, revision: nat, source: nat)

  datatype AppendInput = AppendInput(eventId: EventId, fingerprint: Fingerprint, route: Route, revision: nat,
                                     payload: nat, payloadBytes: nat, payloadValid: bool,
                                     binding: Option<BindingRef>, recoveryOnly: bool)

  datatype AppendResult =
    | Accepted(sequence: nat, acceptedAt: nat)
    | Replayed(sequence: nat, acceptedAt: nat)
    | Refused(code: Code)

  datatype GrantRequest = GrantRequest(grantId: GrantId, secret: nat, environment: nat, target: nat, route: Route,
                                       revision: nat, binding: Option<BindingRef>, issuedAt: nat, expiresAt: nat,
                                       resetBacklog: bool)

  datatype GrantLookup = GrantLookup(grantId: GrantId, secret: Option<nat>, environment: nat, target: nat, route: Route)

  datatype Notification = Notification(direction: Direction, route: Route, environment: nat,
                                       previousRevision: nat, previousSource: nat,
                                       revision: nat, source: Option<nat>)

  /** How the network treats the frame a step tries to send. */
  datatype Send = Sent | Failed | TooLarge

  datatype Frame = Frame(socket: SocketId, event: Event)

  /** A socket message after parsing. */
  datatype Message = RegisterMessage | AckMessage(cursor: Cursor) | InvalidMessage

  // ----- Consumer bookkeeping -----

  /** The socket's own registration is the one the metadata row records. */
  predicate Selected(desk: Desk, attachment: Attachment) {
    attachment.registered && attachment.epoch == desk.epoch && desk.consumer == Some(attachment.grantId)
  }

  predicate SelectedAt(desk: Desk, sockets: Sockets, i: int) {
    0 <= i < |sockets| && sockets[i].Some? && Selected(desk, sockets[i].value)
  }

  function FindSelected(desk: Desk, sockets: Sockets, from: nat): (r: Option<SocketId>)
    requires from <= |sockets|
    ensures r.Some? ==> from <= r.value && SelectedAt(desk, sockets, r.value)
    ensures r.None? ==> forall i :: from <= i ==> !SelectedAt(desk, sockets, i)
    decreases |sockets| - from
  {
    if from == |sockets| then None
    else if SelectedAt(desk, sockets, from) then Some(from)
    else FindSelected(desk, sockets, from + 1)
  }

  function CurrentSocket(s: State): Option<SocketId> {
    if !s.desk.ready || s.desk.epoch < 1 || s.desk.consumer.None? then None
    else FindSelected(s.desk, s.sockets, 0)
  }

  function Cleared(s: State): State {
    s.(desk := s.desk.(ready := false, consumer := None))
  }

  function Detach(s: State, attachment: Attachment): State {
    if Selected(s.desk, attachment) then Cleared(s) else s
  }

  /** Ends every registered socket, or those of one grant: only a selected one changes the metadata row. */
  function Terminate(s: State, grant: Option<GrantId>): State {
    var selected := FindSelected(s.desk, s.sockets, 0);
    if selected.Some? && (grant.None? || s.desk.consumer == grant) then Cleared(s) else s
  }

  function GrantOf(s: State, grantId: GrantId): Option<Grant> {
    if grantId in s.grants then Some(s.grants[grantId]) else None
  }

  predicate GrantEnded(grant: Option<Grant>, now: nat) {
    grant.None? || grant.value.status != Active || grant.value.expiresAt <= now
  }

  predicate GrantUsable(grant: Option<Grant>, lookup: GrantLookup, now: nat) {
    && grant.Some?
    && (lookup.secret.Some? ==> grant.value.secret == lookup.secret.value)
    && grant.value.environment == lookup.environment
    && grant.value.target == lookup.target
    && grant.value.route == lookup.route
    && grant.value.status == Active
    && grant.value.expiresAt > now
  }

  predicate MovedPast(bindings: map<Direction, Binding>, revision: nat) {
    exists d :: d in bindings && (bindings[d].revision > revision || !bindings[d].active)
  }

  predicate GrantMoved(s: State, grant: Option<Grant>) {
    grant.Some? && MovedPast(s.bindings, grant.value.revision)
  }

  // ----- Delivery -----

  datatype Delivery = Delivery(state: State, frame: Option<Frame>)

  function NextRow(log: Log): Option<Event> {
    var rows := Filter(log.events, Beyond(log.acked));
    if rows == [] then None else Some(rows[0])
  }

  function SendNext(s: State, socket: SocketId, now: nat, send: Send): Delivery {
    if socket >= |s.sockets| || s.sockets[socket].None? then Delivery(s, None) else
    var attachment := s.sockets[socket].value;
    if !Selected(s.desk, attachment) then Delivery(s, None)
    else if s.log.gap.Some? then Delivery(Cleared(s), None)
    else
      var grant := GrantOf(s, attachment.grantId);
      if GrantEnded(grant, now) then Delivery(Cleared(s), None)
      else if attachment.sent > attachment.acked then Delivery(s, None)
      else
        var row := NextRow(s.log);
        if row.None? then Delivery(if GrantMoved(s, grant) then Cleared(s) else s, None)
        else if send != Sent then Delivery(Cleared(s), None)
        else
          var attachment' := attachment.(sent := row.value.sequence, sentCursor := Some(row.value.cursor));
          Delivery(s.(sockets := s.sockets[socket := Some(attachment')]), Some(Frame(socket, row.value)))
  }

  // ----- Requests as steps -----

  /** Prunes the tables; an expired event also ends the consumer. */
  function PruneStep(s: State, now: nat): State {
    var pruned := s.(log := Prune(s.log, now));
    if ExpiredCount(s.log, now) > 0 then Terminate(Cleared(pruned), None) else pruned
  }

  /** Registers or advances the stored binding; None refuses a stale or moved one. */
  function RequireBinding(s: State, ref: BindingRef): Option<State> {
    var row := Binding(ref.revision, Some(ref.source), true);
    if ref.direction !in s.bindings then Some(s.(bindings := s.bindings[ref.direction := row]))
    else
      var existing := s.bindings[ref.direction];
      if ref.revision < existing.revision then None
      else if ref.revision == existing.revision then
        if existing.active && existing.source == Some(ref.source) then Some(s) else None
      else Some(s.(bindings := s.bindings[ref.direction := row], desk := s.desk.(ready := false)))
  }

  predicate BindingAgrees(input: AppendInput) {
    input.binding.Some? && input.binding.value.revision == input.revision
    && input.binding.value.source == input.route.realm
  }

  /** The first transaction of an append: route, local revision and stored binding. */
  function Bind(s: State, input: AppendInput): Option<State> {
    if s.route.Some? && s.route.value != input.route then None
    else if !input.route.shareable then
      if s.revision.Some? && s.revision.value != input.revision then None else Some(s)
    else if input.binding.None? then None
    else
      var bound := RequireBinding(s, input.binding.value);
      if bound.None? then None else Some(bound.value.(route := Some(input.route)))
  }

  predicate GrantViable(s: State, input: AppendInput, now: nat) {
    && s.desk.consumer.Some?
    && s.desk.consumer.value in s.grants
    && var grant := s.grants[s.desk.consumer.value];
       grant.status == Active && grant.expiresAt > now && grant.route == input.route
       && grant.revision == input.revision && !MovedPast(s.bindings, grant.revision)
  }

  /** The admission checks of an append's second transaction, in their order. */
  function Refusal(s: State, input: AppendInput, cursor: Cursor, now: nat): Option<Code> {
    if s.log.gap.Some? then Some(GapRequiresReset)
    else if !s.desk.ready || (s.desk.epoch > 0 && (!GrantViable(s, input, now) || CurrentSocket(s).None?)) then
      Some(ConsumerUnavailable)
    else if StreamIsFull(s.log, input.payloadBytes, now) then Some(StreamFull)
    else if s.log.next < 1 || s.log.next >= MAX_SAFE_INTEGER then Some(StreamFull)
    else if ReceiptsAreFull(s.log) then Some(StreamFull)
    else if EventIdTaken(s.log.events, s.log.receipts, s.log.ingress, input.eventId)
         || CursorTaken(s.log.events, s.log.receipts, cursor) then Some(ServiceUnavailable)
    else None
  }

  function EntryOf(input: AppendInput, cursor: Cursor, now: nat): Entry {
    Entry(input.eventId, input.fingerprint, cursor, input.payload, input.payloadBytes, now,
          if input.route.shareable && input.binding.Some? then Some(input.binding.value.direction) else None,
          input.revision)
  }

  function Accept(s: State, input: AppendInput, cursor: Cursor, now: nat): State {
    s.(log := Insert(s.log, EntryOf(input, cursor, now)),
       route := if s.route.Some? then s.route else Some(input.route),
       revision := if !input.route.shareable && s.revision.None? then Some(input.revision) else s.revision)
  }

  datatype Append = Append(state: State, result: AppendResult, frame: Option<Frame>)

  function AppendStep(s: State, input: AppendInput, cursor: Cursor, now: nat, send: Send): Append {
    if !input.payloadValid then Append(s, Refused(PayloadInvalid), None)
    else if input.route.shareable && !input.recoveryOnly && !BindingAgrees(input) then
      Append(s, Refused(Transition), None)
    else
      AppendPruned(PruneStep(s, now), input, cursor, now, send)
  }

  function AppendPruned(s: State, input: AppendInput, cursor: Cursor, now: nat, send: Send): Append {
    var receipt := FindReceipt(s.log.receipts, input.eventId);
    if receipt.Some? then
      if receipt.value.fingerprint != input.fingerprint then Append(s, Refused(SourceConflict), None)
      else Append(s, Replayed(receipt.value.sequence, receipt.value.acceptedAt), None)
    else if input.recoveryOnly then Append(s, Refused(Transition), None)
    else
      var bound := Bind(s, input);
      if bound.None? then Append(s, Refused(Transition), None)
      else AppendBound(bound.value, input, cursor, now, send)
  }

  function AppendBound(s: State, input: AppendInput, cursor: Cursor, now: nat, send: Send): Append {
    var refusal := Refusal(s, input, cursor, now);
    if refusal.Some? then Append(s, Refused(refusal.value), None)
    else
      var accepted := Accept(s, input, cursor, now);
      var socket := CurrentSocket(accepted);
      var delivery := if socket.Some? then SendNext(accepted, socket.value, now, send) else Delivery(accepted, None);
      Append(delivery.state, Accepted(s.log.next, now), delivery.frame)
  }

  // Sort key of the bounded grant history: newest ending first.
  predicate EndedLater(a: Grant, aId: GrantId, b: Grant, bId: GrantId) {
    var aEnd := if a.revokedAt.Some? then a.revokedAt.value else a.expiresAt;
    var bEnd := if b.revokedAt.Some? then b.revokedAt.value else b.expiresAt;
    aEnd > bEnd || (aEnd == bEnd && aId > bId)
  }

  function ReplaceActive(grants: map<GrantId, Grant>, now: nat): map<GrantId, Grant> {
    map g | g in grants ::
      if grants[g].status == Active then grants[g].(status := Replaced, revokedAt := Some(now)) else grants[g]
  }

  function DropAged(grants: map<GrantId, Grant>, now: nat): map<GrantId, Grant> {
    map g | g in grants
            && !(grants[g].expiresAt < now - GRANT_ROW_LIFETIME_MS
                 || (grants[g].revokedAt.Some? && grants[g].revokedAt.value < now - GRANT_ROW_LIFETIME_MS))
      :: grants[g]
  }

  /** The ended grants listed before this one. */
  function EndedAfter(grants: map<GrantId, Grant>, g: GrantId): set<GrantId>
    requires g in grants
  {
    set h | h in grants && grants[h].status != Active && EndedLater(grants[h], h, grants[g], g)
  }

  function DropOverflow(grants: map<GrantId, Grant>): map<GrantId, Grant> {
    map g | g in grants && (grants[g].status == Active || |EndedAfter(grants, g)| < MAX_GRANT_ROWS - 1) :: grants[g]
  }

  function RenewGrants(grants: map<GrantId, Grant>, r: GrantRequest): map<GrantId, Grant> {
    DropOverflow(DropAged(ReplaceActive(grants, r.issuedAt), r.issuedAt))
      [r.grantId := Grant(r.secret, r.environment, r.target, r.route, r.revision, r.issuedAt, r.expiresAt, Active, None)]
  }

  predicate GrantScopeAgrees(s: State, r: GrantRequest) {
    && (s.route.Some? ==> s.route.value == r.route)
    && (if r.route.shareable
        then r.binding.Some? && r.binding.value.revision == r.revision && r.binding.value.source == r.route.realm
        else r.route.realm == r.target)
  }

  function BindGrant(s: State, r: GrantRequest): Option<State> {
    if !GrantScopeAgrees(s, r) then None
    else if r.route.shareable then RequireBinding(s, r.binding.value)
    else Some(s)
  }

  /** The issuing transaction: optional backlog reset, grant replacement, no consumer until one registers. */
  function Issued(s: State, r: GrantRequest): State {
    Cleared(s).(log := if r.resetBacklog then Reset(s.log) else s.log,
                grants := RenewGrants(s.grants, r),
                route := Some(r.route))
  }

  datatype Issue = Issue(state: State, created: bool)

  function IssueGrantStep(s: State, r: GrantRequest): Issue {
    var bound := BindGrant(s, r);
    if bound.None? then Issue(s, false)
    else
      var b := bound.value;
      if r.grantId in b.grants then
        Issue(b, b.grants[r.grantId].secret == r.secret && b.grants[r.grantId].route == r.route)
      else if b.log.gap.Some? && !r.resetBacklog then Issue(b, false)
      else Issue(Issued(b, r), true)
  }

  function RevokeGrantStep(s: State, lookup: GrantLookup, now: nat): State {
    if !GrantUsable(GrantOf(s, lookup.grantId), lookup, now) then s
    else
      var grant := s.grants[lookup.grantId].(status := Revoked, revokedAt := Some(now));
      var revoked := s.(grants := s.grants[lookup.grantId := grant]);
      Terminate(if s.desk.consumer == Some(lookup.grantId) then Cleared(revoked) else revoked, Some(lookup.grantId))
  }

  /** A socket is accepted for a usable grant and waits for its register message. */
  function AcceptSocketStep(s: State, lookup: GrantLookup, now: nat): State {
    if !GrantUsable(GrantOf(s, lookup.grantId), lookup.(secret := None), now) then s
    else
      var attachment := Attachment(lookup.grantId, lookup.target, lookup.route, false, 0, 0, None, 0, None);
      s.(sockets := s.sockets + [Some(attachment)])
  }

  /** Registration: a new epoch selects this socket, which starts from the acknowledged cursor. */
  function Enrolled(s: State, socket: SocketId, attachment: Attachment): State
    requires socket < |s.sockets|
  {
    var registered := attachment.(registered := true, epoch := s.desk.epoch + 1,
                                  acked := s.log.acked, ackedCursor := s.log.ackedCursor,
                                  sent := s.log.acked, sentCursor := s.log.ackedCursor);
    s.(desk := Desk(!GrantMoved(s, GrantOf(s, attachment.grantId)), s.desk.epoch + 1, Some(attachment.grantId)),
       sockets := s.sockets[socket := Some(registered)])
  }

  function RegisterStep(s: State, socket: SocketId, environment: nat, now: nat, readySent: bool, send: Send): Delivery
    requires socket < |s.sockets| && s.sockets[socket].Some?
  {
    var attachment := s.sockets[socket].value;
    var lookup := GrantLookup(attachment.grantId, None, environment, attachment.target, attachment.route);
    if !GrantUsable(GrantOf(s, attachment.grantId), lookup, now) || s.route != Some(attachment.route)
       || s.log.gap.Some? || s.desk.epoch >= MAX_SAFE_INTEGER then Delivery(s, None)
    else
      var enrolled := Enrolled(s, socket, attachment);
      if !readySent then Delivery(Detach(enrolled, enrolled.sockets[socket].value), None)
      else SendNext(enrolled, socket, now, send)
  }

  /** The acknowledging transaction for the event this socket was sent. */
  function Settled(s: State, socket: SocketId, attachment: Attachment, cursor: Cursor): State
    requires socket < |s.sockets|
  {
    s.(log := AcknowledgeThrough(s.log, attachment.sent, cursor),
       sockets := s.sockets[socket := Some(attachment.(acked := attachment.sent, ackedCursor := Some(cursor)))])
  }

  function AcknowledgeStep(s: State, socket: SocketId, cursor: Cursor, now: nat, send: Send): Delivery
    requires socket < |s.sockets| && s.sockets[socket].Some?
  {
    var attachment := s.sockets[socket].value;
    if !Selected(s.desk, attachment) then Delivery(s, None)
    else if attachment.sentCursor == Some(cursor) && attachment.sent > s.log.acked then
      if !HasRow(s.log.events, attachment.sent, cursor) then Delivery(Detach(s, attachment), None)
      else SendNext(Settled(s, socket, attachment, cursor), socket, now, send)
    else if s.log.ackedCursor == Some(cursor)
         || AcknowledgedBefore(s.log.receipts, cursor, s.log.acked) then
      Delivery(s, None)
    else Delivery(Detach(s, attachment), None)
  }

  /** A message on a socket: the first must register, later ones acknowledge; anything else detaches. */
  function MessageStep(s: State, socket: SocketId, message: Message, environment: nat, now: nat,
                       readySent: bool, send: Send): Delivery {
    if socket >= |s.sockets| || s.sockets[socket].None? then Delivery(s, None) else
    var attachment := s.sockets[socket].value;
    if !attachment.registered && message.RegisterMessage? then
      RegisterStep(s, socket, environment, now, readySent, send)
    else if attachment.registered && message.AckMessage? then
      AcknowledgeStep(s, socket, message.cursor, now, send)
    else Delivery(Detach(s, attachment), None)
  }

  function CloseStep(s: State, socket: SocketId): State {
    if socket >= |s.sockets| || s.sockets[socket].None? then s
    else Detach(s, s.sockets[socket].value).(sockets := s.sockets[socket := None])
  }

  /** A binding notification applies only on top of the revision and source it was issued against. */
  function ApplyBinding(s: State, n: Notification): State {
    if n.revision <= n.previousRevision || (s.route.Some? && s.route.value != n.route) then s
    else if n.direction !in s.bindings then s
    else
      var row := s.bindings[n.direction];
      if n.revision <= row.revision || row.revision != n.previousRevision || row.source != Some(n.previousSource) then s
      else if s.route.Some? && s.route.value.environment != n.environment then s
      else
        var current := n.source.Some? && s.route.Some? && n.source.value == s.route.value.realm;
        s.(bindings := s.bindings[n.direction := Binding(n.revision, n.source, current)],
           desk := s.desk.(ready := false))
  }

  function NotifyStep(s: State, n: Notification): State {
    var applied := ApplyBinding(s, n);
    if applied != s && applied.log.count == 0 then Terminate(applied, None) else applied
  }

  /** The alarm: prune, end sockets whose grant ended, end a drained consumer whose stream moved. */
  function AlarmStep(s: State, now: nat, enabled: bool): State {
    var pruned := PruneStep(s, now);
    var selected := FindSelected(pruned.desk, pruned.sockets, 0);
    var checked :=
      if selected.Some? && (!enabled || GrantEnded(GrantOf(pruned, pruned.desk.consumer.value), now))
      then Cleared(pruned) else pruned;
    if checked.log.count == 0 && checked.desk.consumer.Some?
       && GrantMoved(checked, GrantOf(checked, checked.desk.consumer.value))
    then Terminate(checked, None) else checked
  }

  // ----- Runs -----

  datatype Step =
    | AppendAt(input: AppendInput, cursor: Cursor, now: nat, send: Send)
    | IssueAt(request: GrantRequest, now: nat)
    | RevokeAt(lookup: GrantLookup, now: nat)
    | AcceptSocketAt(lookup: GrantLookup, now: nat)
    | MessageAt(socket: SocketId, message: Message, environment: nat, now: nat, readySent: bool, send: Send)
    | CloseAt(socket: SocketId, now: nat)
    | NotifyAt(notification: Notification, now: nat)
    | AlarmAt(now: nat, enabled: bool)

  function Next(s: State, step: Step): State {
    match step
    case AppendAt(input, cursor, now, send) => AppendStep(s, input, cursor, now, send).state
    case IssueAt(request, _) => IssueGrantStep(s, request).state
    case RevokeAt(lookup, now) => RevokeGrantStep(s, lookup, now)
    case AcceptSocketAt(lookup, now) => AcceptSocketStep(s, lookup, now)
    case MessageAt(socket, message, environment, now, readySent, send) =>
      MessageStep(s, socket, message, environment, now, readySent, send).state
    case CloseAt(socket, _) => CloseStep(s, socket)
    case NotifyAt(notification, _) => NotifyStep(s, notification)
    case AlarmAt(now, enabled) => AlarmStep(s, now, enabled)
  }

  function Run(s: State, steps: seq<Step>): State
    decreases |steps|
  {
    if steps == [] then s else Run(Next(s, steps[0]), steps[1..])
  }

  /** Step times never decrease. */
  predicate Monotone(clock: nat, steps: seq<Step>)
    decreases |steps|
  {
    steps == [] || (clock <= steps[0].now && Monotone(steps[0].now, steps[1..]))
  }
}
