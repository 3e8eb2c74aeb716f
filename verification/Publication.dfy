/** Publishing one source event: prepare, append, finalize and repin as messages between a publisher, the
    source ledger and the streams, with crashes, lost replies, moving bindings and other traffic in between. */
module Publication {
  import opened Contract
  import opened EventLog
  import opened Stream
  import opened StreamSafety
  import opened StreamTheorems
  import opened SourceLedger
  import StreamEffects

  // ----- The system -----

  /** Where a publish attempt stands. `first` distinguishes the attempt's first append from the one after a repin. */
  datatype Phase =
    | Pinned(pin: Pin, first: bool)
    | Delivered(pin: Pin, sequence: nat, acceptedAt: nat)
    | Refusing(pin: Pin, code: Code)
    | Displaced(pin: Pin)

  datatype Attempt = Attempt(fingerprint: Fingerprint, phase: Phase)

  /** What a publisher is told in the end: accepted, with the receipt it rests on, or rejected. */
  datatype Word = Published(sequence: nat, acceptedAt: nat) | TurnedDown(code: Code)

  datatype Told = Told(fingerprint: Fingerprint, word: Word)

  /** `invalid` lists the fingerprints of payloads the streams' schemas refuse. `deadline` and `told` are history: when
      the event's first ledger row expires, and what its publishers were told. */
  datatype System = System(invalid: set<Fingerprint>, rows: seq<Row>, streams: map<Route, State>,
                           attempts: map<nat, Attempt>, clock: nat, deadline: Option<nat>, told: seq<Told>)

  /** One message handled, for the tracked event or for the rest of the world. */
  datatype Move =
    | PrepareMessage(id: nat, fingerprint: Fingerprint, pin: Pin, bytes: nat, now: nat)
    | AppendMessage(id: nat, matched: bool, payload: nat, payloadBytes: nat, cursor: Cursor, send: Send, now: nat)
    | FinalizeMessage(id: nat, now: nat)
    | RepinMessage(id: nat, pin: Pin, now: nat)
    | Crash(id: nat, now: nat)
    | OtherRequest(request: Request, now: nat)
    | StreamMessage(route: Route, step: Step, now: nat)

  /** Routes are resolved either locally or through a binding direction. */
  predicate PinOk(pin: Pin) {
    pin.route.shareable <==> pin.direction.Some?
  }

  predicate TerminalRejection(code: Code) {
    code in {ConsumerUnavailable, StreamFull, GapRequiresReset, PayloadInvalid}
  }

  function StreamOf(streams: map<Route, State>, route: Route): State {
    if route in streams then streams[route] else INITIAL
  }

  /** The append the stream receives. A shared route passes the binding authority, which vouches for the
      binding when the registry still shows it and otherwise allows only a lookup of an earlier receipt. */
  function InputFor(event: EventId, fingerprint: Fingerprint, valid: bool, pin: Pin, matched: bool,
                    payload: nat, payloadBytes: nat): AppendInput {
    var binding := if pin.direction.Some? && matched
                   then Some(BindingRef(pin.direction.value, pin.revision, pin.route.realm)) else None;
    AppendInput(event, fingerprint, pin.route, pin.revision, payload, payloadBytes, valid, binding,
                pin.direction.Some? && !matched)
  }

  predicate Allowed(sys: System, event: EventId, move: Move) {
    && sys.clock <= move.now
    && match move
       case PrepareMessage(id, _, pin, _, _) => id !in sys.attempts && PinOk(pin)
       case AppendMessage(id, _, _, _, _, _, _) => id in sys.attempts && sys.attempts[id].phase.Pinned?
       case FinalizeMessage(id, _) => id in sys.attempts && (sys.attempts[id].phase.Delivered? || sys.attempts[id].phase.Refusing?)
       case RepinMessage(id, pin, _) => id in sys.attempts && sys.attempts[id].phase.Displaced? && PinOk(pin)
       case Crash(id, _) => id in sys.attempts
       case OtherRequest(request, now) => request.eventId != event && (request.PrepareRequest? ==> request.now == now)
       case StreamMessage(_, step, now) => step.now == now && !(step.AppendAt? && step.input.eventId == event)
  }

  /** The attempt after its stream answered an append. */
  function AfterAppend(attempt: Attempt, result: AppendResult): Option<Attempt>
    requires attempt.phase.Pinned?
  {
    var pin := attempt.phase.pin;
    match result
    case Accepted(sequence, acceptedAt) => Some(attempt.(phase := Delivered(pin, sequence, acceptedAt)))
    case Replayed(sequence, acceptedAt) => Some(attempt.(phase := Delivered(pin, sequence, acceptedAt)))
    case Refused(code) =>
      if TerminalRejection(code) then Some(attempt.(phase := Refusing(pin, code)))
      else if code == Transition && attempt.phase.first && pin.direction.Some? then Some(attempt.(phase := Displaced(pin)))
      else None
  }

  function AfterReply(attempts: map<nat, Attempt>, id: nat, fingerprint: Fingerprint, reply: Reply, first: bool)
    : map<nat, Attempt>
  {
    if reply.PendingReply? then attempts[id := Attempt(fingerprint, Pinned(reply.pin, first))] else attempts - {id}
  }

  /** A settled row is the publisher's answer. */
  function WordOf(fingerprint: Fingerprint, reply: Reply): seq<Told> {
    match reply
    case CommittedReply(sequence, acceptedAt) => [Told(fingerprint, Published(sequence, acceptedAt))]
    case RejectedReply(code) => [Told(fingerprint, TurnedDown(code))]
    case _ => []
  }

  function DoPrepare(sys: System, event: EventId, id: nat, fingerprint: Fingerprint, pin: Pin, bytes: nat, now: nat)
    : System
  {
    var answer := Prepare(sys.rows, event, fingerprint, pin, bytes, now);
    sys.(clock := now, rows := answer.rows,
         attempts := AfterReply(sys.attempts, id, fingerprint, answer.reply, true),
         told := sys.told + WordOf(fingerprint, answer.reply),
         deadline := if sys.deadline.None? && answer.reply.PendingReply?
                     then Some(now + RECEIPT_RETENTION_MS) else sys.deadline)
  }

  function DoAppend(sys: System, id: nat, input: AppendInput, cursor: Cursor, send: Send, now: nat): System
    requires id in sys.attempts && sys.attempts[id].phase.Pinned?
  {
    var append := AppendStep(StreamOf(sys.streams, input.route), input, cursor, now, send);
    var after := AfterAppend(sys.attempts[id], append.result);
    sys.(clock := now, streams := sys.streams[input.route := append.state],
         attempts := if after.Some? then sys.attempts[id := after.value] else sys.attempts - {id})
  }

  function VerdictOf(phase: Phase): Verdict
    requires phase.Delivered? || phase.Refusing?
  {
    if phase.Delivered? then Commit(phase.sequence, phase.acceptedAt) else Reject(phase.code)
  }

  /** Once the ledger has settled the attempt, the publisher is told what its stream answered. */
  function Outcome(phase: Phase): Word
    requires phase.Delivered? || phase.Refusing?
  {
    if phase.Delivered? then Published(phase.sequence, phase.acceptedAt) else TurnedDown(phase.code)
  }

  function DoFinalize(sys: System, event: EventId, id: nat, now: nat): System
    requires id in sys.attempts && (sys.attempts[id].phase.Delivered? || sys.attempts[id].phase.Refusing?)
  {
    var attempt := sys.attempts[id];
    var answer := Finalize(sys.rows, event, attempt.fingerprint, VerdictOf(attempt.phase));
    sys.(clock := now, rows := answer.rows, attempts := sys.attempts - {id},
         told := if answer.reply.ErrorReply? then sys.told else sys.told + [Told(attempt.fingerprint, Outcome(attempt.phase))])
  }

  function DoRepin(sys: System, event: EventId, id: nat, pin: Pin, now: nat): System
    requires id in sys.attempts
  {
    var attempt := sys.attempts[id];
    var previous := attempt.phase.pin;
    if pin.route == previous.route && pin.revision == previous.revision then
      sys.(clock := now, attempts := sys.attempts - {id})
    else
      var answer := Repin(sys.rows, event, attempt.fingerprint, previous.route, pin);
      sys.(clock := now, rows := answer.rows,
           attempts := AfterReply(sys.attempts, id, attempt.fingerprint, answer.reply, false),
           told := sys.told + WordOf(attempt.fingerprint, answer.reply))
  }

  function InputOf(sys: System, event: EventId, move: Move): AppendInput
    requires Allowed(sys, event, move) && move.AppendMessage?
  {
    var fingerprint := sys.attempts[move.id].fingerprint;
    InputFor(event, fingerprint, fingerprint !in sys.invalid, sys.attempts[move.id].phase.pin, move.matched,
             move.payload, move.payloadBytes)
  }

  function Do(sys: System, event: EventId, move: Move): System
    requires Allowed(sys, event, move)
  {
    match move
    case PrepareMessage(id, fingerprint, pin, bytes, now) => DoPrepare(sys, event, id, fingerprint, pin, bytes, now)
    case AppendMessage(id, _, _, _, cursor, send, now) => DoAppend(sys, id, InputOf(sys, event, move), cursor, send, now)
    case FinalizeMessage(id, now) => DoFinalize(sys, event, id, now)
    case RepinMessage(id, pin, now) => DoRepin(sys, event, id, pin, now)
    case Crash(id, now) => sys.(clock := now, attempts := sys.attempts - {id})
    case OtherRequest(request, now) => sys.(clock := now, rows := Handle(sys.rows, request).rows)
    case StreamMessage(route, step, now) =>
      sys.(clock := now, streams := sys.streams[route := Next(StreamOf(sys.streams, route), step)])
  }

  predicate AllowedRun(sys: System, event: EventId, moves: seq<Move>)
    decreases |moves|
  {
    moves == [] || (Allowed(sys, event, moves[0]) && AllowedRun(Do(sys, event, moves[0]), event, moves[1..]))
  }

  function DoAll(sys: System, event: EventId, moves: seq<Move>): System
    requires AllowedRun(sys, event, moves)
    decreases |moves|
  {
    if moves == [] then sys else DoAll(Do(sys, event, moves[0]), event, moves[1..])
  }

  /** Attempts run one after another: none starts while another is under way. */
  predicate OneByOne(sys: System, event: EventId, moves: seq<Move>)
    requires AllowedRun(sys, event, moves)
    decreases |moves|
  {
    moves == [] || ((moves[0].PrepareMessage? ==> sys.attempts == map[])
                    && OneByOne(Do(sys, event, moves[0]), event, moves[1..]))
  }

  // ----- What an append tells about the stream -----

  ghost predicate AcceptedAs(s: State, event: EventId, fingerprint: Fingerprint, sequence: nat, acceptedAt: nat) {
    && 1 <= sequence <= |s.log.accepted|
    && s.log.accepted[sequence - 1].eventId == event
    && s.log.accepted[sequence - 1].fingerprint == fingerprint
    && s.log.accepted[sequence - 1].acceptedAt == acceptedAt
  }

  ghost predicate HasAccepted(s: State, event: EventId) {
    exists k :: 0 <= k < |s.log.accepted| && s.log.accepted[k].eventId == event
  }

  /** A shared route's append carries a binding that agrees with it, or is a lookup. */
  predicate Vouched(input: AppendInput) {
    input.route.shareable && !input.recoveryOnly ==> BindingAgrees(input)
  }

  lemma AppendVerdict(s: State, input: AppendInput, cursor: Cursor, now: nat, send: Send)
    requires Valid(s) && s.log.clock <= now
    requires Vouched(input)
    ensures var out := AppendStep(s, input, cursor, now, send);
            && (out.result == Refused(PayloadInvalid) <==> !input.payloadValid)
            && Valid(out.state) && out.state.log.clock <= now
            && out.state.log.accepted
               == s.log.accepted + (if out.result.Accepted? then [EntryOf(input, cursor, now)] else [])
            && (out.result.Accepted? ==> out.result.sequence == |s.log.accepted| + 1 && out.result.acceptedAt == now)
            && (out.result.Replayed? ==> AcceptedAs(s, input.eventId, input.fingerprint,
                                                    out.result.sequence, out.result.acceptedAt))
            && (out.result.Accepted?
                || (out.result.Refused? && out.result.code != SourceConflict && out.result.code != PayloadInvalid) ==>
                  AllOld(s.log, input.eventId, now))
  {
    var step := AppendAt(input, cursor, now, send);
    NextKeeps(s, step);
    ClockFollows(s, step);
    NextAccepts(s, step);
    PruneStepKeeps(s, now);
    assert PruneStep(s, now).log.clock == now && PruneStep(s, now).log.accepted == s.log.accepted;
    ReceiptDecides(PruneStep(s, now), input, cursor, now, send);
    hide Valid, AppendPruned, PruneStep;
  }

  lemma ReceiptDecides(p: State, input: AppendInput, cursor: Cursor, now: nat, send: Send)
    requires Valid(p) && p.log.clock == now
    ensures var out := AppendPruned(p, input, cursor, now, send).result;
            && (out.Accepted? ==> out.sequence == |p.log.accepted| + 1 && out.acceptedAt == now)
            && (out.Replayed? ==> AcceptedAs(p, input.eventId, input.fingerprint, out.sequence, out.acceptedAt))
            && out != Refused(PayloadInvalid)
            && (out.Accepted? || (out.Refused? && out.code != SourceConflict) ==> AllOld(p.log, input.eventId, now))
  {
    assert Inv(p.log) && p.log.next == |p.log.accepted| + 1;
    var receipt := FindReceipt(p.log.receipts, input.eventId);
    hide Valid, Inv, AllOld, Bind, AppendBound, FindReceipt;
    if receipt.Some? {
      assert receipt.value in p.log.receipts && receipt.value.eventId == input.eventId;
      ReceiptIsRow(p.log, receipt.value);
    } else {
      NoReceiptMeansOld(p.log, input.eventId);
      if Bind(p, input).Some? {
        BindKeeps(p, input);
        BoundAnswers(Bind(p, input).value, input, cursor, now, send);
      }
    }
  }

  lemma BoundAnswers(b: State, input: AppendInput, cursor: Cursor, now: nat, send: Send)
    ensures var out := AppendBound(b, input, cursor, now, send).result;
            !out.Replayed? && out != Refused(PayloadInvalid)
            && (out.Accepted? ==> out.sequence == b.log.next && out.acceptedAt == now)
  {
    hide Accept, SendNext, FindSelected, StreamIsFull, ReceiptsAreFull, GrantViable, EventIdTaken, CursorTaken;
  }

  /** Every acceptance of the event lies beyond receipt retention. */
  ghost predicate AllOld(log: Log, event: EventId, now: nat) {
    forall k :: 0 <= k < |log.accepted| && log.accepted[k].eventId == event ==>
      log.accepted[k].acceptedAt + RECEIPT_RETENTION_MS <= now
  }

  /** Without a live receipt, every earlier acceptance of the ID is past receipt retention. */
  lemma NoReceiptMeansOld(log: Log, event: EventId)
    requires Inv(log)
    requires FindReceipt(log.receipts, event).None?
    ensures AllOld(log, event, log.clock)
  {
    forall k | 0 <= k < |log.accepted| && log.accepted[k].eventId == event
      ensures log.accepted[k].acceptedAt + RECEIPT_RETENTION_MS <= log.clock
    {
      if log.accepted[k].acceptedAt + RECEIPT_RETENTION_MS > log.clock {
        LiveReceiptFound(log.accepted, log.receipts, log.clock, k);
      }
    }
  }

  lemma ReceiptIsRow(log: Log, receipt: Receipt)
    requires Inv(log)
    requires receipt in log.receipts
    ensures 1 <= receipt.sequence <= |log.accepted|
    ensures receipt == ReceiptOf(log.accepted[receipt.sequence - 1], receipt.sequence)
  {
    var i :| 0 <= i < |log.receipts| && log.receipts[i] == receipt;
  }

  // ----- Any interleaving, overlapping publishers included -----

  ghost predicate StreamsHealthy(streams: map<Route, State>, clock: nat) {
    forall r :: r in streams ==> Valid(streams[r]) && streams[r].log.clock <= clock
  }

  ghost predicate StreamsGrow(before: map<Route, State>, after: map<Route, State>) {
    forall r :: r in before ==> r in after && before[r].log.accepted <= after[r].log.accepted
  }

  ghost predicate Witnessed(streams: map<Route, State>, event: EventId, fingerprint: Fingerprint,
                            sequence: nat, acceptedAt: nat) {
    exists r :: r in streams && AcceptedAs(streams[r], event, fingerprint, sequence, acceptedAt)
  }

  /** A committed row names an acceptance of its event, as some stream recorded it. */
  ghost predicate RowOk(row: Option<Row>, event: EventId, streams: map<Route, State>) {
    row.Some? ==>
      && PinOk(row.value.pin)
      && (row.value.state.Committed? ==>
            Witnessed(streams, event, row.value.fingerprint, row.value.state.sequence, row.value.state.acceptedAt))
  }

  /** A delivered attempt holds the receipt its pinned stream recorded. */
  ghost predicate AttemptOk(attempt: Attempt, event: EventId, streams: map<Route, State>) {
    && PinOk(attempt.phase.pin)
    && (attempt.phase.Delivered? ==>
          && attempt.phase.pin.route in streams
          && AcceptedAs(streams[attempt.phase.pin.route], event, attempt.fingerprint,
                        attempt.phase.sequence, attempt.phase.acceptedAt))
  }

  ghost predicate AttemptsOk(attempts: map<nat, Attempt>, event: EventId, streams: map<Route, State>) {
    forall id :: id in attempts ==> AttemptOk(attempts[id], event, streams)
  }

  /** Whoever was told of an acceptance was told of one that some stream recorded. */
  ghost predicate ToldOk(told: seq<Told>, event: EventId, streams: map<Route, State>) {
    forall i :: 0 <= i < |told| && told[i].word.Published? ==>
      Witnessed(streams, event, told[i].fingerprint, told[i].word.sequence, told[i].word.acceptedAt)
  }

  ghost predicate Coherent(sys: System, event: EventId) {
    && Unique(sys.rows)
    && StreamsHealthy(sys.streams, sys.clock)
    && RowOk(Lookup(sys.rows, event), event, sys.streams)
    && AttemptsOk(sys.attempts, event, sys.streams)
    && ToldOk(sys.told, event, sys.streams)
  }

  lemma InitialIsValid()
    ensures Valid(INITIAL)
  {
    EmptyInv();
  }

  lemma HealthyLater(streams: map<Route, State>, clock: nat, now: nat)
    requires StreamsHealthy(streams, clock) && clock <= now
    ensures StreamsHealthy(streams, now)
  {
    hide Valid;
  }

  lemma PutStream(streams: map<Route, State>, route: Route, s: State, clock: nat, now: nat)
    requires StreamsHealthy(streams, clock) && clock <= now
    requires Valid(s) && s.log.clock <= now
    requires StreamOf(streams, route).log.accepted <= s.log.accepted
    ensures StreamsHealthy(streams[route := s], now)
    ensures StreamsGrow(streams, streams[route := s])
  {
    hide Valid;
  }

  /** Coherence survives whenever the streams' histories only grow. */
  lemma CoherenceGrows(row: Option<Row>, attempts: map<nat, Attempt>, told: seq<Told>, event: EventId,
                       before: map<Route, State>, after: map<Route, State>)
    requires StreamsGrow(before, after)
    requires RowOk(row, event, before) && AttemptsOk(attempts, event, before) && ToldOk(told, event, before)
    ensures RowOk(row, event, after) && AttemptsOk(attempts, event, after) && ToldOk(told, event, after)
  {
    if row.Some? && row.value.state.Committed? {
      StillWitnessed(event, row.value.fingerprint, row.value.state.sequence, row.value.state.acceptedAt, before, after);
    }
    forall i | 0 <= i < |told| && told[i].word.Published?
      ensures Witnessed(after, event, told[i].fingerprint, told[i].word.sequence, told[i].word.acceptedAt)
    {
      StillWitnessed(event, told[i].fingerprint, told[i].word.sequence, told[i].word.acceptedAt, before, after);
    }
    hide Witnessed;
  }

  lemma StillWitnessed(event: EventId, fingerprint: Fingerprint, sequence: nat, acceptedAt: nat,
                       before: map<Route, State>, after: map<Route, State>)
    requires StreamsGrow(before, after) && Witnessed(before, event, fingerprint, sequence, acceptedAt)
    ensures Witnessed(after, event, fingerprint, sequence, acceptedAt)
  {
    var r :| r in before && AcceptedAs(before[r], event, fingerprint, sequence, acceptedAt);
    assert AcceptedAs(after[r], event, fingerprint, sequence, acceptedAt);
  }

  lemma PrunedRowOk(rows: seq<Row>, now: nat, event: EventId, streams: map<Route, State>)
    requires Unique(rows) && RowOk(Lookup(rows, event), event, streams)
    ensures RowOk(Lookup(PruneRows(rows, now), event), event, streams)
  {
    LookupPrune(rows, now, event);
  }

  /** What a publisher is told of a row is as true as the row. */
  lemma WordIsTrue(told: seq<Told>, fingerprint: Fingerprint, reply: Reply, row: Option<Row>, event: EventId,
                   streams: map<Route, State>)
    requires ToldOk(told, event, streams) && RowOk(row, event, streams)
    requires reply.ErrorReply? || reply.PendingReply? || (Tells(reply, row) && row.value.fingerprint == fingerprint)
    ensures ToldOk(told + WordOf(fingerprint, reply), event, streams)
  {
    hide Witnessed;
  }

  lemma ReplyAttempts(attempts: map<nat, Attempt>, id: nat, fingerprint: Fingerprint, reply: Reply, first: bool, event: EventId,
                      streams: map<Route, State>)
    requires AttemptsOk(attempts, event, streams) && (reply.PendingReply? ==> PinOk(reply.pin))
    ensures AttemptsOk(AfterReply(attempts, id, fingerprint, reply, first), event, streams)
  {
    hide AcceptedAs, PinOk;
  }

  lemma KeptRowOk(row: Option<Row>, now: nat, event: EventId, streams: map<Route, State>)
    requires RowOk(row, event, streams)
    ensures RowOk(AtTime(row, now), event, streams)
  {
    hide Witnessed, PinOk;
  }

  lemma PrepareKeepsCoherent(sys: System, event: EventId, id: nat, fingerprint: Fingerprint, pin: Pin, bytes: nat, now: nat)
    requires Coherent(sys, event) && sys.clock <= now && PinOk(pin)
    ensures Coherent(DoPrepare(sys, event, id, fingerprint, pin, bytes, now), event)
  {
    var answer, kept := Prepare(sys.rows, event, fingerprint, pin, bytes, now), AtTime(Lookup(sys.rows, event), now);
    PrepareLeaves(sys.rows, event, fingerprint, pin, bytes, now);
    HandleKeepsUnique(sys.rows, PrepareRequest(event, fingerprint, pin, bytes, now));
    HealthyLater(sys.streams, sys.clock, now);
    KeptRowOk(Lookup(sys.rows, event), now, event, sys.streams);
    assert RowOk(Lookup(answer.rows, event), event, sys.streams) && (answer.reply.PendingReply? ==> PinOk(answer.reply.pin)) by {
      hide Prepare, Lookup, AtTime, PruneRows, Crammed, PinOk, Witnessed, Unique, StreamsHealthy;
    }
    hide StreamsHealthy, Unique, RowOk, AttemptsOk, ToldOk, Prepare, Lookup, AtTime, PruneRows, Crammed, WordOf, AfterReply, PinOk;
    WordIsTrue(sys.told, fingerprint, answer.reply, kept, event, sys.streams);
    ReplyAttempts(sys.attempts, id, fingerprint, answer.reply, true, event, sys.streams);
  }

  lemma AppendKeepsCoherent(sys: System, event: EventId, id: nat, input: AppendInput, cursor: Cursor, send: Send, now: nat)
    requires Coherent(sys, event) && sys.clock <= now
    requires id in sys.attempts && sys.attempts[id].phase.Pinned?
    requires Vouched(input) && input.eventId == event && input.route == sys.attempts[id].phase.pin.route
    requires input.fingerprint == sys.attempts[id].fingerprint
    ensures Coherent(DoAppend(sys, id, input, cursor, send, now), event)
    ensures StreamsGrow(sys.streams, DoAppend(sys, id, input, cursor, send, now).streams)
  {
    InitialIsValid();
    hide Valid, AppendStep, Vouched, AllOld, Lookup;
    var s := StreamOf(sys.streams, input.route);
    assert Valid(s) && s.log.clock <= now;
    hide RowOk, Unique, StreamsGrow;
    AppendVerdict(s, input, cursor, now, send);
    var append := AppendStep(s, input, cursor, now, send);
    PutStream(sys.streams, input.route, append.state, sys.clock, now);
    CoherenceGrows(Lookup(sys.rows, event), sys.attempts, sys.told, event, sys.streams, sys.streams[input.route := append.state]);
    AnsweredAttemptOk(sys.attempts[id], event, append.result, sys.streams[input.route := append.state]);
    hide StreamsHealthy, AfterAppend, AttemptOk, AcceptedAs;
  }

  /** An attempt that goes on after its stream's answer holds what the stream recorded. */
  lemma AnsweredAttemptOk(attempt: Attempt, event: EventId, result: AppendResult, streams: map<Route, State>)
    requires attempt.phase.Pinned? && AttemptOk(attempt, event, streams) && attempt.phase.pin.route in streams
    requires !result.Refused? ==>
               AcceptedAs(streams[attempt.phase.pin.route], event, attempt.fingerprint, result.sequence, result.acceptedAt)
    ensures AfterAppend(attempt, result).Some? ==> AttemptOk(AfterAppend(attempt, result).value, event, streams)
  {
    hide AcceptedAs, PinOk;
  }

  lemma FinalizeKeepsCoherent(sys: System, event: EventId, id: nat, now: nat)
    requires Coherent(sys, event) && sys.clock <= now
    requires id in sys.attempts && (sys.attempts[id].phase.Delivered? || sys.attempts[id].phase.Refusing?)
    ensures Coherent(DoFinalize(sys, event, id, now), event)
  {
    hide StreamsHealthy, AcceptedAs;
    HealthyLater(sys.streams, sys.clock, now);
    var attempt := sys.attempts[id];
    assert AttemptOk(attempt, event, sys.streams);
    var i := Find(sys.rows, event);
    if i.Some? {
      var rows := Finalize(sys.rows, event, attempt.fingerprint, VerdictOf(attempt.phase)).rows;
      LookupUpdate(sys.rows, i.value, rows[i.value], event);
    }
    hide StreamsHealthy, Unique, AcceptedAs;
  }

  lemma RepinKeepsCoherent(sys: System, event: EventId, id: nat, pin: Pin, now: nat)
    requires Coherent(sys, event) && sys.clock <= now && PinOk(pin)
    requires id in sys.attempts
    ensures Coherent(DoRepin(sys, event, id, pin, now), event)
  {
    var attempt, row := sys.attempts[id], Lookup(sys.rows, event);
    var answer := Repin(sys.rows, event, attempt.fingerprint, attempt.phase.pin.route, pin);
    RepinLeaves(sys.rows, event, attempt.fingerprint, attempt.phase.pin.route, pin);
    HandleKeepsUnique(sys.rows, RepinRequest(event, attempt.fingerprint, attempt.phase.pin.route, pin));
    HealthyLater(sys.streams, sys.clock, now);
    assert RowOk(Lookup(answer.rows, event), event, sys.streams) && (answer.reply.PendingReply? ==> PinOk(answer.reply.pin)) by {
      hide Repin, Lookup, PinOk, Witnessed, Unique, StreamsHealthy;
    }
    assert AttemptsOk(sys.attempts - {id}, event, sys.streams) by {
      hide AttemptOk;
    }
    hide StreamsHealthy, Unique, RowOk, AttemptsOk, ToldOk, Repin, Lookup, WordOf, AfterReply, PinOk;
    WordIsTrue(sys.told, attempt.fingerprint, answer.reply, row, event, sys.streams);
    ReplyAttempts(sys.attempts, id, attempt.fingerprint, answer.reply, false, event, sys.streams);
  }

  lemma OtherKeepsCoherent(sys: System, event: EventId, request: Request, now: nat)
    requires Coherent(sys, event) && sys.clock <= now && request.eventId != event
    ensures Coherent(sys.(clock := now, rows := Handle(sys.rows, request).rows), event)
  {
    HealthyLater(sys.streams, sys.clock, now);
    HandleFrames(sys.rows, request, event);
    if request.PrepareRequest? {
      PrunedRowOk(sys.rows, request.now, event, sys.streams);
    }
    hide StreamsHealthy, Unique, RowOk, Handle, Lookup, PruneRows;
  }

  lemma TrafficKeepsCoherent(sys: System, event: EventId, route: Route, step: Step)
    requires Coherent(sys, event) && sys.clock <= step.now
    ensures var streams := sys.streams[route := Next(StreamOf(sys.streams, route), step)];
            Coherent(sys.(clock := step.now, streams := streams), event) && StreamsGrow(sys.streams, streams)
  {
    InitialIsValid();
    hide Valid, Next, AppendStep, Lookup;
    var s := StreamOf(sys.streams, route);
    NextKeeps(s, step);
    ClockFollows(s, step);
    NextAccepts(s, step);
    PutStream(sys.streams, route, Next(s, step), sys.clock, step.now);
    CoherenceGrows(Lookup(sys.rows, event), sys.attempts, sys.told, event, sys.streams, sys.streams[route := Next(s, step)]);
    hide StreamsHealthy, StreamsGrow, Unique, RowOk, AttemptsOk;
  }

  lemma InputIsVouched(event: EventId, fingerprint: Fingerprint, valid: bool, pin: Pin, matched: bool, payload: nat,
                       bytes: nat)
    requires PinOk(pin)
    ensures Vouched(InputFor(event, fingerprint, valid, pin, matched, payload, bytes))
  {
  }

  lemma DoKeepsCoherent(sys: System, event: EventId, move: Move)
    requires Coherent(sys, event) && Allowed(sys, event, move)
    ensures Coherent(Do(sys, event, move), event)
  {
    match move
    case PrepareMessage(id, fingerprint, pin, bytes, now) =>
      PrepareKeepsCoherent(sys, event, id, fingerprint, pin, bytes, now);
    case AppendMessage(id, matched, payload, payloadBytes, cursor, send, now) =>
      var attempt := sys.attempts[id];
      assert AttemptOk(attempt, event, sys.streams);
      InputIsVouched(event, attempt.fingerprint, attempt.fingerprint !in sys.invalid, attempt.phase.pin, matched, payload,
                     payloadBytes);
      AppendKeepsCoherent(sys, event, id, InputOf(sys, event, move), cursor, send, now);
    case FinalizeMessage(id, now) => FinalizeKeepsCoherent(sys, event, id, now);
    case RepinMessage(id, pin, now) => RepinKeepsCoherent(sys, event, id, pin, now);
    case Crash(id, now) =>
      HealthyLater(sys.streams, sys.clock, now);
      hide StreamsHealthy, RowOk, AttemptOk, Unique;
    case OtherRequest(request, now) => OtherKeepsCoherent(sys, event, request, now);
    case StreamMessage(route, step, now) => TrafficKeepsCoherent(sys, event, route, step);
  }

  /** Under every interleaving of any number of publishers, a committed row equals the acceptance that some
      stream recorded for the event. */
  lemma {:induction false} CommittedRowsAreReceipts(sys: System, event: EventId, moves: seq<Move>)
    requires Coherent(sys, event) && AllowedRun(sys, event, moves)
    ensures Coherent(DoAll(sys, event, moves), event)
    decreases |moves|
  {
    if moves != [] {
      DoKeepsCoherent(sys, event, moves[0]);
      CommittedRowsAreReceipts(Do(sys, event, moves[0]), event, moves[1..]);
    }
  }

  // ----- Attempts one after another -----

  /** No stream but `route` ever accepted the event. */
  ghost predicate OnlyAt(streams: map<Route, State>, event: EventId, route: Option<Route>) {
    forall r :: r in streams && Some(r) != route ==> !HasAccepted(streams[r], event)
  }

  /** Every acceptance of the event is young enough that its receipt outlives the deadline. */
  ghost predicate AllRecent(streams: map<Route, State>, event: EventId, deadline: nat) {
    forall r, k :: r in streams && 0 <= k < |streams[r].log.accepted|
                   && streams[r].log.accepted[k].eventId == event ==>
      streams[r].log.accepted[k].acceptedAt + RECEIPT_RETENTION_MS >= deadline
  }

  ghost predicate RowStory(row: Row, event: EventId, streams: map<Route, State>, invalid: set<Fingerprint>) {
    && (row.fingerprint in invalid ==> OnlyAt(streams, event, None))
    && match row.state
       case Pending => OnlyAt(streams, event, Some(row.pin.route))
       case Committed(sequence, acceptedAt) =>
         exists r :: r in streams && AcceptedAs(streams[r], event, row.fingerprint, sequence, acceptedAt)
                     && OnlyAt(streams, event, Some(r))
       case Rejected(_) => OnlyAt(streams, event, None)
  }

  ghost predicate AttemptStory(attempt: Attempt, row: Row, event: EventId, streams: map<Route, State>) {
    && row.state.Pending? && row.fingerprint == attempt.fingerprint && row.pin == attempt.phase.pin
    && (attempt.phase.Refusing? || attempt.phase.Displaced? ==> OnlyAt(streams, event, None))
  }

  /** Whoever was told anything was told the row. */
  ghost predicate ToldStory(told: seq<Told>, row: Row) {
    && (row.state.Pending? ==> told == [])
    && forall i :: 0 <= i < |told| ==>
         && told[i].fingerprint == row.fingerprint
         && row.state == match told[i].word
                         case Published(sequence, acceptedAt) => Committed(sequence, acceptedAt)
                         case TurnedDown(code) => Rejected(code)
  }

  ghost predicate OneAttempt(attempts: map<nat, Attempt>) {
    forall i, j :: i in attempts && j in attempts ==> i == j
  }

  /** Until the first row expires, ledger, streams and the attempt under way tell one story. */
  ghost predicate Story(sys: System, event: EventId) {
    && OneAttempt(sys.attempts)
    && match sys.deadline
       case None =>
         Lookup(sys.rows, event).None? && sys.attempts == map[] && OnlyAt(sys.streams, event, None) && sys.told == []
       case Some(deadline) =>
         && deadline <= sys.clock + RECEIPT_RETENTION_MS
         && (sys.clock < deadline ==>
               && Lookup(sys.rows, event).Some?
               && Lookup(sys.rows, event).value.expiresAt == deadline
               && AllRecent(sys.streams, event, deadline)
               && ToldStory(sys.told, Lookup(sys.rows, event).value)
               && RowStory(Lookup(sys.rows, event).value, event, sys.streams, sys.invalid)
               && forall id :: id in sys.attempts ==>
                    AttemptStory(sys.attempts[id], Lookup(sys.rows, event).value, event, sys.streams))
  }

  lemma UnseenIsRecent(streams: map<Route, State>, event: EventId, deadline: nat)
    requires OnlyAt(streams, event, None)
    ensures AllRecent(streams, event, deadline)
  {
    forall r, k | r in streams && 0 <= k < |streams[r].log.accepted| && streams[r].log.accepted[k].eventId == event
      ensures HasAccepted(streams[r], event)
    {
    }
  }

  lemma PrepareKeepsStory(sys: System, event: EventId, id: nat, fingerprint: Fingerprint, pin: Pin, bytes: nat, now: nat)
    requires Coherent(sys, event) && Story(sys, event)
    requires sys.clock <= now && sys.attempts == map[]
    ensures Story(DoPrepare(sys, event, id, fingerprint, pin, bytes, now), event)
  {
    assert Unique(sys.rows);
    hide Coherent, Story, DoPrepare, Unique;
    if sys.deadline.None? {
      FirstPrepare(sys, event, id, fingerprint, pin, bytes, now);
    } else if now < sys.deadline.value {
      RepeatedPrepare(sys, event, id, fingerprint, pin, bytes, now);
    } else {
      LatePrepare(sys, event, id, fingerprint, pin, bytes, now);
    }
  }

  lemma FirstPrepare(sys: System, event: EventId, id: nat, fingerprint: Fingerprint, pin: Pin, bytes: nat, now: nat)
    requires Unique(sys.rows) && Story(sys, event) && sys.attempts == map[] && sys.deadline.None? && sys.clock <= now
    ensures Story(DoPrepare(sys, event, id, fingerprint, pin, bytes, now), event)
  {
    hide Prepare, Lookup, HasAccepted, AllRecent, Unique, PruneRows, OnlyAt, Crammed;
    PrepareLeaves(sys.rows, event, fingerprint, pin, bytes, now);
    UnseenIsRecent(sys.streams, event, now + RECEIPT_RETENTION_MS);
    assert AtTime(Lookup(sys.rows, event), now).None?;
    var row := Row(event, fingerprint, pin, Pending, bytes, now + RECEIPT_RETENTION_MS);
    OnlyAtAny(sys.streams, event, pin.route);
    assert RowStory(row, event, sys.streams, sys.invalid) && ToldStory([], row);
  }

  lemma OnlyAtAny(streams: map<Route, State>, event: EventId, route: Route)
    requires OnlyAt(streams, event, None)
    ensures OnlyAt(streams, event, Some(route))
  {
  }

  lemma LatePrepare(sys: System, event: EventId, id: nat, fingerprint: Fingerprint, pin: Pin, bytes: nat, now: nat)
    requires Story(sys, event) && sys.attempts == map[] && sys.deadline.Some? && sys.deadline.value <= now && sys.clock <= now
    ensures Story(DoPrepare(sys, event, id, fingerprint, pin, bytes, now), event)
  {
    hide Prepare, Lookup, RowStory, AttemptStory, ToldStory, AllRecent;
  }

  /** A prepare of an event whose row still stands: nothing moves, and a settled row is told. */
  lemma RepeatedPrepare(sys: System, event: EventId, id: nat, fingerprint: Fingerprint, pin: Pin, bytes: nat, now: nat)
    requires Unique(sys.rows) && Story(sys, event) && sys.attempts == map[] && sys.clock <= now
    requires sys.deadline.Some? && now < sys.deadline.value
    ensures Story(DoPrepare(sys, event, id, fingerprint, pin, bytes, now), event)
  {
    hide Prepare, Lookup, HasAccepted, AllRecent, Unique, PruneRows, OnlyAt, RowStory;
    PrepareLeaves(sys.rows, event, fingerprint, pin, bytes, now);
    assert AtTime(Lookup(sys.rows, event), now) == Lookup(sys.rows, event);
    hide Crammed;
    var row := Lookup(sys.rows, event).value;
    var after := DoPrepare(sys, event, id, fingerprint, pin, bytes, now);
    assert Lookup(after.rows, event) == Some(row);
    assert ToldStory(after.told, row);
    PendingStory(row, event, sys.streams, sys.invalid);
  }

  lemma PendingStory(row: Row, event: EventId, streams: map<Route, State>, invalid: set<Fingerprint>)
    ensures row.state.Pending? ==> AttemptStory(Attempt(row.fingerprint, Pinned(row.pin, true)), row, event, streams)
  {
    hide OnlyAt;
  }

  /** The event's acceptances after an append of it. */
  lemma AppendKeepsStory(sys: System, event: EventId, id: nat, input: AppendInput, cursor: Cursor, send: Send, now: nat)
    requires Coherent(sys, event) && Story(sys, event)
    requires sys.clock <= now
    requires id in sys.attempts && sys.attempts[id].phase.Pinned?
    requires Vouched(input) && input.eventId == event && input.route == sys.attempts[id].phase.pin.route
    requires input.payloadValid <==> sys.attempts[id].fingerprint !in sys.invalid
    ensures Story(DoAppend(sys, id, input, cursor, send, now), event)
  {
    InitialIsValid();
    hide Valid, AppendStep, Vouched, Lookup;
    var s := StreamOf(sys.streams, input.route);
    AppendVerdict(s, input, cursor, now, send);
    if sys.deadline.Some? && now < sys.deadline.value {
      var append := AppendStep(s, input, cursor, now, send);
      var streams := sys.streams[input.route := append.state];
      AppendAcceptances(sys.streams, event, sys.deadline.value, input, append, cursor, now);
      hide AllOld, HasAccepted, AllRecent, OnlyAt, StreamsHealthy, Coherent;
    }
  }

  lemma AppendAcceptances(streams: map<Route, State>, event: EventId, deadline: nat, input: AppendInput,
                          append: Append, cursor: Cursor, now: nat)
    requires AllRecent(streams, event, deadline) && OnlyAt(streams, event, Some(input.route))
    requires now < deadline <= now + RECEIPT_RETENTION_MS
    requires input.eventId == event && (!input.payloadValid ==> OnlyAt(streams, event, None))
    requires append.result == Refused(PayloadInvalid) <==> !input.payloadValid
    requires var s := StreamOf(streams, input.route);
             && append.state.log.accepted
                == s.log.accepted + (if append.result.Accepted? then [EntryOf(input, cursor, now)] else [])
             && (append.result.Refused? && append.result.code != SourceConflict && append.result.code != PayloadInvalid ==>
                   AllOld(s.log, event, now))
    ensures var after := streams[input.route := append.state];
            && AllRecent(after, event, deadline) && OnlyAt(after, event, Some(input.route))
            && (!input.payloadValid || (append.result.Refused? && append.result.code != SourceConflict) ==>
                  OnlyAt(after, event, None))
  {
  }

  /** An attempt's own receipt or refusal settles its pending row truthfully. */
  lemma SettledStory(row: Row, attempt: Attempt, told: seq<Told>, event: EventId, streams: map<Route, State>,
                     invalid: set<Fingerprint>)
    requires AttemptOk(attempt, event, streams) && AttemptStory(attempt, row, event, streams)
    requires (attempt.phase.Delivered? || attempt.phase.Refusing?) && RowStory(row, event, streams, invalid) && ToldStory(told, row)
    ensures var settled := row.(pendingBytes := 0,
                                state := if attempt.phase.Delivered? then Committed(attempt.phase.sequence, attempt.phase.acceptedAt)
                                         else Rejected(attempt.phase.code));
            RowStory(settled, event, streams, invalid)
            && ToldStory(told + [Told(attempt.fingerprint, Outcome(attempt.phase))], settled)
  {
    hide OnlyAt, AcceptedAs;
  }

  lemma FinalizeKeepsStory(sys: System, event: EventId, id: nat, now: nat)
    requires Coherent(sys, event) && Story(sys, event)
    requires sys.clock <= now
    requires id in sys.attempts && (sys.attempts[id].phase.Delivered? || sys.attempts[id].phase.Refusing?)
    ensures Story(DoFinalize(sys, event, id, now), event)
  {
    var attempt := sys.attempts[id];
    assert AttemptOk(attempt, event, sys.streams) && Unique(sys.rows);
    assert sys.deadline.Some?;
    assert attempt.phase.Delivered? ==> attempt.phase.sequence >= 1;
    hide Coherent, Story, DoFinalize, AttemptOk, Unique;
    if now < sys.deadline.value {
      FinalizeSettles(sys, event, id, now);
    } else {
      LateFinalize(sys, event, id, now);
    }
  }

  lemma LateFinalize(sys: System, event: EventId, id: nat, now: nat)
    requires Story(sys, event) && sys.clock <= now && sys.deadline.Some? && sys.deadline.value <= now
    requires id in sys.attempts && (sys.attempts[id].phase.Delivered? || sys.attempts[id].phase.Refusing?)
    ensures Story(DoFinalize(sys, event, id, now), event)
  {
    hide Finalize, Lookup, RowStory, AttemptStory, ToldStory, AllRecent;
  }

  lemma FinalizeSettles(sys: System, event: EventId, id: nat, now: nat)
    requires Story(sys, event) && Unique(sys.rows) && sys.clock <= now && sys.deadline.Some? && now < sys.deadline.value
    requires id in sys.attempts && (sys.attempts[id].phase.Delivered? || sys.attempts[id].phase.Refusing?)
    requires AttemptOk(sys.attempts[id], event, sys.streams)
    requires sys.attempts[id].phase.Delivered? ==> sys.attempts[id].phase.sequence >= 1
    ensures Story(DoFinalize(sys, event, id, now), event)
  {
    var attempt, row := sys.attempts[id], Lookup(sys.rows, event).value;
    hide AttemptOk, Unique, Finalize, Lookup, RowStory, AttemptStory, ToldStory, AllRecent, OnlyAt;
    AttemptsRow(attempt, row, event, sys.streams);
    SettledStory(row, attempt, sys.told, event, sys.streams, sys.invalid);
    FinalizeLeaves(sys.rows, event, attempt.fingerprint, VerdictOf(attempt.phase));
    assert sys.attempts - {id} == map[];
  }

  lemma AttemptsRow(attempt: Attempt, row: Row, event: EventId, streams: map<Route, State>)
    requires AttemptStory(attempt, row, event, streams)
    ensures row.state.Pending? && row.fingerprint == attempt.fingerprint && row.pin == attempt.phase.pin
  {
  }

  lemma RepinKeepsStory(sys: System, event: EventId, id: nat, pin: Pin, now: nat)
    requires Coherent(sys, event) && Story(sys, event)
    requires sys.clock <= now
    requires id in sys.attempts && sys.attempts[id].phase.Displaced?
    ensures Story(DoRepin(sys, event, id, pin, now), event)
  {
    assert Unique(sys.rows) && sys.deadline.Some?;
    hide Coherent, Story, DoRepin, Unique;
    if now < sys.deadline.value {
      RepinMoves(sys, event, id, pin, now);
    } else {
      LateRepin(sys, event, id, pin, now);
    }
  }

  lemma LateRepin(sys: System, event: EventId, id: nat, pin: Pin, now: nat)
    requires Story(sys, event) && sys.clock <= now && sys.deadline.Some? && sys.deadline.value <= now
    requires id in sys.attempts
    ensures Story(DoRepin(sys, event, id, pin, now), event)
  {
    hide Repin, Lookup, RowStory, AttemptStory, ToldStory, AllRecent;
  }

  lemma RepinMoves(sys: System, event: EventId, id: nat, pin: Pin, now: nat)
    requires Story(sys, event) && Unique(sys.rows) && sys.clock <= now && sys.deadline.Some? && now < sys.deadline.value
    requires id in sys.attempts && sys.attempts[id].phase.Displaced?
    ensures Story(DoRepin(sys, event, id, pin, now), event)
  {
    var attempt, row := sys.attempts[id], Lookup(sys.rows, event).value;
    assert OnlyAt(sys.streams, event, None) && AttemptStory(attempt, row, event, sys.streams);
    OnlyAtAny(sys.streams, event, pin.route);
    hide Unique, Repin, Lookup, AllRecent, OnlyAt;
    RepinLeaves(sys.rows, event, attempt.fingerprint, attempt.phase.pin.route, pin);
    assert sys.attempts - {id} == map[];
  }

  lemma OtherKeepsStory(sys: System, event: EventId, request: Request, now: nat)
    requires Coherent(sys, event) && Story(sys, event)
    requires sys.clock <= now && request.eventId != event && (request.PrepareRequest? ==> request.now == now)
    ensures Story(sys.(clock := now, rows := Handle(sys.rows, request).rows), event)
  {
    HandleFrames(sys.rows, request, event);
    if request.PrepareRequest? {
      LookupPrune(sys.rows, now, event);
    }
    hide Coherent, RowStory, AttemptStory, AllRecent, OnlyAt, Handle, Lookup, PruneRows;
  }

  /** Traffic that never appends the event leaves its acceptances as they are. */
  lemma TrafficAcceptances(streams: map<Route, State>, event: EventId, route: Route, s: State, more: seq<Entry>)
    requires s.log.accepted == StreamOf(streams, route).log.accepted + more
    requires forall k :: 0 <= k < |more| ==> more[k].eventId != event
    ensures forall target :: OnlyAt(streams, event, target) ==> OnlyAt(streams[route := s], event, target)
    ensures forall deadline :: AllRecent(streams, event, deadline) ==> AllRecent(streams[route := s], event, deadline)
  {
  }

  lemma TrafficKeepsStory(sys: System, event: EventId, route: Route, step: Step)
    requires Coherent(sys, event) && Story(sys, event)
    requires sys.clock <= step.now && !(step.AppendAt? && step.input.eventId == event)
    ensures Story(sys.(clock := step.now, streams := sys.streams[route := Next(StreamOf(sys.streams, route), step)]), event)
  {
    InitialIsValid();
    hide Valid, Next, AppendStep, Lookup;
    var s := StreamOf(sys.streams, route);
    NextAccepts(s, step);
    var after := Next(s, step);
    TrafficAcceptances(sys.streams, event, route, after,
                       if Accepts(s, step) then [EntryOf(step.input, step.cursor, step.now)] else []);
    hide HasAccepted, AllRecent, OnlyAt, StreamsHealthy;
  }

  lemma DoKeepsStory(sys: System, event: EventId, move: Move)
    requires Coherent(sys, event) && Story(sys, event) && Allowed(sys, event, move)
    requires move.PrepareMessage? ==> sys.attempts == map[]
    ensures Story(Do(sys, event, move), event)
  {
    match move
    case PrepareMessage(id, fingerprint, pin, bytes, now) =>
      PrepareKeepsStory(sys, event, id, fingerprint, pin, bytes, now);
    case AppendMessage(id, matched, payload, payloadBytes, cursor, send, now) =>
      var attempt := sys.attempts[id];
      assert AttemptOk(attempt, event, sys.streams);
      InputIsVouched(event, attempt.fingerprint, attempt.fingerprint !in sys.invalid, attempt.phase.pin, matched, payload,
                     payloadBytes);
      AppendKeepsStory(sys, event, id, InputOf(sys, event, move), cursor, send, now);
    case FinalizeMessage(id, now) => FinalizeKeepsStory(sys, event, id, now);
    case RepinMessage(id, pin, now) => RepinKeepsStory(sys, event, id, pin, now);
    case Crash(id, now) =>
      hide Coherent, RowStory, AllRecent, OnlyAt, Lookup;
    case OtherRequest(request, now) => OtherKeepsStory(sys, event, request, now);
    case StreamMessage(route, step, now) => TrafficKeepsStory(sys, event, route, step);
  }

  lemma {:induction false} RunKeepsStory(sys: System, event: EventId, moves: seq<Move>)
    requires Coherent(sys, event) && Story(sys, event)
    requires AllowedRun(sys, event, moves) && OneByOne(sys, event, moves)
    ensures Coherent(DoAll(sys, event, moves), event) && Story(DoAll(sys, event, moves), event)
    decreases |moves|
  {
    if moves != [] {
      DoKeepsCoherent(sys, event, moves[0]);
      DoKeepsStory(sys, event, moves[0]);
      RunKeepsStory(Do(sys, event, moves[0]), event, moves[1..]);
    }
  }

  /** A world that has never seen the event: any ledger rows, any streams, no acceptance of it. */
  ghost predicate Unseen(sys: System, event: EventId) {
    && Unique(sys.rows) && StreamsHealthy(sys.streams, sys.clock)
    && Lookup(sys.rows, event).None? && OnlyAt(sys.streams, event, None)
    && sys.attempts == map[] && sys.deadline.None? && sys.told == []
  }

  /** Publication survives crashes and moves. For attempts run one after another, each cut off anywhere, with
      arbitrary other traffic and binding moves between their messages, and until the event's first ledger row
      expires: at most one stream holds the event, once; a committed row names that acceptance; an event
      rejected through finalize, or whose payload the streams refuse, was accepted nowhere; and all publishers that
      were told anything were told the same: the acceptance, or a rejection of an event accepted nowhere. */
  lemma PublishedAtMostOnce(start: System, event: EventId, moves: seq<Move>)
    requires Unseen(start, event)
    requires AllowedRun(start, event, moves) && OneByOne(start, event, moves)
    requires var deadline := DoAll(start, event, moves).deadline;
             deadline.Some? ==> DoAll(start, event, moves).clock < deadline.value
    ensures var sys := DoAll(start, event, moves);
            && (forall r, q, i, j ::
                  r in sys.streams && q in sys.streams
                  && 0 <= i < |sys.streams[r].log.accepted| && sys.streams[r].log.accepted[i].eventId == event
                  && 0 <= j < |sys.streams[q].log.accepted| && sys.streams[q].log.accepted[j].eventId == event ==>
                  r == q && i == j)
            && (Lookup(sys.rows, event).Some? ==> RowStory(Lookup(sys.rows, event).value, event, sys.streams, sys.invalid))
            && (forall i, j :: 0 <= i < |sys.told| && 0 <= j < |sys.told| ==> sys.told[i] == sys.told[j])
            && (forall i :: 0 <= i < |sys.told| ==>
                  if sys.told[i].word.Published?
                  then Witnessed(sys.streams, event, sys.told[i].fingerprint, sys.told[i].word.sequence, sys.told[i].word.acceptedAt)
                  else OnlyAt(sys.streams, event, None))
  {
    RunKeepsStory(start, event, moves);
    var sys := DoAll(start, event, moves);
    hide DoAll, AllowedRun, OneByOne, Unseen, RowStory;
    StoryTells(sys, event);
    ToldTells(sys, event);
    hide Story, Coherent;
  }

  lemma StoryTells(sys: System, event: EventId)
    requires Coherent(sys, event) && Story(sys, event)
    requires sys.deadline.Some? ==> sys.clock < sys.deadline.value
    ensures forall r, q, i, j ::
              r in sys.streams && q in sys.streams
              && 0 <= i < |sys.streams[r].log.accepted| && sys.streams[r].log.accepted[i].eventId == event
              && 0 <= j < |sys.streams[q].log.accepted| && sys.streams[q].log.accepted[j].eventId == event ==>
              r == q && i == j
    ensures Lookup(sys.rows, event).Some? ==> RowStory(Lookup(sys.rows, event).value, event, sys.streams, sys.invalid)
  {
    forall r, q, i, j |
      r in sys.streams && q in sys.streams
      && 0 <= i < |sys.streams[r].log.accepted| && sys.streams[r].log.accepted[i].eventId == event
      && 0 <= j < |sys.streams[q].log.accepted| && sys.streams[q].log.accepted[j].eventId == event
      ensures r == q && i == j
    {
      OneAcceptance(sys, event, r, q, i, j);
    }
    hide RowStory, AttemptStory, AllRecent, OnlyAt;
  }

  lemma ToldTells(sys: System, event: EventId)
    requires Coherent(sys, event) && Story(sys, event)
    requires sys.deadline.Some? ==> sys.clock < sys.deadline.value
    ensures forall i, j :: 0 <= i < |sys.told| && 0 <= j < |sys.told| ==> sys.told[i] == sys.told[j]
    ensures forall i :: 0 <= i < |sys.told| ==>
              if sys.told[i].word.Published?
              then Witnessed(sys.streams, event, sys.told[i].fingerprint, sys.told[i].word.sequence, sys.told[i].word.acceptedAt)
              else OnlyAt(sys.streams, event, None)
  {
    hide Unique, StreamsHealthy, RowOk, AttemptOk, AttemptStory, AllRecent, OnlyAt, Witnessed, AcceptedAs;
  }

  lemma OneAcceptance(sys: System, event: EventId, r: Route, q: Route, i: nat, j: nat)
    requires Coherent(sys, event) && Story(sys, event)
    requires sys.deadline.Some? ==> sys.clock < sys.deadline.value
    requires r in sys.streams && i < |sys.streams[r].log.accepted| && sys.streams[r].log.accepted[i].eventId == event
    requires q in sys.streams && j < |sys.streams[q].log.accepted| && sys.streams[q].log.accepted[j].eventId == event
    ensures r == q && i == j
  {
    hide Story, RowStory, RowOk, AttemptsOk, Unique, Lookup;
    assert HasAccepted(sys.streams[r], event) && HasAccepted(sys.streams[q], event);
    SameStream(sys, event, r, q);
    assert Valid(sys.streams[r]) && sys.streams[r].log.clock <= sys.clock;
    assert AcceptedOnce(sys.streams[r].log.accepted) && Ordered(sys.streams[r].log.accepted, sys.streams[r].log.clock) by {
      hide Ordered, AcceptedOnce, AllRecent;
    }
    hide Coherent, Inv, Valid, HasAccepted;
  }

  lemma SameStream(sys: System, event: EventId, r: Route, q: Route)
    requires Story(sys, event) && (sys.deadline.Some? ==> sys.clock < sys.deadline.value)
    requires r in sys.streams && q in sys.streams
    requires HasAccepted(sys.streams[r], event) && HasAccepted(sys.streams[q], event)
    ensures r == q
    ensures sys.deadline.Some? && AllRecent(sys.streams, event, sys.deadline.value)
  {
    hide HasAccepted;
  }

  // ----- What each message leads to -----

  /** The append a pinned attempt makes. */
  function AppendOf(sys: System, event: EventId, id: nat, matched: bool, payload: nat, payloadBytes: nat): AppendInput
    requires id in sys.attempts
  {
    var fingerprint, pin := sys.attempts[id].fingerprint, sys.attempts[id].phase.pin;
    var lookup := pin.direction.Some? && !matched;
    AppendInput(event, fingerprint, pin.route, pin.revision, payload, payloadBytes, fingerprint !in sys.invalid,
                if pin.direction.Some? && matched then Some(BindingRef(pin.direction.value, pin.revision, pin.route.realm)) else None,
                lookup)
  }

  /** What becomes of the attempts when one is answered: a receipt is carried to the ledger, a lasting refusal too, a
      transition on a shared route leads to another route once, and anything else ends the attempt. */
  function Answered(attempts: map<nat, Attempt>, id: nat, result: AppendResult): map<nat, Attempt>
    requires id in attempts
  {
    var attempt := attempts[id];
    var pin := attempt.phase.pin;
    match result
    case Accepted(sequence, at) => attempts[id := attempt.(phase := Delivered(pin, sequence, at))]
    case Replayed(sequence, at) => attempts[id := attempt.(phase := Delivered(pin, sequence, at))]
    case Refused(code) =>
      if code in {ConsumerUnavailable, StreamFull, GapRequiresReset, PayloadInvalid}
      then attempts[id := attempt.(phase := Refusing(pin, code))]
      else if code == Transition && attempt.phase.Pinned? && attempt.phase.first && pin.direction.Some?
      then attempts[id := attempt.(phase := Displaced(pin))]
      else attempts - {id}
  }

  lemma AppendIs(sys: System, event: EventId, id: nat, matched: bool, payload: nat, payloadBytes: nat, cursor: Cursor,
                 send: Send, now: nat)
    requires Allowed(sys, event, AppendMessage(id, matched, payload, payloadBytes, cursor, send, now))
    ensures var input := AppendOf(sys, event, id, matched, payload, payloadBytes);
            var out := AppendStep(StreamOf(sys.streams, input.route), input, cursor, now, send);
            Do(sys, event, AppendMessage(id, matched, payload, payloadBytes, cursor, send, now))
            == sys.(clock := now, streams := sys.streams[input.route := out.state],
                    attempts := Answered(sys.attempts, id, out.result))
  {
    hide AppendStep;
  }

  lemma RecipientIs(sys: System, event: EventId, route: Route)
    requires Coherent(sys, event)
    ensures Valid(StreamOf(sys.streams, route)) && StreamOf(sys.streams, route).log.clock <= sys.clock
    ensures |StreamOf(sys.streams, route).log.fates| <= |StreamOf(sys.streams, route).log.accepted|
  {
    InitialIsValid();
    hide Unique, RowOk, AttemptsOk, ToldOk, Ordered, Spaced, AcceptedOnce, ReceiptsMatch, IngressMatch, ExpiryRecorded;
  }

  /** An append goes to the pinned stream, which answers from its history. */
  lemma AppendLeads(sys: System, event: EventId, id: nat, matched: bool, payload: nat, payloadBytes: nat, cursor: Cursor,
                    send: Send, now: nat)
    requires Coherent(sys, event) && Allowed(sys, event, AppendMessage(id, matched, payload, payloadBytes, cursor, send, now))
    ensures var after := Do(sys, event, AppendMessage(id, matched, payload, payloadBytes, cursor, send, now));
            var input := AppendOf(sys, event, id, matched, payload, payloadBytes);
            var s := StreamOf(sys.streams, input.route);
            && |s.log.fates| <= |s.log.accepted|
            && after == sys.(clock := now, streams := sys.streams[input.route := AppendStep(s, input, cursor, now, send).state],
                             attempts := Answered(sys.attempts, id, StreamEffects.Answer(s, input, cursor, now)))
  {
    var input := AppendOf(sys, event, id, matched, payload, payloadBytes);
    hide Valid, Coherent, Do, AppendStep, Answered, StreamOf, StreamEffects.Answer;
    RecipientIs(sys, event, input.route);
    AppendIs(sys, event, id, matched, payload, payloadBytes, cursor, send, now);
    StreamEffects.AppendAnswers(StreamOf(sys.streams, input.route), input, cursor, now, send);
  }

  /** A binding the registry no longer vouches for makes the append a lookup: it accepts nothing. */
  lemma UnmatchedOnlyLooks(sys: System, event: EventId, id: nat, payload: nat, payloadBytes: nat, cursor: Cursor, send: Send,
                           now: nat)
    requires Coherent(sys, event) && Allowed(sys, event, AppendMessage(id, false, payload, payloadBytes, cursor, send, now))
    requires sys.attempts[id].phase.pin.direction.Some?
    ensures var after := Do(sys, event, AppendMessage(id, false, payload, payloadBytes, cursor, send, now));
            var route := sys.attempts[id].phase.pin.route;
            StreamOf(after.streams, route).log.accepted == StreamOf(sys.streams, route).log.accepted
  {
    var input := AppendOf(sys, event, id, false, payload, payloadBytes);
    var s := StreamOf(sys.streams, input.route);
    hide Valid, Coherent, Do, AppendStep, Answered;
    RecipientIs(sys, event, input.route);
    AppendIs(sys, event, id, false, payload, payloadBytes, cursor, send, now);
    StreamEffects.AppendAnswers(s, input, cursor, now, send);
    LookupAcceptsNothing(s, input, cursor, now);
    NextAccepts(s, AppendAt(input, cursor, now, send));
  }

  lemma LookupAcceptsNothing(s: State, input: AppendInput, cursor: Cursor, now: nat)
    requires input.recoveryOnly && |s.log.fates| <= |s.log.accepted|
    ensures !StreamEffects.Answer(s, input, cursor, now).Accepted?
  {
    hide StreamEffects.Served, StreamEffects.Crowded;
  }

  /** A prepare of a new event pins it and starts the attempt; of a settled one it tells the row and starts none. */
  lemma PrepareLeads(sys: System, event: EventId, id: nat, fingerprint: Fingerprint, pin: Pin, bytes: nat, now: nat)
    requires Unique(sys.rows) && Allowed(sys, event, PrepareMessage(id, fingerprint, pin, bytes, now))
    ensures var after := Do(sys, event, PrepareMessage(id, fingerprint, pin, bytes, now));
            var kept := AtTime(Lookup(sys.rows, event), now);
            && after.streams == sys.streams
            && if kept.Some? && kept.value.fingerprint == fingerprint then
                 && Lookup(after.rows, event) == kept
                 && (match kept.value.state
                     case Pending => after.told == sys.told
                                     && after.attempts == sys.attempts[id := Attempt(fingerprint, Pinned(kept.value.pin, true))]
                     case Committed(sequence, acceptedAt) =>
                       after.told == sys.told + [Told(fingerprint, Published(sequence, acceptedAt))] && after.attempts == sys.attempts
                     case Rejected(code) =>
                       after.told == sys.told + [Told(fingerprint, TurnedDown(code))] && after.attempts == sys.attempts)
               else if kept.Some? || Crammed(PruneRows(sys.rows, now), bytes) then
                 after.rows == sys.rows && after.told == sys.told && after.attempts == sys.attempts
               else
                 && Lookup(after.rows, event) == Some(Row(event, fingerprint, pin, Pending, bytes, now + 7_200_000))
                 && after.told == sys.told && after.attempts == sys.attempts[id := Attempt(fingerprint, Pinned(pin, true))]
  {
    PrepareLeaves(sys.rows, event, fingerprint, pin, bytes, now);
    assert id !in sys.attempts;
    assert sys.attempts - {id} == sys.attempts;
    hide Unique, Prepare, PruneRows, Crammed, AtTime, Lookup;
  }

  /** A receipt or refusal carried to a pending row of the same payload settles it, and the publisher is told. */
  lemma FinalizeLeads(sys: System, event: EventId, id: nat, now: nat)
    requires Unique(sys.rows) && Allowed(sys, event, FinalizeMessage(id, now))
    requires Lookup(sys.rows, event).Some? && Lookup(sys.rows, event).value.state.Pending?
    requires Lookup(sys.rows, event).value.fingerprint == sys.attempts[id].fingerprint
    requires sys.attempts[id].phase.Delivered? ==> sys.attempts[id].phase.sequence >= 1
    ensures var after, attempt, row := Do(sys, event, FinalizeMessage(id, now)), sys.attempts[id], Lookup(sys.rows, event).value;
            && after.streams == sys.streams && after.attempts == sys.attempts - {id}
            && if attempt.phase.Delivered? then
                 && Lookup(after.rows, event)
                    == Some(row.(state := Committed(attempt.phase.sequence, attempt.phase.acceptedAt), pendingBytes := 0))
                 && after.told
                    == sys.told + [Told(attempt.fingerprint, Published(attempt.phase.sequence, attempt.phase.acceptedAt))]
               else
                 && Lookup(after.rows, event) == Some(row.(state := Rejected(attempt.phase.code), pendingBytes := 0))
                 && after.told == sys.told + [Told(attempt.fingerprint, TurnedDown(attempt.phase.code))]
  {
    FinalizeLeaves(sys.rows, event, sys.attempts[id].fingerprint, VerdictOf(sys.attempts[id].phase));
    hide Unique, Finalize, Lookup;
  }

  /** A displaced attempt on a pending row of its payload moves to the newly resolved route, if that is another one. */
  lemma RepinLeads(sys: System, event: EventId, id: nat, pin: Pin, now: nat)
    requires Unique(sys.rows) && Allowed(sys, event, RepinMessage(id, pin, now))
    requires Lookup(sys.rows, event).Some? && Lookup(sys.rows, event).value.state.Pending?
    requires Lookup(sys.rows, event).value.fingerprint == sys.attempts[id].fingerprint
    requires Lookup(sys.rows, event).value.pin == sys.attempts[id].phase.pin
    ensures var after, old' := Do(sys, event, RepinMessage(id, pin, now)), sys.attempts[id].phase.pin;
            && after.streams == sys.streams && after.told == sys.told
            && if pin.route == old'.route && pin.revision == old'.revision then
                 after.rows == sys.rows && after.attempts == sys.attempts - {id}
               else
                 && Lookup(after.rows, event) == Some(Lookup(sys.rows, event).value.(pin := pin))
                 && after.attempts == sys.attempts[id := Attempt(sys.attempts[id].fingerprint, Pinned(pin, false))]
  {
    RepinLeaves(sys.rows, event, sys.attempts[id].fingerprint, sys.attempts[id].phase.pin.route, pin);
    hide Unique, Repin, Lookup;
  }

  lemma OneMove(sys: System, event: EventId, move: Move, rest: seq<Move>)
    requires Allowed(sys, event, move) && AllowedRun(Do(sys, event, move), event, rest)
    ensures AllowedRun(sys, event, [move] + rest)
    ensures DoAll(sys, event, [move] + rest) == DoAll(Do(sys, event, move), event, rest)
  {
    hide Allowed, Do;
    assert ([move] + rest)[1..] == rest;
  }

  lemma EntryCompletes(sys: System, event: EventId, id: nat, fingerprint: Fingerprint, pin: Pin, bytes: nat, now: nat)
    requires Coherent(sys, event) && id !in sys.attempts && PinOk(pin) && sys.clock <= now
    requires AtTime(Lookup(sys.rows, event), now).None? && !Crammed(PruneRows(sys.rows, now), bytes)
    ensures Allowed(sys, event, PrepareMessage(id, fingerprint, pin, bytes, now))
    ensures var after := Do(sys, event, PrepareMessage(id, fingerprint, pin, bytes, now));
            && Coherent(after, event)
            && Lookup(after.rows, event) == Some(Row(event, fingerprint, pin, Pending, bytes, now + 7_200_000))
            && after == sys.(clock := now, rows := after.rows, deadline := after.deadline,
                             attempts := sys.attempts[id := Attempt(fingerprint, Pinned(pin, true))])
  {
    var prepare := PrepareMessage(id, fingerprint, pin, bytes, now);
    CoherentIsUnique(sys, event);
    hide Coherent, Lookup, AtTime, Crammed, PruneRows, Prepare;
    PrepareLeads(sys, event, id, fingerprint, pin, bytes, now);
    DoKeepsCoherent(sys, event, prepare);
  }

  lemma AcceptanceCompletes(sys: System, event: EventId, id: nat, payload: nat, payloadBytes: nat, cursor: Cursor, send: Send,
                            sequence: nat, now: nat)
    requires Coherent(sys, event) && id in sys.attempts && sys.attempts[id].phase.Pinned? && sys.clock <= now
    requires var input := AppendOf(sys, event, id, true, payload, payloadBytes);
             var s := StreamOf(sys.streams, input.route);
             |s.log.fates| <= |s.log.accepted| && StreamEffects.Answer(s, input, cursor, now) == Accepted(sequence, now)
    ensures Allowed(sys, event, AppendMessage(id, true, payload, payloadBytes, cursor, send, now))
    ensures var after := Do(sys, event, AppendMessage(id, true, payload, payloadBytes, cursor, send, now));
            && Coherent(after, event) && after.rows == sys.rows && after.told == sys.told && after.clock == now
            && after.attempts == sys.attempts[id := sys.attempts[id].(phase := Delivered(sys.attempts[id].phase.pin, sequence, now))]
  {
    var move := AppendMessage(id, true, payload, payloadBytes, cursor, send, now);
    assert Allowed(sys, event, move);
    hide *;
    AppendLeads(sys, event, id, true, payload, payloadBytes, cursor, send, now);
    AcceptedIsDelivered(sys.attempts, id, sequence, now);
    DoKeepsCoherent(sys, event, move);
  }

  lemma AcceptedIsDelivered(attempts: map<nat, Attempt>, id: nat, sequence: nat, now: nat)
    requires id in attempts
    ensures Answered(attempts, id, Accepted(sequence, now))
            == attempts[id := attempts[id].(phase := Delivered(attempts[id].phase.pin, sequence, now))]
  {
  }

  /** An undisturbed publication of a new event that its stream accepts: entered, accepted, committed with the stream's
      receipt, and told. */
  lemma PublicationCompletes(sys: System, event: EventId, id: nat, fingerprint: Fingerprint, pin: Pin, bytes: nat,
                             payload: nat, payloadBytes: nat, cursor: Cursor, send: Send, prepared: nat, appended: nat,
                             finalized: nat)
    requires Coherent(sys, event) && id !in sys.attempts && PinOk(pin) && sys.clock <= prepared <= appended <= finalized
    requires AtTime(Lookup(sys.rows, event), prepared).None? && !Crammed(PruneRows(sys.rows, prepared), bytes)
    requires var s := StreamOf(sys.streams, pin.route);
             |s.log.fates| <= |s.log.accepted|
             && StreamEffects.Answer(s, AppendInput(event, fingerprint, pin.route, pin.revision, payload, payloadBytes,
                                                    fingerprint !in sys.invalid,
                                                    if pin.direction.Some?
                                                    then Some(BindingRef(pin.direction.value, pin.revision, pin.route.realm))
                                                    else None, false), cursor, appended).Accepted?
    ensures var moves := [PrepareMessage(id, fingerprint, pin, bytes, prepared)]
                         + ([AppendMessage(id, true, payload, payloadBytes, cursor, send, appended)]
                            + ([FinalizeMessage(id, finalized)] + []));
            && AllowedRun(sys, event, moves)
            && var after, sequence := DoAll(sys, event, moves), |StreamOf(sys.streams, pin.route).log.accepted| + 1;
               && Lookup(after.rows, event)
                  == Some(Row(event, fingerprint, pin, Committed(sequence, appended), 0, prepared + 7_200_000))
               && after.told == sys.told + [Told(fingerprint, Published(sequence, appended))] && id !in after.attempts
  {
    hide Coherent, Do, DoAll, AllowedRun, Lookup, AtTime, Crammed, PruneRows, StreamEffects.Answer, StreamOf, PinOk;
    var prepare := PrepareMessage(id, fingerprint, pin, bytes, prepared);
    var append := AppendMessage(id, true, payload, payloadBytes, cursor, send, appended);
    var finalize := FinalizeMessage(id, finalized);
    EntryCompletes(sys, event, id, fingerprint, pin, bytes, prepared);
    var first := Do(sys, event, prepare);
    var sequence := |StreamOf(sys.streams, pin.route).log.accepted| + 1;
    AnswerIsNext(StreamOf(sys.streams, pin.route), AppendOf(first, event, id, true, payload, payloadBytes), cursor, appended);
    AcceptanceCompletes(first, event, id, payload, payloadBytes, cursor, send, sequence, appended);
    var second := Do(first, event, append);
    CoherentIsUnique(second, event);
    FinalizeLeads(second, event, id, finalized);
    assert Allowed(second, event, finalize);
    NoMoves(Do(second, event, finalize), event);
    hide Allowed;
    OneMove(second, event, finalize, []);
    OneMove(first, event, append, [finalize] + []);
    OneMove(sys, event, prepare, [append] + ([finalize] + []));
  }

  lemma NoMoves(sys: System, event: EventId)
    ensures AllowedRun(sys, event, []) && DoAll(sys, event, []) == sys
  {
  }

  lemma CoherentIsUnique(sys: System, event: EventId)
    requires Coherent(sys, event)
    ensures Unique(sys.rows)
  {
  }

  lemma AnswerIsNext(s: State, input: AppendInput, cursor: Cursor, now: nat)
    requires |s.log.fates| <= |s.log.accepted|
    ensures StreamEffects.Answer(s, input, cursor, now).Accepted? ==>
              StreamEffects.Answer(s, input, cursor, now) == Accepted(|s.log.accepted| + 1, now)
  {
    hide StreamEffects.Served, StreamEffects.Crowded;
  }

  /** Every message takes the system to its own time and leaves payloads as valid as they were; a crash or other traffic
      tells nobody anything. */
  lemma MessageTimes(sys: System, event: EventId, move: Move)
    requires Allowed(sys, event, move)
    ensures Do(sys, event, move).clock == move.now && Do(sys, event, move).invalid == sys.invalid
    ensures move.Crash? || move.OtherRequest? || move.StreamMessage? ==>
              Do(sys, event, move).told == sys.told
              && Do(sys, event, move).attempts == if move.Crash? then sys.attempts - {move.id} else sys.attempts
  {
    hide Prepare, Finalize, Repin, AppendStep, Next, Handle;
  }
}
