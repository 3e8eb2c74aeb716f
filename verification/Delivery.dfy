/** From the stream to the browser's handler: frames and acknowledgements that may be lost, connections that
    come and go, handlers that fail, and a bounded list of recent event IDs. */
module Delivery {
  import opened Contract
  import opened Tables
  import opened EventLog
  import opened Stream
  import opened StreamSafety
  import opened StreamTheorems
  import opened RecentIds

  // ----- Frames a stream step sends -----

  function Emitted(s: State, step: Step): Option<Frame> {
    match step
    case AppendAt(input, cursor, now, send) => AppendStep(s, input, cursor, now, send).frame
    case MessageAt(socket, message, environment, now, readySent, send) =>
      MessageStep(s, socket, message, environment, now, readySent, send).frame
    case _ => None
  }

  /** What a step may do to one socket's attachment, given the frame it sent. */
  ghost predicate SocketFollows(s: State, step: Step, after: State, frame: Option<Frame>, i: nat) {
    && |s.sockets| <= |after.sockets|
    && (i < |after.sockets| && after.sockets[i].Some? ==>
      var a := after.sockets[i].value;
      if frame.Some? && frame.value.socket == i then
        && a.registered && a.sent == frame.value.event.sequence > a.acked
        && i < |s.sockets| && s.sockets[i].Some?
        && (var before := s.sockets[i].value;
            || !before.registered || before.sent <= before.acked || (step.MessageAt? && step.message.AckMessage? && step.socket == i))
        && (!s.sockets[i].value.registered ==> step.MessageAt? && step.message.RegisterMessage? && step.socket == i)
      else
        || (i < |s.sockets| && after.sockets[i] == s.sockets[i])
        || (i >= |s.sockets| && !a.registered)
        || (step.MessageAt? && step.socket == i && i < |s.sockets| && s.sockets[i].Some?
            && if step.message.RegisterMessage? then !s.sockets[i].value.registered
               else step.message.AckMessage? && s.sockets[i].value.registered))
    && (frame.Some? ==>
          var t := frame.value.socket;
          t < |s.sockets| && t < |after.sockets| && after.sockets[t].Some?)
  }

  /** A sent frame is the event after the acknowledged one, exactly as it was accepted. */
  ghost predicate FrameIsNext(log: Log, event: Event) {
    && log.acked < |log.accepted|
    && event == EventOf(log.accepted[log.acked], log.acked + 1)
  }

  /** At most one socket changes, by being sent the next event while it had nothing outstanding. */
  ghost predicate Pushes(before: Sockets, after: State, frame: Option<Frame>) {
    && |after.sockets| == |before|
    && (forall i :: 0 <= i < |before| && !(frame.Some? && i == frame.value.socket) ==> after.sockets[i] == before[i])
    && (frame.Some? ==>
          var t := frame.value.socket;
          && t < |before| && before[t].Some? && before[t].value.registered
          && before[t].value.sent <= before[t].value.acked
          && after.sockets[t].Some? && after.sockets[t].value.registered
          && after.sockets[t].value.acked == before[t].value.acked
          && after.sockets[t].value.sent == frame.value.event.sequence > before[t].value.acked
          && FrameIsNext(after.log, frame.value.event))
  }

  lemma SendNextPushes(s: State, socket: SocketId, now: nat, send: Send)
    requires Valid(s)
    ensures Pushes(s.sockets, SendNext(s, socket, now, send).state, SendNext(s, socket, now, send).frame)
    ensures SendNext(s, socket, now, send).frame.Some? ==> SendNext(s, socket, now, send).frame.value.socket == socket
  {
    var d := SendNext(s, socket, now, send);
    if d.frame.Some? {
      NextRowIsOldest(s.log);
      assert Outstanding(s.log, s.sockets[socket].value);
    }
    hide Inv, NextRow;
  }

  lemma BoundPushes(b: State, input: AppendInput, cursor: Cursor, now: nat, send: Send)
    requires Valid(b) && Pruned(b.log, now)
    requires FindReceipt(b.log.receipts, input.eventId).None?
    ensures Pushes(b.sockets, AppendBound(b, input, cursor, now, send).state, AppendBound(b, input, cursor, now, send).frame)
  {
    if Refusal(b, input, cursor, now).None? {
      AcceptKeeps(b, input, cursor, now);
      var accepted := Accept(b, input, cursor, now);
      assert accepted.sockets == b.sockets;
      hide Valid, Refusal, Accept, SendNext, FrameIsNext, FindSelected;
      if CurrentSocket(accepted).Some? {
        SendNextPushes(accepted, CurrentSocket(accepted).value, now, send);
      }
    }
    hide FrameIsNext, Valid, Refusal;
  }

  lemma PruneKeepsSockets(s: State, now: nat)
    ensures PruneStep(s, now).sockets == s.sockets
  {
  }

  lemma BindKeepsSockets(s: State, input: AppendInput)
    requires Bind(s, input).Some?
    ensures Bind(s, input).value.sockets == s.sockets
  {
  }

  lemma AppendPushes(s: State, input: AppendInput, cursor: Cursor, now: nat, send: Send)
    requires Valid(s) && s.log.clock <= now
    ensures Pushes(s.sockets, AppendStep(s, input, cursor, now, send).state, AppendStep(s, input, cursor, now, send).frame)
  {
    hide PruneStep, Valid, FrameIsNext, AppendBound, Pruned, Bind;
    PruneStepKeeps(s, now);
    PruneKeepsSockets(s, now);
    var p := PruneStep(s, now);
    if FindReceipt(p.log.receipts, input.eventId).None? && Bind(p, input).Some? {
      BindKeeps(p, input);
      BindKeepsSockets(p, input);
      BoundPushes(Bind(p, input).value, input, cursor, now, send);
    }
  }

  lemma MessageSockets(s: State, step: Step, i: nat)
    requires Valid(s) && step.MessageAt?
    ensures SocketFollows(s, step, Next(s, step), Emitted(s, step), i)
    ensures Emitted(s, step).Some? ==> FrameIsNext(Next(s, step).log, Emitted(s, step).value.event)
  {
    hide SendNext, FrameIsNext, Inv, AcknowledgeThrough, HasRow;
    var socket := step.socket;
    if socket < |s.sockets| && s.sockets[socket].Some? {
      var a := s.sockets[socket].value;
      if step.message.AckMessage? && Selected(s.desk, a) && a.sentCursor == Some(step.message.cursor) && a.sent > s.log.acked {
        SettledKeeps(s, socket, step.message.cursor);
        SendNextPushes(Settled(s, socket, a, step.message.cursor), socket, step.now, step.send);
      }
      if step.message.RegisterMessage? && !a.registered && s.log.gap.None? && a.grantId in s.grants && s.grants[a.grantId].status == Active {
        EnrolledKeeps(s, socket, a);
        SendNextPushes(Enrolled(s, socket, a), socket, step.now, step.send);
      }
    }
    hide Valid;
  }

  lemma IssueSockets(s: State, request: GrantRequest)
    ensures IssueGrantStep(s, request).state.sockets == s.sockets
  {
    hide RenewGrants, Reset;
  }

  /** Accepting, closing, revoking, notifying and alarms send nothing and leave attachments alone. */
  lemma OtherSockets(s: State, step: Step, i: nat)
    requires !step.AppendAt? && !step.MessageAt? && !step.IssueAt?
    ensures SocketFollows(s, step, Next(s, step), None, i)
  {
    hide Prune, FindSelected, MovedPast, AppendStep, MessageStep, IssueGrantStep;
  }

  lemma NextSockets(s: State, step: Step, i: nat)
    requires Valid(s) && s.log.clock <= step.now
    ensures SocketFollows(s, step, Next(s, step), Emitted(s, step), i)
    ensures Emitted(s, step).Some? ==> FrameIsNext(Next(s, step).log, Emitted(s, step).value.event)
  {
    hide Valid, FrameIsNext;
    match step
    case AppendAt(input, cursor, now, send) =>
      AppendPushes(s, input, cursor, now, send);
      hide AppendStep;
    case MessageAt(_, _, _, _, _, _) => MessageSockets(s, step, i);
    case IssueAt(request, _) => IssueSockets(s, request);
      hide IssueGrantStep;
    case _ => OtherSockets(s, step, i);
  }

  // ----- The browser -----

  /** The browser's side of the system: frames and acknowledgements in flight per socket, the socket it reads
      (all below `used` have been opened, only the last can be read), its recent IDs and its completed
      handler calls. `seen` is history: how many accepted events it has been through. */
  datatype Browser = Browser(frames: map<SocketId, Event>, acks: map<SocketId, Cursor>, reading: Option<SocketId>,
                             used: nat, recent: seq<EventId>, handled: seq<Event>, seen: nat)

  datatype World = World(stream: State, browser: Browser, clock: nat)

  datatype Move =
    | StreamMove(step: Step)
    | Open(socket: SocketId)
    | Disconnect
    | Receive(handlerCompletes: bool)
    | DeliverAck(socket: SocketId, environment: nat, now: nat, send: Send)
    | LoseFrame(socket: SocketId)
    | LoseAck(socket: SocketId)

  /** Resets are excluded; acknowledgements come only from the browser, and it registers only what it used. */
  predicate Allowed(w: World, move: Move) {
    match move
    case StreamMove(step) =>
      && w.clock <= step.now
      && !(step.IssueAt? && step.request.resetBacklog)
      && (step.MessageAt? ==> !step.message.AckMessage? && (step.message.RegisterMessage? ==> step.socket < w.browser.used))
    case Open(socket) => w.browser.used <= socket
    case DeliverAck(socket, _, now, _) => w.clock <= now && socket in w.browser.acks
    case _ => true
  }

  function InFlight(frames: map<SocketId, Event>, frame: Option<Frame>): map<SocketId, Event> {
    if frame.Some? then frames[frame.value.socket := frame.value.event] else frames
  }

  function AckStep(w: World, socket: SocketId, environment: nat, now: nat, send: Send): Step
    requires socket in w.browser.acks
  {
    MessageAt(socket, AckMessage(w.browser.acks[socket]), environment, now, true, send)
  }

  /** The browser takes the frame of the socket it reads: a recent ID is only acknowledged again; otherwise the
      handler runs, and completing means remembering and acknowledging, failing means disconnecting. */
  function Take(b: Browser, cap: nat, handlerCompletes: bool): Browser {
    if b.reading.None? || b.reading.value !in b.frames then b
    else
      var socket := b.reading.value;
      var event := b.frames[socket];
      var taken := b.(frames := b.frames - {socket});
      if event.eventId in b.recent then
        taken.(acks := b.acks[socket := event.cursor], seen := if b.seen < event.sequence then event.sequence else b.seen)
      else if handlerCompletes then
        taken.(acks := b.acks[socket := event.cursor], handled := b.handled + [event],
               recent := Remember(b.recent, cap, event.eventId), seen := event.sequence)
      else taken.(reading := None)
  }

  function Do(w: World, cap: nat, move: Move): World
    requires Allowed(w, move)
  {
    match move
    case StreamMove(step) =>
      World(Next(w.stream, step), w.browser.(frames := InFlight(w.browser.frames, Emitted(w.stream, step))), step.now)
    case Open(socket) => w.(browser := w.browser.(reading := Some(socket), used := socket + 1))
    case Disconnect => w.(browser := w.browser.(reading := None))
    case Receive(handlerCompletes) => w.(browser := Take(w.browser, cap, handlerCompletes))
    case DeliverAck(socket, environment, now, send) =>
      var step := AckStep(w, socket, environment, now, send);
      World(Next(w.stream, step),
            w.browser.(acks := w.browser.acks - {socket}, frames := InFlight(w.browser.frames, Emitted(w.stream, step))), now)
    case LoseFrame(socket) => w.(browser := w.browser.(frames := w.browser.frames - {socket}))
    case LoseAck(socket) => w.(browser := w.browser.(acks := w.browser.acks - {socket}))
  }

  predicate AllowedRun(w: World, cap: nat, moves: seq<Move>)
    decreases |moves|
  {
    moves == [] || (Allowed(w, moves[0]) && AllowedRun(Do(w, cap, moves[0]), cap, moves[1..]))
  }

  function DoAll(w: World, cap: nat, moves: seq<Move>): World
    requires AllowedRun(w, cap, moves)
    decreases |moves|
  {
    if moves == [] then w else DoAll(Do(w, cap, moves[0]), cap, moves[1..])
  }

  const START: World := World(INITIAL, Browser(map[], map[], None, 0, [], [], 0), 0)

  // ----- Reference: going through the accepted events in order -----

  datatype Progress = Progress(handled: seq<Event>, recent: seq<EventId>)

  /** What a browser with capacity `cap` has handled and remembered after going once through the entries. */
  function GoThrough(entries: seq<Entry>, cap: nat): Progress {
    if entries == [] then Progress([], [])
    else
      var n := |entries| - 1;
      var before := GoThrough(entries[..n], cap);
      if entries[n].eventId in before.recent then before
      else Progress(before.handled + [EventOf(entries[n], n + 1)], Remember(before.recent, cap, entries[n].eventId))
  }

  // ----- Invariant -----

  /** Socket by socket: what is in flight is what the stream believes outstanding. */
  ghost predicate FlightOk(sockets: Sockets, b: Browser, i: SocketId) {
    && (i in b.frames || i in b.acks ==> i < b.used && i < |sockets|)
    && !(i in b.frames && i in b.acks)
    && (i < |sockets| && sockets[i].Some? ==>
          var a := sockets[i].value;
          && (a.registered ==> i < b.used)
          && (i in b.frames ==> a.registered && a.sent == b.frames[i].sequence > a.acked)
          && (i in b.acks ==> a.registered && a.acked < a.sent <= b.seen))
  }

  /** The frame the browser can still read is an accepted event, the next one to see or the last one seen. */
  ghost predicate ReadingOk(log: Log, b: Browser) {
    && (b.reading.Some? ==> b.used == b.reading.value + 1)
    && (b.reading.Some? && b.reading.value in b.frames ==>
          var event := b.frames[b.reading.value];
          && 1 <= event.sequence <= |log.accepted|
          && event == EventOf(log.accepted[event.sequence - 1], event.sequence)
          && b.seen <= event.sequence <= b.seen + 1
          && event.sequence <= log.acked + 1)
  }

  ghost predicate ProgressOk(log: Log, b: Browser, cap: nat) {
    && log.acked <= b.seen <= log.acked + 1
    && b.seen <= |log.accepted|
    && Progress(b.handled, b.recent) == GoThrough(log.accepted[..b.seen], cap)
  }

  ghost predicate WorldOk(w: World, cap: nat) {
    && Valid(w.stream) && w.stream.log.clock <= w.clock
    && (forall i :: FlightOk(w.stream.sockets, w.browser, i))
    && ReadingOk(w.stream.log, w.browser)
    && ProgressOk(w.stream.log, w.browser, cap)
  }

  lemma {:induction false} LastIdIsRecent(entries: seq<Entry>, cap: nat)
    requires cap >= 1 && entries != []
    ensures entries[|entries| - 1].eventId in GoThrough(entries, cap).recent
  {
    var n := |entries| - 1;
    var before := GoThrough(entries[..n], cap);
    if entries[n].eventId !in before.recent {
      var r := Remember(before.recent, cap, entries[n].eventId);
      assert r[|r| - 1] in r;
    }
  }

  /** One more accepted event seen. */
  lemma GoThroughNext(accepted: seq<Entry>, seen: nat, cap: nat)
    requires seen < |accepted|
    ensures GoThrough(accepted[..seen + 1], cap)
            == var before := GoThrough(accepted[..seen], cap);
               if accepted[seen].eventId in before.recent then before
               else Progress(before.handled + [EventOf(accepted[seen], seen + 1)],
                             Remember(before.recent, cap, accepted[seen].eventId))
  {
    assert accepted[..seen + 1][..seen] == accepted[..seen];
  }

  lemma TakeKeepsFlight(sockets: Sockets, log: Log, b: Browser, cap: nat, handlerCompletes: bool)
    requires forall i :: FlightOk(sockets, b, i)
    requires ReadingOk(log, b)
    ensures var after := Take(b, cap, handlerCompletes);
            (forall i :: FlightOk(sockets, after, i)) && ReadingOk(log, after)
  {
    var after := Take(b, cap, handlerCompletes);
    forall i: SocketId
      ensures FlightOk(sockets, after, i)
    {
      assert FlightOk(sockets, b, i);
    }
  }

  lemma TakeKeepsProgress(log: Log, b: Browser, cap: nat, handlerCompletes: bool)
    requires cap >= 1
    requires ReadingOk(log, b) && ProgressOk(log, b, cap)
    ensures ProgressOk(log, Take(b, cap, handlerCompletes), cap)
  {
    if b.reading.Some? && b.reading.value in b.frames {
      var event := b.frames[b.reading.value];
      if event.sequence == b.seen {
        LastIdIsRecent(log.accepted[..b.seen], cap);
      } else {
        GoThroughNext(log.accepted, b.seen, cap);
      }
    }
  }

  /** A stream step whose acknowledgement, if any, the browser had seen. */
  lemma StepKeepsFlight(s: State, step: Step, b: Browser)
    requires Valid(s) && s.log.clock <= step.now
    requires forall i :: FlightOk(s.sockets, b, i)
    requires step.MessageAt? && step.message.RegisterMessage? ==> step.socket < b.used
    requires step.MessageAt? && step.message.AckMessage? ==> step.socket !in b.acks && step.socket !in b.frames
    ensures var after := b.(frames := InFlight(b.frames, Emitted(s, step)));
            forall i :: FlightOk(Next(s, step).sockets, after, i)
  {
    hide Next, Emitted, Valid, FrameIsNext;
    var after := b.(frames := InFlight(b.frames, Emitted(s, step)));
    forall i: SocketId
      ensures FlightOk(Next(s, step).sockets, after, i)
    {
      NextSockets(s, step, i);
      assert FlightOk(s.sockets, b, i);
    }
  }

  /** Without a reset, only acknowledging the event outstanding on the selected socket moves the cursor. */
  lemma AckedFollows(s: State, step: Step)
    requires Valid(s) && s.log.clock <= step.now
    requires !(step.IssueAt? && step.request.resetBacklog)
    ensures var acked := Next(s, step).log.acked;
            || acked == s.log.acked
            || (&& acked == s.log.acked + 1 && step.MessageAt? && step.message.AckMessage?
                && SelectedAt(s.desk, s.sockets, step.socket)
                && s.sockets[step.socket].value.sent == acked)
  {
    NextFollows(s, step);
    hide Next, Inv, Valid, AppendStep;
  }

  /** A longer history and a cursor that stays within what was seen leave the browser's view right. */
  lemma ViewKeeps(before: Log, after: Log, b: Browser, frame: Option<Frame>, cap: nat)
    requires ReadingOk(before, b) && ProgressOk(before, b, cap)
    requires before.accepted <= after.accepted
    requires after.acked == before.acked || after.acked == before.acked + 1 <= b.seen
    requires frame.Some? ==> FrameIsNext(after, frame.value.event)
    ensures var b' := b.(frames := InFlight(b.frames, frame));
            ReadingOk(after, b') && ProgressOk(after, b', cap)
  {
    assert after.accepted[..b.seen] == before.accepted[..b.seen];
  }

  lemma StepKeepsProgress(s: State, step: Step, b: Browser, cap: nat)
    requires Valid(s) && s.log.clock <= step.now
    requires ReadingOk(s.log, b) && ProgressOk(s.log, b, cap)
    requires !(step.IssueAt? && step.request.resetBacklog)
    requires (step.MessageAt? && step.message.AckMessage? && SelectedAt(s.desk, s.sockets, step.socket)) ==>
               s.sockets[step.socket].value.sent <= b.seen
    ensures var after := b.(frames := InFlight(b.frames, Emitted(s, step)));
            ReadingOk(Next(s, step).log, after) && ProgressOk(Next(s, step).log, after, cap)
  {
    hide Valid, Next, Emitted, FrameIsNext, SocketFollows, ReadingOk, ProgressOk, InFlight;
    AckedFollows(s, step);
    NextExtends(s, step);
    NextSockets(s, step, 0);
    ViewKeeps(s.log, Next(s, step).log, b, Emitted(s, step), cap);
  }

  lemma DoKeeps(w: World, cap: nat, move: Move)
    requires cap >= 1
    requires WorldOk(w, cap) && Allowed(w, move)
    ensures WorldOk(Do(w, cap, move), cap)
  {
    hide Valid, Next, Emitted, ReadingOk, ProgressOk, Take, FlightOk;
    var b := w.browser;
    match move
    case StreamMove(step) =>
      NextKeeps(w.stream, step);
      ClockFollows(w.stream, step);
      StepKeepsFlight(w.stream, step, b);
      StepKeepsProgress(w.stream, step, b, cap);
    case Receive(handlerCompletes) =>
      TakeKeepsFlight(w.stream.sockets, w.stream.log, b, cap, handlerCompletes);
      TakeKeepsProgress(w.stream.log, b, cap, handlerCompletes);
    case DeliverAck(socket, environment, now, send) =>
      var step := AckStep(w, socket, environment, now, send);
      var after := b.(acks := b.acks - {socket});
      LostKeeps(w.stream.sockets, w.stream.log, b, after, cap);
      NextKeeps(w.stream, step);
      ClockFollows(w.stream, step);
      AckWasSeen(w.stream.sockets, b, socket);
      StepKeepsFlight(w.stream, step, after);
      StepKeepsProgress(w.stream, step, after, cap);
    case LoseFrame(socket) => LostKeeps(w.stream.sockets, w.stream.log, b, b.(frames := b.frames - {socket}), cap);
    case LoseAck(socket) => LostKeeps(w.stream.sockets, w.stream.log, b, b.(acks := b.acks - {socket}), cap);
    case Open(socket) =>
      LostKeeps(w.stream.sockets, w.stream.log, b, b.(reading := Some(socket), used := socket + 1), cap);
    case Disconnect => LostKeeps(w.stream.sockets, w.stream.log, b, b.(reading := None), cap);
  }

  /** An acknowledgement in flight names nothing in flight towards the browser, only what it has seen. */
  lemma AckWasSeen(sockets: Sockets, b: Browser, socket: SocketId)
    requires FlightOk(sockets, b, socket) && socket in b.acks
    ensures socket !in b.frames
    ensures socket < |sockets| && sockets[socket].Some? ==> sockets[socket].value.sent <= b.seen
  {
  }

  /** Losing what is in flight, disconnecting, or moving to a socket never used before. */
  lemma LostKeeps(sockets: Sockets, log: Log, b: Browser, after: Browser, cap: nat)
    requires forall i :: FlightOk(sockets, b, i)
    requires ReadingOk(log, b) && ProgressOk(log, b, cap)
    requires after == b.(frames := after.frames, acks := after.acks, reading := after.reading, used := after.used)
    requires after.frames.Keys <= b.frames.Keys && (forall i :: i in after.frames ==> after.frames[i] == b.frames[i])
    requires after.acks.Keys <= b.acks.Keys && (forall i :: i in after.acks ==> after.acks[i] == b.acks[i])
    requires b.used <= after.used
    requires || after.reading.None? || (after.reading == b.reading && after.used == b.used)
             || (after.reading.value >= b.used && after.used == after.reading.value + 1)
    ensures forall i :: FlightOk(sockets, after, i)
    ensures ReadingOk(log, after) && ProgressOk(log, after, cap)
  {
    forall i: SocketId
      ensures FlightOk(sockets, after, i)
    {
      assert FlightOk(sockets, b, i);
    }
    if after.reading.Some? && after.reading.value in after.frames {
      assert FlightOk(sockets, b, after.reading.value);
    }
  }

  lemma {:induction false} RunKeepsWorld(w: World, cap: nat, moves: seq<Move>)
    requires cap >= 1
    requires WorldOk(w, cap) && AllowedRun(w, cap, moves)
    ensures WorldOk(DoAll(w, cap, moves), cap)
    decreases |moves|
  {
    hide WorldOk, Do;
    if moves != [] {
      DoKeeps(w, cap, moves[0]);
      RunKeepsWorld(Do(w, cap, moves[0]), cap, moves[1..]);
    }
  }

  lemma StartOk(cap: nat)
    ensures WorldOk(START, cap)
  {
    EmptyInv();
  }

  // ----- Exactly once, in order -----

  /** In every run without a reset, however frames, acknowledgements, connections and handlers fail, the completed
      handler calls are those of going once, in order, through the events the browser has seen, and it has seen
      the acknowledged ones or one more. */
  lemma HandledInOrder(moves: seq<Move>, cap: nat)
    requires cap >= 1 && AllowedRun(START, cap, moves)
    ensures var w := DoAll(START, cap, moves);
            && w.stream.log.acked <= w.browser.seen <= w.stream.log.acked + 1
            && w.browser.seen <= |w.stream.log.accepted|
            && w.browser.handled == GoThrough(w.stream.log.accepted[..w.browser.seen], cap).handled
  {
    StartOk(cap);
    RunKeepsWorld(START, cap, moves);
  }

  function EventsOf(entries: seq<Entry>): (events: seq<Event>)
    ensures |events| == |entries|
    ensures forall k :: 0 <= k < |entries| ==> events[k] == EventOf(entries[k], k + 1)
  {
    seq(|entries|, k requires 0 <= k < |entries| => EventOf(entries[k], k + 1))
  }

  function IdsOf(entries: seq<Entry>): (ids: seq<EventId>)
    ensures |ids| == |entries|
    ensures forall k :: 0 <= k < |entries| ==> ids[k] == entries[k].eventId
  {
    seq(|entries|, k requires 0 <= k < |entries| => entries[k].eventId)
  }

  /** No event ID comes back within `cap` positions of its last use. */
  ghost predicate NoNearRepeat(ids: seq<EventId>, cap: nat) {
    forall i, j :: 0 <= i < j < |ids| && j - i <= cap ==> ids[i] != ids[j]
  }

  lemma RepeatIsRecent(ids: seq<EventId>, id: EventId, cap: nat)
    ensures NoNearRepeat(ids + [id], cap) <==> NoNearRepeat(ids, cap) && id !in Last(ids, cap)
  {
    var recent := Last(ids, cap);
    var offset := |ids| - |recent|;
    if NoNearRepeat(ids + [id], cap) {
      forall i, j | 0 <= i < j < |ids| && j - i <= cap
        ensures ids[i] != ids[j]
      {
        assert (ids + [id])[i] != (ids + [id])[j];
      }
      forall k | 0 <= k < |recent|
        ensures recent[k] != id
      {
        assert (ids + [id])[offset + k] != (ids + [id])[|ids|];
      }
    } else if NoNearRepeat(ids, cap) {
      var i, j :| 0 <= i < j < |ids + [id]| && j - i <= cap && (ids + [id])[i] == (ids + [id])[j];
      assert j == |ids| && recent[i - offset] == id;
    }
  }

  lemma RememberLast(ids: seq<EventId>, cap: nat, id: EventId)
    requires id !in Last(ids, cap)
    ensures Remember(Last(ids, cap), cap, id) == Last(ids + [id], cap)
  {
    FilterSuffix(Last(ids, cap), Other(id), 0);
    hide Filter;
  }

  /** The list holds the last `cap` IDs and every event was handled, exactly when no ID came back within reach. */
  ghost predicate HandlesAll(entries: seq<Entry>, cap: nat) {
    && (NoNearRepeat(IdsOf(entries), cap)
        ==> GoThrough(entries, cap) == Progress(EventsOf(entries), Last(IdsOf(entries), cap)))
    && |GoThrough(entries, cap).handled| <= |entries|
    && (|GoThrough(entries, cap).handled| == |entries| ==> NoNearRepeat(IdsOf(entries), cap))
  }

  lemma {:induction false} HandlesAllWithoutRepeat(entries: seq<Entry>, cap: nat)
    requires cap >= 1
    ensures HandlesAll(entries, cap)
    decreases |entries|
  {
    if entries == [] {
      NothingToHandle(cap);
    } else {
      hide HandlesAll;
      var n := |entries| - 1;
      HandlesAllWithoutRepeat(entries[..n], cap);
      SnocHandles(entries[..n], entries[n], cap);
      assert entries[..n] + [entries[n]] == entries;
    }
  }

  lemma NothingToHandle(cap: nat)
    ensures HandlesAll([], cap)
  {
    assert EventsOf([]) == [] && IdsOf([]) == [];
  }

  lemma SnocHandles(before: seq<Entry>, entry: Entry, cap: nat)
    requires HandlesAll(before, cap)
    ensures HandlesAll(before + [entry], cap)
  {
    hide NoNearRepeat, Last, Remember, GoThrough;
    var entries, n := before + [entry], |before|;
    var ids, id := IdsOf(before), entry.eventId;
    GoThroughNext(entries, n, cap);
    RepeatIsRecent(ids, id, cap);
    assert entries[..n + 1] == entries && entries[..n] == before;
    assert IdsOf(entries) == ids + [id];
    assert EventsOf(entries) == EventsOf(before) + [EventOf(entry, n + 1)];
    if id !in Last(ids, cap) {
      RememberLast(ids, cap, id);
    }
  }

  /** Every event the browser has been through was handled exactly once and in order, exactly when no event ID
      was accepted again within the recent list's reach. */
  lemma ExactlyOnceInOrder(moves: seq<Move>, cap: nat)
    requires cap >= 1 && AllowedRun(START, cap, moves)
    ensures var w := DoAll(START, cap, moves);
            && w.stream.log.acked <= w.browser.seen <= w.stream.log.acked + 1
            && w.browser.seen <= |w.stream.log.accepted|
            && (w.browser.handled == EventsOf(w.stream.log.accepted[..w.browser.seen])
                <==> NoNearRepeat(IdsOf(w.stream.log.accepted[..w.browser.seen]), cap))
  {
    HandledInOrder(moves, cap);
    var w := DoAll(START, cap, moves);
    hide WorldOk, DoAll;
    var through := w.stream.log.accepted[..w.browser.seen];
    HandlesAllWithoutRepeat(through, cap);
  }

  /** In particular within one receipt retention, for any capacity: IDs do not come back. */
  lemma ExactlyOnceWithinRetention(moves: seq<Move>, cap: nat)
    requires cap >= 1 && AllowedRun(START, cap, moves)
    requires var accepted := DoAll(START, cap, moves).stream.log.accepted;
             accepted != [] ==> accepted[|accepted| - 1].acceptedAt < accepted[0].acceptedAt + RECEIPT_RETENTION_MS
    ensures var w := DoAll(START, cap, moves);
            w.browser.seen <= |w.stream.log.accepted| && w.browser.handled == EventsOf(w.stream.log.accepted[..w.browser.seen])
  {
    StartOk(cap);
    RunKeepsWorld(START, cap, moves);
    ExactlyOnceInOrder(moves, cap);
    var w := DoAll(START, cap, moves);
    hide DoAll, GoThrough, Remember, AllowedRun;
    DistinctWithinRetention(w.stream.log.accepted, w.stream.log.clock, w.browser.seen, cap);
  }

  lemma DistinctWithinRetention(accepted: seq<Entry>, clock: nat, seen: nat, cap: nat)
    requires Ordered(accepted, clock) && AcceptedOnce(accepted) && seen <= |accepted|
    requires accepted != [] ==> accepted[|accepted| - 1].acceptedAt < accepted[0].acceptedAt + RECEIPT_RETENTION_MS
    ensures NoNearRepeat(IdsOf(accepted[..seen]), cap)
  {
    forall i, j | 0 <= i < j < seen && j - i <= cap
      ensures accepted[i].eventId != accepted[j].eventId
    {
      assert accepted[0].acceptedAt <= accepted[i].acceptedAt || i == 0;
      assert accepted[j].acceptedAt <= accepted[|accepted| - 1].acceptedAt || j == |accepted| - 1;
    }
  }
}
