/** The test runtime's in-memory event stream: an array with one outstanding head. */
module QueueReference {
  import opened Contract
  import opened Tables
  import opened EventLog

  /** A consumer connection; `waiting` is a pending read. */
  datatype Connection = Connection(outstanding: Option<Cursor>, waiting: bool)

  datatype Queue = Queue(items: seq<Event>, receipts: map<EventId, Fingerprint>, acknowledged: set<Cursor>,
                         times: seq<nat>, bytes: int, next: nat, consumer: Option<Connection>,
                         moved: bool, gap: bool)

  const NOTHING: Queue := Queue([], map[], {}, [], 0, 1, None, false, false)

  datatype Outcome = Taken | Known | Rejected(code: Code)

  datatype Served = Served(queue: Queue, frame: Option<Event>)

  datatype Published = Published(queue: Queue, outcome: Outcome, frame: Option<Event>)

  datatype Answer = Removed | Repeated | Invalid

  datatype Confirmed = Confirmed(queue: Queue, answer: Answer, frame: Option<Event>)

  function TimeAfter(time: int): nat -> bool { (t: nat) => t > time }

  /** The read a connection makes when nothing is outstanding on it. */
  function Read(q: Queue): Served
    requires q.consumer.Some?
  {
    if q.consumer.value.outstanding.Some? then Served(q.(consumer := Some(q.consumer.value.(waiting := true))), None)
    else if q.items == [] then
      Served(q.(consumer := Some(q.consumer.value.(waiting := !q.gap && !q.moved))), None)
    else Served(q.(consumer := Some(Connection(Some(q.items[0].cursor), false))), Some(q.items[0]))
  }

  function Deliver(q: Queue): Served {
    if q.consumer.None? || !q.consumer.value.waiting then Served(q, None) else Read(q)
  }

  function Expire(q: Queue, now: nat): Served {
    var n := Boundary(q.items, LiveAt(now));
    if n == 0 then Served(q, None)
    else
      var rest := q.(items := q.items[n..], bytes := q.bytes - SumBytes(q.items[..n]), gap := true);
      if rest.consumer.None? then Served(rest, None)
      else Deliver(rest.(consumer := Some(rest.consumer.value.(outstanding := None))))
  }

  function Push(q: Queue, entry: Entry): Served {
    Deliver(q.(items := q.items + [EventOf(entry, q.next)],
               receipts := q.receipts[entry.eventId := entry.fingerprint],
               times := q.times + [entry.acceptedAt],
               bytes := q.bytes + entry.payloadBytes, next := q.next + 1))
  }

  predicate IsFull(q: Queue, bytes: nat) {
    || |q.items| >= MAX_RETAINED_EVENTS
    || q.bytes + bytes > MAX_RETAINED_BYTES
    || |q.times| >= MAX_INGRESS_PER_SECOND
  }

  function Publish(q: Queue, entry: Entry): Published {
    if entry.eventId in q.receipts then
      Published(q, if q.receipts[entry.eventId] == entry.fingerprint then Known else Rejected(SourceConflict), None)
    else
      var e := Expire(q, entry.acceptedAt);
      if e.queue.gap then Published(e.queue, Rejected(GapRequiresReset), e.frame)
      else if e.queue.moved then Published(e.queue, Rejected(Transition), e.frame)
      else if e.queue.consumer.None? then Published(e.queue, Rejected(ConsumerUnavailable), e.frame)
      else
        var kept := e.queue.(times := Filter(e.queue.times, TimeAfter(entry.acceptedAt - 1_000)));
        if IsFull(kept, entry.payloadBytes) then Published(kept, Rejected(StreamFull), e.frame)
        else Published(Push(kept, entry).queue, Taken, Push(kept, entry).frame)
  }

  function Attach(q: Queue): Queue { q.(consumer := Some(Connection(None, false))) }

  function Disconnect(q: Queue): Queue { q.(consumer := None) }

  /** Only the outstanding head can be acknowledged; an acknowledged cursor again is a no-op. */
  function Acknowledge(q: Queue, cursor: Cursor): Confirmed {
    if q.consumer.None? then Confirmed(q, Invalid, None)
    else if cursor in q.acknowledged then Confirmed(q, Repeated, None)
    else if q.consumer.value.outstanding != Some(cursor) || q.items == [] || q.items[0].cursor != cursor then
      Confirmed(q, Invalid, None)
    else
      var d := Deliver(q.(items := q.items[1..], bytes := q.bytes - q.items[0].payloadBytes,
                          acknowledged := q.acknowledged + {cursor},
                          consumer := Some(q.consumer.value.(outstanding := None))));
      Confirmed(d.queue, Removed, d.frame)
  }

  // ----- What every operation keeps -----

  /** The items are consecutive and within capacity, their bytes are counted, their IDs are known,
      and only the head is ever outstanding. */
  ghost predicate Sound(q: Queue) {
    && q.bytes == SumBytes(q.items) && q.bytes <= MAX_RETAINED_BYTES
    && |q.items| <= MAX_RETAINED_EVENTS && |q.items| < q.next
    && (forall i :: 0 <= i < |q.items| ==> q.items[i].sequence == q.next - |q.items| + i && q.items[i].eventId in q.receipts)
    && (q.consumer.Some? && q.consumer.value.outstanding.Some? ==>
          q.items != [] && q.items[0].cursor == q.consumer.value.outstanding.value)
  }

  lemma DeliverKeeps(q: Queue)
    requires Sound(q)
    ensures Sound(Deliver(q).queue)
  {
    hide SumBytes;
  }

  lemma DropKeeps(q: Queue, n: nat)
    requires Sound(q) && n <= |q.items|
    ensures SumBytes(q.items) == SumBytes(q.items[..n]) + SumBytes(q.items[n..])
    ensures var rest := q.(items := q.items[n..], bytes := q.bytes - SumBytes(q.items[..n]));
            Sound(if rest.consumer.None? then rest else rest.(consumer := Some(rest.consumer.value.(outstanding := None))))
  {
    SumBytesSplit(q.items, n);
    hide SumBytes;
  }

  lemma ExpireKeeps(q: Queue, now: nat)
    requires Sound(q)
    ensures Sound(Expire(q, now).queue)
  {
    var n := Boundary(q.items, LiveAt(now));
    DropKeeps(q, n);
    hide Deliver, SumBytes;
    if n > 0 && q.consumer.Some? {
      DeliverKeeps(q.(items := q.items[n..], bytes := q.bytes - SumBytes(q.items[..n]), gap := true,
                      consumer := Some(q.consumer.value.(outstanding := None))));
    }
  }

  lemma PushKeeps(q: Queue, entry: Entry)
    requires Sound(q) && !IsFull(q, entry.payloadBytes)
    ensures Sound(Push(q, entry).queue)
  {
    SumBytesSnoc(q.items, EventOf(entry, q.next));
    hide SumBytes, Deliver;
    DeliverKeeps(q.(items := q.items + [EventOf(entry, q.next)],
                    receipts := q.receipts[entry.eventId := entry.fingerprint],
                    times := q.times + [entry.acceptedAt],
                    bytes := q.bytes + entry.payloadBytes, next := q.next + 1));
  }

  lemma PublishKeeps(q: Queue, entry: Entry)
    requires Sound(q)
    ensures Sound(Publish(q, entry).queue)
  {
    ExpireKeeps(q, entry.acceptedAt);
    hide SumBytes, Expire, Push, Filter;
    var e := Expire(q, entry.acceptedAt).queue;
    var kept := e.(times := Filter(e.times, TimeAfter(entry.acceptedAt - 1_000)));
    if !IsFull(kept, entry.payloadBytes) {
      PushKeeps(kept, entry);
    }
  }

  lemma AcknowledgeKeeps(q: Queue, cursor: Cursor)
    requires Sound(q)
    ensures Sound(Acknowledge(q, cursor).queue)
  {
    if q.items != [] && q.consumer.Some? {
      DropKeeps(q, 1);
      assert SumBytes(q.items[..1]) == q.items[0].payloadBytes by {
        assert q.items[..1][0] == q.items[0] && q.items[..1][1..] == [];
      }
      hide SumBytes, Deliver;
      DeliverKeeps(q.(items := q.items[1..], bytes := q.bytes - q.items[0].payloadBytes,
                      acknowledged := q.acknowledged + {cursor},
                      consumer := Some(q.consumer.value.(outstanding := None))));
    }
  }

  // ----- What a publication is answered -----

  predicate AnyOverdue(items: seq<Event>, now: nat) {
    exists i :: 0 <= i < |items| && items[i].expiresAt <= now && forall j :: 0 <= j < i ==> items[j].expiresAt <= now
  }

  /** A known ID is answered from its fingerprint for ever; a new one is refused after an expiry, after a move, without a
      consumer, or when a thousand events, a mebibyte or ten a second are reached; otherwise it is taken. */
  lemma PublishAnswers(q: Queue, entry: Entry)
    ensures var out, now := Publish(q, entry), entry.acceptedAt;
            var recent := |Filter(q.times, (t: nat) => t + 1_000 > now)|;
            if entry.eventId in q.receipts then
              out == Published(q, if q.receipts[entry.eventId] == entry.fingerprint then Known else Rejected(SourceConflict), None)
            else
              && (out.queue.gap <==> q.gap || AnyOverdue(q.items, now))
              && (out.outcome == if q.gap || AnyOverdue(q.items, now) then Rejected(GapRequiresReset)
                                 else if q.moved then Rejected(Transition)
                                 else if q.consumer.None? then Rejected(ConsumerUnavailable)
                                 else if |q.items| >= 1_000 || q.bytes + entry.payloadBytes > 1_048_576 || recent >= 10
                                      then Rejected(StreamFull) else Taken)
              && (out.outcome == Taken ==>
                    && out.queue.items == q.items + [EventOf(entry, q.next)] && out.queue.next == q.next + 1
                    && out.queue.receipts == q.receipts[entry.eventId := entry.fingerprint]
                    && out.queue.bytes == q.bytes + entry.payloadBytes)
  {
    var now := entry.acceptedAt;
    var n := Boundary(q.items, LiveAt(now));
    assert n > 0 <==> AnyOverdue(q.items, now) by {
      if n > 0 {
        assert !LiveAt(now)(q.items[0]);
      }
    }
    SameTimes(q.times, now);
    ExpireShape(q, now);
    PushShape(q.(times := Filter(q.times, TimeAfter(entry.acceptedAt - 1_000))), entry);
    hide Expire, Push, Boundary, AnyOverdue, Filter;
  }

  lemma {:induction false} SameTimes(times: seq<nat>, now: nat)
    ensures Filter(times, TimeAfter(now - 1_000)) == Filter(times, (t: nat) => t + 1_000 > now)
  {
    if times != [] {
      SameTimes(times[1..], now);
    }
  }

  lemma ExpireShape(q: Queue, now: nat)
    ensures var n, out := Boundary(q.items, LiveAt(now)), Expire(q, now).queue;
            if n == 0 then Expire(q, now) == Served(q, None) else out.gap && out.receipts == q.receipts
  {
    hide SumBytes;
  }

  lemma PushShape(q: Queue, entry: Entry)
    ensures var out := Push(q, entry).queue;
            && out.items == q.items + [EventOf(entry, q.next)] && out.next == q.next + 1 && out.gap == q.gap
            && out.receipts == q.receipts[entry.eventId := entry.fingerprint] && out.bytes == q.bytes + entry.payloadBytes
  {
  }

  /** The frame a connection gets when it reads, or that comes for its pending read: the head, which is then outstanding;
      with nothing there it waits, unless the stream has a gap or moved, which ends the read. */
  ghost predicate ReadAs(q: Queue, out: Served) {
    && q.consumer.Some?
    && var c := q.consumer.value;
       if c.outstanding.Some? then out == Served(q.(consumer := Some(Connection(c.outstanding, true))), None)
       else if q.items != [] then out == Served(q.(consumer := Some(Connection(Some(q.items[0].cursor), false))), Some(q.items[0]))
       else if q.gap || q.moved then out == Served(q.(consumer := Some(Connection(None, false))), None)
       else out == Served(q.(consumer := Some(Connection(None, true))), None)
  }

  /** Only the outstanding head is removed, for good, and the pending read served; an acknowledged cursor repeats; any other
      is invalid. */
  lemma ConfirmAnswers(q: Queue, cursor: Cursor)
    ensures var out := Acknowledge(q, cursor);
            if q.consumer.None? then out == Confirmed(q, Invalid, None)
            else if cursor in q.acknowledged then out == Confirmed(q, Repeated, None)
            else if q.items != [] && q.items[0].cursor == cursor && q.consumer.value.outstanding == Some(cursor) then
              && out.answer == Removed
              && var rest := q.(items := q.items[1..], bytes := q.bytes - q.items[0].payloadBytes,
                                acknowledged := q.acknowledged + {cursor},
                                consumer := Some(Connection(None, q.consumer.value.waiting)));
                 if q.consumer.value.waiting then ReadAs(rest, Served(out.queue, out.frame))
                 else out.queue == rest && out.frame.None?
            else out == Confirmed(q, Invalid, None)
  {
  }

  /** The first events of the table, n of them, are expired. */
  predicate ExpiredRun(items: seq<Event>, now: nat, n: nat) {
    n <= |items| && (forall i :: 0 <= i < n ==> items[i].expiresAt <= now) && (n < |items| ==> items[n].expiresAt > now)
  }

  /** What is left of a record whose first n events go. */
  function Remains(q: Queue, n: nat): Queue
    requires n <= |q.items|
  {
    q.(items := q.items[n..], bytes := SumBytes(q.items[n..]), gap := true,
       consumer := if q.consumer.None? then None else Some(Connection(None, q.consumer.value.waiting)))
  }

  lemma LeadingRun(items: seq<Event>, now: nat)
    ensures ExpiredRun(items, now, Boundary(items, LiveAt(now)))
  {
    var n := Boundary(items, LiveAt(now));
    forall i | 0 <= i < n
      ensures items[i].expiresAt <= now
    {
      assert !LiveAt(now)(items[i]);
    }
    hide Boundary;
  }

  lemma DeliverReads(q: Queue)
    ensures if q.consumer.Some? && q.consumer.value.waiting then ReadAs(q, Deliver(q)) else Deliver(q) == Served(q, None)
  {
  }

  /** Expiry opens the gap, frees the connection and ends its pending read. */
  lemma ExpireLeaves(q: Queue, now: nat)
    requires Sound(q)
    ensures exists n :: ExpiredRun(q.items, now, n)
                        && if n == 0 then Expire(q, now) == Served(q, None)
                           else if q.consumer.Some? && q.consumer.value.waiting then ReadAs(Remains(q, n), Expire(q, now))
                           else Expire(q, now) == Served(Remains(q, n), None)
  {
    var n := Boundary(q.items, LiveAt(now));
    assert q.bytes == SumBytes(q.items);
    hide Boundary, Sound, SumBytes, Expire, ReadAs, Deliver;
    LeadingRun(q.items, now);
    ExpireIs(q, now);
    SumBytesSplit(q.items, n);
    if n > 0 {
      DeliverReads(Remains(q, n));
    }
  }

  /** The record as the runtime keeps it, changed in place. */
  class EventQueue {
    var items: seq<Event>
    var receipts: map<EventId, Fingerprint>
    var acknowledged: set<Cursor>
    var times: seq<nat>
    var bytes: int
    var next: nat
    var consumer: Option<Connection>
    var moved: bool
    var gap: bool

    function Model(): Queue
      reads this
    {
      Queue(items, receipts, acknowledged, times, bytes, next, consumer, moved, gap)
    }

    constructor ()
      ensures Model() == NOTHING && Sound(Model())
    {
      items, receipts, acknowledged, times := [], map[], {}, [];
      bytes, next, consumer, moved, gap := 0, 1, None, false, false;
    }

    method NextFrame() returns (frame: Option<Event>)
      requires consumer.Some?
      modifies this`consumer
      ensures Model() == Read(old(Model())).queue && frame == Read(old(Model())).frame
    {
      frame := None;
      if consumer.value.outstanding.Some? {
        consumer := Some(consumer.value.(waiting := true));
      } else if items == [] {
        consumer := Some(consumer.value.(waiting := !gap && !moved));
      } else {
        frame := Some(items[0]);
        consumer := Some(Connection(Some(items[0].cursor), false));
      }
    }

    method DeliverWaiting() returns (frame: Option<Event>)
      modifies this`consumer
      ensures Model() == Deliver(old(Model())).queue && frame == Deliver(old(Model())).frame
    {
      frame := None;
      if consumer.Some? && consumer.value.waiting {
        frame := NextFrame();
      }
    }

    /** The loop: the leading expired events go, with their bytes. */
    method DropExpired(now: nat) returns (expired: nat)
      modifies this`items, this`bytes
      ensures expired == Boundary(old(items), LiveAt(now))
      ensures Model() == old(Model()).(items := old(items)[expired..], bytes := old(bytes) - SumBytes(old(items)[..expired]))
    {
      assert SumBytes([]) == 0 && old(items)[..0] == [];
      hide SumBytes, Boundary;
      expired := 0;
      while items != [] && items[0].expiresAt <= now
        invariant 0 <= expired <= |old(items)| && items == old(items)[expired..]
        invariant forall i :: 0 <= i < expired ==> !LiveAt(now)(old(items)[i])
        invariant bytes == old(bytes) - SumBytes(old(items)[..expired])
        invariant Model() == old(Model()).(items := items, bytes := bytes)
        decreases |items|
      {
        SumBytesSnoc(old(items)[..expired], items[0]);
        assert old(items)[..expired + 1] == old(items)[..expired] + [items[0]];
        bytes := bytes - items[0].payloadBytes;
        items := items[1..];
        expired := expired + 1;
      }
      BoundaryIs(old(items), now, expired);
    }

    method ExpireRecord(now: nat) returns (frame: Option<Event>)
      modifies this`items, this`bytes, this`gap, this`consumer
      ensures Model() == Expire(old(Model()), now).queue && frame == Expire(old(Model()), now).frame
    {
      assert SumBytes([]) == 0 && items[..0] == [] && items[0..] == items;
      hide Expire, Deliver, SumBytes, Boundary, LiveAt;
      frame := None;
      ExpireIs(Model(), now);
      var expired := DropExpired(now);
      if expired > 0 {
        gap := true;
        if consumer.Some? {
          consumer := Some(consumer.value.(outstanding := None));
          frame := DeliverWaiting();
        }
      }
    }

    method PushEvent(entry: Entry) returns (frame: Option<Event>)
      modifies this
      ensures Model() == Push(old(Model()), entry).queue && frame == Push(old(Model()), entry).frame
    {
      hide Deliver;
      items := items + [EventOf(entry, next)];
      next := next + 1;
      receipts := receipts[entry.eventId := entry.fingerprint];
      bytes := bytes + entry.payloadBytes;
      times := times + [entry.acceptedAt];
      frame := DeliverWaiting();
    }

    method PublishTo(entry: Entry) returns (outcome: Outcome, frame: Option<Event>)
      requires Sound(Model())
      modifies this
      ensures var p := Publish(old(Model()), entry); Model() == p.queue && outcome == p.outcome && frame == p.frame
      ensures Sound(Model())
    {
      hide Sound;
      PublishKeeps(Model(), entry);
      hide Expire, Push, Filter;
      if entry.eventId in receipts {
        outcome, frame := if receipts[entry.eventId] == entry.fingerprint then Known else Rejected(SourceConflict), None;
        return;
      }
      frame := ExpireRecord(entry.acceptedAt);
      if gap || moved || consumer.None? {
        outcome := Rejected(if gap then GapRequiresReset else if moved then Transition else ConsumerUnavailable);
        return;
      }
      times := Filter(times, TimeAfter(entry.acceptedAt - 1_000));
      if IsFull(Model(), entry.payloadBytes) {
        outcome := Rejected(StreamFull);
        return;
      }
      frame := PushEvent(entry);
      outcome := Taken;
    }

    method Confirm(cursor: Cursor) returns (answer: Answer, frame: Option<Event>)
      requires Sound(Model())
      modifies this
      ensures var a := Acknowledge(old(Model()), cursor);
              Model() == a.queue && answer == a.answer && frame == a.frame
      ensures Sound(Model())
    {
      hide Sound;
      AcknowledgeKeeps(Model(), cursor);
      answer, frame := Invalid, None;
      if consumer.None? {
        return;
      }
      if cursor in acknowledged {
        answer := Repeated;
      } else if consumer.value.outstanding == Some(cursor) && items != [] && items[0].cursor == cursor {
        bytes := bytes - items[0].payloadBytes;
        items := items[1..];
        acknowledged := acknowledged + {cursor};
        consumer := Some(consumer.value.(outstanding := None));
        frame := DeliverWaiting();
        answer := Removed;
      }
    }
  }

  lemma ExpireIs(q: Queue, now: nat)
    ensures var n := Boundary(q.items, LiveAt(now));
            var rest := q.(items := q.items[n..], bytes := q.bytes - SumBytes(q.items[..n]), gap := true);
            Expire(q, now)
            == if n == 0 then Served(q, None)
               else if q.consumer.None? then Served(rest, None)
               else Deliver(rest.(consumer := Some(q.consumer.value.(outstanding := None))))
  {
    hide Deliver, SumBytes, LiveAt;
  }

  lemma {:induction false} BoundaryIs(items: seq<Event>, now: nat, n: nat)
    requires n <= |items|
    requires forall i :: 0 <= i < n ==> !LiveAt(now)(items[i])
    requires n < |items| ==> LiveAt(now)(items[n])
    ensures Boundary(items, LiveAt(now)) == n
  {
  }
}
