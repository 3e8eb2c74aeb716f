/** The stream's delivery tables (events, receipts, ingress) with their counters and cursors,
    and the write-only history against which "nothing is silently lost" is stated. */
module EventLog {
  import opened Contract
  import opened Tables

  /** A row of durable_event_stream_events. */
  datatype Event = Event(sequence: nat, eventId: EventId, cursor: Cursor, payload: nat,
                         payloadBytes: nat, acceptedAt: nat, expiresAt: nat)

  /** A row of durable_event_stream_receipts. */
  datatype Receipt = Receipt(eventId: EventId, fingerprint: Fingerprint, cursor: Cursor, sequence: nat,
                             acceptedAt: nat, expiresAt: nat, metadataBytes: nat)

  /** A row of durable_event_stream_ingress. */
  datatype Ingress = Ingress(eventId: EventId, acceptedAt: nat)

  datatype Gap = Gap(first: nat, last: nat)

  /** What became of an accepted event once its row left the events table. */
  datatype Fate = Acknowledged | Expired | Discarded

  /** History of one acceptance; the k-th acceptance (from 0) has sequence k + 1. */
  datatype Entry = Entry(eventId: EventId, fingerprint: Fingerprint, cursor: Cursor, payload: nat,
                         payloadBytes: nat, acceptedAt: nat, direction: Option<Direction>, revision: nat)

  /** `accepted`, `fates`, `audit` and `clock` are history: no operation reads them. `audit` lists the
      gap ranges that resets recorded, `clock` the time of the latest step. */
  datatype Log = Log(accepted: seq<Entry>, fates: seq<Fate>, audit: seq<Gap>, clock: nat,
                     next: nat, count: int, bytes: int, acked: nat, ackedCursor: Option<Cursor>,
                     gap: Option<Gap>, events: seq<Event>, receipts: seq<Receipt>, ingress: seq<Ingress>)

  const EMPTY: Log := Log([], [], [], 0, 1, 0, 0, 0, None, None, [], [], [])

  function SumBytes(events: seq<Event>): nat {
    if events == [] then 0 else events[0].payloadBytes + SumBytes(events[1..])
  }

  function SumMetadata(receipts: seq<Receipt>): nat {
    if receipts == [] then 0 else receipts[0].metadataBytes + SumMetadata(receipts[1..])
  }

  function FindReceipt(receipts: seq<Receipt>, eventId: EventId): (r: Option<Receipt>)
    ensures r.Some? ==> r.value in receipts && r.value.eventId == eventId
    ensures r.None? ==> forall i :: 0 <= i < |receipts| ==> receipts[i].eventId != eventId
  {
    if receipts == [] then None
    else if receipts[0].eventId == eventId then Some(receipts[0])
    else FindReceipt(receipts[1..], eventId)
  }

  // ----- Operations -----

  function ExpiredAt(now: nat): Event -> bool { (e: Event) => e.expiresAt <= now }
  function LiveAt(now: nat): Event -> bool { (e: Event) => e.expiresAt > now }
  function ReceiptLiveAt(now: nat): Receipt -> bool { (r: Receipt) => r.expiresAt > now }
  function IngressAfter(time: int): Ingress -> bool { (i: Ingress) => i.acceptedAt > time }
  function Through(sequence: nat): Event -> bool { (e: Event) => e.sequence <= sequence }
  function Beyond(sequence: nat): Event -> bool { (e: Event) => e.sequence > sequence }

  /** The rows whose retention ended, counted, summed and deleted; their range joins the gap. */
  function ExpireEvents(log: Log, now: nat): Log {
    var dead := Filter(log.events, ExpiredAt(now));
    if |dead| == 0 then log
    else
      var gapFirst := if log.gap.Some? then log.gap.value.first else dead[0].sequence;
      var gapLast := Max(if log.gap.Some? then log.gap.value.last else 0, dead[|dead| - 1].sequence);
      log.(events := Filter(log.events, LiveAt(now)),
           count := log.count - |dead|,
           bytes := log.bytes - SumBytes(dead),
           gap := Some(Gap(gapFirst, gapLast)),
           fates := log.fates + Repeat(Expired, |dead|))
  }

  function Prune(log: Log, now: nat): Log {
    ExpireEvents(log, now).(receipts := Filter(log.receipts, ReceiptLiveAt(now)),
                            ingress := Filter(log.ingress, IngressAfter(now - 1_000)),
                            clock := now)
  }

  function ExpiredCount(log: Log, now: nat): nat {
    |Filter(log.events, ExpiredAt(now))|
  }

  function EventOf(entry: Entry, sequence: nat): Event {
    Event(sequence, entry.eventId, entry.cursor, entry.payload, entry.payloadBytes,
          entry.acceptedAt, entry.acceptedAt + RETENTION_MS)
  }

  function ReceiptOf(entry: Entry, sequence: nat): Receipt {
    Receipt(entry.eventId, entry.fingerprint, entry.cursor, sequence, entry.acceptedAt,
            entry.acceptedAt + RECEIPT_RETENTION_MS, RECEIPT_ROW_BYTES)
  }

  /** The UNIQUE constraints an insertion could violate. */
  predicate EventIdTaken(events: seq<Event>, receipts: seq<Receipt>, ingress: seq<Ingress>, eventId: EventId) {
    || (exists e :: e in events && e.eventId == eventId)
    || (exists r :: r in receipts && r.eventId == eventId)
    || (exists i :: i in ingress && i.eventId == eventId)
  }

  predicate CursorTaken(events: seq<Event>, receipts: seq<Receipt>, cursor: Cursor) {
    || (exists e :: e in events && e.cursor == cursor)
    || (exists r :: r in receipts && r.cursor == cursor)
  }

  predicate StreamIsFull(log: Log, bytes: nat, now: nat) {
    || log.count >= MAX_RETAINED_EVENTS
    || log.bytes + bytes > MAX_RETAINED_BYTES
    || |Filter(log.ingress, IngressAfter(now - 1_000))| >= MAX_INGRESS_PER_SECOND
  }

  predicate ReceiptsAreFull(log: Log) {
    || |log.receipts| >= MAX_RECEIPT_ROWS
    || SumMetadata(log.receipts) + RECEIPT_ROW_BYTES > MAX_RECEIPT_METADATA_BYTES
  }

  function Insert(log: Log, entry: Entry): Log {
    log.(events := log.events + [EventOf(entry, log.next)],
         receipts := log.receipts + [ReceiptOf(entry, log.next)],
         ingress := log.ingress + [Ingress(entry.eventId, entry.acceptedAt)],
         next := log.next + 1,
         count := log.count + 1,
         bytes := log.bytes + entry.payloadBytes,
         accepted := log.accepted + [entry])
  }

  /** The row an acknowledgement names: WHERE sequence = ? AND cursor = ?. */
  predicate HasRow(events: seq<Event>, sequence: nat, cursor: Cursor) {
    exists e :: e in events && e.sequence == sequence && e.cursor == cursor
  }

  /** A cursor of an event already acknowledged, still within receipt retention. */
  predicate AcknowledgedBefore(receipts: seq<Receipt>, cursor: Cursor, acked: nat) {
    exists r :: r in receipts && r.cursor == cursor && r.sequence <= acked
  }

  function AcknowledgeThrough(log: Log, sequence: nat, cursor: Cursor): Log {
    var removed := Filter(log.events, Through(sequence));
    log.(events := Filter(log.events, Beyond(sequence)),
         acked := sequence,
         ackedCursor := Some(cursor),
         count := Max(0, log.count - |removed|),
         bytes := Max(0, log.bytes - SumBytes(removed)),
         fates := log.fates + Repeat(Acknowledged, |removed|))
  }

  function Reset(log: Log): Log {
    log.(events := [], count := 0, bytes := 0, acked := if log.next == 0 then 0 else log.next - 1,
         ackedCursor := None, gap := None,
         fates := log.fates + Repeat(Discarded, |log.events|),
         audit := if log.gap.Some? then log.audit + [log.gap.value] else log.audit)
  }

  // ----- Invariant -----

  /** Acceptance times never decrease and never pass the clock. */
  ghost predicate Ordered(accepted: seq<Entry>, clock: nat) {
    && (forall i, j :: 0 <= i < j < |accepted| ==> accepted[i].acceptedAt <= accepted[j].acceptedAt)
    && (forall i :: 0 <= i < |accepted| ==> accepted[i].acceptedAt <= clock)
  }

  /** Any eleven consecutive acceptances span at least a second. */
  ghost predicate Spaced(accepted: seq<Entry>) {
    forall i, j :: 0 <= i && i + MAX_INGRESS_PER_SECOND <= j < |accepted| ==>
      accepted[i].acceptedAt + 1_000 <= accepted[j].acceptedAt
  }

  /** An event ID is accepted again only after its receipt has expired. */
  ghost predicate AcceptedOnce(accepted: seq<Entry>) {
    forall i, j :: 0 <= i < j < |accepted| && accepted[i].eventId == accepted[j].eventId ==>
      accepted[i].acceptedAt + RECEIPT_RETENTION_MS <= accepted[j].acceptedAt
  }

  /** The events table holds exactly the acceptances that have no fate yet. */
  ghost predicate EventsMatch(accepted: seq<Entry>, fates: seq<Fate>, events: seq<Event>) {
    && |fates| + |events| == |accepted|
    && (forall i :: 0 <= i < |events| ==>
          events[i] == EventOf(accepted[|fates| + i], |fates| + i + 1))
  }

  /** Receipts are the latest acceptances, in order. */
  ghost predicate ReceiptRows(accepted: seq<Entry>, receipts: seq<Receipt>) {
    && |receipts| <= |accepted|
    && (forall i :: 0 <= i < |receipts| ==>
          receipts[i] == ReceiptOf(accepted[|accepted| - |receipts| + i], |accepted| - |receipts| + i + 1))
  }

  /** The receipts table holds exactly the acceptances within receipt retention. */
  ghost predicate ReceiptsMatch(accepted: seq<Entry>, receipts: seq<Receipt>, clock: nat) {
    && ReceiptRows(accepted, receipts)
    && (forall i :: 0 <= i < |receipts| ==> receipts[i].expiresAt > clock)
    && (forall i :: 0 <= i < |accepted| - |receipts| ==>
          accepted[i].acceptedAt + RECEIPT_RETENTION_MS <= clock)
  }

  /** The ingress table holds at least the acceptances of the last second. */
  ghost predicate IngressMatch(accepted: seq<Entry>, ingress: seq<Ingress>, clock: nat) {
    && |ingress| <= |accepted|
    && (forall i :: 0 <= i < |ingress| ==>
          var entry := accepted[|accepted| - |ingress| + i];
          ingress[i] == Ingress(entry.eventId, entry.acceptedAt))
    && (forall i :: 0 <= i < |accepted| - |ingress| ==> accepted[i].acceptedAt + 1_000 <= clock)
  }

  /** Cursors and gap delimit the rows: without a gap everything past the acknowledged
      sequence is retained, with one everything past the gap's end. */
  ghost predicate CursorsMatch(log: Log) {
    && log.next == |log.accepted| + 1
    && log.count == |log.events|
    && log.bytes == SumBytes(log.events)
    && (log.gap.None? ==> log.acked == |log.fates|)
    && (log.gap.Some? ==>
          && log.gap.value.first == log.acked + 1
          && log.gap.value.first <= log.gap.value.last == |log.fates|)
  }

  ghost predicate Covers(range: Gap, sequence: nat) {
    range.first <= sequence <= range.last
  }

  /** Expired sequences are exactly those some recorded range covers. */
  ghost predicate ExpiryRecorded(fates: seq<Fate>, gap: Option<Gap>, audit: seq<Gap>) {
    && (forall k :: 0 <= k < |fates| ==>
          (fates[k] == Expired <==>
             (gap.Some? && Covers(gap.value, k + 1)) || exists r :: r in audit && Covers(r, k + 1)))
    && (forall r :: r in audit ==> 1 <= r.first <= r.last <= |fates|)
  }

  ghost predicate Inv(log: Log) {
    && Ordered(log.accepted, log.clock)
    && Spaced(log.accepted)
    && AcceptedOnce(log.accepted)
    && EventsMatch(log.accepted, log.fates, log.events)
    && ReceiptsMatch(log.accepted, log.receipts, log.clock)
    && IngressMatch(log.accepted, log.ingress, log.clock)
    && CursorsMatch(log)
    && ExpiryRecorded(log.fates, log.gap, log.audit)
  }

  // ----- Aggregates -----

  lemma {:induction false} SumBytesSplit(events: seq<Event>, n: nat)
    requires n <= |events|
    ensures SumBytes(events) == SumBytes(events[..n]) + SumBytes(events[n..])
  {
    if n > 0 {
      SumBytesSplit(events[1..], n - 1);
      assert events[..n][1..] == events[1..][..n - 1];
      assert events[n..] == events[1..][n - 1..];
    } else {
      assert events[0..] == events;
    }
  }

  lemma SumBytesSnoc(events: seq<Event>, event: Event)
    ensures SumBytes(events + [event]) == SumBytes(events) + event.payloadBytes
  {
    SumBytesSplit(events + [event], |events|);
    assert (events + [event])[..|events|] == events;
    assert (events + [event])[|events|..] == [event];
  }

  lemma {:induction false} SumMetadataIsUniform(receipts: seq<Receipt>)
    requires forall i :: 0 <= i < |receipts| ==> receipts[i].metadataBytes == RECEIPT_ROW_BYTES
    ensures SumMetadata(receipts) == |receipts| * RECEIPT_ROW_BYTES
  {
    if receipts != [] {
      SumMetadataIsUniform(receipts[1..]);
    }
  }

  // ----- Each operation keeps the invariant -----

  lemma EmptyInv()
    ensures Inv(EMPTY)
  {
  }

  /** Pruning removes a prefix of each table. */
  lemma ExpirySplits(accepted: seq<Entry>, fates: seq<Fate>, events: seq<Event>, clock: nat, now: nat)
    returns (n: nat)
    requires Ordered(accepted, clock)
    requires EventsMatch(accepted, fates, events)
    ensures n <= |events|
    ensures Filter(events, ExpiredAt(now)) == events[..n]
    ensures Filter(events, LiveAt(now)) == events[n..]
    ensures forall i :: 0 <= i < |events| ==> (i < n <==> events[i].expiresAt <= now)
  {
    n := Boundary(events, LiveAt(now));
    forall i | n <= i < |events|
      ensures events[i].expiresAt > now
    {
      assert LiveAt(now)(events[n]);
      assert accepted[|fates| + n].acceptedAt <= accepted[|fates| + i].acceptedAt || n == i;
    }
    forall i | 0 <= i < n
      ensures events[i].expiresAt <= now
    {
      assert !LiveAt(now)(events[i]);
    }
    FilterPrefix(events, ExpiredAt(now), n);
    FilterSuffix(events, LiveAt(now), n);
  }

  /** Taking the first n rows out and giving them a fate keeps the table exact. */
  lemma EventsAdvance(accepted: seq<Entry>, fates: seq<Fate>, events: seq<Event>, n: nat, fate: Fate)
    requires EventsMatch(accepted, fates, events)
    requires n <= |events|
    ensures EventsMatch(accepted, fates + Repeat(fate, n), events[n..])
  {
    var fates', events' := fates + Repeat(fate, n), events[n..];
    forall i | 0 <= i < |events'|
      ensures events'[i] == EventOf(accepted[|fates'| + i], |fates'| + i + 1)
    {
      assert events'[i] == events[n + i];
    }
  }

  /** A run of newly expired rows extends the recorded range, whichever case began it. */
  lemma ExpiryAdvance(fates: seq<Fate>, gap: Option<Gap>, audit: seq<Gap>, acked: nat, n: nat)
    requires ExpiryRecorded(fates, gap, audit)
    requires n > 0
    requires gap.None? ==> acked == |fates|
    requires gap.Some? ==> gap.value.first == acked + 1 <= gap.value.last == |fates|
    ensures ExpiryRecorded(fates + Repeat(Expired, n), Some(Gap(acked + 1, |fates| + n)), audit)
  {
    var fates', gap' := fates + Repeat(Expired, n), Gap(acked + 1, |fates| + n);
    forall k | 0 <= k < |fates'|
      ensures fates'[k] == Expired <==> Covers(gap', k + 1) || exists r :: r in audit && Covers(r, k + 1)
    {
      if k < |fates| {
        assert fates'[k] == fates[k];
      } else {
        assert fates'[k] == Expired;
      }
    }
  }

  /** What expiry does to a consistent log: the first n rows leave, and the gap reaches past them. */
  lemma ExpiryShape(log: Log, now: nat, n: nat)
    requires EventsMatch(log.accepted, log.fates, log.events) && CursorsMatch(log)
    requires 0 < n <= |log.events|
    requires Filter(log.events, ExpiredAt(now)) == log.events[..n]
    requires Filter(log.events, LiveAt(now)) == log.events[n..]
    ensures ExpireEvents(log, now)
            == log.(events := log.events[n..], count := log.count - n, bytes := log.bytes - SumBytes(log.events[..n]),
                    gap := Some(Gap(log.acked + 1, |log.fates| + n)), fates := log.fates + Repeat(Expired, n))
  {
    assert log.events[..n][0] == EventOf(log.accepted[|log.fates|], |log.fates| + 1);
    assert log.events[..n][n - 1] == EventOf(log.accepted[|log.fates| + n - 1], |log.fates| + n);
  }

  lemma ExpireEventsKeepsInv(log: Log, now: nat)
    requires Inv(log)
    ensures Inv(ExpireEvents(log, now))
    ensures ExpireEvents(log, now).accepted == log.accepted
  {
    hide Ordered, Spaced, AcceptedOnce, EventsMatch, ReceiptsMatch, IngressMatch, ExpiryRecorded;
    var n := ExpirySplits(log.accepted, log.fates, log.events, log.clock, now);
    if n > 0 {
      ExpiryShape(log, now, n);
      SumBytesSplit(log.events, n);
      EventsAdvance(log.accepted, log.fates, log.events, n, Expired);
      ExpiryAdvance(log.fates, log.gap, log.audit, log.acked, n);
    }
  }

  /** The receipts that outlive `now` are a suffix, and only old acceptances lie before it. */
  lemma ReceiptsBoundary(accepted: seq<Entry>, receipts: seq<Receipt>, clock: nat, now: nat) returns (n: nat)
    requires Ordered(accepted, clock)
    requires ReceiptsMatch(accepted, receipts, clock)
    requires clock <= now
    ensures n <= |receipts| && Filter(receipts, ReceiptLiveAt(now)) == receipts[n..]
    ensures forall i :: 0 <= i < |accepted| - |receipts| + n ==>
              accepted[i].acceptedAt + RECEIPT_RETENTION_MS <= now
  {
    var offset := |accepted| - |receipts|;
    n := Boundary(receipts, ReceiptLiveAt(now));
    forall i | n <= i < |receipts|
      ensures receipts[i].expiresAt > now
    {
      assert ReceiptLiveAt(now)(receipts[n]);
      assert accepted[offset + n].acceptedAt <= accepted[offset + i].acceptedAt || n == i;
    }
    FilterSuffix(receipts, ReceiptLiveAt(now), n);
    forall i | 0 <= i < offset + n
      ensures accepted[i].acceptedAt + RECEIPT_RETENTION_MS <= now
    {
      if i >= offset {
        var row := receipts[i - offset];
        assert !ReceiptLiveAt(now)(row);
        assert row == ReceiptOf(accepted[i], i + 1);
      }
    }
  }

  lemma ReceiptRowsSuffix(accepted: seq<Entry>, receipts: seq<Receipt>, n: nat)
    requires ReceiptRows(accepted, receipts) && n <= |receipts|
    ensures ReceiptRows(accepted, receipts[n..])
  {
    var rest := receipts[n..];
    forall i | 0 <= i < |rest|
      ensures rest[i] == ReceiptOf(accepted[|accepted| - |rest| + i], |accepted| - |rest| + i + 1)
    {
      assert rest[i] == receipts[n + i];
    }
  }

  lemma ReceiptsAdvance(accepted: seq<Entry>, receipts: seq<Receipt>, clock: nat, now: nat)
    requires Ordered(accepted, clock)
    requires ReceiptsMatch(accepted, receipts, clock)
    requires clock <= now
    ensures ReceiptsMatch(accepted, Filter(receipts, ReceiptLiveAt(now)), now)
  {
    var n := ReceiptsBoundary(accepted, receipts, clock, now);
    ReceiptRowsSuffix(accepted, receipts, n);
    FilterKeeps(receipts, ReceiptLiveAt(now));
    hide ReceiptRows, Ordered;
  }

  /** The ingress rows that outlast the window are a suffix, and only older acceptances lie before it. */
  lemma IngressBoundary(accepted: seq<Entry>, ingress: seq<Ingress>, clock: nat, now: nat) returns (n: nat)
    requires Ordered(accepted, clock)
    requires IngressMatch(accepted, ingress, clock)
    requires clock <= now
    ensures n <= |ingress| && Filter(ingress, IngressAfter(now - 1_000)) == ingress[n..]
    ensures forall i :: 0 <= i < |accepted| - |ingress| + n ==> accepted[i].acceptedAt + 1_000 <= now
  {
    var offset := |accepted| - |ingress|;
    n := Boundary(ingress, IngressAfter(now - 1_000));
    forall i | n <= i < |ingress|
      ensures ingress[i].acceptedAt > now - 1_000
    {
      assert IngressAfter(now - 1_000)(ingress[n]);
      assert accepted[offset + n].acceptedAt <= accepted[offset + i].acceptedAt || n == i;
    }
    FilterSuffix(ingress, IngressAfter(now - 1_000), n);
    forall i | 0 <= i < offset + n
      ensures accepted[i].acceptedAt + 1_000 <= now
    {
      if i >= offset {
        assert !IngressAfter(now - 1_000)(ingress[i - offset]);
      }
    }
  }

  lemma IngressRowsSuffix(accepted: seq<Entry>, ingress: seq<Ingress>, clock: nat, now: nat, n: nat)
    requires IngressMatch(accepted, ingress, clock) && n <= |ingress|
    requires forall i :: 0 <= i < |accepted| - |ingress| + n ==> accepted[i].acceptedAt + 1_000 <= now
    ensures IngressMatch(accepted, ingress[n..], now)
  {
    var rest := ingress[n..];
    forall i | 0 <= i < |rest|
      ensures var entry := accepted[|accepted| - |rest| + i];
              rest[i] == Ingress(entry.eventId, entry.acceptedAt)
    {
      assert rest[i] == ingress[n + i];
    }
  }

  lemma IngressAdvance(accepted: seq<Entry>, ingress: seq<Ingress>, clock: nat, now: nat)
    requires Ordered(accepted, clock)
    requires IngressMatch(accepted, ingress, clock)
    requires clock <= now
    ensures IngressMatch(accepted, Filter(ingress, IngressAfter(now - 1_000)), now)
  {
    hide Ordered, Filter, IngressAfter;
    assert |ingress| <= |accepted|;
    var n := IngressBoundary(accepted, ingress, clock, now);
    hide IngressMatch;
    IngressRowsSuffix(accepted, ingress, clock, now, n);
  }

  lemma PruneKeepsInv(log: Log, now: nat)
    requires Inv(log)
    requires log.clock <= now
    ensures Inv(Prune(log, now))
    ensures Prune(log, now).accepted == log.accepted
  {
    ExpireEventsKeepsInv(log, now);
    ReceiptsAdvance(log.accepted, log.receipts, log.clock, now);
    IngressAdvance(log.accepted, log.ingress, log.clock, now);
  }

  /** Pruning with nothing to expire leaves the delivery side of the log alone. */
  lemma PruneIdle(log: Log, now: nat)
    requires Inv(log)
    requires ExpiredCount(log, now) == 0
    ensures Prune(log, now) == log.(receipts := Prune(log, now).receipts, ingress := Prune(log, now).ingress,
                                    clock := now)
  {
  }

  /** The log has just been pruned: its clock is `now` and its ingress rows are those of the window. */
  ghost predicate Pruned(log: Log, now: nat) {
    log.clock == now && Filter(log.ingress, IngressAfter(now - 1_000)) == log.ingress
  }

  lemma PruneIsPruned(log: Log, now: nat)
    ensures Pruned(Prune(log, now), now)
  {
    FilterKeeps(log.ingress, IngressAfter(now - 1_000));
    FilterSuffix(Prune(log, now).ingress, IngressAfter(now - 1_000), 0);
  }

  /** The admission test an insertion passed: fewer than ten acceptances in the last second. */
  lemma SpacedSnoc(accepted: seq<Entry>, ingress: seq<Ingress>, clock: nat, entry: Entry)
    requires Spaced(accepted)
    requires IngressMatch(accepted, ingress, clock)
    requires |ingress| < MAX_INGRESS_PER_SECOND
    requires entry.acceptedAt == clock
    ensures Spaced(accepted + [entry])
  {
  }

  /** An acceptance within receipt retention is found by its event ID. */
  lemma LiveReceiptFound(accepted: seq<Entry>, receipts: seq<Receipt>, clock: nat, k: nat)
    requires ReceiptsMatch(accepted, receipts, clock)
    requires k < |accepted| && accepted[k].acceptedAt + RECEIPT_RETENTION_MS > clock
    ensures FindReceipt(receipts, accepted[k].eventId).Some?
  {
    var i := k - (|accepted| - |receipts|);
    assert receipts[i] == ReceiptOf(accepted[k], k + 1);
  }

  /** A fresh event ID keeps re-acceptance at least a receipt lifetime apart. */
  lemma AcceptedOnceSnoc(accepted: seq<Entry>, receipts: seq<Receipt>, clock: nat, entry: Entry)
    requires AcceptedOnce(accepted)
    requires ReceiptsMatch(accepted, receipts, clock)
    requires FindReceipt(receipts, entry.eventId).None?
    requires entry.acceptedAt == clock
    ensures AcceptedOnce(accepted + [entry])
  {
    forall i | 0 <= i < |accepted| && accepted[i].eventId == entry.eventId
      ensures accepted[i].acceptedAt + RECEIPT_RETENTION_MS <= clock
    {
      if accepted[i].acceptedAt + RECEIPT_RETENTION_MS > clock {
        LiveReceiptFound(accepted, receipts, clock, i);
      }
    }
  }

  lemma OrderedSnoc(accepted: seq<Entry>, clock: nat, entry: Entry)
    requires Ordered(accepted, clock)
    requires entry.acceptedAt == clock
    ensures Ordered(accepted + [entry], clock)
  {
  }

  lemma ReceiptsSnoc(accepted: seq<Entry>, receipts: seq<Receipt>, clock: nat, entry: Entry)
    requires ReceiptsMatch(accepted, receipts, clock)
    requires entry.acceptedAt == clock
    ensures ReceiptsMatch(accepted + [entry], receipts + [ReceiptOf(entry, |accepted| + 1)], clock)
  {
    var accepted', receipts' := accepted + [entry], receipts + [ReceiptOf(entry, |accepted| + 1)];
    forall i | 0 <= i < |receipts'|
      ensures receipts'[i] == ReceiptOf(accepted'[|accepted'| - |receipts'| + i], |accepted'| - |receipts'| + i + 1)
    {
      assert i < |receipts| ==> receipts'[i] == receipts[i];
    }
  }

  lemma IngressSnoc(accepted: seq<Entry>, ingress: seq<Ingress>, clock: nat, entry: Entry)
    requires IngressMatch(accepted, ingress, clock)
    ensures IngressMatch(accepted + [entry], ingress + [Ingress(entry.eventId, entry.acceptedAt)], clock)
  {
    var accepted', ingress' := accepted + [entry], ingress + [Ingress(entry.eventId, entry.acceptedAt)];
    forall i | 0 <= i < |ingress'|
      ensures var e := accepted'[|accepted'| - |ingress'| + i]; ingress'[i] == Ingress(e.eventId, e.acceptedAt)
    {
      assert i < |ingress| ==> ingress'[i] == ingress[i];
    }
  }

  lemma EventsSnoc(accepted: seq<Entry>, fates: seq<Fate>, events: seq<Event>, entry: Entry)
    requires EventsMatch(accepted, fates, events)
    ensures EventsMatch(accepted + [entry], fates, events + [EventOf(entry, |accepted| + 1)])
  {
    var accepted', events' := accepted + [entry], events + [EventOf(entry, |accepted| + 1)];
    forall i | 0 <= i < |events'|
      ensures events'[i] == EventOf(accepted'[|fates| + i], |fates| + i + 1)
    {
      assert i < |events| ==> events'[i] == events[i];
    }
  }

  lemma InsertKeepsInv(log: Log, entry: Entry)
    requires Inv(log)
    requires entry.acceptedAt == log.clock
    requires FindReceipt(log.receipts, entry.eventId).None?
    requires |log.ingress| < MAX_INGRESS_PER_SECOND
    ensures Inv(Insert(log, entry))
  {
    hide Ordered, Spaced, AcceptedOnce, EventsMatch, ReceiptsMatch, IngressMatch, ExpiryRecorded;
    OrderedSnoc(log.accepted, log.clock, entry);
    SpacedSnoc(log.accepted, log.ingress, log.clock, entry);
    AcceptedOnceSnoc(log.accepted, log.receipts, log.clock, entry);
    EventsSnoc(log.accepted, log.fates, log.events, entry);
    ReceiptsSnoc(log.accepted, log.receipts, log.clock, entry);
    IngressSnoc(log.accepted, log.ingress, log.clock, entry);
    SumBytesSnoc(log.events, EventOf(entry, log.next));
  }

  /** Acknowledging the oldest retained row removes that row alone. */
  lemma AcknowledgeKeepsInv(log: Log, cursor: Cursor)
    requires Inv(log)
    requires log.gap.None? && log.events != []
    ensures var out := AcknowledgeThrough(log, log.acked + 1, cursor);
            Inv(out) && out.events == log.events[1..] && out.fates == log.fates + [Acknowledged]
  {
    var q := log.acked + 1;
    forall i | 0 <= i < |log.events|
      ensures log.events[i].sequence == q + i
    {
    }
    FilterPrefix(log.events, Through(q), 1);
    FilterSuffix(log.events, Beyond(q), 1);
    SumBytesSplit(log.events, 1);
    EventsAdvance(log.accepted, log.fates, log.events, 1, Acknowledged);
    var out := AcknowledgeThrough(log, q, cursor);
    assert out.events == log.events[1..] && out.fates == log.fates + Repeat(Acknowledged, 1);
    RecordedGrows(log.fates, log.gap, log.audit, Acknowledged, 1);
  }

  lemma RecordedGrows(fates: seq<Fate>, gap: Option<Gap>, audit: seq<Gap>, fate: Fate, n: nat)
    requires ExpiryRecorded(fates, gap, audit)
    requires fate != Expired
    requires gap.Some? ==> gap.value.last <= |fates|
    ensures ExpiryRecorded(fates + Repeat(fate, n), gap, audit)
  {
    var fates' := fates + Repeat(fate, n);
    forall k | 0 <= k < |fates'|
      ensures fates'[k] == Expired <==>
              (gap.Some? && Covers(gap.value, k + 1)) || exists r :: r in audit && Covers(r, k + 1)
    {
      if k < |fates| {
        assert fates'[k] == fates[k];
      } else {
        assert fates'[k] == fate;
      }
    }
  }

  /** A reset moves the standing gap into the audit. */
  lemma RecordedInAudit(fates: seq<Fate>, gap: Gap, audit: seq<Gap>)
    requires ExpiryRecorded(fates, Some(gap), audit)
    requires 1 <= gap.first <= gap.last <= |fates|
    ensures ExpiryRecorded(fates, None, audit + [gap])
  {
    forall k | 0 <= k < |fates|
      ensures fates[k] == Expired <==> exists r :: r in audit + [gap] && Covers(r, k + 1)
    {
      if fates[k] == Expired && !Covers(gap, k + 1) {
        var r :| r in audit && Covers(r, k + 1);
        assert r in audit + [gap];
      }
      assert gap in audit + [gap];
    }
  }

  lemma ResetKeepsInv(log: Log)
    requires Inv(log)
    ensures Inv(Reset(log))
  {
    EventsAdvance(log.accepted, log.fates, log.events, |log.events|, Discarded);
    RecordedGrows(log.fates, log.gap, log.audit, Discarded, |log.events|);
    var fates := log.fates + Repeat(Discarded, |log.events|);
    if log.gap.Some? {
      RecordedInAudit(fates, log.gap.value, log.audit);
    }
    assert log.events[|log.events|..] == [];
  }

  // ----- What the invariant gives -----

  /** Acceptances ten per window apart: the k-th multiple of ten is k seconds later. */
  lemma {:induction false} SpacedByWindows(accepted: seq<Entry>, i: nat, windows: nat)
    requires Spaced(accepted)
    requires i + MAX_INGRESS_PER_SECOND * windows < |accepted|
    ensures accepted[i].acceptedAt + 1_000 * windows
            <= accepted[i + MAX_INGRESS_PER_SECOND * windows].acceptedAt
  {
    if windows > 0 {
      SpacedByWindows(accepted, i, windows - 1);
      var j := i + MAX_INGRESS_PER_SECOND * (windows - 1);
      assert accepted[j].acceptedAt + 1_000 <= accepted[j + MAX_INGRESS_PER_SECOND].acceptedAt;
    }
  }

  function Within(end: int): Entry -> bool {
    (e: Entry) => end - 1_000 < e.acceptedAt <= end
  }

  /** Over any run, every 1000 ms window contains at most ten acceptances. */
  lemma WindowHoldsTen(accepted: seq<Entry>, end: int)
    requires Spaced(accepted)
    ensures |Filter(accepted, Within(end))| <= MAX_INGRESS_PER_SECOND
  {
    var lo := Boundary(accepted, Within(end));
    var hi := if lo + MAX_INGRESS_PER_SECOND < |accepted| then lo + MAX_INGRESS_PER_SECOND else |accepted|;
    forall i | hi <= i < |accepted|
      ensures !Within(end)(accepted[i])
    {
      assert Within(end)(accepted[lo]) && accepted[lo].acceptedAt + 1_000 <= accepted[i].acceptedAt;
    }
    FilterBetween(accepted, Within(end), lo, hi);
  }

  /** Ten acceptances a second and two hours of retention make at most 72,000 live receipts. */
  lemma LiveReceiptsBound(accepted: seq<Entry>, receipts: seq<Receipt>, clock: nat, now: nat)
    requires Ordered(accepted, clock) && Spaced(accepted) && clock <= now
    requires ReceiptRows(accepted, receipts) && forall i :: 0 <= i < |receipts| ==> receipts[i].expiresAt > now
    ensures |receipts| <= 72_000
  {
    var oldest := if receipts == [] then None else Some(receipts[0].expiresAt);
    if |receipts| > 72_000 {
      SpacedByWindows(accepted, |accepted| - |receipts|, 7_200);
      assert false;
    }
  }

  /** Pruning leaves the latest receipts, all of them live. */
  lemma PrunedReceipts(log: Log, now: nat)
    requires ReceiptsMatch(log.accepted, log.receipts, log.clock) && Ordered(log.accepted, log.clock) && log.clock <= now
    ensures var rest := Prune(log, now).receipts;
            ReceiptRows(log.accepted, rest) && forall i :: 0 <= i < |rest| ==> rest[i].expiresAt > now
  {
    var rest := Prune(log, now).receipts;
    assert rest == Filter(log.receipts, ReceiptLiveAt(now));
    hide Prune, Filter;
    var n := ReceiptsBoundary(log.accepted, log.receipts, log.clock, now);
    ReceiptRowsSuffix(log.accepted, log.receipts, n);
    FilterKeeps(log.receipts, ReceiptLiveAt(now));
    assert forall i :: 0 <= i < |rest| ==> ReceiptLiveAt(now)(rest[i]);
  }

  /** So the receipt caps are out of reach. */
  lemma ReceiptCapsUnreachable(log: Log, now: nat)
    requires Inv(log)
    requires log.clock <= now
    ensures |Prune(log, now).receipts| <= 72_000
    ensures SumMetadata(Prune(log, now).receipts) == 192 * |Prune(log, now).receipts|
    ensures !ReceiptsAreFull(Prune(log, now))
  {
    hide Prune, Ordered, Spaced, AcceptedOnce, EventsMatch, ReceiptsMatch, IngressMatch, CursorsMatch, ExpiryRecorded;
    var rest := Prune(log, now).receipts;
    PrunedReceipts(log, now);
    hide Inv;
    LiveReceiptsBound(log.accepted, rest, log.clock, now);
    SumMetadataIsUniform(rest);
  }

  /** After pruning, an event ID without a live receipt is in no table: its rows insert cleanly. */
  lemma FreshIdIsUntaken(log: Log, now: nat, eventId: EventId)
    requires Inv(log)
    requires log.clock <= now
    requires FindReceipt(Prune(log, now).receipts, eventId).None?
    ensures var p := Prune(log, now); !EventIdTaken(p.events, p.receipts, p.ingress, eventId)
  {
    hide Ordered, Spaced, AcceptedOnce, EventsMatch, ReceiptsMatch, IngressMatch, ExpiryRecorded;
    PruneKeepsInv(log, now);
    FilterKeeps(log.events, LiveAt(now));
    FilterKeeps(log.ingress, IngressAfter(now - 1_000));
    var n := ExpirySplits(log.accepted, log.fates, log.events, log.clock, now);
    var p := Prune(log, now);
    assert n == 0 ==> p.events == log.events[n..];
    RecentRowsHaveReceipts(p, now, eventId);
  }

  lemma RecentRowsHaveReceipts(log: Log, now: nat, eventId: EventId)
    requires EventsMatch(log.accepted, log.fates, log.events)
    requires ReceiptsMatch(log.accepted, log.receipts, now)
    requires IngressMatch(log.accepted, log.ingress, now)
    requires forall i :: 0 <= i < |log.events| ==> log.events[i].expiresAt > now
    requires forall i :: 0 <= i < |log.ingress| ==> log.ingress[i].acceptedAt > now - 1_000
    requires FindReceipt(log.receipts, eventId).None?
    ensures !EventIdTaken(log.events, log.receipts, log.ingress, eventId)
  {
    forall i | 0 <= i < |log.events|
      ensures log.events[i].eventId != eventId
    {
      var k := |log.fates| + i;
      assert log.events[i] == EventOf(log.accepted[k], k + 1);
      LiveReceiptFound(log.accepted, log.receipts, now, k);
    }
    forall i | 0 <= i < |log.ingress|
      ensures log.ingress[i].eventId != eventId
    {
      var k := |log.accepted| - |log.ingress| + i;
      assert log.ingress[i].acceptedAt == log.accepted[k].acceptedAt;
      LiveReceiptFound(log.accepted, log.receipts, now, k);
    }
  }
}
