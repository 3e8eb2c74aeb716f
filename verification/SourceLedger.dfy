/** The source group's publication ledger: pending, committed and rejected rows with a pinned route. */
module SourceLedger {
  import opened Contract
  import opened Tables

  /** A pinned route. A shared route is reached through one binding direction at one revision. */
  datatype Pin = Pin(route: Route, revision: nat, direction: Option<Direction>)

  datatype RowState = Pending | Committed(sequence: nat, acceptedAt: nat) | Rejected(code: Code)

  datatype Row = Row(eventId: EventId, fingerprint: Fingerprint, pin: Pin, state: RowState, pendingBytes: nat,
                     expiresAt: nat)

  /** What the ledger answers: the row's public form, or an error. */
  datatype Reply =
    | PendingReply(pin: Pin)
    | CommittedReply(sequence: nat, acceptedAt: nat)
    | RejectedReply(code: Code)
    | ErrorReply(code: Code)

  datatype Verdict = Commit(sequence: nat, acceptedAt: nat) | Reject(code: Code)

  function PublicRow(row: Row): Reply {
    match row.state
    case Pending => PendingReply(row.pin)
    case Committed(sequence, acceptedAt) => CommittedReply(sequence, acceptedAt)
    case Rejected(code) => RejectedReply(code)
  }

  function Find(rows: seq<Row>, eventId: EventId): (r: Option<nat>)
    ensures r.Some? ==> r.value < |rows| && rows[r.value].eventId == eventId
    ensures r.None? ==> forall i :: 0 <= i < |rows| ==> rows[i].eventId != eventId
  {
    if rows == [] then None
    else if rows[0].eventId == eventId then Some(0)
    else
      var rest := Find(rows[1..], eventId);
      if rest.Some? then Some(rest.value + 1) else None
  }

  function Lookup(rows: seq<Row>, eventId: EventId): Option<Row> {
    var i := Find(rows, eventId);
    if i.Some? then Some(rows[i.value]) else None
  }

  function SumPending(rows: seq<Row>): nat {
    if rows == [] then 0
    else (if rows[0].state.Pending? then rows[0].pendingBytes else 0) + SumPending(rows[1..])
  }

  // ----- Operations -----

  function Expire(row: Row, now: nat): Row {
    if row.state.Pending? && row.expiresAt <= now
    then row.(state := Rejected(ServiceUnavailable), pendingBytes := 0, expiresAt := now + RECEIPT_RETENTION_MS)
    else row
  }

  function ExpireAll(rows: seq<Row>, now: nat): seq<Row> {
    seq(|rows|, i requires 0 <= i < |rows| => Expire(rows[i], now))
  }

  function KeptAt(now: nat): Row -> bool { (r: Row) => r.state.Pending? || r.expiresAt > now }

  /** Overdue pending rows become rejected, overdue settled rows are deleted. */
  function PruneRows(rows: seq<Row>, now: nat): seq<Row> {
    Filter(ExpireAll(rows, now), KeptAt(now))
  }

  function IsPending(): Row -> bool { (r: Row) => r.state.Pending? }

  predicate LedgerIsFull(rows: seq<Row>, bytes: nat) {
    || |rows| >= MAX_RECEIPT_ROWS
    || |Filter(rows, IsPending())| >= MAX_PENDING_ROWS
    || SumPending(rows) + bytes > MAX_PENDING_BYTES
  }

  datatype Answer = Answer(rows: seq<Row>, reply: Reply)

  function Prepare(rows: seq<Row>, eventId: EventId, fingerprint: Fingerprint, pin: Pin, bytes: nat, now: nat): Answer {
    var pruned := PruneRows(rows, now);
    var existing := Lookup(pruned, eventId);
    if existing.Some? then
      // A throwing transaction leaves the table as it was.
      if existing.value.fingerprint != fingerprint then Answer(rows, ErrorReply(SourceConflict))
      else Answer(pruned, PublicRow(existing.value))
    else if LedgerIsFull(pruned, bytes) then Answer(rows, ErrorReply(ServiceUnavailable))
    else Answer(pruned + [Row(eventId, fingerprint, pin, Pending, bytes, now + RECEIPT_RETENTION_MS)], PendingReply(pin))
  }

  function Finalize(rows: seq<Row>, eventId: EventId, fingerprint: Fingerprint, verdict: Verdict): Answer {
    var i := Find(rows, eventId);
    if i.None? then Answer(rows, ErrorReply(ServiceUnavailable))
    else
      var row := rows[i.value];
      if row.fingerprint != fingerprint then Answer(rows, ErrorReply(SourceConflict))
      else if !row.state.Pending? then Answer(rows, PublicRow(row))
      else if verdict.Commit? && verdict.sequence < 1 then Answer(rows, ErrorReply(ServiceUnavailable))
      else
        var state := if verdict.Commit? then Committed(verdict.sequence, verdict.acceptedAt) else Rejected(verdict.code);
        var row' := row.(state := state, pendingBytes := 0);
        Answer(rows[i.value := row'], PublicRow(row'))
  }

  function Repin(rows: seq<Row>, eventId: EventId, fingerprint: Fingerprint, previous: Route, pin: Pin): Answer {
    var i := Find(rows, eventId);
    if i.None? then Answer(rows, ErrorReply(ServiceUnavailable))
    else
      var row := rows[i.value];
      if row.fingerprint != fingerprint then Answer(rows, ErrorReply(SourceConflict))
      else if !row.state.Pending? || row.pin.route != previous then Answer(rows, PublicRow(row))
      else Answer(rows[i.value := row.(pin := pin)], PendingReply(pin))
  }

  // ----- Lookups after each table change -----

  ghost predicate Unique(rows: seq<Row>) {
    forall i, j :: 0 <= i < j < |rows| ==> rows[i].eventId != rows[j].eventId
  }

  lemma LookupUpdate(rows: seq<Row>, i: nat, row: Row, eventId: EventId)
    requires Unique(rows) && i < |rows| && row.eventId == rows[i].eventId
    ensures Unique(rows[i := row])
    ensures Lookup(rows[i := row], eventId)
            == if eventId == row.eventId then Some(row) else Lookup(rows, eventId)
  {
    var updated := rows[i := row];
    assert forall j :: 0 <= j < |rows| ==> updated[j].eventId == rows[j].eventId;
    var at := Find(rows, eventId);
    var at' := Find(updated, eventId);
    assert at == at';
  }

  lemma LookupAppend(rows: seq<Row>, row: Row, eventId: EventId)
    requires Unique(rows) && Find(rows, row.eventId).None?
    ensures Unique(rows + [row])
    ensures Lookup(rows + [row], eventId) == if eventId == row.eventId then Some(row) else Lookup(rows, eventId)
  {
    var grown := rows + [row];
    assert grown[|rows|] == row;
    var at, at' := Find(rows, eventId), Find(grown, eventId);
    if at.Some? {
      assert grown[at.value].eventId == eventId;
    }
  }

  /** A row at its only position is the one looked up. */
  lemma LookupAt(rows: seq<Row>, i: nat)
    requires Unique(rows) && i < |rows|
    ensures Lookup(rows, rows[i].eventId) == Some(rows[i])
  {
  }

  lemma {:induction false} FilterUnique(rows: seq<Row>, keep: Row -> bool, eventId: EventId)
    requires Unique(rows)
    ensures Unique(Filter(rows, keep))
    ensures forall r :: r in Filter(rows, keep) ==> r in rows
    ensures Lookup(Filter(rows, keep), eventId)
            == if Lookup(rows, eventId).Some? && keep(Lookup(rows, eventId).value) then Lookup(rows, eventId) else None
  {
    if rows != [] {
      FilterUnique(rows[1..], keep, eventId);
      var rest := Filter(rows[1..], keep);
      assert rows == [rows[0]] + rows[1..];
      forall r | r in rest
        ensures r.eventId != rows[0].eventId
      {
        var j :| 0 <= j < |rows[1..]| && rows[1..][j] == r;
        assert rows[j + 1] == r;
      }
      if keep(rows[0]) {
        assert Filter(rows, keep) == [rows[0]] + rest;
        assert ([rows[0]] + rest)[1..] == rest;
      } else {
        assert Filter(rows, keep) == rest;
        if rows[0].eventId == eventId {
          assert Lookup(rows, eventId) == Some(rows[0]);
          assert Lookup(rest, eventId).None?;
        }
      }
    }
  }

  lemma LookupPrune(rows: seq<Row>, now: nat, eventId: EventId)
    requires Unique(rows)
    ensures Unique(PruneRows(rows, now))
    ensures var row := Lookup(rows, eventId);
            Lookup(PruneRows(rows, now), eventId)
            == if row.Some? && KeptAt(now)(Expire(row.value, now)) then Some(Expire(row.value, now)) else None
  {
    var expired := ExpireAll(rows, now);
    assert forall i :: 0 <= i < |rows| ==> expired[i].eventId == rows[i].eventId;
    FilterUnique(expired, KeptAt(now), eventId);
    var at := Find(rows, eventId);
    if at.Some? {
      LookupAt(expired, at.value);
    }
  }

  // ----- Settled rows are final -----

  datatype Request =
    | PrepareRequest(eventId: EventId, fingerprint: Fingerprint, pin: Pin, bytes: nat, now: nat)
    | FinalizeRequest(eventId: EventId, fingerprint: Fingerprint, verdict: Verdict)
    | RepinRequest(eventId: EventId, fingerprint: Fingerprint, previous: Route, pin: Pin)

  function Handle(rows: seq<Row>, request: Request): Answer {
    match request
    case PrepareRequest(eventId, fingerprint, pin, bytes, now) => Prepare(rows, eventId, fingerprint, pin, bytes, now)
    case FinalizeRequest(eventId, fingerprint, verdict) => Finalize(rows, eventId, fingerprint, verdict)
    case RepinRequest(eventId, fingerprint, previous, pin) => Repin(rows, eventId, fingerprint, previous, pin)
  }

  /** Event IDs stay unique, and a request about one event leaves every other event's row to the pruning. */
  lemma HandleFrames(rows: seq<Row>, request: Request, other: EventId)
    requires Unique(rows)
    requires other != request.eventId
    ensures Unique(Handle(rows, request).rows)
    ensures var after := Lookup(Handle(rows, request).rows, other);
            || after == Lookup(rows, other)
            || (request.PrepareRequest? && after == Lookup(PruneRows(rows, request.now), other))
  {
    match request
    case PrepareRequest(eventId, fingerprint, pin, bytes, now) =>
      LookupPrune(rows, now, other);
      LookupPrune(rows, now, eventId);
      var pruned := PruneRows(rows, now);
      if Lookup(pruned, eventId).None? {
        LookupAppend(pruned, Row(eventId, fingerprint, pin, Pending, bytes, now + RECEIPT_RETENTION_MS), other);
      }
    case _ =>
      var i := Find(rows, request.eventId);
      if i.Some? {
        var after := Handle(rows, request).rows;
        LookupUpdate(rows, i.value, after[i.value], other);
        assert after == rows[i.value := after[i.value]];
      }
  }

  /** Whatever the interleaving: a committed or rejected row stays exactly as it is until its expiry deletes it. */
  lemma SettledRowsAreFinal(rows: seq<Row>, request: Request, eventId: EventId)
    requires Unique(rows)
    requires Lookup(rows, eventId).Some? && !Lookup(rows, eventId).value.state.Pending?
    ensures var row := Lookup(rows, eventId).value;
            var after := Lookup(Handle(rows, request).rows, eventId);
            after == Some(row) || (request.PrepareRequest? && row.expiresAt <= request.now
                                   && (after.None? || after.value.state.Pending?))
  {
    if request.eventId != eventId {
      HandleFrames(rows, request, eventId);
    }
    if request.PrepareRequest? {
      LookupPrune(rows, request.now, eventId);
      var pruned := PruneRows(rows, request.now);
      if request.eventId == eventId && Lookup(pruned, eventId).None? {
        LookupAppend(pruned, Row(eventId, request.fingerprint, request.pin, Pending, request.bytes,
                                 request.now + RECEIPT_RETENTION_MS), eventId);
      }
    }
  }

  /** Requests keep event IDs unique. */
  lemma HandleKeepsUnique(rows: seq<Row>, request: Request)
    requires Unique(rows)
    ensures Unique(Handle(rows, request).rows)
  {
    HandleFrames(rows, request, request.eventId + 1);
  }

  function HandleAll(rows: seq<Row>, requests: seq<Request>): seq<Row>
    decreases |requests|
  {
    if requests == [] then rows else HandleAll(Handle(rows, requests[0]).rows, requests[1..])
  }

  /** A request at whose time the row's retention has ended prunes the table. */
  predicate PrunedLate(requests: seq<Request>, row: Row) {
    exists i :: 0 <= i < |requests| && requests[i].PrepareRequest? && row.expiresAt <= requests[i].now
  }

  /** Over any sequence of requests, of any publishers and in any order, a committed or rejected row stays exactly as it
      is until one comes that finds its retention ended. */
  lemma {:induction false} SettledRowsStay(rows: seq<Row>, requests: seq<Request>, eventId: EventId)
    requires Unique(rows)
    requires Lookup(rows, eventId).Some? && !Lookup(rows, eventId).value.state.Pending?
    ensures var row := Lookup(rows, eventId).value;
            Lookup(HandleAll(rows, requests), eventId) == Some(row) || PrunedLate(requests, row)
    decreases |requests|
  {
    hide Handle, Lookup, Unique;
    if requests != [] {
      var row := Lookup(rows, eventId).value;
      SettledRowsAreFinal(rows, requests[0], eventId);
      HandleKeepsUnique(rows, requests[0]);
      if !PrunedLate(requests, row) {
        SettledRowsStay(Handle(rows, requests[0]).rows, requests[1..], eventId);
      }
    }
  }

  // ----- What each request answers and leaves -----

  /** A row as a prepare at that time finds it: an overdue pending one rejected for two more hours, an overdue settled
      one gone. */
  function AtTime(row: Option<Row>, now: nat): Option<Row> {
    if row.None? || row.value.expiresAt > now then row
    else if row.value.state.Pending? then
      Some(row.value.(state := Rejected(ServiceUnavailable), pendingBytes := 0, expiresAt := now + 7_200_000))
    else None
  }

  lemma PruneLeaves(rows: seq<Row>, now: nat, eventId: EventId)
    requires Unique(rows)
    ensures Lookup(PruneRows(rows, now), eventId) == AtTime(Lookup(rows, eventId), now)
  {
    LookupPrune(rows, now, eventId);
  }

  /** A reply that is not an error tells the row as it is afterwards. */
  predicate Tells(reply: Reply, row: Option<Row>) {
    row.Some?
    && match row.value.state
       case Pending => reply == PendingReply(row.value.pin)
       case Committed(sequence, acceptedAt) => reply == CommittedReply(sequence, acceptedAt)
       case Rejected(code) => reply == RejectedReply(code)
  }

  predicate Crammed(rows: seq<Row>, bytes: nat) {
    |rows| >= 100_000 || Pendings(rows) >= 100 || PendingBytes(rows) + bytes > 524_288
  }

  function Pendings(rows: seq<Row>): nat {
    if rows == [] then 0 else (if rows[0].state == Pending then 1 else 0) + Pendings(rows[1..])
  }

  function PendingBytes(rows: seq<Row>): nat {
    if rows == [] then 0 else (if rows[0].state == Pending then rows[0].pendingBytes else 0) + PendingBytes(rows[1..])
  }

  lemma {:induction false} CrammedIsFull(rows: seq<Row>)
    ensures |Filter(rows, IsPending())| == Pendings(rows) && SumPending(rows) == PendingBytes(rows)
  {
    if rows != [] {
      CrammedIsFull(rows[1..]);
    }
  }

  /** A prepare repeats a row still kept, refuses another payload for it, refuses a new event when crammed, and
      otherwise enters a pending row for two hours. */
  lemma PrepareLeaves(rows: seq<Row>, eventId: EventId, fingerprint: Fingerprint, pin: Pin, bytes: nat, now: nat)
    requires Unique(rows)
    ensures var out, kept := Prepare(rows, eventId, fingerprint, pin, bytes, now), AtTime(Lookup(rows, eventId), now);
            if kept.Some? && kept.value.fingerprint != fingerprint then out == Answer(rows, ErrorReply(SourceConflict))
            else if kept.Some? then Lookup(out.rows, eventId) == kept && Tells(out.reply, kept)
            else if Crammed(PruneRows(rows, now), bytes) then out == Answer(rows, ErrorReply(ServiceUnavailable))
            else out.reply == PendingReply(pin)
                 && Lookup(out.rows, eventId) == Some(Row(eventId, fingerprint, pin, Pending, bytes, now + 7_200_000))
  {
    var pruned := PruneRows(rows, now);
    LookupPrune(rows, now, eventId);
    PruneLeaves(rows, now, eventId);
    CrammedIsFull(pruned);
    if Lookup(pruned, eventId).None? {
      LookupAppend(pruned, Row(eventId, fingerprint, pin, Pending, bytes, now + RECEIPT_RETENTION_MS), eventId);
    }
    hide PruneRows, Unique, Filter, SumPending, Pendings, PendingBytes, AtTime;
  }

  /** A finalize settles a pending row by its verdict and tells it; a settled row is told as it is; an unknown event, another
      payload or an impossible sequence is an error. */
  lemma FinalizeLeaves(rows: seq<Row>, eventId: EventId, fingerprint: Fingerprint, verdict: Verdict)
    requires Unique(rows)
    ensures var out, row := Finalize(rows, eventId, fingerprint, verdict), Lookup(rows, eventId);
            if row.None? then out == Answer(rows, ErrorReply(ServiceUnavailable))
            else if row.value.fingerprint != fingerprint then out == Answer(rows, ErrorReply(SourceConflict))
            else if row.value.state != Pending then out.rows == rows && Tells(out.reply, row)
            else if verdict.Commit? && verdict.sequence == 0 then out == Answer(rows, ErrorReply(ServiceUnavailable))
            else
              var settled := row.value.(pendingBytes := 0,
                                        state := if verdict.Commit? then Committed(verdict.sequence, verdict.acceptedAt)
                                                 else Rejected(verdict.code));
              Lookup(out.rows, eventId) == Some(settled) && Tells(out.reply, Some(settled))
  {
    var i := Find(rows, eventId);
    if i.Some? {
      var out := Finalize(rows, eventId, fingerprint, verdict);
      LookupUpdate(rows, i.value, out.rows[i.value], eventId);
    }
    hide Unique;
  }

  /** A repin moves a pending row from the route it was pinned to, and tells any other row as it is. */
  lemma RepinLeaves(rows: seq<Row>, eventId: EventId, fingerprint: Fingerprint, previous: Route, pin: Pin)
    requires Unique(rows)
    ensures var out, row := Repin(rows, eventId, fingerprint, previous, pin), Lookup(rows, eventId);
            if row.None? then out == Answer(rows, ErrorReply(ServiceUnavailable))
            else if row.value.fingerprint != fingerprint then out == Answer(rows, ErrorReply(SourceConflict))
            else if row.value.state == Pending && row.value.pin.route == previous then
              out.reply == PendingReply(pin) && Lookup(out.rows, eventId) == Some(row.value.(pin := pin))
            else out.rows == rows && Tells(out.reply, row)
  {
    var i := Find(rows, eventId);
    if i.Some? {
      var out := Repin(rows, eventId, fingerprint, previous, pin);
      LookupUpdate(rows, i.value, out.rows[i.value], eventId);
    }
    hide Unique;
  }

  class Ledger {
    var rows: seq<Row>

    constructor ()
      ensures rows == [] && Unique(rows)
    {
      rows := [];
    }

    method Prune(now: nat)
      requires Unique(rows)
      modifies this
      ensures rows == PruneRows(old(rows), now) && Unique(rows)
    {
      LookupPrune(rows, now, 0);
      rows := ExpireAll(rows, now);
      rows := Filter(rows, KeptAt(now));
    }

    method PreparePublication(eventId: EventId, fingerprint: Fingerprint, pin: Pin, bytes: nat, now: nat)
      returns (reply: Reply)
      requires Unique(rows)
      modifies this
      ensures Answer(rows, reply) == Prepare(old(rows), eventId, fingerprint, pin, bytes, now)
      ensures Unique(rows)
    {
      hide Unique, PruneRows, LedgerIsFull;
      HandleKeepsUnique(rows, PrepareRequest(eventId, fingerprint, pin, bytes, now));
      var before := rows;
      Prune(now);
      var existing := Lookup(rows, eventId);
      if existing.Some? {
        if existing.value.fingerprint != fingerprint {
          rows := before;
          return ErrorReply(SourceConflict);
        }
        return PublicRow(existing.value);
      }
      if LedgerIsFull(rows, bytes) {
        rows := before;
        return ErrorReply(ServiceUnavailable);
      }
      rows := rows + [Row(eventId, fingerprint, pin, Pending, bytes, now + RECEIPT_RETENTION_MS)];
      return PendingReply(pin);
    }

    method FinalizePublication(eventId: EventId, fingerprint: Fingerprint, verdict: Verdict) returns (reply: Reply)
      requires Unique(rows)
      modifies this
      ensures Answer(rows, reply) == Finalize(old(rows), eventId, fingerprint, verdict)
      ensures Unique(rows)
    {
      hide Unique, PruneRows, LedgerIsFull;
      HandleKeepsUnique(rows, FinalizeRequest(eventId, fingerprint, verdict));
      var i := Find(rows, eventId);
      if i.None? {
        return ErrorReply(ServiceUnavailable);
      }
      var row := rows[i.value];
      if row.fingerprint != fingerprint {
        return ErrorReply(SourceConflict);
      }
      if !row.state.Pending? {
        return PublicRow(row);
      }
      if verdict.Commit? {
        if verdict.sequence < 1 {
          return ErrorReply(ServiceUnavailable);
        }
        row := row.(state := Committed(verdict.sequence, verdict.acceptedAt), pendingBytes := 0);
      } else {
        row := row.(state := Rejected(verdict.code), pendingBytes := 0);
      }
      rows := rows[i.value := row];
      return PublicRow(row);
    }

    method RepinPublication(eventId: EventId, fingerprint: Fingerprint, previous: Route, pin: Pin) returns (reply: Reply)
      requires Unique(rows)
      modifies this
      ensures Answer(rows, reply) == Repin(old(rows), eventId, fingerprint, previous, pin)
      ensures Unique(rows)
    {
      hide Unique, PruneRows, LedgerIsFull;
      HandleKeepsUnique(rows, RepinRequest(eventId, fingerprint, previous, pin));
      var i := Find(rows, eventId);
      if i.None? {
        return ErrorReply(ServiceUnavailable);
      }
      var row := rows[i.value];
      if row.fingerprint != fingerprint {
        return ErrorReply(SourceConflict);
      }
      if !row.state.Pending? || row.pin.route != previous {
        return PublicRow(row);
      }
      rows := rows[i.value := row.(pin := pin)];
      return PendingReply(pin);
    }
  }
}
