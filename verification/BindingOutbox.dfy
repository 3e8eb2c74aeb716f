/** The registry's watchers and its coalescing outbox of binding notifications. */
module BindingOutbox {
  import opened Contract

  const MIN_LIFETIME_MS := 5 * 60 * 1_000
  const MAX_LIFETIME_MS := 30 * 24 * 60 * 60 * 1_000
  const MAX_WATCHERS_PER_BINDING := 2_000
  const MAX_WATCHERS_PER_REGISTRY := 20_000
  const DELIVERY_BATCH_SIZE := 20
  const ATTEMPT_LEASE_MS := 30_000
  const RETRY_BASE_MS := 1_000
  const RETRY_MAX_MS := 30_000

  datatype Key = Key(direction: Direction, route: Route)

  datatype Watcher = Watcher(environment: nat, revision: nat, source: nat, expires: nat)

  datatype Row = Row(id: nat, key: Key, environment: nat, previousRevision: nat, previousSource: nat, revision: nat,
                     source: Option<nat>, committed: nat, expires: nat, attempts: nat, next: nat)

  /** A row as it was read for delivery, and when. */
  datatype Claim = Claim(row: Row, at: nat)

  /** That a route's watcher was told of a revision, or that the telling expired. */
  datatype Word = Word(key: Key, revision: nat)

  type Watchers = map<Key, Watcher>
  type Rows = map<Key, Row>

  /** `used`, `latest`, `delivered`, `expired` and `clock` are history: notification IDs ever given, the newest
      revision of each direction, and what became of notifications. */
  datatype Outbox = Outbox(watchers: Watchers, rows: Rows, inFlight: set<Claim>, used: set<nat>,
                           latest: map<Direction, nat>, delivered: set<Word>, expired: set<Word>, clock: nat)

  const EMPTY: Outbox := Outbox(map[], map[], {}, {}, map[], {}, {}, 0)

  datatype Binding = Binding(revision: nat, source: nat)

  datatype Registration = Registered | Unmatched | Full | Refused

  datatype Registering = Registering(outbox: Outbox, reply: Registration)

  // ----- Operations -----

  function LiveRows(rows: Rows, now: nat): Rows { map k | k in rows && rows[k].expires > now :: rows[k] }

  function LiveWatchers(watchers: Watchers, now: nat): Watchers {
    map k | k in watchers && watchers[k].expires > now :: watchers[k]
  }

  function Prune(o: Outbox, now: nat): Outbox {
    o.(rows := LiveRows(o.rows, now), watchers := LiveWatchers(o.watchers, now),
       expired := o.expired + set k | k in o.rows && o.rows[k].expires <= now :: Word(k, o.rows[k].revision),
       clock := now)
  }

  predicate LifetimeFits(expires: nat, now: nat) {
    now + MIN_LIFETIME_MS <= expires <= now + MAX_LIFETIME_MS
  }

  predicate Room(watchers: Watchers, key: Key) {
    key in watchers
    || (|watchers| < MAX_WATCHERS_PER_REGISTRY
        && |set k | k in watchers && k.direction == key.direction| < MAX_WATCHERS_PER_BINDING)
  }

  /** Only a watcher expecting the current binding is registered or renewed. */
  function Register(o: Outbox, key: Key, watcher: Watcher, current: Option<Binding>, environment: nat, now: nat)
    : Registering
  {
    if !LifetimeFits(watcher.expires, now) || watcher.environment != environment then Registering(o, Refused)
    else if current != Some(Binding(watcher.revision, watcher.source)) then Registering(o, Unmatched)
    else
      var p := Prune(o, now);
      if !Room(p.watchers, key) then Registering(o, Full)
      else Registering(p.(watchers := p.watchers[key := watcher]), Registered)
  }

  predicate Affected(watchers: Watchers, key: Key, direction: Direction, revision: nat, now: nat) {
    && key in watchers && key.direction == direction
    && watchers[key].expires > now && watchers[key].revision < revision
  }

  function NewRow(key: Key, w: Watcher, id: nat, revision: nat, source: Option<nat>, now: nat): Row {
    Row(id, key, w.environment, w.revision, w.source, revision, source, now, w.expires, 0, 0)
  }

  /** A row already there keeps what it was first issued against and when it expires. */
  function Coalesced(row: Row, id: nat, revision: nat, source: Option<nat>, now: nat): Row {
    row.(id := id, revision := revision, source := source, committed := now, attempts := 0, next := 0)
  }

  function Notices(watchers: Watchers, rows: Rows, direction: Direction, revision: nat, source: Option<nat>,
                   ids: map<Key, nat>, now: nat): Rows
    requires forall k :: Affected(watchers, k, direction, revision, now) ==> k in ids
  {
    map k | k in watchers && Affected(watchers, k, direction, revision, now) ::
      if k in rows then Coalesced(rows[k], ids[k], revision, source, now)
      else NewRow(k, watchers[k], ids[k], revision, source, now)
  }

  /** Fresh, distinct notification IDs for every affected watcher. */
  ghost predicate IdsFit(o: Outbox, direction: Direction, revision: nat, ids: map<Key, nat>, now: nat) {
    && (forall k :: Affected(o.watchers, k, direction, revision, now) ==> k in ids)
    && (forall k :: k in ids ==> ids[k] !in o.used)
    && (forall j, k :: j in ids && k in ids && ids[j] == ids[k] ==> j == k)
  }

  function Advance(o: Outbox, direction: Direction, revision: nat, source: Option<nat>, ids: map<Key, nat>, now: nat)
    : Outbox
    requires forall k :: Affected(o.watchers, k, direction, revision, now) ==> k in ids
  {
    var p := Prune(o, now);
    assert forall k :: Affected(p.watchers, k, direction, revision, now) ==> Affected(o.watchers, k, direction, revision, now);
    p.(rows := p.rows + Notices(p.watchers, p.rows, direction, revision, source, ids, now),
       used := p.used + (set k | k in ids :: ids[k]),
       latest := p.latest[direction := revision])
  }

  /** The due rows a claim takes: the earliest by next attempt and commit time, at most a batch. */
  ghost predicate Takes(rows: Rows, now: nat, picked: set<Key>) {
    && |picked| <= DELIVERY_BATCH_SIZE
    && (forall k :: k in picked ==> k in rows && rows[k].next <= now)
    && (forall j, k :: j in picked && k in rows && k !in picked && rows[k].next <= now ==>
          rows[j].next < rows[k].next || (rows[j].next == rows[k].next && rows[j].committed <= rows[k].committed))
    && (|picked| < DELIVERY_BATCH_SIZE ==> forall k :: k in rows && rows[k].next <= now ==> k in picked)
  }

  function Leased(row: Row, now: nat): Row { row.(attempts := row.attempts + 1, next := now + ATTEMPT_LEASE_MS) }

  function LeasedRows(rows: Rows, picked: set<Key>, now: nat): Rows {
    map k | k in rows :: if k in picked then Leased(rows[k], now) else rows[k]
  }

  function ClaimDue(o: Outbox, picked: set<Key>, now: nat): Outbox {
    var p := Prune(o, now);
    p.(rows := LeasedRows(p.rows, picked, now),
       inFlight := p.inFlight + set k | k in picked && k in p.rows :: Claim(p.rows[k], now))
  }

  /** The wait after the given attempt failed, counted from the claim. */
  function RetryDelay(attempt: nat): nat
    requires attempt >= 1
  {
    Min(RETRY_MAX_MS, RETRY_BASE_MS * Pow2(Min(5, attempt - 1)))
  }

  function WithoutRow(rows: Rows, id: nat): Rows { map k | k in rows && rows[k].id != id :: rows[k] }

  function Rescheduled(rows: Rows, id: nat, next: nat): Rows {
    map k | k in rows :: if rows[k].id == id then rows[k].(next := next) else rows[k]
  }

  /** Drops the watcher the notification was issued against. */
  function WithoutWatcher(watchers: Watchers, row: Row): Watchers {
    map k | k in watchers
            && !(k == row.key && watchers[k].revision == row.previousRevision && watchers[k].source == row.previousSource)
      :: watchers[k]
  }

  /** A delivery's end touches only the row that still carries its ID, and only the watcher it was issued against. */
  function End(o: Outbox, c: Claim, ok: bool, now: nat): Outbox {
    var ended := o.(inFlight := o.inFlight - {c}, clock := now);
    if ok then
      ended.(rows := WithoutRow(o.rows, c.row.id), watchers := WithoutWatcher(o.watchers, c.row),
             delivered := o.delivered + {Word(c.row.key, c.row.revision)})
    else ended.(rows := Rescheduled(o.rows, c.row.id, c.at + RetryDelay(c.row.attempts + 1)))
  }

  datatype Step =
    | RegisterAt(key: Key, watcher: Watcher, current: Option<Binding>, environment: nat, now: nat)
    | AdvanceAt(direction: Direction, revision: nat, source: Option<nat>, ids: map<Key, nat>, now: nat)
    | ClaimAt(picked: set<Key>, now: nat)
    | EndAt(claim: Claim, ok: bool, now: nat)

  /** Time and each direction's revision only rise; a claim takes what its query answers; a delivery ends once. */
  ghost predicate Allowed(o: Outbox, step: Step) {
    && o.clock <= step.now
    && match step
       case RegisterAt(_, _, _, _, _) => true
       case AdvanceAt(direction, revision, _, ids, now) =>
         IdsFit(o, direction, revision, ids, now) && (direction in o.latest ==> o.latest[direction] < revision)
       case ClaimAt(picked, now) => Takes(LiveRows(o.rows, now), now, picked)
       case EndAt(c, _, _) => c in o.inFlight
  }

  function Next(o: Outbox, step: Step): Outbox
    requires Allowed(o, step)
  {
    match step
    case RegisterAt(key, watcher, current, environment, now) => Register(o, key, watcher, current, environment, now).outbox
    case AdvanceAt(direction, revision, source, ids, now) => Advance(o, direction, revision, source, ids, now)
    case ClaimAt(picked, now) => ClaimDue(o, picked, now)
    case EndAt(c, ok, now) => End(o, c, ok, now)
  }

  ghost predicate AllowedRun(o: Outbox, steps: seq<Step>)
    decreases |steps|
  {
    steps == [] || (Allowed(o, steps[0]) && AllowedRun(Next(o, steps[0]), steps[1..]))
  }

  ghost function Run(o: Outbox, steps: seq<Step>): Outbox
    requires AllowedRun(o, steps)
    decreases |steps|
  {
    if steps == [] then o else Run(Next(o, steps[0]), steps[1..])
  }

  // ----- Invariant -----

  predicate SameNotice(a: Row, b: Row) { a == b.(attempts := a.attempts, next := a.next) }

  ghost predicate RowsOk(rows: Rows, used: set<nat>, latest: map<Direction, nat>) {
    && (forall k :: k in rows ==>
          && rows[k].key == k && rows[k].id in used
          && k.direction in latest && rows[k].revision <= latest[k.direction]
          && rows[k].previousRevision < rows[k].revision)
    && (forall j, k :: j in rows && k in rows && rows[j].id == rows[k].id ==> j == k)
  }

  /** A delivery in flight carries the same notice as the row of its ID, if that row is still there. */
  ghost predicate FlightOk(rows: Rows, inFlight: set<Claim>, used: set<nat>, clock: nat) {
    forall c :: c in inFlight ==>
      && c.row.id in used && c.at <= clock
      && forall k :: k in rows && rows[k].id == c.row.id ==> SameNotice(rows[k], c.row)
  }

  /** No row waits longer than thirty seconds. */
  ghost predicate SoonDue(rows: Rows, clock: nat) {
    forall k :: k in rows ==> rows[k].next <= clock + 30_000
  }

  ghost predicate TablesOk(o: Outbox) {
    && RowsOk(o.rows, o.used, o.latest)
    && FlightOk(o.rows, o.inFlight, o.used, o.clock)
    && SoonDue(o.rows, o.clock)
  }

  predicate Reached(latest: map<Direction, nat>, key: Key, revision: nat) {
    key.direction in latest && revision <= latest[key.direction]
  }

  /** Nothing is delivered, expired or in flight ahead of the newest revision of its direction. */
  ghost predicate WordsOk(o: Outbox) {
    && (forall w :: w in o.delivered + o.expired ==> Reached(o.latest, w.key, w.revision))
    && (forall c :: c in o.inFlight ==> Reached(o.latest, c.row.key, c.row.revision))
  }

  ghost predicate Valid(o: Outbox) {
    TablesOk(o) && WordsOk(o)
  }

  lemma PruneKeeps(o: Outbox, now: nat)
    requires TablesOk(o) && o.clock <= now
    ensures TablesOk(Prune(o, now))
  {
  }

  /** What an advance writes: one row per affected watcher, under a fresh ID, at the new revision. */
  ghost predicate Written(notices: Rows, used: set<nat>, ids: map<Key, nat>, direction: Direction, revision: nat) {
    && (forall k :: k in notices ==>
          && k in ids && k.direction == direction && notices[k].key == k && notices[k].id == ids[k]
          && notices[k].revision == revision && notices[k].previousRevision < revision && notices[k].next == 0)
    && (forall k :: k in ids ==> ids[k] !in used)
    && (forall j, k :: j in ids && k in ids && ids[j] == ids[k] ==> j == k)
  }

  lemma NoticesWritten(o: Outbox, direction: Direction, revision: nat, source: Option<nat>, ids: map<Key, nat>, now: nat)
    requires RowsOk(o.rows, o.used, o.latest) && IdsFit(o, direction, revision, ids, now)
    requires direction in o.latest ==> o.latest[direction] < revision
    ensures Written(Notices(o.watchers, o.rows, direction, revision, source, ids, now), o.used, ids, direction, revision)
  {
    var notices := Notices(o.watchers, o.rows, direction, revision, source, ids, now);
    forall k | k in notices
      ensures k in ids && k.direction == direction && notices[k].key == k && notices[k].id == ids[k]
      ensures notices[k].revision == revision && notices[k].previousRevision < revision && notices[k].next == 0
    {
      assert Affected(o.watchers, k, direction, revision, now);
    }
    hide Notices, Affected, RowsOk;
  }

  lemma WrittenRowsOk(rows: Rows, notices: Rows, used: set<nat>, latest: map<Direction, nat>, ids: map<Key, nat>,
                      direction: Direction, revision: nat)
    requires RowsOk(rows, used, latest) && Written(notices, used, ids, direction, revision)
    requires direction in latest ==> latest[direction] < revision
    ensures RowsOk(rows + notices, used + (set k | k in ids :: ids[k]), latest[direction := revision])
  {
  }

  lemma WrittenFlightOk(rows: Rows, notices: Rows, inFlight: set<Claim>, used: set<nat>, clock: nat, ids: map<Key, nat>,
                        direction: Direction, revision: nat)
    requires FlightOk(rows, inFlight, used, clock) && Written(notices, used, ids, direction, revision)
    ensures FlightOk(rows + notices, inFlight, used + (set k | k in ids :: ids[k]), clock)
  {
  }

  lemma AdvanceKeeps(o: Outbox, direction: Direction, revision: nat, source: Option<nat>, ids: map<Key, nat>, now: nat)
    requires TablesOk(o) && o.clock <= now && IdsFit(o, direction, revision, ids, now)
    requires direction in o.latest ==> o.latest[direction] < revision
    ensures TablesOk(Advance(o, direction, revision, source, ids, now))
  {
    hide RowsOk, FlightOk, Affected, Notices, Written, IdsFit, LiveRows, LiveWatchers;
    PruneKeeps(o, now);
    var p := Prune(o, now);
    PrunedIdsFit(o, direction, revision, ids, now);
    var notices := Notices(p.watchers, p.rows, direction, revision, source, ids, now);
    NoticesWritten(p, direction, revision, source, ids, now);
    WrittenRowsOk(p.rows, notices, p.used, p.latest, ids, direction, revision);
    WrittenFlightOk(p.rows, notices, p.inFlight, p.used, p.clock, ids, direction, revision);
    WrittenSoonDue(p.rows, notices, p.used, p.clock, ids, direction, revision);
    hide SoonDue;
  }

  lemma PrunedIdsFit(o: Outbox, direction: Direction, revision: nat, ids: map<Key, nat>, now: nat)
    requires IdsFit(o, direction, revision, ids, now)
    ensures IdsFit(Prune(o, now), direction, revision, ids, now)
    ensures forall k :: Affected(Prune(o, now).watchers, k, direction, revision, now) ==> k in ids
  {
    assert forall k :: Affected(Prune(o, now).watchers, k, direction, revision, now) ==>
        Affected(o.watchers, k, direction, revision, now);
  }

  lemma WrittenSoonDue(rows: Rows, notices: Rows, used: set<nat>, clock: nat, ids: map<Key, nat>, direction: Direction,
                       revision: nat)
    requires SoonDue(rows, clock) && Written(notices, used, ids, direction, revision)
    ensures SoonDue(rows + notices, clock)
  {
  }

  lemma LeaseKeeps(rows: Rows, inFlight: set<Claim>, used: set<nat>, latest: map<Direction, nat>, picked: set<Key>, now: nat)
    requires RowsOk(rows, used, latest) && FlightOk(rows, inFlight, used, now) && SoonDue(rows, now)
    ensures RowsOk(LeasedRows(rows, picked, now), used, latest)
    ensures FlightOk(LeasedRows(rows, picked, now), inFlight, used, now)
    ensures SoonDue(LeasedRows(rows, picked, now), now)
  {
  }

  lemma TakenFlightOk(rows: Rows, inFlight: set<Claim>, used: set<nat>, latest: map<Direction, nat>, picked: set<Key>, now: nat)
    requires RowsOk(rows, used, latest) && FlightOk(LeasedRows(rows, picked, now), inFlight, used, now)
    ensures FlightOk(LeasedRows(rows, picked, now), inFlight + (set k | k in picked && k in rows :: Claim(rows[k], now)),
                     used, now)
  {
  }

  lemma ClaimKeeps(o: Outbox, picked: set<Key>, now: nat)
    requires TablesOk(o) && o.clock <= now
    ensures TablesOk(ClaimDue(o, picked, now))
  {
    PruneKeeps(o, now);
    var p := Prune(o, now);
    hide RowsOk, FlightOk, SoonDue, LiveRows, LiveWatchers;
    LeaseKeeps(p.rows, p.inFlight, p.used, p.latest, picked, now);
    TakenFlightOk(p.rows, p.inFlight, p.used, p.latest, picked, now);
  }

  lemma {:induction false} DelayBounds(attempt: nat)
    requires attempt >= 1
    ensures RETRY_BASE_MS <= RetryDelay(attempt) <= RETRY_MAX_MS
  {
    Pow2Positive(Min(5, attempt - 1));
  }

  lemma {:induction false} Pow2Positive(n: nat)
    ensures Pow2(n) >= 1
  {
    if n > 0 {
      Pow2Positive(n - 1);
    }
  }

  /** Rows a delivery's end keeps are those before it, perhaps with another next attempt. */
  lemma EndedRowsOk(before: Rows, after: Rows, inFlight: set<Claim>, c: Claim, used: set<nat>, latest: map<Direction, nat>,
                    clock: nat, now: nat)
    requires RowsOk(before, used, latest) && FlightOk(before, inFlight, used, clock) && clock <= now
    requires forall k :: k in after ==> k in before && SameNotice(after[k], before[k])
    ensures RowsOk(after, used, latest) && FlightOk(after, inFlight - {c}, used, now)
  {
  }

  lemma EndKeeps(o: Outbox, c: Claim, ok: bool, now: nat)
    requires TablesOk(o) && o.clock <= now && c in o.inFlight
    ensures TablesOk(End(o, c, ok, now))
  {
    DelayBounds(c.row.attempts + 1);
    hide RetryDelay, RowsOk;
    EndedRowsOk(o.rows, End(o, c, ok, now).rows, o.inFlight, c, o.used, o.latest, o.clock, now);
    assert c.at <= o.clock;
    hide FlightOk;
  }

  lemma NextKeeps(o: Outbox, step: Step)
    requires Valid(o) && Allowed(o, step)
    ensures Valid(Next(o, step)) && o.clock <= Next(o, step).clock <= step.now
  {
    WordsFollow(o, step);
    hide TablesOk, WordsOk, IdsFit, Takes, LiveRows, LiveWatchers, Notices;
    match step
    case RegisterAt(_, _, _, _, now) => RegisterKeeps(o, step);
    case AdvanceAt(direction, revision, source, ids, now) => AdvanceKeeps(o, direction, revision, source, ids, now);
    case ClaimAt(picked, now) => ClaimKeeps(o, picked, now);
    case EndAt(c, ok, now) => EndKeeps(o, c, ok, now);
  }

  lemma RegisterKeeps(o: Outbox, step: Step)
    requires TablesOk(o) && step.RegisterAt? && o.clock <= step.now
    ensures TablesOk(Register(o, step.key, step.watcher, step.current, step.environment, step.now).outbox)
  {
    hide Room, RowsOk, FlightOk, SoonDue, LiveRows, LiveWatchers;
    PruneKeeps(o, step.now);
    hide Prune;
  }

  lemma PruneKeepsWords(o: Outbox, now: nat)
    requires RowsOk(o.rows, o.used, o.latest) && WordsOk(o)
    ensures WordsOk(Prune(o, now))
  {
  }

  /** New words and claims are of rows in the table; an advance raises the bound. */
  lemma WordsFollow(o: Outbox, step: Step)
    requires Valid(o) && Allowed(o, step)
    ensures WordsOk(Next(o, step))
  {
    PruneKeepsWords(o, step.now);
    hide FlightOk, SoonDue, IdsFit, Takes, Notices, LiveWatchers;
  }

  // ----- What an advance promises -----

  /** The watcher's route is told of this revision or a later one, or that telling is still in the outbox. */
  ghost predicate Promised(o: Outbox, key: Key, revision: nat) {
    || (key in o.rows && o.rows[key].revision >= revision)
    || (exists w :: w in o.delivered + o.expired && w.key == key && w.revision >= revision)
  }

  lemma AdvancePromises(o: Outbox, direction: Direction, revision: nat, source: Option<nat>, ids: map<Key, nat>, now: nat,
                        key: Key)
    requires IdsFit(o, direction, revision, ids, now)
    requires Affected(o.watchers, key, direction, revision, now)
    ensures var after := Advance(o, direction, revision, source, ids, now);
            key in after.rows && after.rows[key].revision == revision && after.rows[key].source == source
            && after.rows[key].id == ids[key] && after.rows[key].next == 0
  {
    PrunedIdsFit(o, direction, revision, ids, now);
    assert Affected(Prune(o, now).watchers, key, direction, revision, now);
  }

  lemma PruneKeepsPromise(o: Outbox, now: nat, key: Key, revision: nat)
    requires Promised(o, key, revision)
    ensures Promised(Prune(o, now), key, revision)
  {
    var p := Prune(o, now);
    if key in o.rows && o.rows[key].revision >= revision && o.rows[key].expires <= now {
      assert Word(key, o.rows[key].revision) in p.expired;
    } else if !(key in o.rows && o.rows[key].revision >= revision) {
      var w :| w in o.delivered + o.expired && w.key == key && w.revision >= revision;
      assert w in p.delivered + p.expired;
    }
  }

  lemma EndKeepsPromise(o: Outbox, c: Claim, ok: bool, now: nat, key: Key, revision: nat)
    requires Valid(o) && c in o.inFlight && Promised(o, key, revision)
    ensures Promised(End(o, c, ok, now), key, revision)
  {
    var after := End(o, c, ok, now);
    if key in o.rows && o.rows[key].revision >= revision {
      if ok && o.rows[key].id == c.row.id {
        assert SameNotice(o.rows[key], c.row);
        assert Word(key, o.rows[key].revision) in after.delivered;
      }
    } else {
      var w :| w in o.delivered + o.expired && w.key == key && w.revision >= revision;
      assert w in after.delivered + after.expired;
    }
  }

  lemma RowsKeepPromise(before: Outbox, after: Outbox, key: Key, revision: nat)
    requires Promised(before, key, revision)
    requires before.delivered <= after.delivered && before.expired <= after.expired
    requires key in before.rows ==> key in after.rows && before.rows[key].revision <= after.rows[key].revision
    ensures Promised(after, key, revision)
  {
    if !(key in before.rows && before.rows[key].revision >= revision) {
      var w :| w in before.delivered + before.expired && w.key == key && w.revision >= revision;
      assert w in after.delivered + after.expired;
    }
  }

  lemma AdvanceKeepsPromise(o: Outbox, step: Step, key: Key, revision: nat)
    requires Valid(o) && step.AdvanceAt? && Allowed(o, step) && Promised(o, key, revision)
    ensures Promised(Next(o, step), key, revision)
  {
    PruneKeepsPromise(o, step.now, key, revision);
    PruneKeeps(o, step.now);
    PrunedIdsFit(o, step.direction, step.revision, step.ids, step.now);
    var p := Prune(o, step.now);
    hide FlightOk, SoonDue, LiveRows, LiveWatchers, Promised, IdsFit;
    RowsKeepPromise(p, Next(o, step), key, revision);
  }

  lemma NextKeepsPromise(o: Outbox, step: Step, key: Key, revision: nat)
    requires Valid(o) && Allowed(o, step) && Promised(o, key, revision)
    ensures Promised(Next(o, step), key, revision)
  {
    PruneKeepsPromise(o, step.now, key, revision);
    hide Valid, IdsFit, Takes, LiveRows, LiveWatchers, Notices, Promised;
    match step
    case AdvanceAt(_, _, _, _, _) => AdvanceKeepsPromise(o, step, key, revision);
    case EndAt(c, ok, now) => EndKeepsPromise(o, c, ok, now, key, revision);
    case _ =>
      if Next(o, step) != o {
        RowsKeepPromise(Prune(o, step.now), Next(o, step), key, revision);
      }
  }

  lemma {:induction false} RunKeepsPromise(o: Outbox, steps: seq<Step>, key: Key, revision: nat)
    requires Valid(o) && AllowedRun(o, steps) && Promised(o, key, revision)
    ensures Promised(Run(o, steps), key, revision)
    decreases |steps|
  {
    if steps != [] {
      NextKeeps(o, steps[0]);
      NextKeepsPromise(o, steps[0], key, revision);
      hide Valid, Promised, Next, Allowed;
      RunKeepsPromise(Next(o, steps[0]), steps[1..], key, revision);
    }
  }

  lemma {:induction false} RunKeeps(o: Outbox, steps: seq<Step>)
    requires Valid(o) && AllowedRun(o, steps)
    ensures Valid(Run(o, steps))
    decreases |steps|
  {
    if steps != [] {
      NextKeeps(o, steps[0]);
      hide Valid, Next, Allowed;
      RunKeeps(Next(o, steps[0]), steps[1..]);
    }
  }

  /** Words recorded since then tell the watcher's route of this revision or a later one. */
  ghost predicate ToldSince(before: Outbox, after: Outbox, key: Key, revision: nat) {
    exists w :: w in (after.delivered + after.expired) - (before.delivered + before.expired)
                && w.key == key && w.revision >= revision
  }

  /** Once a binding advances, every watcher live then has a notification of that revision or a later one waiting,
      in every later run, until exactly such a notification is delivered or expires after the advance; and no
      waiting one is more than thirty seconds from its next attempt. */
  lemma AdvanceIsNotForgotten(steps: seq<Step>, step: Step, later: seq<Step>, key: Key)
    requires AllowedRun(EMPTY, steps) && step.AdvanceAt? && Allowed(Run(EMPTY, steps), step)
    requires AllowedRun(Next(Run(EMPTY, steps), step), later)
    requires Affected(Run(EMPTY, steps).watchers, key, step.direction, step.revision, step.now)
    ensures var o := Run(Next(Run(EMPTY, steps), step), later);
            && ((key in o.rows && o.rows[key].revision >= step.revision)
                || ToldSince(Run(EMPTY, steps), o, key, step.revision))
            && (key in o.rows ==> o.rows[key].next <= o.clock + 30_000)
  {
    hide Run, AllowedRun, RowsOk, FlightOk, Affected, Advance, LiveRows, LiveWatchers;
    var before := Run(EMPTY, steps);
    EmptyValid();
    RunKeeps(EMPTY, steps);
    AdvancePromises(before, step.direction, step.revision, step.source, step.ids, step.now, key);
    NextKeeps(before, step);
    RunKeepsPromise(Next(before, step), later, key, step.revision);
    RunKeeps(Next(before, step), later);
    var o := Run(Next(before, step), later);
    assert key.direction == step.direction by {
      AffectedDirection(before.watchers, key, step.direction, step.revision, step.now);
    }
    hide IdsFit, Next;
    if !(key in o.rows && o.rows[key].revision >= step.revision) {
      var w :| w in o.delivered + o.expired && w.key == key && w.revision >= step.revision;
      assert w !in before.delivered + before.expired;
    }
  }

  lemma AffectedDirection(watchers: Watchers, key: Key, direction: Direction, revision: nat, now: nat)
    requires Affected(watchers, key, direction, revision, now)
    ensures key.direction == direction
  {
  }

  lemma EmptyValid()
    ensures Valid(EMPTY)
  {
  }

  /** An affected watcher's notification lasts as long as the watcher exactly when there was no notification to
      coalesce with, or the one there already expired no sooner than the watcher does. */
  lemma NoticeOutlastsWatcher(o: Outbox, direction: Direction, revision: nat, source: Option<nat>,
                              ids: map<Key, nat>, now: nat, key: Key)
    requires IdsFit(o, direction, revision, ids, now) && Affected(o.watchers, key, direction, revision, now)
    ensures var after, rows := Advance(o, direction, revision, source, ids, now), Prune(o, now).rows;
            && key in after.rows && key in after.watchers && after.watchers[key] == o.watchers[key]
            && (after.rows[key].expires >= after.watchers[key].expires
                <==> key !in rows || rows[key].expires >= o.watchers[key].expires)
  {
    AdvancePromises(o, direction, revision, source, ids, now, key);
    PrunedIdsFit(o, direction, revision, ids, now);
    assert Affected(Prune(o, now).watchers, key, direction, revision, now);
  }

  // A watcher registered for five minutes, told of a change it answers by registering anew for ten.
  const PLACE: Direction := Direction(0, 0)
  const WATCHING: Key := Key(PLACE, Route(0, true, 0, 0))
  const RENEWAL: seq<Step> :=
    [RegisterAt(WATCHING, Watcher(0, 1, 0, MIN_LIFETIME_MS), Some(Binding(1, 0)), 0, 0),
     AdvanceAt(PLACE, 2, Some(1), map[WATCHING := 0], 0),
     RegisterAt(WATCHING, Watcher(0, 2, 1, 2 * MIN_LIFETIME_MS), Some(Binding(2, 1)), 0, 0),
     AdvanceAt(PLACE, 3, Some(0), map[WATCHING := 1], 0),
     ClaimAt({}, MIN_LIFETIME_MS)]

  const FIRST_NOTICE: Row := Row(0, WATCHING, 0, 1, 0, 2, Some(1), 0, MIN_LIFETIME_MS, 0, 0)
  const SECOND_NOTICE: Row := FIRST_NOTICE.(id := 1, revision := 3, source := Some(0))
  const WATCHED: Outbox := EMPTY.(watchers := map[WATCHING := Watcher(0, 1, 0, MIN_LIFETIME_MS)])
  const NOTIFIED: Outbox := WATCHED.(rows := map[WATCHING := FIRST_NOTICE], used := {0}, latest := map[PLACE := 2])
  const RENEWED: Outbox := NOTIFIED.(watchers := map[WATCHING := Watcher(0, 2, 1, 2 * MIN_LIFETIME_MS)])
  const NOTIFIED_AGAIN: Outbox :=
    RENEWED.(rows := map[WATCHING := SECOND_NOTICE], used := {0, 1}, latest := map[PLACE := 3])
  const UNTOLD: Outbox := NOTIFIED_AGAIN.(rows := map[], expired := {Word(WATCHING, 3)}, clock := MIN_LIFETIME_MS)

  lemma PrunesNothing(o: Outbox)
    requires o.clock == 0 && forall k :: k in o.rows ==> o.rows[k].expires > 0
    requires forall k :: k in o.watchers ==> o.watchers[k].expires > 0
    ensures Prune(o, 0) == o
  {
  }

  lemma Renews()
    ensures Allowed(EMPTY, RENEWAL[0]) && Next(EMPTY, RENEWAL[0]) == WATCHED
    ensures Allowed(NOTIFIED, RENEWAL[2]) && Next(NOTIFIED, RENEWAL[2]) == RENEWED
  {
    PrunesNothing(EMPTY);
    PrunesNothing(NOTIFIED);
    hide Prune;
  }

  lemma NotifiesFirst()
    ensures Allowed(WATCHED, RENEWAL[1]) && Next(WATCHED, RENEWAL[1]) == NOTIFIED
  {
    PrunesNothing(WATCHED);
    hide Prune;
    assert Affected(WATCHED.watchers, WATCHING, PLACE, 2, 0);
    assert Notices(WATCHED.watchers, map[], PLACE, 2, Some(1), map[WATCHING := 0], 0) == map[WATCHING := FIRST_NOTICE];
    assert (set k | k in map[WATCHING := 0] :: map[WATCHING := 0][k]) == {0};
  }

  lemma NotifiesAgain()
    ensures Allowed(RENEWED, RENEWAL[3]) && Next(RENEWED, RENEWAL[3]) == NOTIFIED_AGAIN
  {
    PrunesNothing(RENEWED);
    hide Prune;
    assert Affected(RENEWED.watchers, WATCHING, PLACE, 3, 0);
    assert Notices(RENEWED.watchers, RENEWED.rows, PLACE, 3, Some(0), map[WATCHING := 1], 0) == map[WATCHING := SECOND_NOTICE];
    assert (set k | k in map[WATCHING := 1] :: map[WATCHING := 1][k]) == {1};
  }

  lemma Lapses()
    ensures Allowed(NOTIFIED_AGAIN, RENEWAL[4]) && Next(NOTIFIED_AGAIN, RENEWAL[4]) == UNTOLD
  {
    var now := MIN_LIFETIME_MS;
    assert LiveRows(NOTIFIED_AGAIN.rows, now) == map[];
    assert LiveWatchers(NOTIFIED_AGAIN.watchers, now) == NOTIFIED_AGAIN.watchers;
    assert NOTIFIED_AGAIN.rows[WATCHING].expires <= now;
    assert Prune(NOTIFIED_AGAIN, now) == UNTOLD;
  }

  /** A live watcher of a binding that has moved on, with nothing waiting to tell it and nothing told. */
  ghost predicate Unwarned(o: Outbox, key: Key) {
    && key in o.watchers && o.watchers[key].expires > o.clock
    && key.direction in o.latest && o.watchers[key].revision < o.latest[key.direction]
    && key !in o.rows && forall w :: w in o.delivered ==> w.key != key
  }

  lemma {:induction false} Follows(states: seq<Outbox>, steps: seq<Step>)
    requires |states| == |steps| + 1
    requires forall i :: 0 <= i < |steps| ==> Allowed(states[i], steps[i]) && Next(states[i], steps[i]) == states[i + 1]
    ensures AllowedRun(states[0], steps) && Run(states[0], steps) == states[|steps|]
    decreases |steps|
  {
    hide Allowed, Next;
    if steps != [] {
      assert Allowed(states[0], steps[0]) && Next(states[0], steps[0]) == states[1];
      Follows(states[1..], steps[1..]);
    }
  }

  /** A renewed watcher can outlive the notification of the next change: in this run the only notification of that
      change expires unsent while its watcher is still registered. */
  lemma RenewedWatcherOutlivesNotice()
    ensures AllowedRun(EMPTY, RENEWAL) && Unwarned(Run(EMPTY, RENEWAL), WATCHING)
  {
    Renews();
    NotifiesFirst();
    NotifiesAgain();
    Lapses();
    hide Allowed, Next, Run, AllowedRun;
    Follows([EMPTY, WATCHED, NOTIFIED, RENEWED, NOTIFIED_AGAIN, UNTOLD], RENEWAL);
  }

  /** A delivery that a newer notification has overtaken leaves that notification as it is, and leaves a watcher
      that has since registered against another revision. */
  lemma OvertakenDeliveryIsHarmless(o: Outbox, c: Claim, ok: bool, now: nat, key: Key)
    requires Valid(o) && c in o.inFlight
    requires key in o.rows && o.rows[key].revision != c.row.revision
    ensures var after := End(o, c, ok, now);
            && key in after.rows && after.rows[key] == o.rows[key]
            && (key in o.watchers && o.watchers[key].revision != c.row.previousRevision ==>
                  key in after.watchers && after.watchers[key] == o.watchers[key])
  {
    hide RowsOk, SoonDue;
  }

  function KeysOf(batch: seq<Key>): set<Key> { set k | k in batch }

  lemma NoneLeased(rows: Rows, now: nat)
    ensures LeasedRows(rows, {}, now) == rows
  {
  }

  lemma OneLeased(rows: Rows, picked: set<Key>, key: Key, now: nat)
    requires key in rows && key !in picked
    ensures key in LeasedRows(rows, picked, now) && LeasedRows(rows, picked, now)[key] == rows[key]
    ensures LeasedRows(rows, picked + {key}, now) == LeasedRows(rows, picked, now)[key := Leased(rows[key], now)]
  {
  }

  // ----- What each operation leaves -----

  /** The rows and watchers whose time has not come; the others' notices are recorded as expired. */
  ghost predicate Lapsed(before: Outbox, now: nat, rows: Rows, watchers: Watchers, expired: set<Word>) {
    && (forall k :: k in rows <==> k in before.rows && before.rows[k].expires > now)
    && (forall k :: k in rows ==> rows[k] == before.rows[k])
    && (forall k :: k in watchers <==> k in before.watchers && before.watchers[k].expires > now)
    && (forall k :: k in watchers ==> watchers[k] == before.watchers[k])
    && (forall w :: w in expired <==>
          w in before.expired
          || (w.key in before.rows && before.rows[w.key].expires <= now && before.rows[w.key].revision == w.revision))
  }

  lemma PruneLeaves(o: Outbox, now: nat)
    ensures var p := Prune(o, now); Lapsed(o, now, p.rows, p.watchers, p.expired)
    ensures Prune(o, now) == o.(rows := Prune(o, now).rows, watchers := Prune(o, now).watchers, expired := Prune(o, now).expired,
                                clock := now)
  {
    var p := Prune(o, now);
    forall w: Word | w.key in o.rows && o.rows[w.key].expires <= now && o.rows[w.key].revision == w.revision
      ensures w in p.expired
    {
      assert w == Word(w.key, o.rows[w.key].revision);
    }
  }

  ghost predicate LiveAt(watchers: Watchers, k: Key, now: nat) {
    k in watchers && watchers[k].expires > now
  }

  /** Room for a new route: fewer than twenty thousand live watchers, two thousand of one direction. */
  ghost predicate HasRoom(o: Outbox, key: Key, now: nat) {
    || LiveAt(o.watchers, key, now)
    || (|set k | k in o.watchers && LiveAt(o.watchers, k, now)| < 20_000
        && |set k | k in o.watchers && LiveAt(o.watchers, k, now) && k.direction == key.direction| < 2_000)
  }

  /** A registration for five minutes to thirty days that expects the current binding is entered while there is room; any
      other changes nothing. */
  lemma RegisterLeaves(o: Outbox, key: Key, watcher: Watcher, current: Option<Binding>, environment: nat, now: nat)
    ensures var out := Register(o, key, watcher, current, environment, now);
            if watcher.expires < now + 300_000 || watcher.expires > now + 2_592_000_000 || watcher.environment != environment
            then out == Registering(o, Refused)
            else if current.None? || current.value.revision != watcher.revision || current.value.source != watcher.source
            then out == Registering(o, Unmatched)
            else if !HasRoom(o, key, now) then out == Registering(o, Full)
            else
              && out.reply == Registered && key in out.outbox.watchers && out.outbox.watchers[key] == watcher
              && (forall k :: k != key ==> (k in out.outbox.watchers <==> LiveAt(o.watchers, k, now)))
              && (forall k :: k != key && k in out.outbox.watchers ==> out.outbox.watchers[k] == o.watchers[k])
              && Lapsed(o, now, out.outbox.rows, LiveWatchers(o.watchers, now), out.outbox.expired)
              && out.outbox == o.(rows := out.outbox.rows, watchers := out.outbox.watchers, expired := out.outbox.expired, clock := now)
  {
    PruneLeaves(o, now);
    var p := Prune(o, now);
    assert (set k | k in o.watchers && LiveAt(o.watchers, k, now)) == p.watchers.Keys && |p.watchers.Keys| == |p.watchers|;
    assert (set k | k in o.watchers && LiveAt(o.watchers, k, now) && k.direction == key.direction)
        == set k | k in p.watchers && k.direction == key.direction;
    hide Prune, LiveRows;
  }

  /** The live watchers an advance concerns: of its direction, and expecting an older revision. */
  ghost predicate Concerned(o: Outbox, k: Key, direction: Direction, revision: nat, now: nat) {
    LiveAt(o.watchers, k, now) && k.direction == direction && o.watchers[k].revision < revision
  }

  /** An advance leaves a notice for every concerned watcher: over a live one already there, the newer news under a new
      ID, due at once; otherwise one issued against what the watcher expects and lasting as long. */
  lemma AdvanceLeaves(o: Outbox, direction: Direction, revision: nat, source: Option<nat>, ids: map<Key, nat>, now: nat)
    requires IdsFit(o, direction, revision, ids, now)
    ensures var after := Advance(o, direction, revision, source, ids, now);
            && (forall k :: k in after.rows <==>
                  Concerned(o, k, direction, revision, now) || (k in o.rows && o.rows[k].expires > now))
            && (forall k :: k in after.rows ==>
                  after.rows[k]
                  == if !Concerned(o, k, direction, revision, now) then o.rows[k]
                     else if k in o.rows && o.rows[k].expires > now then
                       Row(ids[k], o.rows[k].key, o.rows[k].environment, o.rows[k].previousRevision, o.rows[k].previousSource,
                           revision, source, now, o.rows[k].expires, 0, 0)
                     else
                       var w := o.watchers[k];
                       Row(ids[k], k, w.environment, w.revision, w.source, revision, source, now, w.expires, 0, 0))
            && (forall k :: k in after.watchers <==> LiveAt(o.watchers, k, now))
            && (forall k :: k in after.watchers ==> after.watchers[k] == o.watchers[k])
            && after.latest == o.latest[direction := revision] && after.inFlight == o.inFlight && after.delivered == o.delivered
  {
    assert forall k :: Affected(o.watchers, k, direction, revision, now) ==> k in ids;
    hide Prune, Notices, Affected, IdsFit;
    PrunedIdsFit(o, direction, revision, ids, now);
    var p := Prune(o, now);
    NoticesAre(p.watchers, p.rows, direction, revision, source, ids, now);
    var notices := Notices(p.watchers, p.rows, direction, revision, source, ids, now);
    var after := Advance(o, direction, revision, source, ids, now);
    assert after == p.(rows := p.rows + notices, used := after.used, latest := p.latest[direction := revision]);
    hide Advance;
    PruneLeaves(o, now);
    assert forall k :: k in notices <==> Concerned(o, k, direction, revision, now);
  }

  lemma NoticesAre(watchers: Watchers, rows: Rows, direction: Direction, revision: nat, source: Option<nat>,
                   ids: map<Key, nat>, now: nat)
    requires forall k :: Affected(watchers, k, direction, revision, now) ==> k in ids
    ensures var notices := Notices(watchers, rows, direction, revision, source, ids, now);
            && (forall k :: k in notices <==>
                  k in watchers && k.direction == direction && watchers[k].expires > now && watchers[k].revision < revision)
            && (forall k :: k in notices ==>
                  k in ids
                  && notices[k]
                     == if k in rows then
                          Row(ids[k], rows[k].key, rows[k].environment, rows[k].previousRevision, rows[k].previousSource,
                              revision, source, now, rows[k].expires, 0, 0)
                        else
                          var w := watchers[k];
                          Row(ids[k], k, w.environment, w.revision, w.source, revision, source, now, w.expires, 0, 0))
  {
  }

  lemma {:induction false} SubsetSize(a: set<Key>, b: set<Key>)
    requires a <= b
    ensures |a| <= |b|
    decreases a
  {
    if a != {} {
      var x :| x in a;
      SubsetSize(a - {x}, b - {x});
    }
  }

  /** A batch is all that is due, or twenty of it; nothing left behind was due before anything taken. */
  lemma BatchIsTwenty(rows: Rows, now: nat, picked: set<Key>)
    requires Takes(rows, now, picked)
    ensures var due := set k | k in rows && rows[k].next <= now;
            && picked <= due && |picked| == (if |due| <= 20 then |due| else 20)
            && forall j, k :: j in picked && k in due - picked ==>
                 rows[j].next < rows[k].next || (rows[j].next == rows[k].next && rows[j].committed <= rows[k].committed)
  {
    var due := set k | k in rows && rows[k].next <= now;
    SubsetSize(picked, due);
    if |picked| < 20 {
      assert picked == due;
    }
  }

  /** A claim leases the rows it takes for thirty seconds and remembers them as they were. */
  lemma ClaimLeaves(o: Outbox, picked: set<Key>, now: nat)
    ensures var after := ClaimDue(o, picked, now);
            && (forall k :: k in after.rows <==> k in o.rows && o.rows[k].expires > now)
            && (forall k :: k in after.rows ==>
                  after.rows[k] == if k in picked then o.rows[k].(attempts := o.rows[k].attempts + 1, next := now + 30_000)
                                   else o.rows[k])
            && (forall c :: c in after.inFlight <==>
                  c in o.inFlight || (c.at == now && exists k :: k in picked && k in after.rows && c.row == o.rows[k]))
            && (forall k :: k in after.watchers <==> LiveAt(o.watchers, k, now))
            && after.latest == o.latest && after.delivered == o.delivered && after.used == o.used
  {
    PruneLeaves(o, now);
    hide Prune;
  }

  /** One second, doubling to sixteen, then half a minute. */
  function WaitAfter(attempts: nat): nat {
    if attempts == 0 then 1_000 else if attempts == 1 then 2_000 else if attempts == 2 then 4_000
    else if attempts == 3 then 8_000 else if attempts == 4 then 16_000 else 30_000
  }

  lemma WaitIs(attempts: nat)
    ensures RetryDelay(attempts + 1) == WaitAfter(attempts)
  {
    assert Pow2(0) == 1 && Pow2(1) == 2 && Pow2(2) == 4 && Pow2(3) == 8 && Pow2(4) == 16 && Pow2(5) == 32;
  }

  /** A delivery's end: delivered, the row of its ID goes, and the watcher that still expects what the notice was issued
      against; failed, that row waits, counted from the claim. Nothing else changes. */
  lemma EndLeaves(o: Outbox, c: Claim, ok: bool, now: nat)
    ensures var after := End(o, c, ok, now);
            && after.inFlight == o.inFlight - {c} && after.clock == now
            && after.latest == o.latest && after.used == o.used && after.expired == o.expired
            && (forall k :: k in after.rows <==> k in o.rows && !(ok && o.rows[k].id == c.row.id))
            && (forall k :: k in after.rows ==>
                  after.rows[k] == if o.rows[k].id == c.row.id then o.rows[k].(next := c.at + WaitAfter(c.row.attempts)) else o.rows[k])
            && (forall k :: k in after.watchers <==>
                  k in o.watchers && !(ok && k == c.row.key && o.watchers[k].revision == c.row.previousRevision
                                       && o.watchers[k].source == c.row.previousSource))
            && (forall k :: k in after.watchers ==> after.watchers[k] == o.watchers[k])
            && after.delivered == if ok then o.delivered + {Word(c.row.key, c.row.revision)} else o.delivered
  {
    WaitIs(c.row.attempts);
    hide RetryDelay;
  }

  // ----- The registry's tables -----

  class BindingRegistry {
    var watchers: Watchers
    var rows: Rows
    ghost var inFlight: set<Claim>
    ghost var used: set<nat>
    ghost var latest: map<Direction, nat>
    ghost var delivered: set<Word>
    ghost var expired: set<Word>
    ghost var clock: nat
    const environment: nat

    ghost function Model(): Outbox
      reads this
    {
      Outbox(watchers, rows, inFlight, used, latest, delivered, expired, clock)
    }

    constructor (environment: nat)
      ensures Model() == EMPTY && Valid(Model()) && this.environment == environment
    {
      this.environment := environment;
      watchers, rows, inFlight, used, latest, delivered, expired, clock := map[], map[], {}, {}, map[], {}, {}, 0;
    }

    method PruneNotifications(now: nat)
      modifies this
      ensures Model() == Prune(old(Model()), now)
    {
      expired := Prune(Model(), now).expired;
      rows := LiveRows(rows, now);
      watchers := LiveWatchers(watchers, now);
      clock := now;
    }

    method RegisterWatcher(key: Key, watcher: Watcher, current: Option<Binding>, now: nat) returns (reply: Registration)
      requires Valid(Model()) && clock <= now
      modifies this
      ensures Model() == Register(old(Model()), key, watcher, current, environment, now).outbox
      ensures reply == Register(old(Model()), key, watcher, current, environment, now).reply
      ensures Valid(Model())
    {
      hide LiveRows, LiveWatchers, Room, Valid;
      NextKeeps(Model(), RegisterAt(key, watcher, current, environment, now));
      if !LifetimeFits(watcher.expires, now) || watcher.environment != environment {
        return Refused;
      }
      if current != Some(Binding(watcher.revision, watcher.source)) {
        return Unmatched;
      }
      // A full table rolls the transaction back, its pruning included.
      if !Room(LiveWatchers(watchers, now), key) {
        return Full;
      }
      PruneNotifications(now);
      watchers := watchers[key := watcher];
      reply := Registered;
    }

    method AdvanceBindings(direction: Direction, revision: nat, source: Option<nat>, ids: map<Key, nat>, now: nat)
      requires Valid(Model()) && Allowed(Model(), AdvanceAt(direction, revision, source, ids, now))
      modifies this
      ensures Model() == Advance(old(Model()), direction, revision, source, ids, now)
      ensures Valid(Model())
    {
      NextKeeps(Model(), AdvanceAt(direction, revision, source, ids, now));
      PrunedIdsFit(Model(), direction, revision, ids, now);
      hide Prune, Affected, Valid;
      PruneNotifications(now);
      rows := rows + Notices(watchers, rows, direction, revision, source, ids, now);
      used := used + (set k | k in ids :: ids[k]);
      latest := latest[direction := revision];
    }

    /** The rows the query answers with, leased one by one; each is due by what the query requires. */
    method ClaimBatch(batch: seq<Key>, now: nat) returns (claims: seq<Claim>)
      requires Valid(Model()) && Allowed(Model(), ClaimAt(KeysOf(batch), now))
      requires forall i, j :: 0 <= i < j < |batch| ==> batch[i] != batch[j]
      modifies this
      ensures Model() == ClaimDue(old(Model()), KeysOf(batch), now)
      ensures |claims| == |batch|
      ensures forall i :: 0 <= i < |batch| ==>
                batch[i] in LiveRows(old(rows), now) && claims[i] == Claim(LiveRows(old(rows), now)[batch[i]], now)
      ensures Valid(Model())
    {
      hide LiveRows, LiveWatchers, Valid;
      NextKeeps(Model(), ClaimAt(KeysOf(batch), now));
      PruneNotifications(now);
      assert forall i :: 0 <= i < |batch| ==> batch[i] in KeysOf(batch);
      claims := LeaseBatch(batch, now);
      inFlight := inFlight + set k | k in batch && k in LiveRows(old(rows), now) :: Claim(LiveRows(old(rows), now)[k], now);
    }

    method LeaseBatch(batch: seq<Key>, now: nat) returns (claims: seq<Claim>)
      requires forall i :: 0 <= i < |batch| ==> batch[i] in rows && rows[batch[i]].next <= now
      requires forall i, j :: 0 <= i < j < |batch| ==> batch[i] != batch[j]
      modifies this`rows
      ensures rows == LeasedRows(old(rows), KeysOf(batch), now)
      ensures |claims| == |batch| && forall i :: 0 <= i < |batch| ==> claims[i] == Claim(old(rows)[batch[i]], now)
    {
      hide Leased;
      ghost var before := rows;
      claims := [];
      NoneLeased(before, now);
      assert KeysOf(batch[..0]) == {};
      for n := 0 to |batch|
        invariant |claims| == n && forall i :: 0 <= i < n ==> claims[i] == Claim(before[batch[i]], now)
        invariant rows == LeasedRows(before, KeysOf(batch[..n]), now)
      {
        assert batch[..n + 1] == batch[..n] + [batch[n]];
        assert batch[n] !in batch[..n];
        OneLeased(before, KeysOf(batch[..n]), batch[n], now);
        assert KeysOf(batch[..n + 1]) == KeysOf(batch[..n]) + {batch[n]};
        hide LeasedRows;
        var row := rows[batch[n]];
        claims := claims + [Claim(row, now)];
        if row.next <= now {
          rows := rows[batch[n] := Leased(row, now)];
        }
      }
      assert batch[..|batch|] == batch;
    }

    method FinishDelivery(c: Claim, ok: bool, now: nat)
      requires Valid(Model()) && c in inFlight && clock <= now
      modifies this
      ensures Model() == End(old(Model()), c, ok, now)
      ensures Valid(Model())
    {
      NextKeeps(Model(), EndAt(c, ok, now));
      assert Valid(End(Model(), c, ok, now));
      hide Valid, Allowed, Next, RetryDelay, WithoutRow, WithoutWatcher, Rescheduled;
      if ok {
        rows := WithoutRow(rows, c.row.id);
        watchers := WithoutWatcher(watchers, c.row);
        delivered := delivered + {Word(c.row.key, c.row.revision)};
      } else {
        DelayBounds(c.row.attempts + 1);
        rows := Rescheduled(rows, c.row.id, c.at + RetryDelay(c.row.attempts + 1));
      }
      inFlight := inFlight - {c};
      clock := now;
    }
  }
}
