/** The integration coordinator's outbox: executions, their effects, and the alarm that delivers them. */
module Coordinator {
  import opened Contract

  const MAX_DELIVERY_ATTEMPTS := 5
  const MAX_EFFECTS_PER_ALARM := 20
  const ATTEMPT_LEASE_MS := 30_000
  const RETRY_BASE_DELAY_MS := 30_000
  const RETRY_MAX_DELAY_MS := 30 * 60 * 1_000
  const COMPLETED_TTL_MS := 14 * 24 * 60 * 60 * 1_000
  const DRAIN_BUDGET_MS := 5_000

  // Codes the coordinator itself gives to failures.
  const NOT_MEMBER := 0
  const UNKNOWN_KIND := 1
  const INACTIVE := 2

  type EffectId = nat

  datatype EffectState = Pending | RetryWait | Attempting | Delivered | DeadLetter

  datatype ErrorRecord = ErrorRecord(code: nat, failedAt: nat)

  datatype Effect = Effect(source: nat, key: nat, kind: nat, target: nat, body: nat, state: EffectState, attempts: nat,
                           next: Option<nat>, lastAttempt: Option<nat>, deliveredAt: Option<nat>,
                           lastError: Option<ErrorRecord>, result: Option<nat>, created: nat)

  datatype Status = Open | Completed | CompletedWithFailures

  datatype Execution = Execution(fingerprint: nat, group: nat, status: Status, accepted: nat, completed: Option<nat>)

  type Effects = map<EffectId, Effect>
  type Executions = map<nat, Execution>

  datatype Store = Store(identity: Option<nat>, executions: Executions, effects: Effects, alarm: Option<nat>)

  datatype EffectRequest = EffectRequest(key: nat, kind: nat, target: nat, body: nat)

  datatype Request = Request(integration: nat, source: nat, group: nat, fingerprint: nat, effects: seq<EffectRequest>)

  datatype Reply = Submitted | Replayed | Conflict | KeyConflict | Mismatch | Invalid | NotFound | NotDeadLettered | Retried

  datatype Answer = Answer(store: Store, reply: Reply)

  datatype Outcome = Result(json: nat) | Failure(retryable: bool, code: nat)

  // ----- Derived status -----

  predicate Nonterminal(e: Effect) { e.state in {Pending, RetryWait, Attempting} }

  predicate HasNonterminal(effects: Effects, source: nat) {
    exists id :: id in effects && effects[id].source == source && Nonterminal(effects[id])
  }

  predicate HasDeadLetter(effects: Effects, source: nat) {
    exists id :: id in effects && effects[id].source == source && effects[id].state == DeadLetter
  }

  function Derived(effects: Effects, source: nat): Status {
    if HasNonterminal(effects, source) then Open
    else if HasDeadLetter(effects, source) then CompletedWithFailures
    else Completed
  }

  function Refreshed(execution: Execution, effects: Effects, source: nat, now: nat): Execution {
    var status := Derived(effects, source);
    execution.(status := status, completed := if status == Open then None else Some(now))
  }

  function Refresh(store: Store, source: nat, now: nat): Store {
    if source !in store.executions then store
    else store.(executions := store.executions[source := Refreshed(store.executions[source], store.effects, source, now)])
  }

  // ----- Retry timing and order -----

  function RetryDelay(attempts: nat): nat {
    Min(RETRY_BASE_DELAY_MS * Pow2(Max(0, attempts - 1)), RETRY_MAX_DELAY_MS)
  }

  predicate Scheduled(e: Effect) { Nonterminal(e) && e.next.Some? }

  /** ORDER BY next_attempt_at_ms, created_at_ms, effect_id. */
  predicate Precedes(effects: Effects, a: EffectId, b: EffectId)
    requires a in effects && b in effects && Scheduled(effects[a]) && Scheduled(effects[b])
  {
    var x, y := effects[a], effects[b];
    x.next.value < y.next.value
    || (x.next.value == y.next.value && (x.created < y.created || (x.created == y.created && a < b)))
  }

  predicate IsEarliest(effects: Effects, id: EffectId) {
    && id in effects && Scheduled(effects[id])
    && forall other :: other in effects && Scheduled(effects[other]) ==> !Precedes(effects, other, id)
  }

  ghost function Earliest(effects: Effects): Option<EffectId> {
    if exists id :: IsEarliest(effects, id) then var id :| IsEarliest(effects, id); Some(id) else None
  }

  /** The row that is due first, if its time has come. */
  ghost function FirstDue(effects: Effects, now: nat): Option<EffectId> {
    var first := Earliest(effects);
    if first.Some? && effects[first.value].next.value <= now then first else None
  }

  ghost function SetNextAlarm(store: Store, now: nat): Store {
    var first := Earliest(store.effects);
    store.(alarm := if first.Some? then Some(Max(store.effects[first.value].next.value, now)) else None)
  }

  // ----- Operations -----

  predicate Aged(execution: Execution, now: nat) {
    execution.completed.Some? && execution.completed.value < now - COMPLETED_TTL_MS
  }

  function PruneCompleted(store: Store, now: nat): Store {
    store.(effects := map id | id in store.effects
                            && !(store.effects[id].source in store.executions
                                 && Aged(store.executions[store.effects[id].source], now))
                       :: store.effects[id],
           executions := map s | s in store.executions && !Aged(store.executions[s], now) :: store.executions[s])
  }

  function ReplayIfPresent(store: Store, r: Request): Option<Reply> {
    if store.identity.Some? && store.identity.value != r.integration then Some(Mismatch)
    else if r.source !in store.executions then None
    else if store.executions[r.source].fingerprint != r.fingerprint then Some(Conflict)
    else Some(Replayed)
  }

  predicate KeysDistinct(requests: seq<EffectRequest>) {
    forall i, j :: 0 <= i < j < |requests| ==> requests[i].key != requests[j].key
  }

  predicate KeyTaken(effects: Effects, key: nat) {
    exists id :: id in effects && effects[id].key == key
  }

  /** Row IDs are fresh and distinct, as random ones are. */
  predicate IdsFit(used: set<EffectId>, ids: seq<EffectId>) {
    && (forall i :: 0 <= i < |ids| ==> ids[i] !in used)
    && (forall i, j :: 0 <= i < j < |ids| ==> ids[i] != ids[j])
  }

  function NewEffect(source: nat, r: EffectRequest, now: nat): Effect {
    Effect(source, r.key, r.kind, r.target, r.body, Pending, 0, Some(now), None, None, None, None, now)
  }

  function InsertEffects(effects: Effects, source: nat, requests: seq<EffectRequest>, ids: seq<EffectId>, now: nat): Effects
    requires |ids| == |requests|
  {
    if requests == [] then effects
    else
      var n := |requests| - 1;
      InsertEffects(effects, source, requests[..n], ids[..n], now)[ids[n] := NewEffect(source, requests[n], now)]
  }

  /** The first part of a submission: prune, then look for the execution. */
  function SubmitCheck(store: Store, r: Request, now: nat): Answer {
    if !KeysDistinct(r.effects) then Answer(store, Invalid)
    else
      var pruned := PruneCompleted(store, now);
      var replay := ReplayIfPresent(pruned, r);
      Answer(pruned, if replay.Some? then replay.value else Submitted)
  }

  /** The second part, once membership is confirmed: insert the execution and all its effects, or nothing. */
  ghost function SubmitCommit(store: Store, r: Request, ids: seq<EffectId>, now: nat): Answer
    requires |ids| == |r.effects|
  {
    var replay := ReplayIfPresent(store, r);
    if replay.Some? then Answer(if replay.value == Replayed then SetNextAlarm(store, now) else store, replay.value)
    else if exists i :: 0 <= i < |r.effects| && KeyTaken(store.effects, r.effects[i].key) then Answer(store, KeyConflict)
    else
      var execution := Execution(r.fingerprint, r.group, if r.effects == [] then Completed else Open, now,
                                 if r.effects == [] then Some(now) else None);
      Answer(SetNextAlarm(Store(Some(r.integration), store.executions[r.source := execution],
                                InsertEffects(store.effects, r.source, r.effects, ids, now), store.alarm), now),
             Submitted)
  }

  ghost function IdOf(effects: Effects, key: nat): EffectId
    requires KeyTaken(effects, key)
    ensures IdOf(effects, key) in effects && effects[IdOf(effects, key)].key == key
  {
    var id :| id in effects && effects[id].key == key; id
  }

  ghost function RetryEffect(store: Store, integration: nat, key: nat, now: nat): Answer {
    if store.identity != Some(integration) || !KeyTaken(store.effects, key) then Answer(store, NotFound)
    else
      var id := IdOf(store.effects, key);
      var e := store.effects[id];
      if e.state != DeadLetter then Answer(store, NotDeadLettered)
      else
        var opened' := e.(state := Pending, attempts := 0, next := Some(now), lastAttempt := None, lastError := None);
        Answer(SetNextAlarm(Refresh(store.(effects := store.effects[id := opened']), e.source, now), now), Retried)
  }

  function Claim(store: Store, id: EffectId, now: nat): Store
    requires id in store.effects && Nonterminal(store.effects[id])
  {
    var e := store.effects[id];
    store.(effects := store.effects[id := e.(state := Attempting, attempts := e.attempts + 1,
                                             next := Some(now + ATTEMPT_LEASE_MS), lastAttempt := Some(now))])
  }

  function Complete(store: Store, id: EffectId, json: nat, now: nat): Store {
    if id !in store.effects || store.effects[id].state != Attempting then store
    else
      var e := store.effects[id];
      Refresh(store.(effects := store.effects[id := e.(state := Delivered, next := None, deliveredAt := Some(now),
                                                       lastError := None, result := Some(json))]), e.source, now)
  }

  function Fail(store: Store, id: EffectId, retryable: bool, code: nat, now: nat): Store {
    if id !in store.effects || store.effects[id].state != Attempting then store
    else
      var e := store.effects[id].(lastError := Some(ErrorRecord(code, now)));
      if retryable && e.attempts < MAX_DELIVERY_ATTEMPTS then
        store.(effects := store.effects[id := e.(state := RetryWait, next := Some(now + RetryDelay(e.attempts)))])
      else
        Refresh(store.(effects := store.effects[id := e.(state := DeadLetter, next := None)]), e.source, now)
  }

  function AllDead(effects: Effects, code: nat, now: nat): Effects {
    map id | id in effects ::
      if Nonterminal(effects[id])
      then effects[id].(state := DeadLetter, next := None, lastError := Some(ErrorRecord(code, now)))
      else effects[id]
  }

  /** Every nonterminal effect becomes a dead letter and its execution is settled. */
  function DeadLetterRemaining(store: Store, code: nat, now: nat): Store {
    var dead := AllDead(store.effects, code, now);
    store.(effects := dead,
           executions := map s | s in store.executions ::
             if HasNonterminal(store.effects, s) then Refreshed(store.executions[s], dead, s, now)
             else store.executions[s])
  }

  // ----- The coordinator as a machine -----

  /** Where an alarm run stands: asking the registry, or draining with at most one effect claimed. */
  datatype Phase =
    | Idle
    | Asking(started: nat)
    | Draining(started: nat, members: set<nat>, processed: nat, claim: Option<EffectId>)

  /** `attempted` lists what the current alarm run claimed, `reopened` what an operator retried since it began,
      `failed` the time of a last run that failed, `used` every row ID ever given; they are history. */
  datatype Machine = Machine(store: Store, kinds: set<nat>, phase: Phase, clock: nat, attempted: seq<EffectId>,
                             reopened: set<EffectId>, failed: Option<nat>, used: set<EffectId>)

  datatype Registry = Active(members: set<nat>) | Inactive | Unavailable

  datatype Step =
    | Check(request: Request, now: nat)
    | Commit(request: Request, ids: seq<EffectId>, now: nat)
    | Retry(integration: nat, key: nat, now: nat)
    | Start(now: nat)
    | Ask(registry: Registry, now: nat)
    | Tick(now: nat)
    | Finish(outcome: Outcome, now: nat)
    | Crash(now: nat)

  predicate TimeRemains(started: nat, processed: nat, now: nat) {
    processed == 0 || now - started < DRAIN_BUDGET_MS
  }

  ghost function Settle(m: Machine, store: Store, now: nat): Machine {
    m.(store := SetNextAlarm(store, now), phase := Idle, failed := None)
  }

  ghost function TickStep(m: Machine, now: nat): Machine
    requires m.phase.Draining?
  {
    var p := m.phase;
    var due := if p.processed < MAX_EFFECTS_PER_ALARM && TimeRemains(p.started, p.processed, now)
               then FirstDue(m.store.effects, now) else None;
    if due.None? then Settle(m, PruneCompleted(m.store, now), now)
    else m.(store := Claim(m.store, due.value, now), attempted := m.attempted + [due.value],
            phase := p.(processed := p.processed + 1, claim := due))
  }

  /** What an attempt comes to: membership first, then the handler, then the delivery itself. */
  function Attempt(m: Machine, e: Effect, outcome: Outcome): Outcome
    requires m.phase.Draining?
  {
    if e.target !in m.phase.members then Failure(false, NOT_MEMBER)
    else if e.kind !in m.kinds then Failure(false, UNKNOWN_KIND)
    else outcome
  }

  ghost function FinishStep(m: Machine, outcome: Outcome, now: nat): Machine
    requires m.phase.Draining? && m.phase.claim.Some?
  {
    var id := m.phase.claim.value;
    var ended := m.(phase := m.phase.(claim := None));
    if id !in m.store.effects then ended
    else
      match Attempt(m, m.store.effects[id], outcome)
      case Result(json) => ended.(store := Complete(m.store, id, json, now))
      case Failure(retryable, code) => ended.(store := Fail(m.store, id, retryable, code, now))
  }

  /** Steps that do not fit the phase, or commits whose IDs do not fit, change nothing. */
  ghost function Act(m: Machine, step: Step): Machine {
    match step
    case Check(request, now) => m.(store := SubmitCheck(m.store, request, now).store)
    case Commit(request, ids, now) =>
      if |ids| != |request.effects| || !IdsFit(m.used, ids) || !KeysDistinct(request.effects) then m
      else
        var a := SubmitCommit(m.store, request, ids, now);
        m.(store := a.store, used := m.used + (set id | id in ids), failed := if a.reply in {Submitted, Replayed} then None else m.failed)
    case Retry(integration, key, now) =>
      var a := RetryEffect(m.store, integration, key, now);
      if a.reply != Retried then m
      else m.(store := a.store, reopened := m.reopened + {IdOf(m.store.effects, key)}, failed := None)
    case Start(now) =>
      if !m.phase.Idle? then m
      else if m.store.identity.None? then m.(store := m.store.(alarm := None), failed := None)
      else m.(store := m.store.(alarm := None), phase := Asking(now), attempted := [], reopened := {}, failed := None)
    case Ask(registry, now) =>
      if !m.phase.Asking? then m
      else
        (match registry
         case Unavailable => m.(store := m.store.(alarm := Some(now + RETRY_BASE_DELAY_MS)), phase := Idle, failed := Some(now))
         case Inactive => Settle(m, DeadLetterRemaining(m.store, INACTIVE, now), now)
         case Active(members) => m.(phase := Draining(m.phase.started, members, 0, None)))
    case Tick(now) => if m.phase.Draining? && m.phase.claim.None? then TickStep(m, now) else m
    case Finish(outcome, now) => if m.phase.Draining? && m.phase.claim.Some? then FinishStep(m, outcome, now) else m
    // The platform runs an interrupted alarm again; what it had claimed stays leased.
    case Crash(now) =>
      if m.phase.Idle? then m else m.(store := m.store.(alarm := Some(now)), phase := Idle, failed := None)
  }

  ghost function Next(m: Machine, step: Step): Machine { Act(m, step).(clock := step.now) }

  function Initial(kinds: set<nat>): Machine {
    Machine(Store(None, map[], map[], None), kinds, Idle, 0, [], {}, None, {})
  }

  ghost function Run(m: Machine, steps: seq<Step>): Machine
    decreases |steps|
  {
    if steps == [] then m else Run(Next(m, steps[0]), steps[1..])
  }

  predicate Monotone(clock: nat, steps: seq<Step>)
    decreases |steps|
  {
    steps == [] || (clock <= steps[0].now && Monotone(steps[0].now, steps[1..]))
  }
}
