/** The coordinator object: its tables and alarm changed in place, each method the machine's operation. */
module CoordinatorBackend {
  import opened Contract
  import opened Coordinator
  import opened CoordinatorSafety
  import opened CoordinatorTheorems

  /** One turn of the alarm's loop: when it looks for work, what the delivery comes to, and when it ends. */
  datatype Turn = Turn(now: nat, outcome: Outcome, ended: nat)

  function TurnSteps(turns: seq<Turn>): (steps: seq<Step>) {
    if turns == [] then []
    else [Tick(turns[0].now), Finish(turns[0].outcome, turns[0].ended)] + TurnSteps(turns[1..])
  }

  ghost function AlarmRun(store: Store, kinds: set<nat>, started: nat, registry: Registry, asked: nat, turns: seq<Turn>)
    : Machine
  {
    Run(Initial(kinds).(store := store, used := store.effects.Keys), [Start(started), Ask(registry, asked)] + TurnSteps(turns))
  }

  lemma {:induction false} IdleTurns(m: Machine, turns: seq<Turn>)
    requires m.phase.Idle?
    ensures Run(m, TurnSteps(turns)).store == m.store
    decreases |turns|
  {
    if turns != [] {
      var steps := TurnSteps(turns);
      var next := Next(m, steps[0]);
      assert steps[1..][1..] == TurnSteps(turns[1..]);
      assert Run(m, steps) == Run(Next(next, steps[1]), steps[2..]);
      IdleTurns(Next(next, steps[1]), turns[1..]);
    }
  }

  lemma {:induction false} StaysValid(m: Machine, steps: seq<Step>)
    requires Valid(m.store) && m.store.effects.Keys <= m.used
    ensures Valid(Run(m, steps).store)
    decreases |steps|
  {
    hide Valid, Next;
    if steps != [] {
      NextKeeps(m, steps[0]);
      UsedFollows(m, steps[0]);
      StaysValid(Next(m, steps[0]), steps[1..]);
    }
  }

  lemma AlarmRunKeeps(store: Store, kinds: set<nat>, started: nat, registry: Registry, asked: nat, turns: seq<Turn>)
    requires Valid(store)
    ensures Valid(AlarmRun(store, kinds, started, registry, asked, turns).store)
  {
    hide Valid, Run;
    StaysValid(Initial(kinds).(store := store, used := store.effects.Keys),
               [Start(started), Ask(registry, asked)] + TurnSteps(turns));
  }

  lemma EarliestIs(effects: Effects, id: EffectId)
    requires IsEarliest(effects, id)
    ensures Earliest(effects) == Some(id)
  {
    var first := Earliest(effects).value;
    assert IsEarliest(effects, first);
    assert !Precedes(effects, first, id) && !Precedes(effects, id, first);
  }

  class IntegrationCoordinator {
    var identity: Option<nat>
    var executions: Executions
    var effects: Effects
    var alarm: Option<nat>
    const kinds: set<nat>

    function Model(): Store
      reads this
    {
      Store(identity, executions, effects, alarm)
    }

    constructor (kinds: set<nat>)
      ensures Model() == Initial(kinds).store && Valid(Model()) && this.kinds == kinds
    {
      this.kinds := kinds;
      identity, executions, effects, alarm := None, map[], map[], None;
    }

    method UpdateExecutionState(source: nat, now: nat)
      modifies this`executions
      ensures Model() == Refresh(old(Model()), source, now)
    {
      if source in executions {
        executions := executions[source := Refreshed(executions[source], effects, source, now)];
      }
    }

    method EarliestEffect() returns (first: Option<EffectId>)
      ensures first == Earliest(effects)
    {
      EarliestIsFirst(effects);
      hide Earliest;
      if id :| id in effects && IsEarliest(effects, id) {
        EarliestIs(effects, id);
        first := Some(id);
      } else {
        first := None;
      }
    }

    method FirstDueEffect(now: nat) returns (due: Option<EffectId>)
      ensures due == FirstDue(effects, now)
    {
      EarliestIsFirst(effects);
      hide Earliest;
      due := EarliestEffect();
      if due.Some? && effects[due.value].next.value > now {
        due := None;
      }
    }

    method ScheduleAlarm(now: nat)
      requires Valid(Model())
      modifies this`alarm
      ensures Model() == SetNextAlarm(old(Model()), now)
      ensures Valid(Model())
    {
      hide Valid;
      SetNextAlarmCovers(Model(), now);
      EarliestIsFirst(effects);
      hide Earliest;
      var first := EarliestEffect();
      alarm := if first.Some? then Some(Max(effects[first.value].next.value, now)) else None;
    }

    method PruneExecutions(now: nat)
      requires Valid(Model())
      modifies this`executions, this`effects
      ensures Model() == PruneCompleted(old(Model()), now)
      ensures Valid(Model())
    {
      hide Valid;
      PruneKeeps(Model(), now);
      effects := map id | id in effects
                          && !(effects[id].source in executions && Aged(executions[effects[id].source], now))
                     :: effects[id];
      executions := map s | s in executions && !Aged(executions[s], now) :: executions[s];
    }

    method Check(r: Request, now: nat) returns (reply: Reply)
      requires Valid(Model())
      modifies this`executions, this`effects
      ensures Model() == SubmitCheck(old(Model()), r, now).store && reply == SubmitCheck(old(Model()), r, now).reply
      ensures Valid(Model())
    {
      hide Valid;
      PruneKeeps(Model(), now);
      if !KeysDistinct(r.effects) {
        return Invalid;
      }
      PruneExecutions(now);
      var replay := ReplayIfPresent(Model(), r);
      reply := if replay.Some? then replay.value else Submitted;
    }

    method AnyKeyTaken(requests: seq<EffectRequest>) returns (taken: bool)
      ensures taken <==> exists i :: 0 <= i < |requests| && KeyTaken(effects, requests[i].key)
    {
      hide KeyTaken;
      for n := 0 to |requests|
        invariant forall i :: 0 <= i < n ==> !KeyTaken(effects, requests[i].key)
      {
        if KeyTaken(effects, requests[n].key) {
          return true;
        }
      }
      taken := false;
    }

    method InsertRows(r: Request, ids: seq<EffectId>, now: nat)
      requires |ids| == |r.effects|
      modifies this`effects
      ensures Model() == old(Model()).(effects := InsertEffects(old(effects), r.source, r.effects, ids, now))
    {
      for n := 0 to |r.effects|
        invariant effects == InsertEffects(old(effects), r.source, r.effects[..n], ids[..n], now)
        invariant Model() == old(Model()).(effects := effects)
      {
        assert r.effects[..n + 1][..n] == r.effects[..n] && ids[..n + 1][..n] == ids[..n];
        effects := effects[ids[n] := NewEffect(r.source, r.effects[n], now)];
      }
      assert r.effects[..|r.effects|] == r.effects && ids[..|ids|] == ids;
    }

    method Commit(r: Request, ids: seq<EffectId>, now: nat) returns (reply: Reply)
      requires Valid(Model()) && IdsFit(effects.Keys, ids) && KeysDistinct(r.effects)
      requires |ids| == |r.effects|
      modifies this
      ensures Model() == SubmitCommit(old(Model()), r, ids, now).store
      ensures reply == SubmitCommit(old(Model()), r, ids, now).reply
      ensures Valid(Model())
    {
      CommitKeeps(Model(), r, ids, now);
      hide SetNextAlarm, InsertEffects, KeyTaken;
      var replay := ReplayIfPresent(Model(), r);
      if replay.Some? {
        reply := replay.value;
      } else {
        var taken := AnyKeyTaken(r.effects);
        if taken {
          return KeyConflict;
        }
        identity := Some(r.integration);
        executions := executions[r.source := Execution(r.fingerprint, r.group, if r.effects == [] then Completed else Open,
                                                       now, if r.effects == [] then Some(now) else None)];
        InsertRows(r, ids, now);
        reply := Submitted;
      }
      if reply == Submitted || reply == Replayed {
        ScheduleAlarm(now);
      }
    }

    method Retry(integration: nat, key: nat, now: nat) returns (reply: Reply)
      requires Valid(Model())
      modifies this
      ensures Model() == RetryEffect(old(Model()), integration, key, now).store
      ensures reply == RetryEffect(old(Model()), integration, key, now).reply
      ensures Valid(Model())
    {
      RetryKeeps(Model(), integration, key, now);
      hide SetNextAlarm, StatusOk, EffectOk;
      if identity != Some(integration) {
        return NotFound;
      }
      if id :| id in effects && effects[id].key == key {
        assert KeyTaken(effects, key) && id == IdOf(effects, key);
        var e := effects[id];
        if e.state != DeadLetter {
          return NotDeadLettered;
        }
        effects := effects[id := e.(state := Pending, attempts := 0, next := Some(now), lastAttempt := None,
                                    lastError := None)];
        UpdateExecutionState(e.source, now);
        ScheduleAlarm(now);
        reply := Retried;
      } else {
        reply := NotFound;
      }
    }

    /** The row as claimed, or nothing when it is no longer to be delivered. */
    method ClaimEffect(id: EffectId, now: nat) returns (claimed: Option<Effect>)
      requires Valid(Model())
      modifies this`effects
      ensures claimed.Some? <==> id in old(effects) && Nonterminal(old(effects)[id])
      ensures Model() == if claimed.Some? then Claim(old(Model()), id, now) else old(Model())
      ensures claimed.Some? ==> id in effects && claimed.value == effects[id]
      ensures Valid(Model())
    {
      hide Valid;
      if id in effects && Nonterminal(effects[id]) {
        ClaimKeeps(Model(), id, now);
      }
      claimed := None;
      if id in effects && Nonterminal(effects[id]) {
        var e := effects[id];
        effects := effects[id := e.(state := Attempting, attempts := e.attempts + 1,
                                    next := Some(now + ATTEMPT_LEASE_MS), lastAttempt := Some(now))];
        claimed := Some(effects[id]);
      }
    }

    method CompleteEffect(id: EffectId, json: nat, now: nat)
      requires Valid(Model())
      modifies this`effects, this`executions
      ensures Model() == Complete(old(Model()), id, json, now)
      ensures Valid(Model())
    {
      hide Valid;
      CompleteKeeps(Model(), id, json, now);
      if id in effects && effects[id].state == Attempting {
        var e := effects[id];
        effects := effects[id := e.(state := Delivered, next := None, deliveredAt := Some(now), lastError := None,
                                    result := Some(json))];
        UpdateExecutionState(e.source, now);
      }
    }

    method FailEffect(id: EffectId, retryable: bool, code: nat, now: nat)
      requires Valid(Model())
      modifies this`effects, this`executions
      ensures Model() == Fail(old(Model()), id, retryable, code, now)
      ensures Valid(Model())
    {
      hide Valid;
      FailKeeps(Model(), id, retryable, code, now);
      if id in effects && effects[id].state == Attempting {
        var e := effects[id].(lastError := Some(ErrorRecord(code, now)));
        if retryable && e.attempts < MAX_DELIVERY_ATTEMPTS {
          effects := effects[id := e.(state := RetryWait, next := Some(now + RetryDelay(e.attempts)))];
        } else {
          effects := effects[id := e.(state := DeadLetter, next := None)];
          UpdateExecutionState(e.source, now);
        }
      }
    }
  
    method DeadLetterAll(code: nat, now: nat)
      requires Valid(Model())
      modifies this`effects, this`executions
      ensures Model() == DeadLetterRemaining(old(Model()), code, now)
      ensures Valid(Model())
    {
      hide Valid, Derived, HasNonterminal;
      assert Valid(DeadLetterRemaining(Model(), code, now)) by {
        DeadLetterKeeps(Model(), code, now);
      }
      var rows := set id | id in effects && Nonterminal(effects[id]) :: effects[id].source;
      assert forall s :: s in rows <==> HasNonterminal(effects, s) by {
        SourcesAre(effects, rows);
      }
      effects := AllDead(effects, code, now);
      var rest := rows;
      while rest != {}
        invariant rest <= rows
        invariant Model() == old(Model()).(effects := effects, executions := executions)
        invariant effects == AllDead(old(effects), code, now)
        invariant executions == map s | s in old(executions) ::
            if s in rows - rest then Refreshed(old(executions)[s], effects, s, now) else old(executions)[s]
        decreases rest
      {
        var source :| source in rest;
        UpdateExecutionState(source, now);
        rest := rest - {source};
      }
    }

    /** One claimed effect, delivered or failed. */
    method Deliver(id: EffectId, e: Effect, members: set<nat>, outcome: Outcome, now: nat)
      requires Valid(Model())
      modifies this`effects, this`executions
      ensures e.target !in members ==> Model() == Fail(old(Model()), id, false, NOT_MEMBER, now)
      ensures e.target in members && e.kind !in kinds ==> Model() == Fail(old(Model()), id, false, UNKNOWN_KIND, now)
      ensures e.target in members && e.kind in kinds && outcome.Result? ==>
                Model() == Complete(old(Model()), id, outcome.json, now)
      ensures e.target in members && e.kind in kinds && outcome.Failure? ==>
                Model() == Fail(old(Model()), id, outcome.retryable, outcome.code, now)
      ensures Valid(Model())
    {
      hide Valid;
      if e.target !in members {
        FailEffect(id, false, NOT_MEMBER, now);
      } else if e.kind !in kinds {
        FailEffect(id, false, UNKNOWN_KIND, now);
      } else {
        match outcome
        case Result(json) => CompleteEffect(id, json, now);
        case Failure(retryable, code) => FailEffect(id, retryable, code, now);
      }
    }

    /** The alarm handler with nothing interleaved: its loop is the machine's ticks and finishes. */
    method RunAlarm(started: nat, registry: Registry, asked: nat, turns: seq<Turn>)
      requires Valid(Model())
      requires |turns| == MAX_EFFECTS_PER_ALARM + 1
      modifies this
      ensures Model() == AlarmRun(old(Model()), kinds, started, registry, asked, turns).store
      ensures Valid(Model())
    {
      hide Valid, SetNextAlarm, FirstDue, PruneCompleted, Claim, Complete, Fail, DeadLetterRemaining;
      AlarmRunKeeps(Model(), kinds, started, registry, asked, turns);
      ghost var m := Next(Initial(kinds).(store := Model(), used := effects.Keys), Start(started));
      ghost var asking := m;
      m := Next(m, Ask(registry, asked));
      TwoSteps(Initial(kinds).(store := Model(), used := effects.Keys), Start(started), Ask(registry, asked), TurnSteps(turns));
      AlarmIsFree(Model(), None);
      alarm := None;
      if identity.None? || registry.Unavailable? {
        if identity.Some? {
          alarm := Some(asked + RETRY_BASE_DELAY_MS);
        }
        IdleTurns(m, turns);
        return;
      }
      if registry.Inactive? {
        DeadLetterAll(INACTIVE, asked);
        ScheduleAlarm(asked);
        IdleTurns(m, turns);
        return;
      }
      var processed := 0;
      while processed < MAX_EFFECTS_PER_ALARM
        invariant processed <= MAX_EFFECTS_PER_ALARM
        invariant m.store == Model() && m.kinds == kinds && Valid(Model())
        invariant m.phase == Draining(started, registry.members, processed, None)
        invariant AlarmRun(old(Model()), kinds, started, registry, asked, turns) == Run(m, TurnSteps(turns[processed..]))
      {
        var turn := turns[processed];
        TwoSteps(m, Tick(turn.now), Finish(turn.outcome, turn.ended), TurnSteps(turns[processed + 1..]));
        assert TurnSteps(turns[processed..]) == [Tick(turn.now), Finish(turn.outcome, turn.ended)] + TurnSteps(turns[processed + 1..]);
        if !TimeRemains(started, processed, turn.now) {
          break;
        }
        var due := FirstDueEffect(turn.now);
        if due.None? {
          break;
        }
        DueIsClaimable(effects, turn.now);
        var claimed := ClaimEffect(due.value, turn.now);
        m := Next(m, Tick(turn.now));
        if claimed.Some? {
          Deliver(due.value, claimed.value, registry.members, turn.outcome, turn.ended);
        }
        m := Next(m, Finish(turn.outcome, turn.ended));
        processed := processed + 1;
      }
      ghost var last := turns[processed];
      PruneExecutions(turns[processed].now);
      ScheduleAlarm(turns[processed].now);
      TwoSteps(m, Tick(last.now), Finish(last.outcome, last.ended), TurnSteps(turns[processed + 1..]));
      assert TurnSteps(turns[processed..])
          == [Tick(last.now), Finish(last.outcome, last.ended)] + TurnSteps(turns[processed + 1..]);
      m := Next(Next(m, Tick(last.now)), Finish(last.outcome, last.ended));
      IdleTurns(m, turns[processed + 1..]);
    }
  }

  lemma DueIsClaimable(effects: Effects, now: nat)
    ensures FirstDue(effects, now).Some? ==>
              FirstDue(effects, now).value in effects && Nonterminal(effects[FirstDue(effects, now).value])
  {
    EarliestIsFirst(effects);
    hide Earliest;
  }

  lemma SourcesAre(effects: Effects, rows: set<nat>)
    requires rows == set id | id in effects && Nonterminal(effects[id]) :: effects[id].source
    ensures forall s :: s in rows <==> HasNonterminal(effects, s)
  {
  }

  lemma TwoSteps(m: Machine, first: Step, second: Step, rest: seq<Step>)
    ensures Run(m, [first, second] + rest) == Run(Next(Next(m, first), second), rest)
  {
    var steps := [first, second] + rest;
    assert steps[1..] == [second] + rest && steps[1..][1..] == rest;
    assert Run(m, steps) == Run(Next(m, first), steps[1..]);
  }
}
