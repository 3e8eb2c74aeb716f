/** The coordinator over whole runs, with submissions and operator retries interleaved with alarm runs. */
module CoordinatorTheorems {
  import opened Contract
  import opened Coordinator
  import opened CoordinatorSafety

  /** Completed more than fourteen days ago. */
  predicate Stale(execution: Execution, now: nat) {
    execution.completed.Some? && execution.completed.value + 1_209_600_000 < now
  }

  // ----- What becomes of one effect -----

  /** Delivered rows never change and dead letters leave only by an explicit retry; rows are deleted only with
      their execution, fourteen days after it completed. */
  ghost predicate EffectFollows(before: Store, step: Step, after: Store, id: EffectId) {
    id in before.effects ==>
      var e := before.effects[id];
      if id !in after.effects then
        e.source in before.executions && Stale(before.executions[e.source], step.now) && !Nonterminal(e)
      else
        var f := after.effects[id];
        && SameRow(e, f)
        && (e.state == Delivered ==> f == e)
        && (f != e ==> step.Retry? || step.Tick? || step.Finish? || step.Ask?)
        && (f != e ==> (e.state == DeadLetter <==> step.Retry?))
        && (f != e && step.Retry? ==> step.key == e.key && f.state == Pending && f.attempts == 0)
  }

  lemma CommitFollows(store: Store, step: Step, id: EffectId)
    requires Valid(store) && step.Commit? && |step.ids| == |step.request.effects| && IdsFit(store.effects.Keys, step.ids)
    ensures EffectFollows(store, step, SubmitCommit(store, step.request, step.ids, step.now).store, id)
  {
    hide Valid, Earliest, IdsFit, KeyTaken, InsertEffects;
    InsertShape(store.effects, step.request.source, step.request.effects, step.ids, step.now);
  }

  lemma PruneFollows(store: Store, step: Step, id: EffectId)
    requires Valid(store)
    ensures EffectFollows(store, step, PruneCompleted(store, step.now), id)
  {
    PruneKeeps(store, step.now);
    hide Valid, Derived;
  }

  lemma RetryFollows(store: Store, step: Step, id: EffectId)
    requires step.Retry?
    ensures EffectFollows(store, step, RetryEffect(store, step.integration, step.key, step.now).store, id)
  {
    hide Earliest, Derived, KeyTaken;
  }

  lemma FinishFollows(store: Store, step: Step, claimed: EffectId, outcome: Outcome, id: EffectId)
    requires step.Finish?
    ensures EffectFollows(store, step,
              match outcome
              case Result(json) => Complete(store, claimed, json, step.now)
              case Failure(retryable, code) => Fail(store, claimed, retryable, code, step.now), id)
  {
    hide Derived;
  }

  lemma DeadFollows(store: Store, step: Step, id: EffectId)
    requires step.Ask?
    ensures EffectFollows(store, step, SetNextAlarm(DeadLetterRemaining(store, INACTIVE, step.now), step.now), id)
  {
    hide Derived, Earliest, HasNonterminal;
  }

  lemma NextEffect(m: Machine, step: Step, id: EffectId)
    requires Valid(m.store) && m.store.effects.Keys <= m.used
    ensures EffectFollows(m.store, step, Next(m, step).store, id)
  {
    hide Valid, Earliest, KeyTaken, Derived, SubmitCommit, IdsFit, KeysDistinct, RetryEffect, PruneCompleted, Complete,
      Fail, DeadLetterRemaining, Attempt;
    match step
    case Check(_, _) => PruneFollows(m.store, step, id);
    case Commit(request, ids, _) =>
      if |ids| == |request.effects| && IdsFit(m.used, ids) {
        FitsUnused(m.store.effects, m.used, ids);
        CommitFollows(m.store, step, id);
      }
    case Retry(_, _, _) => RetryFollows(m.store, step, id);
    case Tick(now) =>
      PruneFollows(m.store, step, id);
      EarliestIsFirst(m.store.effects);
    case Finish(outcome, _) =>
      if m.phase.Draining? && m.phase.claim.Some? && m.phase.claim.value in m.store.effects {
        FinishFollows(m.store, step, m.phase.claim.value, Attempt(m, m.store.effects[m.phase.claim.value], outcome), id);
      }
    case Ask(_, _) => DeadFollows(m.store, step, id);
    case _ =>
  }

  // ----- Alarm runs -----

  /** The effect being delivered stays claimed until its delivery ends. */
  ghost predicate ClaimOk(m: Machine) {
    m.phase.Draining? && m.phase.claim.Some? ==>
      m.phase.claim.value in m.store.effects && m.store.effects[m.phase.claim.value].state == Attempting
  }

  /** What a run has claimed is not due again within the run, unless an operator re-opened it. */
  ghost predicate Deferred(effects: Effects, attempted: seq<EffectId>, reopened: set<EffectId>, started: nat) {
    forall id :: id in attempted && id !in reopened && id in effects && Nonterminal(effects[id]) ==>
      effects[id].next.Some? && effects[id].next.value >= started + RETRY_BASE_DELAY_MS
  }

  ghost predicate NoneTwice(attempted: seq<EffectId>, reopened: set<EffectId>) {
    forall i, j :: 0 <= i < j < |attempted| && attempted[i] == attempted[j] ==> attempted[j] in reopened
  }

  ghost predicate DrainOk(m: Machine) {
    && NoneTwice(m.attempted, m.reopened) && |m.attempted| <= MAX_EFFECTS_PER_ALARM
    && (forall id :: id in m.attempted ==> id in m.used)
    && (m.phase.Asking? ==> m.attempted == [] && m.phase.started <= m.clock)
    && (m.phase.Draining? ==> m.phase.processed == |m.attempted| && m.phase.started <= m.clock
                              && Deferred(m.store.effects, m.attempted, m.reopened, m.phase.started))
  }

  /** Between runs, work left over has an alarm by the time it is due, or half a minute after a failed run. */
  ghost predicate AlarmOk(m: Machine) {
    m.phase.Idle? ==>
      AlarmCovers(m.store, m.clock)
      || (m.failed.Some? && m.store.alarm == Some(m.failed.value + RETRY_BASE_DELAY_MS))
  }

  /** No execution completed in the future. */
  ghost predicate TimesOk(executions: Executions, clock: nat) {
    forall s :: s in executions && executions[s].completed.Some? ==> executions[s].completed.value <= clock
  }

  ghost predicate MachineOk(m: Machine) {
    && Valid(m.store) && m.store.effects.Keys <= m.used
    && ClaimOk(m) && DrainOk(m) && AlarmOk(m) && TimesOk(m.store.executions, m.clock)
  }

  lemma UsedFollows(m: Machine, step: Step)
    requires Valid(m.store) && m.store.effects.Keys <= m.used
    ensures m.used <= Next(m, step).used && Next(m, step).store.effects.Keys <= Next(m, step).used
    ensures forall id :: id in Next(m, step).store.effects && id !in m.store.effects ==> id !in m.used
  {
    hide Valid, Earliest, KeyTaken, Derived, KeysDistinct, IdsFit, InsertEffects;
    match step
    case Commit(request, ids, now) =>
      if |ids| == |request.effects| && IdsFit(m.used, ids) {
        FitsUnused(m.store.effects, m.used, ids);
        InsertShape(m.store.effects, request.source, request.effects, ids, now);
        assert forall id :: id in ids ==> id !in m.used by {
          IdsFresh(m.used, ids);
        }
      }
    case Tick(now) => EarliestIsFirst(m.store.effects);
    case _ =>
  }

  lemma IdsFresh(used: set<EffectId>, ids: seq<EffectId>)
    requires IdsFit(used, ids)
    ensures forall id :: id in ids ==> id !in used
  {
  }

  lemma ClaimFollows(m: Machine, step: Step)
    requires Valid(m.store) && m.store.effects.Keys <= m.used && ClaimOk(m)
    ensures ClaimOk(Next(m, step))
  {
    hide Valid;
    if m.phase.Draining? && m.phase.claim.Some? && !step.Finish? {
      NextEffect(m, step, m.phase.claim.value);
    }
    EarliestIsFirst(m.store.effects);
    hide Earliest, IsEarliest, SubmitCheck, SubmitCommit, RetryEffect, Complete, Fail, DeadLetterRemaining, PruneCompleted,
      SetNextAlarm, IdOf, IdsFit, KeysDistinct, Attempt;
  }

  /** A tick claims something this run has not claimed, or that an operator re-opened since. */
  lemma TickIsFresh(m: Machine, now: nat)
    requires DrainOk(m) && m.phase.Draining? && m.phase.claim.None? && m.clock <= now
    requires m.phase.processed < MAX_EFFECTS_PER_ALARM && TimeRemains(m.phase.started, m.phase.processed, now)
    requires FirstDue(m.store.effects, now).Some?
    ensures var id := FirstDue(m.store.effects, now).value;
            && id in m.store.effects && Nonterminal(m.store.effects[id]) && m.store.effects[id].next.value <= now
            && (id in m.attempted ==> id in m.reopened)
  {
    EarliestIsFirst(m.store.effects);
    hide Earliest;
  }

  lemma TickDrains(m: Machine, now: nat)
    requires MachineOk(m) && m.clock <= now && m.phase.Draining? && m.phase.claim.None?
    ensures DrainOk(Next(m, Tick(now)))
  {
    hide Valid, PruneCompleted, SetNextAlarm, AlarmOk, Earliest, ClaimOk;
    var p := m.phase;
    EarliestIsFirst(m.store.effects);
    if p.processed < MAX_EFFECTS_PER_ALARM && TimeRemains(p.started, p.processed, now)
       && FirstDue(m.store.effects, now).Some? {
      TickIsFresh(m, now);
    }
    hide FirstDue;
  }

  /** What a delivery's end does to the claimed row: settled, or due again no sooner than half a minute later. */
  lemma EndedRow(m: Machine, outcome: Outcome, now: nat)
    requires m.phase.Draining? && m.phase.claim.Some? && m.phase.claim.value in m.store.effects
    ensures var id, after := m.phase.claim.value, FinishStep(m, outcome, now).store.effects;
            && id in after && after == m.store.effects[id := after[id]]
            && (after[id] == m.store.effects[id] || !Nonterminal(after[id])
                || (after[id].next.Some? && after[id].next.value >= now + RETRY_BASE_DELAY_MS))
  {
    RetryDelayBounds(m.store.effects[m.phase.claim.value].attempts);
    hide RetryDelay, Derived;
  }

  lemma FinishDrains(m: Machine, outcome: Outcome, now: nat)
    requires MachineOk(m) && m.clock <= now && m.phase.Draining? && m.phase.claim.Some?
    ensures DrainOk(Next(m, Finish(outcome, now)))
  {
    hide Valid, AlarmOk, NoneTwice;
    EndedRow(m, outcome, now);
    var after := FinishStep(m, outcome, now);
    assert after == m.(store := after.store, phase := after.phase) && after.phase == m.phase.(claim := None);
    hide FinishStep;
  }

  lemma DrainFollows(m: Machine, step: Step)
    requires MachineOk(m) && m.clock <= step.now
    ensures DrainOk(Next(m, step))
  {
    UsedFollows(m, step);
    if m.phase.Draining? && !step.Crash? {
      if step.Tick? && m.phase.claim.None? {
        TickDrains(m, step.now);
      } else if step.Finish? && m.phase.claim.Some? {
        FinishDrains(m, step.outcome, step.now);
      } else {
        OthersDrain(m, step);
      }
    } else {
      hide Valid, SubmitCheck, SubmitCommit, RetryEffect, DeadLetterRemaining, SetNextAlarm, IdsFit, KeysDistinct, AlarmOk,
        NoneTwice, IdOf;
    }
  }

  lemma OthersDrain(m: Machine, step: Step)
    requires MachineOk(m) && m.clock <= step.now && m.phase.Draining? && !step.Crash?
    requires !(step.Tick? && m.phase.claim.None?) && !(step.Finish? && m.phase.claim.Some?)
    ensures DrainOk(Next(m, step))
  {
    var after := Next(m, step);
    UsedFollows(m, step);
    forall id | id in m.attempted && id !in after.reopened && id in after.store.effects
      ensures id in m.store.effects && after.store.effects[id] == m.store.effects[id]
    {
      NextEffect(m, step, id);
      ReopenedOnly(m, step, id);
    }
    assert after.attempted == m.attempted && after.phase == m.phase && m.reopened <= after.reopened;
    hide Valid, Next, ClaimOk, AlarmOk, EffectFollows;
  }

  /** A retry re-opens exactly the row it names. */
  lemma ReopenedOnly(m: Machine, step: Step, id: EffectId)
    requires Valid(m.store)
    requires step.Retry? ==> id in m.store.effects && id in Next(m, step).store.effects
    ensures step.Retry? && Next(m, step).store.effects[id] != m.store.effects[id] ==> id in Next(m, step).reopened
  {
    hide Earliest, StatusOk, Derived;
  }

  lemma AlarmFollows(m: Machine, step: Step)
    requires MachineOk(m) && m.clock <= step.now
    ensures AlarmOk(Next(m, step))
  {
    hide Derived, Earliest, IsEarliest, DrainOk, ClaimOk, SubmitCommit, RetryEffect, Complete, Fail, DeadLetterRemaining, Claim,
      FirstDue, IdsFit, KeysDistinct, IdOf, StatusOk, TimesOk, Attempt;
    match step
    case Check(_, now) => PruneKeeps(m.store, now);
      hide Valid;
    case Commit(request, ids, now) =>
      if |ids| == |request.effects| && IdsFit(m.used, ids) && KeysDistinct(request.effects) {
        FitsUnused(m.store.effects, m.used, ids);
        CommitKeeps(m.store, request, ids, now);
      }
      hide Valid, SubmitCommit, IdsFit, KeysDistinct;
    case Retry(integration, key, now) =>
      RetryKeeps(m.store, integration, key, now);
      hide Valid, RetryEffect;
    case Start(_) =>
      hide SetNextAlarm, Derived;
    case Ask(_, now) =>
      DeadLetterKeeps(m.store, INACTIVE, now);
      SetNextAlarmCovers(DeadLetterRemaining(m.store, INACTIVE, now), now);
      hide Valid, SetNextAlarm, DeadLetterRemaining;
    case Tick(now) =>
      PruneKeeps(m.store, now);
      SetNextAlarmCovers(PruneCompleted(m.store, now), now);
      hide Valid, SetNextAlarm, PruneCompleted, FirstDue, Claim;
    case Finish(_, _) =>
      hide Valid, Complete, Fail;
    case Crash(_) =>
      hide StatusOk;
  }

  /** An execution's completion time is kept, cleared, or the time of the step. */
  ghost predicate CompletionFollows(before: Executions, now: nat, after: Executions, s: nat) {
    s in after ==>
      after[s].completed.None? || after[s].completed.value == now || (s in before && after[s].completed == before[s].completed)
  }

  lemma NextCompletes(m: Machine, step: Step, s: nat)
    ensures CompletionFollows(m.store.executions, step.now, Next(m, step).store.executions, s)
  {
    hide Earliest, IdsFit, KeysDistinct, KeyTaken, InsertEffects, Derived, AllDead, HasNonterminal, FirstDue, Attempt, RetryDelay;
  }

  // ----- Whole runs -----

  lemma {:induction false} RunKeeps(m: Machine, steps: seq<Step>)
    requires MachineOk(m) && Monotone(m.clock, steps)
    ensures MachineOk(Run(m, steps))
    decreases |steps|
  {
    if steps != [] {
      NextKeepsMachine(m, steps[0]);
      RunKeeps(Next(m, steps[0]), steps[1..]);
    }
  }

  lemma NextKeepsMachine(m: Machine, step: Step)
    requires MachineOk(m) && m.clock <= step.now
    ensures MachineOk(Next(m, step))
  {
    hide Valid, ClaimOk, DrainOk, AlarmOk, Act;
    forall s | s in Next(m, step).store.executions
      ensures CompletionFollows(m.store.executions, step.now, Next(m, step).store.executions, s)
    {
      NextCompletes(m, step, s);
    }
    NextKeeps(m, step);
    UsedFollows(m, step);
    ClaimFollows(m, step);
    DrainFollows(m, step);
    AlarmFollows(m, step);
  }

  /** In every run, every retained execution shows exactly the status its effects imply, is marked completed
      exactly when none of them is left to deliver, and only effects left to deliver have a next attempt. */
  lemma StatusIsAlwaysDerived(kinds: set<nat>, steps: seq<Step>, s: nat)
    requires Monotone(0, steps) && s in Run(Initial(kinds), steps).store.executions
    ensures var store := Run(Initial(kinds), steps).store;
            var execution := store.executions[s];
            && (execution.status == Open <==> HasNonterminal(store.effects, s))
            && (execution.status == CompletedWithFailures <==>
                  !HasNonterminal(store.effects, s) && HasDeadLetter(store.effects, s))
            && (execution.status == Open <==> execution.completed.None?)
            && (forall id :: id in store.effects && store.effects[id].source == s ==>
                  (Nonterminal(store.effects[id]) <==> store.effects[id].next.Some?)
                  && (store.effects[id].state == RetryWait ==> 1 <= store.effects[id].attempts <= 4))
  {
    RunKeeps(Initial(kinds), steps);
    hide Run, ClaimOk, DrainOk, AlarmOk;
  }

  /** Work is never stranded: between alarm runs every effect still to be delivered has an alarm no later than
      its due time, the present, or half a minute after the last failed run. */
  lemma NothingIsStranded(kinds: set<nat>, steps: seq<Step>, id: EffectId)
    requires Monotone(0, steps)
    requires var m := Run(Initial(kinds), steps);
             m.phase.Idle? && id in m.store.effects && Nonterminal(m.store.effects[id])
    ensures var m := Run(Initial(kinds), steps);
            && m.store.alarm.Some? && m.store.effects[id].next.Some?
            && m.store.alarm.value <= Max(Max(m.store.effects[id].next.value, m.clock),
                                          if m.failed.Some? then m.failed.value + RETRY_BASE_DELAY_MS else 0)
  {
    RunKeeps(Initial(kinds), steps);
    hide Run, ClaimOk, DrainOk, StatusOk;
  }

  /** One alarm run attempts at most twenty effects, and none twice unless an operator re-opened it meanwhile. */
  lemma AlarmRunsAreBounded(kinds: set<nat>, steps: seq<Step>, i: nat, j: nat)
    requires Monotone(0, steps)
    requires i < j < |Run(Initial(kinds), steps).attempted|
    ensures var m := Run(Initial(kinds), steps);
            && |m.attempted| <= 20
            && (m.attempted[i] == m.attempted[j] ==> m.attempted[j] in m.reopened)
  {
    RunKeeps(Initial(kinds), steps);
    hide Run, ClaimOk, Valid, AlarmOk;
  }

  /** The delivery in progress always ends in the row it claimed: delivered, waiting for one of at most four
      more attempts, or a dead letter. */
  lemma FinishSettles(m: Machine, outcome: Outcome, now: nat)
    requires MachineOk(m) && m.phase.Draining? && m.phase.claim.Some?
    ensures var id := m.phase.claim.value;
            id in m.store.effects && id in Next(m, Finish(outcome, now)).store.effects
            && var e, f := m.store.effects[id], Next(m, Finish(outcome, now)).store.effects[id];
               var deliverable := e.target in m.phase.members && e.kind in m.kinds;
               && SameRow(e, f) && f.attempts == e.attempts
               && f.state == (if deliverable && outcome.Result? then Delivered
                              else if deliverable && outcome.retryable && e.attempts < 5 then RetryWait else DeadLetter)
               && (f.state == RetryWait ==> f.next == Some(now + 30_000 * Pow2(f.attempts - 1)))
  {
    RetryDelayBounds(m.store.effects[m.phase.claim.value].attempts);
    hide Valid, DrainOk, AlarmOk, Derived, RetryDelay, Pow2;
  }

  // ----- Interrupted alarm runs -----

  /** No delivery of this row is in progress. */
  predicate Unclaimed(m: Machine, id: EffectId) {
    m.phase.Draining? ==> m.phase.claim != Some(id)
  }

  /** A tick claims the row once its lease has ended, or an inactive integration ends all its work. */
  ghost predicate TakesUp(m: Machine, step: Step, id: EffectId, e: Effect) {
    && id in m.store.effects && m.store.effects[id] == e && id in Next(m, step).store.effects
    && var f := Next(m, step).store.effects[id];
       || (&& step.Tick? && FirstDue(m.store.effects, step.now) == Some(id) && e.next.Some? && e.next.value <= step.now
           && f == e.(attempts := e.attempts + 1, next := Some(step.now + ATTEMPT_LEASE_MS), lastAttempt := Some(step.now)))
       || (step.Ask? && step.registry.Inactive? && f.state == DeadLetter)
  }

  /** An attempting row that no delivery holds stays as it is until it is taken up. */
  lemma LeaseHolds(m: Machine, step: Step, id: EffectId)
    requires MachineOk(m) && m.clock <= step.now && Unclaimed(m, id)
    requires id in m.store.effects && m.store.effects[id].state == Attempting
    ensures TakesUp(m, step, id, m.store.effects[id])
            || (&& id in Next(m, step).store.effects && Next(m, step).store.effects[id] == m.store.effects[id]
                && Unclaimed(Next(m, step), id))
  {
    hide Valid, ClaimOk, AlarmOk, DrainOk;
    NextEffect(m, step, id);
    if step.Tick? && m.phase.Draining? && m.phase.claim.None? {
      TickTakesUp(m, step.now, id);
    } else {
      OthersLeaveUnclaimed(m, step, id);
      if step.Ask? {
        AskLeaves(m, step, id);
      } else if step.Finish? {
        FinishLeaves(m, step, id);
      }
    }
    hide Next, Earliest;
  }

  lemma TickTakesUp(m: Machine, now: nat, id: EffectId)
    requires m.phase.Draining? && m.phase.claim.None? && id in m.store.effects && m.store.effects[id].state == Attempting
    requires id in Next(m, Tick(now)).store.effects
    ensures var e, f := m.store.effects[id], Next(m, Tick(now)).store.effects[id];
            TakesUp(m, Tick(now), id, e) || (f == e && Unclaimed(Next(m, Tick(now)), id))
  {
    EarliestIsFirst(m.store.effects);
    assert FirstDue(m.store.effects, now).Some? ==>
        var first := FirstDue(m.store.effects, now).value;
        first in m.store.effects && Scheduled(m.store.effects[first]) && m.store.effects[first].next.value <= now;
    hide Earliest, IsEarliest, FirstDue, Aged, Stale;
  }

  lemma OthersLeaveUnclaimed(m: Machine, step: Step, id: EffectId)
    requires Unclaimed(m, id) && !(step.Tick? && m.phase.Draining? && m.phase.claim.None?)
    ensures Unclaimed(Next(m, step), id)
  {
    hide SubmitCheck, SubmitCommit, RetryEffect, SetNextAlarm, DeadLetterRemaining, Complete, Fail, IdOf, IdsFit, KeysDistinct,
      Attempt;
  }

  lemma AskLeaves(m: Machine, step: Step, id: EffectId)
    requires step.Ask? && id in m.store.effects && Nonterminal(m.store.effects[id])
    ensures id in Next(m, step).store.effects
    ensures Next(m, step).store.effects[id] == m.store.effects[id] || TakesUp(m, step, id, m.store.effects[id])
  {
    hide Earliest, Derived, HasNonterminal;
  }

  lemma FinishLeaves(m: Machine, step: Step, id: EffectId)
    requires step.Finish? && Unclaimed(m, id) && id in m.store.effects
    ensures id in Next(m, step).store.effects && Next(m, step).store.effects[id] == m.store.effects[id]
  {
    hide Derived, RetryDelay, Attempt;
  }

  /** In every later run, a leased row that no delivery holds is still leased as it was, or has been taken up: claimed
      again once the lease ended, with one more attempt, or dead-lettered with its integration. */
  lemma {:induction false} LeaseIsTakenUp(m: Machine, steps: seq<Step>, id: EffectId)
    requires MachineOk(m) && Monotone(m.clock, steps) && Unclaimed(m, id)
    requires id in m.store.effects && m.store.effects[id].state == Attempting
    ensures var e, o := m.store.effects[id], Run(m, steps);
            || (id in o.store.effects && o.store.effects[id] == e && Unclaimed(o, id))
            || (exists i :: 0 <= i < |steps| && TakesUp(Run(m, steps[..i]), steps[i], id, e))
    decreases |steps|
  {
    if steps != [] {
      LeaseHolds(m, steps[0], id);
      NextKeepsMachine(m, steps[0]);
      var e, next := m.store.effects[id], Next(m, steps[0]);
      hide MachineOk, Next, TakesUp, Unclaimed;
      if TakesUp(m, steps[0], id, e) {
        assert TakesUp(Run(m, steps[..0]), steps[0], id, e);
      } else {
        LeaseIsTakenUp(next, steps[1..], id);
        if i :| 0 <= i < |steps[1..]| && TakesUp(Run(next, steps[1..][..i]), steps[1..][i], id, e) {
          RunPrefix(m, steps, i);
          assert TakesUp(Run(m, steps[..i + 1]), steps[i + 1], id, e);
        }
      }
    }
  }

  lemma RunPrefix(m: Machine, steps: seq<Step>, i: nat)
    requires steps != [] && i < |steps[1..]|
    ensures Run(m, steps[..i + 1]) == Run(Next(m, steps[0]), steps[1..][..i]) && steps[1..][i] == steps[i + 1]
  {
    assert steps[..i + 1][1..] == steps[1..][..i];
    hide Next;
  }

  /** An alarm run cut off during a delivery: the alarm is set for at once, the row keeps its lease of thirty
      seconds, and in every later run it is still leased or has been taken up. */
  lemma CrashedClaimIsTakenUp(m: Machine, now: nat, steps: seq<Step>)
    requires MachineOk(m) && m.clock <= now && m.phase.Draining? && m.phase.claim.Some? && Monotone(now, steps)
    ensures var id, crashed := m.phase.claim.value, Next(m, Crash(now));
            && crashed.phase.Idle? && crashed.store == m.store.(alarm := Some(now))
            && id in m.store.effects && m.store.effects[id].state == Attempting
            && var e, o := m.store.effects[id], Run(crashed, steps);
               || (id in o.store.effects && o.store.effects[id] == e)
               || (exists i :: 0 <= i < |steps| && TakesUp(Run(crashed, steps[..i]), steps[i], id, e))
  {
    NextKeepsMachine(m, Crash(now));
    LeaseIsTakenUp(Next(m, Crash(now)), steps, m.phase.claim.value);
    hide Valid, DrainOk, AlarmOk, Run, TakesUp;
  }

  /** The alarm run after a crash claims the abandoned row again as soon as it is the first due. */
  lemma NextAlarmRunClaims(m: Machine, now: nat, started: nat, members: set<nat>, asked: nat, looked: nat)
    requires MachineOk(m) && m.phase.Draining? && m.phase.claim.Some?
    requires FirstDue(m.store.effects, looked) == m.phase.claim
    ensures var id := m.phase.claim.value;
            var drained := Run(Next(m, Crash(now)), [Start(started), Ask(Active(members), asked)]);
            && id in m.store.effects && TakesUp(drained, Tick(looked), id, m.store.effects[id])
            && Next(drained, Tick(looked)).phase == Draining(started, members, 1, Some(id))
  {
    var id, crashed := m.phase.claim.value, Next(m, Crash(now));
    var asking := Next(crashed, Start(started));
    var steps := [Start(started), Ask(Active(members), asked)];
    assert m.store.identity.Some? by {
      assert m.store.effects[id].source in m.store.executions;
    }
    assert steps[1..] == [Ask(Active(members), asked)] && steps[1..][1..] == [];
    var drained := Next(asking, Ask(Active(members), asked));
    assert Run(crashed, steps) == Run(asking, steps[1..]) == Run(drained, []) == drained;
    hide Valid, AlarmOk, DrainOk, Run;
    DrainedClaims(drained, looked, id);
  }

  lemma DrainedClaims(m: Machine, now: nat, id: EffectId)
    requires m.phase.Draining? && m.phase.claim.None? && m.phase.processed == 0
    requires FirstDue(m.store.effects, now) == Some(id) && id in m.store.effects && m.store.effects[id].state == Attempting
    ensures TakesUp(m, Tick(now), id, m.store.effects[id])
    ensures Next(m, Tick(now)).phase == m.phase.(processed := 1, claim := Some(id))
  {
    EarliestIsFirst(m.store.effects);
    TickTakesUp(m, now, id);
    hide Earliest, IsEarliest;
  }

  // ----- Rows and executions over whole runs -----

  /** A delivered effect never changes while it is kept; a dead letter does not either unless it is retried. */
  lemma {:induction false} SettledForGood(m: Machine, steps: seq<Step>, id: EffectId)
    requires MachineOk(m) && Monotone(m.clock, steps) && id in m.store.effects
    requires m.store.effects[id].state == Delivered
             || (m.store.effects[id].state == DeadLetter
                 && forall i :: 0 <= i < |steps| ==> !(steps[i].Retry? && steps[i].key == m.store.effects[id].key))
    ensures id in Run(m, steps).store.effects ==> Run(m, steps).store.effects[id] == m.store.effects[id]
    decreases |steps|
  {
    if steps != [] {
      NextKeepsMachine(m, steps[0]);
      NextEffect(m, steps[0], id);
      var next := Next(m, steps[0]);
      hide MachineOk, Next;
      if id in next.store.effects {
        SettledForGood(next, steps[1..], id);
      } else {
        GoneForGood(next, steps[1..], id);
      }
    }
  }

  lemma {:induction false} GoneForGood(m: Machine, steps: seq<Step>, id: EffectId)
    requires MachineOk(m) && Monotone(m.clock, steps) && id in m.used && id !in m.store.effects
    ensures id !in Run(m, steps).store.effects
    decreases |steps|
  {
    if steps != [] {
      NextKeepsMachine(m, steps[0]);
      UsedFollows(m, steps[0]);
      hide Next;
      GoneForGood(Next(m, steps[0]), steps[1..], id);
    }
  }

  // ----- Submission -----

  /** While an execution is kept, submitting it again answers from it and changes no row; submitting something
      else under its source event is refused. */
  lemma ResubmissionChangesNothing(store: Store, r: Request, ids: seq<EffectId>, now: nat, later: nat)
    requires Valid(store) && KeysDistinct(r.effects) && |ids| == |r.effects|
    requires store.identity == Some(r.integration)
    requires r.source in store.executions && !Stale(store.executions[r.source], now)
    ensures var same := store.executions[r.source].fingerprint == r.fingerprint;
            var first, second := SubmitCheck(store, r, now), SubmitCommit(store, r, ids, later);
            && first.reply == (if same then Replayed else Conflict) && first.reply == second.reply
            && second.store == store.(alarm := second.store.alarm)
            && r.source in first.store.executions && first.store.executions[r.source] == store.executions[r.source]
            && (forall id :: id in store.effects && store.effects[id].source == r.source ==>
                  id in first.store.effects && first.store.effects[id] == store.effects[id])
  {
    hide Valid, Earliest, KeysDistinct;
  }

  /** Kept with the same request and exactly the same effects, or gone with all of them. */
  ghost predicate Whole(before: Store, now: nat, after: Store, s: nat, id: EffectId) {
    s in before.executions ==>
      if s in after.executions then
        && after.executions[s].fingerprint == before.executions[s].fingerprint
        && after.executions[s].accepted == before.executions[s].accepted
        && (id in before.effects && before.effects[id].source == s <==> id in after.effects && after.effects[id].source == s)
      else
        Stale(before.executions[s], now) && !(id in after.effects && after.effects[id].source == s)
  }

  lemma PruneIsWhole(store: Store, now: nat, s: nat, id: EffectId)
    ensures Whole(store, now, PruneCompleted(store, now), s, id)
  {
  }

  lemma CommitIsWhole(store: Store, r: Request, ids: seq<EffectId>, now: nat, s: nat, id: EffectId)
    requires |ids| == |r.effects| && IdsFit(store.effects.Keys, ids)
    ensures Whole(store, now, SubmitCommit(store, r, ids, now).store, s, id)
  {
    hide Earliest, IdsFit, KeyTaken, InsertEffects;
    InsertShape(store.effects, r.source, r.effects, ids, now);
    assert forall other :: other in ids ==>
        InsertEffects(store.effects, r.source, r.effects, ids, now)[other].source == r.source;
  }

  lemma RetryIsWhole(store: Store, integration: nat, key: nat, now: nat, s: nat, id: EffectId)
    ensures Whole(store, now, RetryEffect(store, integration, key, now).store, s, id)
  {
    hide Earliest, KeyTaken, Derived;
  }

  lemma AttemptIsWhole(store: Store, claimed: EffectId, outcome: Outcome, now: nat, s: nat, id: EffectId)
    ensures Whole(store, now, match outcome
                              case Result(json) => Complete(store, claimed, json, now)
                              case Failure(retryable, code) => Fail(store, claimed, retryable, code, now), s, id)
  {
    hide Derived, RetryDelay;
  }

  lemma DeadIsWhole(store: Store, now: nat, s: nat, id: EffectId)
    ensures Whole(store, now, DeadLetterRemaining(store, INACTIVE, now), s, id)
  {
    hide Derived, HasNonterminal;
  }

  /** Every step keeps executions whole. */
  lemma ExecutionIsWhole(m: Machine, step: Step, s: nat, id: EffectId)
    requires m.store.effects.Keys <= m.used
    ensures Whole(m.store, step.now, Next(m, step).store, s, id)
  {
    hide Earliest, IdsFit, KeysDistinct, SubmitCommit, RetryEffect, PruneCompleted, Complete, Fail, DeadLetterRemaining, Attempt;
    match step
    case Check(_, now) => PruneIsWhole(m.store, now, s, id);
    case Commit(request, ids, now) =>
      if |ids| == |request.effects| && IdsFit(m.used, ids) {
        FitsUnused(m.store.effects, m.used, ids);
        CommitIsWhole(m.store, request, ids, now, s, id);
      }
    case Retry(integration, key, now) => RetryIsWhole(m.store, integration, key, now, s, id);
    case Ask(_, now) => DeadIsWhole(m.store, now, s, id);
    case Tick(now) =>
      PruneIsWhole(m.store, now, s, id);
      EarliestIsFirst(m.store.effects);
    case Finish(outcome, now) =>
      if m.phase.Draining? && m.phase.claim.Some? && m.phase.claim.value in m.store.effects {
        AttemptIsWhole(m.store, m.phase.claim.value, Attempt(m, m.store.effects[m.phase.claim.value], outcome), now, s, id);
      }
    case _ =>
  }

  /** The step that deletes the row: nothing of it was left to deliver, and its execution had aged. */
  ghost predicate Deletes(m: Machine, step: Step, id: EffectId, e: Effect) {
    && id in m.store.effects && id !in Next(m, step).store.effects
    && SameRow(e, m.store.effects[id]) && !Nonterminal(m.store.effects[id])
    && e.source in m.store.executions && Stale(m.store.executions[e.source], step.now)
  }

  lemma RowFollows(m: Machine, step: Step, id: EffectId)
    requires MachineOk(m) && id in m.store.effects
    ensures Valid(m.store) && m.store.effects.Keys <= m.used
    ensures if id in Next(m, step).store.effects then SameRow(m.store.effects[id], Next(m, step).store.effects[id])
            else Deletes(m, step, id, m.store.effects[id])
  {
    NextEffect(m, step, id);
    hide Next, ClaimOk, DrainOk, AlarmOk;
  }

  lemma SameTwice(a: Effect, b: Effect)
    requires SameRow(a, b)
    ensures forall c :: SameRow(b, c) ==> SameRow(a, c)
  {
  }

  lemma SameDeletes(m: Machine, step: Step, id: EffectId, e: Effect, f: Effect)
    requires SameRow(e, f) && Deletes(m, step, id, f)
    ensures Deletes(m, step, id, e)
  {
    hide Next;
  }

  /** Over any run a row keeps what was submitted, or was deleted, settled, with its execution fourteen days after that
      completed. */
  lemma {:induction false} RowsArePermanent(m: Machine, steps: seq<Step>, id: EffectId)
    requires MachineOk(m) && Monotone(m.clock, steps) && id in m.store.effects
    ensures var e, o := m.store.effects[id], Run(m, steps);
            if id in o.store.effects then SameRow(e, o.store.effects[id])
            else exists i :: 0 <= i < |steps| && Deletes(Run(m, steps[..i]), steps[i], id, e)
    decreases |steps|
  {
    if steps != [] {
      var e, next := m.store.effects[id], Next(m, steps[0]);
      NextKeepsMachine(m, steps[0]);
      RowFollows(m, steps[0], id);
      hide MachineOk, Next, Deletes, SameRow;
      if id !in next.store.effects {
        assert Deletes(Run(m, steps[..0]), steps[0], id, e);
        GoneForGood(next, steps[1..], id);
      } else {
        RowsArePermanent(next, steps[1..], id);
        var f := next.store.effects[id];
        SameTwice(e, f);
        if id !in Run(next, steps[1..]).store.effects {
          var i :| 0 <= i < |steps[1..]| && Deletes(Run(next, steps[1..][..i]), steps[1..][i], id, f);
          RunPrefix(m, steps, i);
          SameDeletes(Run(m, steps[..i + 1]), steps[i + 1], id, e, f);
        }
      }
    }
  }

  ghost predicate KeptThroughout(m: Machine, steps: seq<Step>, s: nat)
    decreases |steps|
  {
    s in m.store.executions && (steps == [] || KeptThroughout(Next(m, steps[0]), steps[1..], s))
  }

  function EffectsOf(store: Store, s: nat): set<EffectId> {
    set id | id in store.effects && store.effects[id].source == s
  }

  lemma StepIsWhole(m: Machine, step: Step, s: nat)
    requires m.store.effects.Keys <= m.used && s in m.store.executions
    ensures var before, after := m.store, Next(m, step).store;
            if s in after.executions then
              && after.executions[s].fingerprint == before.executions[s].fingerprint
              && after.executions[s].accepted == before.executions[s].accepted
              && EffectsOf(after, s) == EffectsOf(before, s)
            else Stale(before.executions[s], step.now) && EffectsOf(after, s) == {}
  {
    forall id: EffectId
      ensures Whole(m.store, step.now, Next(m, step).store, s, id)
    {
      ExecutionIsWhole(m, step, s, id);
    }
    hide Next, Aged, Stale;
    var before, after := m.store, Next(m, step).store;
    forall id: EffectId
      ensures s in after.executions ==> (id in EffectsOf(after, s) <==> id in EffectsOf(before, s))
    {
      assert Whole(before, step.now, after, s, id);
    }
    hide Whole;
  }

  /** Over any run that keeps it, an execution keeps its request and exactly its effects; the step that prunes it
      prunes all of them, fourteen days after it completed. */
  lemma {:induction false} ExecutionStaysWhole(m: Machine, steps: seq<Step>, s: nat, last: Step)
    requires MachineOk(m) && Monotone(m.clock, steps) && KeptThroughout(m, steps, s)
    ensures var o := Run(m, steps);
            && s in o.store.executions
            && o.store.executions[s].fingerprint == m.store.executions[s].fingerprint
            && o.store.executions[s].accepted == m.store.executions[s].accepted
            && EffectsOf(o.store, s) == EffectsOf(m.store, s)
            && (s !in Next(o, last).store.executions ==>
                  Stale(o.store.executions[s], last.now) && EffectsOf(Next(o, last).store, s) == {})
    decreases |steps|
  {
    assert steps != [] ==> Next(m, steps[0]).clock == steps[0].now;
    hide Valid, ClaimOk, DrainOk, AlarmOk, Next, Aged, Stale, EffectsOf;
    if steps == [] {
      StepIsWhole(m, last, s);
    } else {
      NextKeepsMachine(m, steps[0]);
      StepIsWhole(m, steps[0], s);
      ExecutionStaysWhole(Next(m, steps[0]), steps[1..], s, last);
    }
  }
}
