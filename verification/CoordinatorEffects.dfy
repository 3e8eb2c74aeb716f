/** What each coordinator step answers and leaves, row by row and with the limits written out, and how long an
    execution is kept. */
module CoordinatorEffects {
  import opened Contract
  import opened Coordinator
  import opened CoordinatorSafety
  import opened CoordinatorTheorems

  // ----- Fourteen days -----

  /** Pruning keeps exactly the executions not stale, and the rows of those it keeps. */
  ghost predicate Pruned(before: Store, now: nat, after: Store) {
    && (forall s :: s in after.executions <==> s in before.executions && !Stale(before.executions[s], now))
    && (forall s :: s in after.executions ==> after.executions[s] == before.executions[s])
    && (forall id :: id in after.effects <==>
          id in before.effects && (before.effects[id].source in before.executions ==> before.effects[id].source in after.executions))
    && (forall id :: id in after.effects ==> after.effects[id] == before.effects[id])
    && after.identity == before.identity && after.alarm == before.alarm
  }

  lemma PruneLeaves(store: Store, now: nat)
    ensures Pruned(store, now, PruneCompleted(store, now))
  {
  }

  /** The first part of a submission: repeated keys are refused; otherwise what is stale is pruned, and a kept execution
      of the source event answers the same request as replayed and another as a conflict. */
  lemma CheckLeaves(store: Store, r: Request, now: nat)
    ensures var out := SubmitCheck(store, r, now);
            if exists i, j :: 0 <= i < j < |r.effects| && r.effects[i].key == r.effects[j].key then out == Answer(store, Invalid)
            else
              && Pruned(store, now, out.store)
              && out.reply == if store.identity.Some? && store.identity.value != r.integration then Mismatch
                              else if r.source !in store.executions || Stale(store.executions[r.source], now) then Submitted
                              else if store.executions[r.source].fingerprint == r.fingerprint then Replayed else Conflict
  {
    PruneLeaves(store, now);
    hide PruneCompleted;
  }

  /** In particular, one pruning later than fourteen days after completion removes the execution and its rows. */
  lemma StaleIsPruned(store: Store, r: Request, now: nat, s: nat)
    requires s in store.executions && Stale(store.executions[s], now)
    requires forall i, j :: 0 <= i < j < |r.effects| ==> r.effects[i].key != r.effects[j].key
    ensures var out := SubmitCheck(store, r, now).store; s !in out.executions && EffectsOf(out, s) == {}
  {
    CheckLeaves(store, r, now);
  }

  lemma NextIsWhole(m: Machine, step: Step, s: nat)
    requires m.store.effects.Keys <= m.used && s in m.store.executions
    ensures var before, after := m.store, Next(m, step).store;
            if s in after.executions then EffectsOf(after, s) == EffectsOf(before, s) && SameRequest(before, after, s)
            else Stale(before.executions[s], step.now) && EffectsOf(after, s) == {}
  {
    StepIsWhole(m, step, s);
    hide Next, EffectsOf;
  }

  predicate SameRequest(before: Store, after: Store, s: nat)
    requires s in before.executions && s in after.executions
  {
    after.executions[s].fingerprint == before.executions[s].fingerprint
    && after.executions[s].accepted == before.executions[s].accepted
  }

  /** Not stale before a time fourteen days after its completion, or, while open, after the present. */
  predicate KeepsUntil(m: Machine, s: nat, since: nat)
    requires s in m.store.executions
  {
    since <= m.clock && (m.store.executions[s].completed.Some? ==> since <= m.store.executions[s].completed.value)
  }

  /** Over any run that ends within fourteen days of an execution's completion, or of the present while it is open,
      however often it is re-opened and completed again, it is kept throughout with exactly its effects. */
  lemma {:induction false} KeptForFourteenDays(m: Machine, steps: seq<Step>, s: nat, since: nat)
    requires MachineOk(m) && Monotone(m.clock, steps) && s in m.store.executions && KeepsUntil(m, s, since)
    requires forall i :: 0 <= i < |steps| ==> steps[i].now <= since + 1_209_600_000
    ensures KeptThroughout(m, steps, s)
    ensures var o := Run(m, steps);
            s in o.store.executions && EffectsOf(o.store, s) == EffectsOf(m.store, s) && SameRequest(m.store, o.store, s)
            && KeepsUntil(o, s, since)
    decreases |steps|
  {
    hide Valid, ClaimOk, DrainOk, AlarmOk, TimesOk, EffectsOf;
    if steps != [] {
      var next := Next(m, steps[0]);
      assert next.clock == steps[0].now;
      NextKeepsMachine(m, steps[0]);
      NextCompletes(m, steps[0], s);
      NextIsWhole(m, steps[0], s);
      hide Next;
      KeptForFourteenDays(next, steps[1..], s, since);
    }
  }

  predicate DistinctKeys(r: Request) {
    forall i, j :: 0 <= i < j < |r.effects| ==> r.effects[i].key != r.effects[j].key
  }

  /** While an execution is kept, submitting its source event again answers from it, in both parts of a submission, and
      changes neither it nor any row of it. */
  lemma KeptIsAnswered(store: Store, r: Request, ids: seq<EffectId>, now: nat, later: nat)
    requires store.identity == Some(r.integration) && DistinctKeys(r) && |ids| == |r.effects|
    requires r.source in store.executions && !Stale(store.executions[r.source], now)
    ensures var same := store.executions[r.source].fingerprint == r.fingerprint;
            var first := SubmitCheck(store, r, now);
            var second := SubmitCommit(first.store, r, ids, later);
            && first.reply == second.reply == (if same then Replayed else Conflict)
            && r.source in second.store.executions && second.store.executions[r.source] == store.executions[r.source]
            && EffectsOf(second.store, r.source) == EffectsOf(store, r.source)
            && (forall id :: id in EffectsOf(store, r.source) ==> second.store.effects[id] == store.effects[id])
  {
    CheckLeaves(store, r, now);
    var first := SubmitCheck(store, r, now);
    assert first.reply in {Replayed, Conflict};
    hide SubmitCheck, Earliest;
    var second := SubmitCommit(first.store, r, ids, later);
    assert second.store == first.store.(alarm := second.store.alarm);
    hide SubmitCommit;
  }

  /** Over any run from an execution's completion, or from any time it is open, resubmissions within fourteen days answer
      from it, and it still has exactly its effects. */
  lemma ResubmittedWithinFourteenDays(m: Machine, steps: seq<Step>, r: Request, ids: seq<EffectId>, now: nat, later: nat)
    requires MachineOk(m) && Monotone(m.clock, steps) && r.source in m.store.executions
    requires m.store.identity == Some(r.integration) && DistinctKeys(r) && |ids| == |r.effects|
    requires var done := m.store.executions[r.source].completed;
             var since := if done.Some? then done.value else m.clock;
             now <= since + 1_209_600_000 && forall i :: 0 <= i < |steps| ==> steps[i].now <= since + 1_209_600_000
    ensures var o, same := Run(m, steps).store, m.store.executions[r.source].fingerprint == r.fingerprint;
            var first := SubmitCheck(o, r, now);
            var second := SubmitCommit(first.store, r, ids, later);
            && first.reply == second.reply == (if same then Replayed else Conflict)
            && r.source in second.store.executions
            && EffectsOf(second.store, r.source) == EffectsOf(m.store, r.source)
            && (forall id :: id in EffectsOf(o, r.source) ==> second.store.effects[id] == o.effects[id])
  {
    var done := m.store.executions[r.source].completed;
    var since := if done.Some? then done.value else m.clock;
    assert TimesOk(m.store.executions, m.clock);
    KeptForFourteenDays(m, steps, r.source, since);
    StillIdentified(m, steps);
    hide MachineOk, Run, Monotone, SubmitCheck, SubmitCommit, EffectsOf;
    KeptIsAnswered(Run(m, steps).store, r, ids, now, later);
  }

  /** The coordinator's identity, once taken, stays. */
  lemma {:induction false} StillIdentified(m: Machine, steps: seq<Step>)
    requires m.store.identity.Some?
    ensures Run(m, steps).store.identity == m.store.identity
    decreases |steps|
  {
    if steps != [] {
      NextIdentity(m, steps[0]);
      hide Next;
      StillIdentified(Next(m, steps[0]), steps[1..]);
    }
  }

  lemma NextIdentity(m: Machine, step: Step)
    requires m.store.identity.Some?
    ensures Next(m, step).store.identity == m.store.identity
  {
    hide Earliest, IdsFit, KeysDistinct, KeyTaken, InsertEffects, Derived, AllDead, HasNonterminal, FirstDue, Attempt, RetryDelay, Aged;
  }

  // ----- The alarm -----

  predicate Waiting(e: Effect) { e.state in {Pending, RetryWait, Attempting} }

  /** The alarm is set for the earliest time a waiting effect is due, or now if that has passed; none waiting, none set. */
  ghost predicate AlarmSet(effects: Effects, now: nat, alarm: Option<nat>) {
    && (alarm.None? <==> forall id :: id in effects ==> !Waiting(effects[id]))
    && (alarm.Some? ==>
          && now <= alarm.value
          && (exists id :: id in effects && Waiting(effects[id]) && effects[id].next.Some?
                           && alarm.value == Max(effects[id].next.value, now))
          && forall id :: id in effects && Waiting(effects[id]) && effects[id].next.Some? ==>
               alarm.value <= Max(effects[id].next.value, now))
  }

  lemma AlarmIsSet(store: Store, now: nat)
    requires EffectsOk(store.effects, store.executions)
    ensures AlarmSet(store.effects, now, SetNextAlarm(store, now).alarm)
    ensures SetNextAlarm(store, now) == store.(alarm := SetNextAlarm(store, now).alarm)
  {
    EarliestIsFirst(store.effects);
    hide Earliest;
  }

  // ----- Submission and retry -----

  /** Rows entered for a request, one per effect, in its order. */
  ghost predicate Entered(before: Effects, r: Request, ids: seq<EffectId>, now: nat, after: Effects)
    requires |ids| == |r.effects|
  {
    && (forall id :: id in after <==> id in before || id in ids)
    && (forall id :: id in before ==> after[id] == before[id])
    && (forall i :: 0 <= i < |ids| ==>
          var e := r.effects[i];
          after[ids[i]] == Effect(r.source, e.key, e.kind, e.target, e.body, Pending, 0, Some(now), None, None, None, None, now))
  }

  /** The second part of a submission: answered from a kept execution; refused when one of its keys is used; otherwise the
      execution and all its effects are entered, due at once. */
  lemma CommitLeaves(store: Store, r: Request, ids: seq<EffectId>, now: nat)
    requires Valid(store) && |ids| == |r.effects| && IdsFit(store.effects.Keys, ids) && KeysDistinct(r.effects)
    ensures var out := SubmitCommit(store, r, ids, now);
            if store.identity.Some? && store.identity.value != r.integration then out == Answer(store, Mismatch)
            else if r.source in store.executions then
              if store.executions[r.source].fingerprint != r.fingerprint then out == Answer(store, Conflict)
              else out.reply == Replayed && out.store == store.(alarm := out.store.alarm)
                   && AlarmSet(store.effects, now, out.store.alarm)
            else if exists i, id :: 0 <= i < |r.effects| && id in store.effects && store.effects[id].key == r.effects[i].key then
              out == Answer(store, KeyConflict)
            else
              && out.reply == Submitted && out.store.identity == Some(r.integration)
              && out.store.executions
                 == store.executions[r.source := if r.effects == [] then Execution(r.fingerprint, r.group, Completed, now, Some(now))
                                                 else Execution(r.fingerprint, r.group, Open, now, None)]
              && Entered(store.effects, r, ids, now, out.store.effects)
              && AlarmSet(out.store.effects, now, out.store.alarm)
  {
    hide Valid, IdsFit, KeysDistinct, KeyTaken, InsertEffects, SetNextAlarm, AlarmSet, Entered;
    KeyUsed(store.effects, r);
    if ReplayIfPresent(store, r) == Some(Replayed) {
      ReplayedAlarm(store, now);
    } else if ReplayIfPresent(store, r).None? && !(exists i :: 0 <= i < |r.effects| && KeyTaken(store.effects, r.effects[i].key)) {
      RowsEntered(store, r, ids, now);
      CommittedAlarm(store, r, ids, now);
    }
  }

  lemma KeyUsed(effects: Effects, r: Request)
    ensures (exists i :: 0 <= i < |r.effects| && KeyTaken(effects, r.effects[i].key))
            <==> exists i, id :: 0 <= i < |r.effects| && id in effects && effects[id].key == r.effects[i].key
  {
    if i, id :| 0 <= i < |r.effects| && id in effects && effects[id].key == r.effects[i].key {
      assert KeyTaken(effects, r.effects[i].key);
    }
  }

  lemma ReplayedAlarm(store: Store, now: nat)
    requires Valid(store)
    ensures AlarmSet(store.effects, now, SetNextAlarm(store, now).alarm)
    ensures SetNextAlarm(store, now) == store.(alarm := SetNextAlarm(store, now).alarm)
  {
    AlarmIsSet(store, now);
    hide StatusOk, AlarmSet, SetNextAlarm;
  }

  lemma RowsEntered(store: Store, r: Request, ids: seq<EffectId>, now: nat)
    requires |ids| == |r.effects| && IdsFit(store.effects.Keys, ids)
    requires ReplayIfPresent(store, r).None? && !exists i :: 0 <= i < |r.effects| && KeyTaken(store.effects, r.effects[i].key)
    ensures Entered(store.effects, r, ids, now, InsertEffects(store.effects, r.source, r.effects, ids, now))
    ensures var out := SubmitCommit(store, r, ids, now).store;
            out == store.(identity := Some(r.integration), executions := out.executions, alarm := out.alarm,
                          effects := InsertEffects(store.effects, r.source, r.effects, ids, now))
            && out.executions
               == store.executions[r.source := if r.effects == [] then Execution(r.fingerprint, r.group, Completed, now, Some(now))
                                               else Execution(r.fingerprint, r.group, Open, now, None)]
  {
    InsertShape(store.effects, r.source, r.effects, ids, now);
    hide InsertEffects, IdsFit, KeyTaken, Earliest;
  }

  lemma CommittedAlarm(store: Store, r: Request, ids: seq<EffectId>, now: nat)
    requires Valid(store) && |ids| == |r.effects| && IdsFit(store.effects.Keys, ids) && KeysDistinct(r.effects)
    requires ReplayIfPresent(store, r).None? && forall i :: 0 <= i < |r.effects| ==> !KeyTaken(store.effects, r.effects[i].key)
    ensures AlarmSet(InsertEffects(store.effects, r.source, r.effects, ids, now), now, SubmitCommit(store, r, ids, now).store.alarm)
  {
    InsertKeeps(store, r, ids, now);
    var execution := Execution(r.fingerprint, r.group, if r.effects == [] then Completed else Open, now,
                               if r.effects == [] then Some(now) else None);
    AlarmIsSet(Store(Some(r.integration), store.executions[r.source := execution],
                     InsertEffects(store.effects, r.source, r.effects, ids, now), store.alarm), now);
    hide StatusOk, KeyTaken, InsertEffects, IdsFit, KeysDistinct, AlarmSet, EffectOk, Earliest;
  }

  /** The answer for the row with that key: a dead letter is opened anew, due at once, and its execution with it. */
  ghost predicate Reopened(store: Store, id: EffectId, now: nat, out: Answer)
    requires id in store.effects
  {
    var e := store.effects[id];
    if e.state != DeadLetter then out == Answer(store, NotDeadLettered)
    else
      && out.reply == Retried && e.source in store.executions
      && out.store.effects
         == store.effects[id := e.(state := Pending, attempts := 0, next := Some(now), lastAttempt := None, lastError := None)]
      && out.store.executions == store.executions[e.source := store.executions[e.source].(status := Open, completed := None)]
      && out.store.identity == store.identity && AlarmSet(out.store.effects, now, out.store.alarm)
  }

  /** A retry concerns the one row with its key; an unknown key, or another integration's, is not found. */
  lemma RetryLeaves(store: Store, integration: nat, key: nat, now: nat)
    requires Valid(store)
    ensures var out := RetryEffect(store, integration, key, now);
            if store.identity != Some(integration) || (forall id :: id in store.effects ==> store.effects[id].key != key)
            then out == Answer(store, NotFound)
            else exists id :: id in store.effects && store.effects[id].key == key && Reopened(store, id, now, out)
  {
    if store.identity == Some(integration) && KeyTaken(store.effects, key) {
      var id := IdOf(store.effects, key);
      var e := store.effects[id];
      if e.state == DeadLetter {
        var again := e.(state := Pending, attempts := 0, next := Some(now), lastAttempt := None, lastError := None);
        var after := store.effects[id := again];
        ReopenedOk(store, id, again);
        assert e.source in store.executions;
        UpdateKeeps(store, id, again, now);
        assert HasNonterminal(after, e.source) by {
          assert after[id].source == e.source && Nonterminal(after[id]);
        }
        AlarmIsSet(Refresh(store.(effects := after), e.source, now), now);
        hide Valid, SetNextAlarm, AlarmSet;
        assert Reopened(store, id, now, RetryEffect(store, integration, key, now));
      } else {
        assert Reopened(store, id, now, RetryEffect(store, integration, key, now));
      }
    }
  }

  // ----- Alarm runs -----

  /** The first of the waiting rows whose time has come: by due time, then age, then ID. */
  ghost predicate FirstWaiting(effects: Effects, id: EffectId, now: nat) {
    && id in effects && Waiting(effects[id]) && effects[id].next.Some? && effects[id].next.value <= now
    && forall other :: other in effects && Waiting(effects[other]) && effects[other].next.Some? && other != id ==>
         var a, b := effects[id], effects[other];
         a.next.value < b.next.value
         || (a.next.value == b.next.value && (a.created < b.created || (a.created == b.created && id < other)))
  }

  lemma FirstIsDue(effects: Effects, now: nat)
    ensures FirstDue(effects, now).Some? ==> FirstWaiting(effects, FirstDue(effects, now).value, now)
    ensures FirstDue(effects, now).None? ==>
              forall id :: id in effects && Waiting(effects[id]) && effects[id].next.Some? ==> effects[id].next.value > now
  {
    EarliestIsFirst(effects);
    hide Earliest;
  }

  /** The first row due is claimed for thirty seconds. */
  ghost predicate ClaimedFirst(m: Machine, now: nat, id: EffectId, after: Machine)
    requires m.phase.Draining?
  {
    && FirstWaiting(m.store.effects, id, now) && id in m.store.effects
    && var e := m.store.effects[id];
       && after.store == m.store.(effects := m.store.effects[id := e.(state := Attempting, attempts := e.attempts + 1,
                                                                      next := Some(now + 30_000), lastAttempt := Some(now))])
       && after.phase == m.phase.(processed := m.phase.processed + 1, claim := Some(id))
  }

  predicate LoopGoesOn(m: Machine, now: nat)
    requires m.phase.Draining?
  {
    && m.phase.processed < 20 && (m.phase.processed == 0 || now - m.phase.started < 5_000)
    && exists id :: id in m.store.effects && Waiting(m.store.effects[id]) && m.store.effects[id].next.Some?
                    && m.store.effects[id].next.value <= now
  }

  /** A turn of the loop claims the first row due, while fewer than twenty were claimed and, after the first, five seconds
      have not passed; otherwise the run prunes, sets the alarm and ends. */
  lemma TickLeaves(m: Machine, now: nat)
    requires Valid(m.store) && m.phase.Draining? && m.phase.claim.None?
    ensures var after := Next(m, Tick(now));
            if LoopGoesOn(m, now) then exists id :: ClaimedFirst(m, now, id, after)
            else
              && after.phase.Idle? && Pruned(m.store, now, after.store.(alarm := m.store.alarm))
              && AlarmSet(after.store.effects, now, after.store.alarm)
  {
    hide Valid, FirstDue, Pruned, AlarmSet, PruneCompleted, SetNextAlarm, FirstWaiting, AlarmCovers;
    DueOrNot(m.store.effects, now);
    if LoopGoesOn(m, now) {
      TickClaims(m, now);
    } else {
      TickEnds(m, now);
    }
  }

  lemma DueOrNot(effects: Effects, now: nat)
    ensures FirstDue(effects, now).Some?
            <==> exists id :: id in effects && Waiting(effects[id]) && effects[id].next.Some? && effects[id].next.value <= now
  {
    FirstIsDue(effects, now);
    hide FirstDue;
  }

  lemma TickClaims(m: Machine, now: nat)
    requires m.phase.Draining? && m.phase.claim.None? && FirstDue(m.store.effects, now).Some?
    requires m.phase.processed < 20 && (m.phase.processed == 0 || now - m.phase.started < 5_000)
    ensures exists id :: ClaimedFirst(m, now, id, Next(m, Tick(now)))
  {
    FirstIsDue(m.store.effects, now);
    var id := FirstDue(m.store.effects, now).value;
    hide FirstDue, PruneCompleted, SetNextAlarm;
    assert ClaimedFirst(m, now, id, Next(m, Tick(now)));
  }

  lemma TickEnds(m: Machine, now: nat)
    requires Valid(m.store) && m.phase.Draining? && m.phase.claim.None?
    requires FirstDue(m.store.effects, now).None?
             || !(m.phase.processed < 20 && (m.phase.processed == 0 || now - m.phase.started < 5_000))
    ensures var after := Next(m, Tick(now));
            && after.phase.Idle? && Pruned(m.store, now, after.store.(alarm := m.store.alarm))
            && AlarmSet(after.store.effects, now, after.store.alarm)
  {
    PruneLeaves(m.store, now);
    assert Valid(PruneCompleted(m.store, now)) by {
      PruneKeeps(m.store, now);
    }
    hide Valid, FirstDue, Pruned, AlarmSet, PruneCompleted, SetNextAlarm, Claim;
    ReplayedAlarm(PruneCompleted(m.store, now), now);
    assert PruneCompleted(m.store, now).alarm == m.store.alarm by {
      PrunedAlarm(m.store, now);
    }
  }

  lemma PrunedAlarm(store: Store, now: nat)
    ensures PruneCompleted(store, now).alarm == store.alarm
  {
  }

  /** Whether anything of an execution waits, and whether anything of it is a dead letter, decides its status. */
  ghost predicate Settled(effects: Effects, s: nat, now: nat, before: Execution, after: Execution) {
    var waits := exists id :: id in effects && effects[id].source == s && Waiting(effects[id]);
    var dead := exists id :: id in effects && effects[id].source == s && effects[id].state == DeadLetter;
    after == before.(status := if waits then Open else if dead then CompletedWithFailures else Completed,
                     completed := if waits then None else Some(now))
  }

  lemma RefreshSettles(store: Store, s: nat, now: nat)
    requires s in store.executions
    ensures var after := Refresh(store, s, now);
            && after == store.(executions := after.executions)
            && after.executions == store.executions[s := after.executions[s]]
            && Settled(store.effects, s, now, store.executions[s], after.executions[s])
  {
  }

  /** Half a minute after the first attempt, twice as long after each further one. */
  function WaitAfter(attempts: nat): nat {
    if attempts <= 1 then 30_000 else if attempts == 2 then 60_000 else if attempts == 3 then 120_000 else 240_000
  }

  lemma WaitIs(attempts: nat)
    requires 1 <= attempts < 5
    ensures RetryDelay(attempts) == WaitAfter(attempts)
  {
    assert Pow2(0) == 1 && Pow2(1) == 2 && Pow2(2) == 4 && Pow2(3) == 8;
  }

  /** What the end of the claimed delivery comes to: membership first, then the handler, then the delivery itself. */
  function Verdict(m: Machine, e: Effect, outcome: Outcome): Outcome
    requires m.phase.Draining?
  {
    if e.target !in m.phase.members then Failure(false, 0) else if e.kind !in m.kinds then Failure(false, 1) else outcome
  }

  predicate WaitsAgain(e: Effect, verdict: Outcome) {
    verdict.Failure? && verdict.retryable && e.attempts < 5
  }

  function EndedAs(e: Effect, verdict: Outcome, now: nat): Effect {
    match verdict
    case Result(json) => e.(state := Delivered, next := None, deliveredAt := Some(now), lastError := None, result := Some(json))
    case Failure(retryable, code) =>
      e.(state := if WaitsAgain(e, verdict) then RetryWait else DeadLetter, lastError := Some(ErrorRecord(code, now)),
         next := if WaitsAgain(e, verdict) then Some(now + WaitAfter(e.attempts)) else None)
  }

  lemma EndIs(store: Store, id: EffectId, verdict: Outcome, now: nat)
    requires id in store.effects && store.effects[id].state == Attempting && store.effects[id].attempts >= 1
    ensures var e := store.effects[id];
            var ended := store.(effects := store.effects[id := EndedAs(e, verdict, now)]);
            (match verdict
             case Result(json) => Complete(store, id, json, now)
             case Failure(retryable, code) => Fail(store, id, retryable, code, now))
            == if WaitsAgain(e, verdict) then ended else Refresh(ended, e.source, now)
  {
    if store.effects[id].attempts < 5 {
      WaitIs(store.effects[id].attempts);
    }
    hide RetryDelay, WaitAfter, Refreshed;
  }

  /** The end of a delivery: delivered with its result; waiting again, twice as long each time; or dead, with the code of
      what failed, when it may not or no longer be retried. Other rows stay, and its execution is settled. */
  lemma FinishLeaves(m: Machine, outcome: Outcome, now: nat)
    requires MachineOk(m) && m.phase.Draining? && m.phase.claim.Some?
    ensures var after, id := Next(m, Finish(outcome, now)), m.phase.claim.value;
            && after.phase == m.phase.(claim := None) && id in m.store.effects && id in after.store.effects
            && after.store.effects == m.store.effects[id := after.store.effects[id]]
            && var e, f := m.store.effects[id], after.store.effects[id];
               var verdict := Verdict(m, e, outcome);
               && f == EndedAs(e, verdict, now)
               && e.source in m.store.executions
               && if WaitsAgain(e, verdict) then after.store.executions == m.store.executions
                  else e.source in after.store.executions
                       && after.store.executions == m.store.executions[e.source := after.store.executions[e.source]]
                       && Settled(after.store.effects, e.source, now, m.store.executions[e.source],
                                  after.store.executions[e.source])
  {
    var id := m.phase.claim.value;
    assert id in m.store.effects && m.store.effects[id].state == Attempting;
    var e := m.store.effects[id];
    assert e.source in m.store.executions && e.attempts >= 1;
    var verdict := Verdict(m, e, outcome);
    assert Attempt(m, e, outcome) == verdict;
    EndIs(m.store, id, verdict, now);
    RefreshSettles(m.store.(effects := m.store.effects[id := EndedAs(e, verdict, now)]), e.source, now);
    hide MachineOk, Settled, Refresh, EndedAs, Complete, Fail, WaitsAgain, Verdict, Attempt;
  }

  /** An inactive integration ends all its work: every waiting row is dead with that reason, its execution settled, no
      alarm is left, and nothing else changes. */
  lemma InactiveLeaves(m: Machine, now: nat)
    requires Valid(m.store) && m.phase.Asking?
    ensures var after, before := Next(m, Ask(Inactive, now)), m.store;
            && after.phase.Idle? && after.store.alarm.None? && after.store.identity == before.identity
            && after.store.effects.Keys == before.effects.Keys
            && (forall id :: id in before.effects ==>
                  after.store.effects[id]
                  == if Waiting(before.effects[id])
                     then before.effects[id].(state := DeadLetter, next := None, lastError := Some(ErrorRecord(2, now)))
                     else before.effects[id])
            && after.store.executions.Keys == before.executions.Keys
            && (forall s :: s in before.executions ==>
                  if exists id :: id in before.effects && before.effects[id].source == s && Waiting(before.effects[id])
                  then after.store.executions[s]
                       == before.executions[s].(status := CompletedWithFailures, completed := Some(now))
                  else after.store.executions[s] == before.executions[s])
  {
    var dead := DeadLetterRemaining(m.store, INACTIVE, now);
    EarliestIsFirst(dead.effects);
    forall s | s in m.store.executions && HasNonterminal(m.store.effects, s)
      ensures Derived(dead.effects, s) == CompletedWithFailures
    {
      var id :| id in m.store.effects && m.store.effects[id].source == s && Nonterminal(m.store.effects[id]);
      assert dead.effects[id].source == s && dead.effects[id].state == DeadLetter;
    }
    hide Valid, Earliest, Derived;
  }

  /** A run begins by asking the registry, without an alarm; a failure to ask sets it half a minute on; an active
      integration's members are who may be delivered to. */
  lemma RunBegins(m: Machine, now: nat, members: set<nat>)
    ensures m.phase.Idle? && m.store.identity.Some? ==>
              Next(m, Start(now)).phase == Asking(now) && Next(m, Start(now)).store == m.store.(alarm := None)
              && Next(m, Start(now)).attempted == [] && Next(m, Start(now)).reopened == {}
    ensures m.phase.Idle? && m.store.identity.None? ==>
              Next(m, Start(now)).phase.Idle? && Next(m, Start(now)).store == m.store.(alarm := None)
    ensures m.phase.Asking? ==>
              && Next(m, Ask(Unavailable, now)).phase.Idle?
              && Next(m, Ask(Unavailable, now)).store == m.store.(alarm := Some(now + 30_000))
              && Next(m, Ask(Active(members), now)).store == m.store
              && Next(m, Ask(Active(members), now)).phase == Draining(m.phase.started, members, 0, None)
  {
  }
}
