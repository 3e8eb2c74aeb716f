/** What every coordinator step keeps, and what follows over whole runs. */
module CoordinatorSafety {
  import opened Contract
  import opened Coordinator

  // ----- Invariant -----

  predicate EffectOk(e: Effect) {
    && (Nonterminal(e) <==> e.next.Some?)
    && (e.state == Pending ==> e.attempts == 0)
    && (e.state == Attempting ==> e.attempts >= 1 && e.lastAttempt.Some?)
    && (e.state == RetryWait ==> 1 <= e.attempts < MAX_DELIVERY_ATTEMPTS)
    && (e.state == Delivered <==> e.deliveredAt.Some?)
  }

  ghost predicate EffectsOk(effects: Effects, executions: Executions) {
    && (forall id :: id in effects ==> EffectOk(effects[id]) && effects[id].source in executions)
    && (forall a, b :: a in effects && b in effects && effects[a].key == effects[b].key ==> a == b)
  }

  /** Every execution shows the status its effects imply, and a completion time unless it is open. */
  ghost predicate StatusOk(effects: Effects, executions: Executions) {
    forall s :: s in executions ==>
      executions[s].status == Derived(effects, s) && (executions[s].status == Open <==> executions[s].completed.None?)
  }

  ghost predicate Valid(store: Store) {
    && EffectsOk(store.effects, store.executions)
    && StatusOk(store.effects, store.executions)
    && (store.identity.None? ==> store.executions == map[])
  }

  // ----- Earliest -----

  ghost predicate AllScheduled(effects: Effects, ids: set<EffectId>) {
    forall id :: id in ids ==> id in effects && Scheduled(effects[id])
  }

  ghost predicate FirstOf(effects: Effects, ids: set<EffectId>, id: EffectId)
    requires AllScheduled(effects, ids)
  {
    id in ids && forall other :: other in ids ==> !Precedes(effects, other, id)
  }

  lemma {:induction false} EarliestExists(effects: Effects, ids: set<EffectId>) returns (best: EffectId)
    requires AllScheduled(effects, ids) && ids != {}
    ensures FirstOf(effects, ids, best)
    decreases ids
  {
    var some :| some in ids;
    var rest := ids - {some};
    best := some;
    if rest != {} {
      var least := EarliestExists(effects, rest);
      if Precedes(effects, least, some) {
        best := least;
      }
    }
    forall other | other in ids
      ensures !Precedes(effects, other, best)
    {
      assert other == some || other in rest;
    }
  }

  /** The first row exists exactly when some row is scheduled, and no scheduled row is due before it. */
  lemma EarliestIsFirst(effects: Effects)
    ensures Earliest(effects).Some? ==> IsEarliest(effects, Earliest(effects).value)
    ensures Earliest(effects).None? <==> forall id :: id in effects ==> !Scheduled(effects[id])
    ensures forall id :: Earliest(effects).Some? && id in effects && Scheduled(effects[id]) ==>
              effects[Earliest(effects).value].next.value <= effects[id].next.value
  {
    var ids := set id | id in effects && Scheduled(effects[id]);
    if ids != {} {
      var id := EarliestExists(effects, ids);
      assert IsEarliest(effects, id);
    }
    assert forall id :: id in effects && Scheduled(effects[id]) ==> id in ids;
  }

  /** An alarm that is set covers every nonterminal effect. */
  ghost predicate AlarmCovers(store: Store, time: nat) {
    forall id :: id in store.effects && Nonterminal(store.effects[id]) ==>
      && store.alarm.Some? && store.effects[id].next.Some?
      && store.alarm.value <= Max(store.effects[id].next.value, time)
  }

  lemma SetNextAlarmCovers(store: Store, now: nat)
    requires Valid(store)
    ensures Valid(SetNextAlarm(store, now))
    ensures AlarmCovers(SetNextAlarm(store, now), now)
    ensures SetNextAlarm(store, now) == store.(alarm := SetNextAlarm(store, now).alarm)
  {
    EarliestIsFirst(store.effects);
    hide StatusOk, Earliest, IsEarliest;
  }

  // ----- Each operation keeps it -----

  lemma PruneKeeps(store: Store, now: nat)
    requires Valid(store)
    ensures Valid(PruneCompleted(store, now))
    ensures forall id :: id in store.effects && Nonterminal(store.effects[id]) ==>
              id in PruneCompleted(store, now).effects
  {
    var pruned := PruneCompleted(store, now);
    forall s | s in pruned.executions
      ensures Derived(pruned.effects, s) == Derived(store.effects, s)
    {
      forall id | id in store.effects && store.effects[id].source == s
        ensures id in pruned.effects
      {
      }
    }
    forall id | id in store.effects && Nonterminal(store.effects[id])
      ensures id in pruned.effects
    {
      assert HasNonterminal(store.effects, store.effects[id].source);
    }
  }

  /** Other executions' statuses do not depend on one effect. */
  lemma UpdateElsewhere(effects: Effects, id: EffectId, e: Effect, s: nat)
    requires id in effects ==> effects[id].source != s
    requires e.source != s
    ensures Derived(effects[id := e], s) == Derived(effects, s)
  {
    var after := effects[id := e];
    assert forall other :: other in effects && effects[other].source == s ==> after[other] == effects[other];
    assert forall other :: other in after && after[other].source == s ==> other in effects && effects[other] == after[other];
  }

  predicate SameRow(before: Effect, after: Effect) {
    before.source == after.source && before.key == after.key && before.kind == after.kind
    && before.target == after.target && before.body == after.body && before.created == after.created
  }

  lemma UpdateEffectsOk(effects: Effects, before: Executions, after: Executions, id: EffectId, e: Effect)
    requires EffectsOk(effects, before) && id in effects && SameRow(effects[id], e) && EffectOk(e)
    requires before.Keys == after.Keys
    ensures EffectsOk(effects[id := e], after)
  {
  }

  lemma UpdateStatusOk(effects: Effects, executions: Executions, id: EffectId, e: Effect, now: nat)
    requires StatusOk(effects, executions) && id in effects && effects[id].source == e.source && e.source in executions
    ensures var after := effects[id := e];
            StatusOk(after, executions[e.source := Refreshed(executions[e.source], after, e.source, now)])
  {
    var after := effects[id := e];
    forall s | s in executions && s != e.source
      ensures Derived(after, s) == Derived(effects, s)
    {
      UpdateElsewhere(effects, id, e, s);
    }
    hide Derived;
  }

  /** Changing one effect and refreshing its execution. */
  lemma UpdateKeeps(store: Store, id: EffectId, e: Effect, now: nat)
    requires Valid(store) && id in store.effects && SameRow(store.effects[id], e) && EffectOk(e)
    ensures Valid(Refresh(store.(effects := store.effects[id := e]), e.source, now))
  {
    assert e.source in store.executions;
    hide EffectsOk, StatusOk, Derived;
    var after := Refresh(store.(effects := store.effects[id := e]), e.source, now);
    UpdateEffectsOk(store.effects, store.executions, after.executions, id, e);
    UpdateStatusOk(store.effects, store.executions, id, e, now);
  }

  /** Changing one effect that stays nonterminal leaves every status as it was. */
  lemma NonterminalUpdateKeeps(store: Store, id: EffectId, e: Effect)
    requires Valid(store) && id in store.effects && SameRow(store.effects[id], e) && EffectOk(e)
    requires Nonterminal(store.effects[id]) && Nonterminal(e)
    ensures Valid(store.(effects := store.effects[id := e]))
  {
    var effects := store.effects[id := e];
    forall s | s in store.executions
      ensures Derived(effects, s) == Derived(store.effects, s)
    {
      if s == e.source {
        assert effects[id].source == s && store.effects[id].source == s;
      } else {
        UpdateElsewhere(store.effects, id, e, s);
      }
    }
    hide Derived;
  }

  lemma {:induction false} RetryDelayBounds(attempts: nat)
    ensures RETRY_BASE_DELAY_MS <= RetryDelay(attempts) <= RETRY_MAX_DELAY_MS
    ensures attempts < MAX_DELIVERY_ATTEMPTS ==> RetryDelay(attempts) == RETRY_BASE_DELAY_MS * Pow2(Max(0, attempts - 1))
  {
    Pow2Grows(Max(0, attempts - 1));
  }

  lemma {:induction false} Pow2Grows(n: nat)
    ensures 1 <= Pow2(n)
    ensures n <= 3 ==> Pow2(n) <= 8
  {
    if n > 0 {
      Pow2Grows(n - 1);
      if n > 1 {
        Pow2Grows(n - 2);
        if n > 2 {
          Pow2Grows(n - 3);
        }
      }
    }
  }

  lemma ClaimKeeps(store: Store, id: EffectId, now: nat)
    requires Valid(store) && id in store.effects && Nonterminal(store.effects[id])
    ensures Valid(Claim(store, id, now))
  {
    NonterminalUpdateKeeps(store, id, Claim(store, id, now).effects[id]);
    hide Valid;
  }

  lemma CompleteKeeps(store: Store, id: EffectId, json: nat, now: nat)
    requires Valid(store)
    ensures Valid(Complete(store, id, json, now))
  {
    if id in store.effects && store.effects[id].state == Attempting {
      UpdateKeeps(store, id, Complete(store, id, json, now).effects[id], now);
      hide Valid;
    }
  }

  lemma FailKeeps(store: Store, id: EffectId, retryable: bool, code: nat, now: nat)
    requires Valid(store)
    ensures Valid(Fail(store, id, retryable, code, now))
  {
    if id in store.effects && store.effects[id].state == Attempting {
      var e := Fail(store, id, retryable, code, now).effects[id];
      if e.state == RetryWait {
        NonterminalUpdateKeeps(store, id, e);
      } else {
        UpdateKeeps(store, id, e, now);
      }
      hide Valid;
    }
  }

  lemma AllDeadDerived(effects: Effects, code: nat, now: nat, s: nat)
    ensures !HasNonterminal(AllDead(effects, code, now), s)
    ensures !HasNonterminal(effects, s) ==> Derived(AllDead(effects, code, now), s) == Derived(effects, s)
  {
    var dead := AllDead(effects, code, now);
    if !HasNonterminal(effects, s) {
      forall id | id in effects && effects[id].source == s
        ensures dead[id] == effects[id]
      {
      }
    }
  }

  lemma AllDeadOk(effects: Effects, executions: Executions, after: Executions, code: nat, now: nat)
    requires EffectsOk(effects, executions) && executions.Keys == after.Keys
    ensures EffectsOk(AllDead(effects, code, now), after)
    ensures forall id :: id in AllDead(effects, code, now) ==> !Nonterminal(AllDead(effects, code, now)[id])
  {
  }

  lemma DeadLetterKeeps(store: Store, code: nat, now: nat)
    requires Valid(store)
    ensures Valid(DeadLetterRemaining(store, code, now))
    ensures forall id :: id in DeadLetterRemaining(store, code, now).effects ==>
              !Nonterminal(DeadLetterRemaining(store, code, now).effects[id])
  {
    var after := DeadLetterRemaining(store, code, now);
    AllDeadOk(store.effects, store.executions, after.executions, code, now);
    hide EffectsOk, HasNonterminal, HasDeadLetter, AllDead;
    forall s | s in store.executions
      ensures after.executions[s].status == Derived(after.effects, s)
      ensures after.executions[s].status == Open <==> after.executions[s].completed.None?
    {
      AllDeadDerived(store.effects, code, now, s);
    }
    hide Derived;
  }

  lemma {:induction false} InsertShape(effects: Effects, source: nat, requests: seq<EffectRequest>, ids: seq<EffectId>, now: nat)
    requires |ids| == |requests| && IdsFit(effects.Keys, ids)
    ensures var after := InsertEffects(effects, source, requests, ids, now);
            && (forall id :: id in after <==> id in effects || id in ids)
            && (forall id :: id in effects ==> after[id] == effects[id])
            && (forall i :: 0 <= i < |ids| ==> after[ids[i]] == NewEffect(source, requests[i], now))
    decreases |requests|
  {
    if requests != [] {
      var n := |requests| - 1;
      InsertShape(effects, source, requests[..n], ids[..n], now);
      assert ids == ids[..n] + [ids[n]];
    }
  }

  lemma InsertKeeps(store: Store, r: Request, ids: seq<EffectId>, now: nat)
    requires Valid(store) && |ids| == |r.effects| && IdsFit(store.effects.Keys, ids) && KeysDistinct(r.effects)
    requires r.source !in store.executions
    requires forall i :: 0 <= i < |r.effects| ==> !KeyTaken(store.effects, r.effects[i].key)
    ensures var execution := Execution(r.fingerprint, r.group, if r.effects == [] then Completed else Open, now,
                                       if r.effects == [] then Some(now) else None);
            Valid(Store(Some(r.integration), store.executions[r.source := execution],
                        InsertEffects(store.effects, r.source, r.effects, ids, now), store.alarm))
  {
    var after := InsertEffects(store.effects, r.source, r.effects, ids, now);
    InsertShape(store.effects, r.source, r.effects, ids, now);
    hide InsertEffects;
    InsertEffectsOk(store.effects, store.executions, after, r, ids, now);
    forall s | s in store.executions
      ensures Derived(after, s) == Derived(store.effects, s)
    {
      OldSourcesSame(store.effects, after, ids, s);
    }
    assert r.effects != [] ==> ids[0] in ids && after[ids[0]].source == r.source;
    hide IdsFit, KeysDistinct, KeyTaken;
  }

  lemma InsertEffectsOk(effects: Effects, executions: Executions, after: Effects, r: Request, ids: seq<EffectId>, now: nat)
    requires EffectsOk(effects, executions) && |ids| == |r.effects| && IdsFit(effects.Keys, ids) && KeysDistinct(r.effects)
    requires forall i :: 0 <= i < |r.effects| ==> !KeyTaken(effects, r.effects[i].key)
    requires forall id :: id in after <==> id in effects || id in ids
    requires forall id :: id in effects ==> after[id] == effects[id]
    requires forall i :: 0 <= i < |ids| ==> after[ids[i]] == NewEffect(r.source, r.effects[i], now)
    ensures forall id :: id in after ==> EffectOk(after[id]) && (after[id].source in executions || after[id].source == r.source)
    ensures forall a, b :: a in after && b in after && after[a].key == after[b].key ==> a == b
  {
    assert forall id :: id in effects ==> KeyTaken(effects, effects[id].key);
    hide KeyTaken;
  }

  lemma OldSourcesSame(effects: Effects, after: Effects, ids: seq<EffectId>, s: nat)
    requires forall id :: id in after <==> id in effects || id in ids
    requires forall id :: id in effects ==> after[id] == effects[id]
    requires forall id :: id in ids ==> after[id].source != s
    ensures Derived(after, s) == Derived(effects, s)
  {
    assert forall id :: id in effects ==> id in after;
  }

  // ----- Every step keeps it -----

  lemma CommitKeeps(store: Store, r: Request, ids: seq<EffectId>, now: nat)
    requires Valid(store) && |ids| == |r.effects| && IdsFit(store.effects.Keys, ids) && KeysDistinct(r.effects)
    ensures Valid(SubmitCommit(store, r, ids, now).store)
    ensures var a := SubmitCommit(store, r, ids, now);
            if a.reply in {Submitted, Replayed} then AlarmCovers(a.store, now) else a.store == store
  {
    hide Valid, SetNextAlarm, IdsFit, KeysDistinct, KeyTaken, InsertEffects, AlarmCovers;
    SetNextAlarmCovers(store, now);
    if ReplayIfPresent(store, r).None?
       && forall i :: 0 <= i < |r.effects| ==> !KeyTaken(store.effects, r.effects[i].key) {
      InsertKeeps(store, r, ids, now);
      var execution := Execution(r.fingerprint, r.group, if r.effects == [] then Completed else Open, now,
                                 if r.effects == [] then Some(now) else None);
      SetNextAlarmCovers(Store(Some(r.integration), store.executions[r.source := execution],
                               InsertEffects(store.effects, r.source, r.effects, ids, now), store.alarm), now);
    }
  }

  lemma RetryKeeps(store: Store, integration: nat, key: nat, now: nat)
    requires Valid(store)
    ensures Valid(RetryEffect(store, integration, key, now).store)
    ensures var a := RetryEffect(store, integration, key, now);
            if a.reply == Retried then AlarmCovers(a.store, now) else a.store == store
  {
    hide Valid, SetNextAlarm, KeyTaken, AlarmCovers;
    if store.identity == Some(integration) && KeyTaken(store.effects, key) {
      var id := IdOf(store.effects, key);
      var e := store.effects[id];
      if e.state == DeadLetter {
        var again := e.(state := Pending, attempts := 0, next := Some(now), lastAttempt := None, lastError := None);
        ReopenedOk(store, id, again);
        UpdateKeeps(store, id, again, now);
        SetNextAlarmCovers(Refresh(store.(effects := store.effects[id := again]), e.source, now), now);
      }
    }
  }

  lemma ReopenedOk(store: Store, id: EffectId, again: Effect)
    requires Valid(store) && id in store.effects && store.effects[id].state == DeadLetter
    requires again.state == Pending && again.attempts == 0 && again.next.Some?
             && again.deliveredAt == store.effects[id].deliveredAt
    ensures EffectOk(again)
  {
  }

  lemma NextKeeps(m: Machine, step: Step)
    requires Valid(m.store) && m.store.effects.Keys <= m.used
    ensures Valid(Next(m, step).store)
  {
    hide Valid, SetNextAlarm, IdsFit, KeysDistinct, PruneCompleted, SubmitCommit, RetryEffect, Claim, Complete, Fail,
      DeadLetterRemaining;
    match step
    case Check(_, now) => PruneKeeps(m.store, now);
    case Commit(request, ids, now) =>
      if |ids| == |request.effects| && IdsFit(m.used, ids) && KeysDistinct(request.effects) {
        FitsUnused(m.store.effects, m.used, ids);
        CommitKeeps(m.store, request, ids, now);
      }
    case Retry(integration, key, now) => RetryKeeps(m.store, integration, key, now);
    case Ask(registry, now) =>
      DeadLetterKeeps(m.store, INACTIVE, now);
      SetNextAlarmCovers(DeadLetterRemaining(m.store, INACTIVE, now), now);
      AlarmIsFree(m.store, Some(now + RETRY_BASE_DELAY_MS));
    case Start(now) => AlarmIsFree(m.store, None);
    case Crash(now) => AlarmIsFree(m.store, Some(now));
    case Tick(now) =>
      PruneKeeps(m.store, now);
      SetNextAlarmCovers(PruneCompleted(m.store, now), now);
      EarliestIsFirst(m.store.effects);
      hide Earliest;
      if FirstDue(m.store.effects, now).Some? {
        ClaimKeeps(m.store, FirstDue(m.store.effects, now).value, now);
      }
    case Finish(outcome, now) =>
      if m.phase.Draining? && m.phase.claim.Some? && m.phase.claim.value in m.store.effects {
        var id := m.phase.claim.value;
        match Attempt(m, m.store.effects[id], outcome)
        case Result(json) => CompleteKeeps(m.store, id, json, now);
        case Failure(retryable, code) => FailKeeps(m.store, id, retryable, code, now);
      }
  }

  lemma FitsUnused(effects: Effects, used: set<EffectId>, ids: seq<EffectId>)
    requires IdsFit(used, ids) && effects.Keys <= used
    ensures IdsFit(effects.Keys, ids)
  {
  }

  lemma AlarmIsFree(store: Store, alarm: Option<nat>)
    requires Valid(store)
    ensures Valid(store.(alarm := alarm))
  {
  }
}
