/** The browser's coordination of readable snapshots with an event stream: values come only from snapshots,
    events only animate. */
module StateEvents {
  import opened Contract
  import opened Tables
  import opened RecentIds

  /** The correlation a snapshot carries: owner scope, state revision, and the last operation it includes. */
  datatype Marker = Marker(scope: nat, revision: nat, watermark: nat)

  datatype Snapshot = Snapshot(value: nat, marker: Marker)

  datatype Event = Event(eventId: EventId, scope: nat, sequence: nat)

  datatype Fault = CorrelationMissing | ScopeChanged | OrderInvalid | Backpressure | SnapshotTimeout | Closed

  /** One call of the event handler: its operation, the highest baseline so far, and whether the newest
      snapshot already includes the operation. */
  datatype Animation = Animation(event: Event, floor: nat, included: bool)

  /** `shown`, `started`, `completed` and `floor` are history: the snapshots shown, the handler calls begun and
      completed, and the highest baseline set. */
  datatype Coordinator = Coordinator(cap: nat, recent: seq<EventId>, latest: Option<Snapshot>, baseline: Option<nat>,
                                     waiting: Option<Event>, running: Option<Animation>, closed: Option<Fault>,
                                     lastHandled: nat, shown: seq<Snapshot>, started: seq<Animation>,
                                     completed: seq<Animation>, floor: nat)

  function Fresh(cap: nat): Coordinator {
    Coordinator(cap, [], None, None, None, None, None, 0, [], [], [], 0)
  }

  datatype Updated = Updated(state: Coordinator, shown: bool, fault: Option<Fault>)

  predicate ScopeFits(c: Coordinator, scope: nat) {
    c.latest.Some? ==> scope == c.latest.value.marker.scope
  }

  /** A value without its correlation is None. */
  function Update(c: Coordinator, value: Option<Snapshot>): Updated {
    if c.closed.Some? then Updated(c, false, c.closed)
    else if value.None? then Updated(c, false, Some(CorrelationMissing))
    else
      var next := value.value;
      if !ScopeFits(c, next.marker.scope) then Updated(c, false, Some(ScopeChanged))
      else if c.latest.Some? && next.marker.revision < c.latest.value.marker.revision then Updated(c, false, None)
      else if c.latest.Some? && next.marker.watermark < c.latest.value.marker.watermark then
        Updated(c, false, Some(OrderInvalid))
      else Updated(c.(latest := Some(next), shown := c.shown + [next]), true, None)
  }

  datatype Handled = Handled(state: Coordinator, fault: Option<Fault>)

  function Remembered(c: Coordinator, event: Event): Coordinator {
    c.(recent := Remember(c.recent, c.cap, event.eventId), lastHandled := Max(c.lastHandled, event.sequence))
  }

  predicate IsDuplicate(c: Coordinator, event: Event) {
    event.eventId in c.recent || event.sequence <= c.lastHandled
  }

  /** Once a baseline exists: replayed and historical events are only remembered, others call the handler. */
  function Decide(c: Coordinator, event: Event): Handled
    requires c.baseline.Some?
  {
    if !ScopeFits(c, event.scope) then Handled(c, Some(ScopeChanged))
    else if IsDuplicate(c, event) || event.sequence <= c.baseline.value then Handled(Remembered(c, event), None)
    else
      var call := Animation(event, c.floor, c.latest.Some? && event.sequence <= c.latest.value.marker.watermark);
      Handled(c.(running := Some(call), started := c.started + [call]), None)
  }

  function Rebased(c: Coordinator): Coordinator
    requires c.latest.Some?
  {
    c.(baseline := Some(c.latest.value.marker.watermark), floor := c.latest.value.marker.watermark)
  }

  function Wake(c: Coordinator): Coordinator
    requires c.baseline.Some?
  {
    if c.waiting.None? then c else Decide(c.(waiting := None), c.waiting.value).state
  }

  /** A fresh read: the newest snapshot becomes the baseline and a waiting event is decided. */
  function Initialize(c: Coordinator, value: Option<Snapshot>): Handled {
    var u := Update(c, value);
    if u.fault.Some? || u.state.latest.None? then Handled(u.state, u.fault)
    else Handled(Wake(Rebased(u.state)), None)
  }

  function Pause(c: Coordinator): Coordinator { if c.closed.Some? then c else c.(baseline := None) }

  function Close(c: Coordinator, fault: Fault): Coordinator {
    c.(closed := Some(fault), baseline := None, waiting := None)
  }

  predicate Busy(c: Coordinator) { c.waiting.Some? || c.running.Some? }

  function Handle(c: Coordinator, event: Option<Event>): Handled {
    if c.closed.Some? then Handled(c, c.closed)
    else if Busy(c) then Handled(c, Some(Backpressure))
    else if event.None? then Handled(c, Some(CorrelationMissing))
    else if c.baseline.None? then Handled(c.(waiting := event), None)
    else Decide(c, event.value)
  }

  /** The handler returned or threw. */
  function HandlerEnds(c: Coordinator, ok: bool): Coordinator {
    if c.running.None? then c
    else if ok then
      Remembered(c, c.running.value.event).(running := None, completed := c.completed + [c.running.value])
    else c.(running := None)
  }

  /** The wait for a fresh snapshot ran out. */
  function TimeOut(c: Coordinator): Coordinator { c.(waiting := None) }

  datatype Step =
    | UpdateWith(value: Option<Snapshot>)
    | InitializeWith(value: Option<Snapshot>)
    | PauseNow
    | CloseWith(fault: Fault)
    | HandleEvent(event: Option<Event>)
    | HandlerEnded(ok: bool)
    | WaitEnded

  function Next(c: Coordinator, step: Step): Coordinator {
    match step
    case UpdateWith(value) => Update(c, value).state
    case InitializeWith(value) => Initialize(c, value).state
    case PauseNow => Pause(c)
    case CloseWith(fault) => Close(c, fault)
    case HandleEvent(event) => Handle(c, event).state
    case HandlerEnded(ok) => HandlerEnds(c, ok)
    case WaitEnded => TimeOut(c)
  }

  function Run(c: Coordinator, steps: seq<Step>): Coordinator
    decreases |steps|
  {
    if steps == [] then c else Run(Next(c, steps[0]), steps[1..])
  }

  // ----- Invariant -----

  /** Shown snapshots stay in one scope and never go back. */
  ghost predicate Forward(shown: seq<Snapshot>) {
    forall i, j :: 0 <= i < j < |shown| ==>
      && shown[i].marker.scope == shown[j].marker.scope
      && shown[i].marker.revision <= shown[j].marker.revision
      && shown[i].marker.watermark <= shown[j].marker.watermark
  }

  ghost predicate Increasing(calls: seq<Animation>) {
    forall i, j :: 0 <= i < j < |calls| ==> calls[i].event.sequence < calls[j].event.sequence
  }

  ghost predicate Valid(c: Coordinator) {
    && Forward(c.shown)
    && c.latest == (if c.shown == [] then None else Some(c.shown[|c.shown| - 1]))
    && (c.latest.Some? ==> c.floor <= c.latest.value.marker.watermark) && (c.latest.None? ==> c.floor == 0)
    && (c.baseline.Some? ==> c.latest.Some? && c.baseline.value == c.floor)
    && !(c.waiting.Some? && c.running.Some?)
    && (c.waiting.Some? ==> c.baseline.None?)
    && Increasing(c.completed)
    && (forall i :: 0 <= i < |c.completed| ==> c.completed[i].event.sequence <= c.lastHandled)
    && (forall i :: 0 <= i < |c.completed| ==> c.completed[i] in c.started)
    && (forall i :: 0 <= i < |c.started| ==> c.started[i].event.sequence > c.started[i].floor)
    && (c.running.Some? ==> c.running.value in c.started && c.running.value.event.sequence > c.lastHandled)
    && WellKept(c.recent, c.cap)
  }

  lemma UpdateKeeps(c: Coordinator, value: Option<Snapshot>)
    requires Valid(c)
    ensures Valid(Update(c, value).state)
    ensures var after := Update(c, value).state;
            after == c.(latest := after.latest, shown := after.shown) && (c.latest.Some? ==> after.latest.Some?)
  {
    hide WellKept;
  }

  lemma RememberedKeeps(c: Coordinator, event: Event)
    requires Valid(c) && c.running.None?
    ensures Valid(Remembered(c, event))
  {
    RememberWellKept(c.recent, c.cap, event.eventId);
    hide WellKept, Remember;
  }

  lemma DecideKeeps(c: Coordinator, event: Event)
    requires Valid(c) && c.baseline.Some? && c.waiting.None? && c.running.None?
    ensures Valid(Decide(c, event).state)
  {
    RememberedKeeps(c, event);
    hide WellKept, Remember, Forward, Increasing;
  }

  /** A rebased coordinator may still hold the event that waited for it. */
  lemma RebasedKeeps(c: Coordinator)
    requires Valid(c) && c.latest.Some?
    ensures Valid(Rebased(c).(waiting := None))
    ensures Valid(Wake(Rebased(c)))
  {
    hide WellKept, Remember, Forward, Increasing, Decide;
    if c.waiting.Some? {
      DecideKeeps(Rebased(c).(waiting := None), c.waiting.value);
    }
  }

  lemma InitializeKeeps(c: Coordinator, value: Option<Snapshot>)
    requires Valid(c)
    ensures Valid(Initialize(c, value).state)
  {
    UpdateKeeps(c, value);
    hide Update, Valid, Wake, Rebased;
    var u := Update(c, value);
    if u.fault.None? && u.state.latest.Some? {
      RebasedKeeps(u.state);
    }
  }

  lemma HandlerEndsKeeps(c: Coordinator, ok: bool)
    requires Valid(c)
    ensures Valid(HandlerEnds(c, ok))
  {
    if c.running.Some? {
      RememberWellKept(c.recent, c.cap, c.running.value.event.eventId);
    }
    hide WellKept, Remember, Forward;
  }

  lemma NextKeeps(c: Coordinator, step: Step)
    requires Valid(c)
    ensures Valid(Next(c, step))
  {
    match step
    case UpdateWith(value) => UpdateKeeps(c, value);
      hide Valid, Update;
    case InitializeWith(value) => InitializeKeeps(c, value);
      hide Valid, Initialize;
    case HandleEvent(event) =>
      if c.baseline.Some? && !Busy(c) && event.Some? {
        DecideKeeps(c, event.value);
      }
      hide Decide, WellKept, Forward, Increasing;
    case HandlerEnded(ok) => HandlerEndsKeeps(c, ok);
      hide Valid, HandlerEnds;
    case _ => hide WellKept, Forward, Increasing;
  }

  lemma {:induction false} RunKeeps(c: Coordinator, steps: seq<Step>)
    requires Valid(c)
    ensures Valid(Run(c, steps))
    decreases |steps|
  {
    if steps != [] {
      NextKeeps(c, steps[0]);
      RunKeeps(Next(c, steps[0]), steps[1..]);
    }
  }

  /** In every interleaving of snapshots, pauses, reads, events and handler outcomes, the snapshots shown never go
      back or change scope, and completed handler calls have strictly increasing operation sequences, so each
      operation is animated at most once, and each lies above every baseline set before its call. */
  lemma AnimatedOnceAboveBaseline(cap: nat, steps: seq<Step>, i: nat, j: nat)
    ensures var c := Run(Fresh(cap), steps);
            && Forward(c.shown)
            && (i < |c.completed| ==> c.completed[i].event.sequence > c.completed[i].floor)
            && (i < j < |c.completed| ==> c.completed[i].event.sequence < c.completed[j].event.sequence)
  {
    RunKeeps(Fresh(cap), steps);
    hide Run, WellKept, Forward;
  }

  /** What a step does to the history: marks only rise, and a call it begins is above them. */
  ghost predicate Follows(c: Coordinator, after: Coordinator) {
    && c.floor <= after.floor && c.lastHandled <= after.lastHandled
    && c.shown <= after.shown && c.started <= after.started && |after.started| <= |c.started| + 1
    && (after.started != c.started ==>
          var call := after.started[|c.started|];
          && call.event.sequence > c.lastHandled && call.event.sequence > c.floor
          && call.floor == after.floor && after.latest.Some?
          && (call.included <==> call.event.sequence <= after.latest.value.marker.watermark))
  }

  lemma NextFollows(c: Coordinator, step: Step)
    requires Valid(c)
    ensures Follows(c, Next(c, step))
  {
    hide WellKept, Forward, Increasing, Remember;
    if step.InitializeWith? {
      UpdateKeeps(c, step.value);
    }
  }

  /** An operation that a baseline included, or that was handled before, is never animated afterwards. */
  lemma {:induction false} HistoryIsNotAnimated(c: Coordinator, steps: seq<Step>, k: nat)
    requires Valid(c)
    ensures |c.started| <= |Run(c, steps).started|
    ensures |c.started| <= k < |Run(c, steps).started| ==>
              Run(c, steps).started[k].event.sequence > c.floor && Run(c, steps).started[k].event.sequence > c.lastHandled
    ensures k < |c.started| ==> Run(c, steps).started[k] == c.started[k]
    decreases |steps|
  {
    if steps != [] {
      NextKeeps(c, steps[0]);
      NextFollows(c, steps[0]);
      hide Valid, Next;
      HistoryIsNotAnimated(Next(c, steps[0]), steps[1..], k);
    }
  }

  // ----- What each call leaves -----

  /** A snapshot is shown exactly when the coordinator is open and nothing newer or of another scope was shown. */
  lemma UpdateLeaves(c: Coordinator, value: Option<Snapshot>)
    requires Valid(c)
    ensures var out := Update(c, value);
            if c.closed.Some? then out == Updated(c, false, c.closed)
            else if value.None? then out == Updated(c, false, Some(CorrelationMissing))
            else if c.shown == [] then out == Updated(c.(latest := value, shown := [value.value]), true, None)
            else
              var next, last := value.value.marker, c.shown[|c.shown| - 1].marker;
              if next.scope != last.scope then out == Updated(c, false, Some(ScopeChanged))
              else if next.revision < last.revision then out == Updated(c, false, None)
              else if next.watermark < last.watermark then out == Updated(c, false, Some(OrderInvalid))
              else out == Updated(c.(latest := value, shown := c.shown + [value.value]), true, None)
  {
    hide WellKept, Forward, Increasing;
  }

  /** An event of the shown scope calls the handler unless it is known, handled before, or part of the baseline; then it is
      only remembered. An event of another scope is a fault. */
  ghost predicate DecidedAs(c: Coordinator, e: Event, out: Handled) {
    && c.latest.Some? && c.baseline.Some?
    && if e.scope != c.latest.value.marker.scope then out == Handled(c, Some(ScopeChanged))
       else if e.eventId in c.recent || e.sequence <= c.lastHandled || e.sequence <= c.baseline.value then
         out == Handled(c.(recent := Remember(c.recent, c.cap, e.eventId),
                           lastHandled := if e.sequence > c.lastHandled then e.sequence else c.lastHandled), None)
       else
         var call := Animation(e, c.floor, e.sequence <= c.latest.value.marker.watermark);
         out == Handled(c.(running := Some(call), started := c.started + [call]), None)
  }

  lemma HandleLeaves(c: Coordinator, event: Option<Event>)
    requires Valid(c)
    ensures var out := Handle(c, event);
            if c.closed.Some? then out == Handled(c, c.closed)
            else if c.waiting.Some? || c.running.Some? then out == Handled(c, Some(Backpressure))
            else if event.None? then out == Handled(c, Some(CorrelationMissing))
            else if c.baseline.None? then out == Handled(c.(waiting := event), None)
            else DecidedAs(c, event.value, out)
  {
    hide WellKept, Forward, Increasing, Remember;
  }

  /** A fresh read, shown or not, makes the newest shown watermark the baseline and lets a waiting event through. */
  lemma InitializeLeaves(c: Coordinator, value: Option<Snapshot>)
    requires Valid(c)
    ensures var u, out := Update(c, value), Initialize(c, value);
            if u.fault.Some? then out == Handled(c, u.fault)
            else
              && u.state.latest.Some?
              && var mark := u.state.latest.value.marker.watermark;
                 var based := u.state.(baseline := Some(mark), floor := mark, waiting := None);
                 && out.fault.None?
                 && if c.waiting.None? then out.state == based
                    else exists fault :: DecidedAs(based, c.waiting.value, Handled(out.state, fault))
  {
    hide WellKept, Forward, Increasing, Remember;
    var u := Update(c, value);
    if u.fault.None? && c.waiting.Some? {
      var mark := u.state.latest.value.marker.watermark;
      var based := u.state.(baseline := Some(mark), floor := mark, waiting := None);
      assert DecidedAs(based, c.waiting.value, Decide(based, c.waiting.value));
      assert Handled(Initialize(c, value).state, Decide(based, c.waiting.value).fault) == Decide(based, c.waiting.value);
    }
  }

  /** A handler that returns completes its call and has its event remembered; one that throws leaves it to be sent again. */
  lemma HandlerEndLeaves(c: Coordinator, ok: bool)
    ensures Next(c, HandlerEnded(ok))
            == if c.running.None? then c
               else if !ok then c.(running := None)
               else
                 var e := c.running.value.event;
                 c.(running := None, completed := c.completed + [c.running.value],
                    recent := Remember(c.recent, c.cap, e.eventId),
                    lastHandled := if e.sequence > c.lastHandled then e.sequence else c.lastHandled)
  {
  }

  /** Pausing drops the baseline, closing it and the waiting event for good, and a wait that runs out its event. */
  lemma EndingsLeave(c: Coordinator, fault: Fault)
    ensures Next(c, PauseNow) == if c.closed.Some? then c else c.(baseline := None)
    ensures Next(c, CloseWith(fault)) == c.(closed := Some(fault), baseline := None, waiting := None)
    ensures Next(c, WaitEnded) == c.(waiting := None)
  {
  }

  function HandledSteps(events: seq<Event>): seq<Step> {
    if events == [] then [] else [HandleEvent(Some(events[0])), HandlerEnded(true)] + HandledSteps(events[1..])
  }

  /** New operations in order: of the shown scope, above the baseline and what was handled, under unknown IDs. */
  ghost predicate NewEvents(c: Coordinator, events: seq<Event>) {
    && c.latest.Some? && c.baseline.Some?
    && (forall i :: 0 <= i < |events| ==>
          && events[i].scope == c.latest.value.marker.scope && events[i].eventId !in c.recent
          && events[i].sequence > c.lastHandled && events[i].sequence > c.baseline.value)
    && (forall i, j :: 0 <= i < j < |events| ==>
          events[i].sequence < events[j].sequence && events[i].eventId != events[j].eventId)
  }

  lemma RememberedFrom(recent: seq<EventId>, cap: nat, id: EventId)
    ensures forall x :: x in Remember(recent, cap, id) ==> x == id || x in recent
  {
    FilterFromRows(recent, Other(id));
  }

  lemma TwoSteps(c: Coordinator, first: Step, second: Step, rest: seq<Step>)
    ensures Run(c, [first, second] + rest) == Run(Next(Next(c, first), second), rest)
  {
    hide Next;
    var steps := [first, second] + rest;
    assert steps[1..][1..] == rest;
    assert Run(c, steps) == Run(Next(c, first), steps[1..]) == Run(Next(Next(c, first), second), steps[1..][1..]);
  }

  /** None is lost: while the coordinator is open and read, every new operation whose handler returns is completed, in
      order. */
  lemma {:induction false} NewEventsAreAnimated(c: Coordinator, events: seq<Event>)
    requires Valid(c) && c.closed.None? && c.waiting.None? && c.running.None? && NewEvents(c, events)
    ensures var o := Run(c, HandledSteps(events));
            && |o.completed| == |c.completed| + |events| && c.completed <= o.completed
            && forall i :: 0 <= i < |events| ==> o.completed[|c.completed| + i].event == events[i]
    decreases |events|
  {
    if events != [] {
      var e := events[0];
      var steps := HandledSteps(events);
      var called := Next(c, steps[0]);
      var done := Next(called, steps[1]);
      TwoSteps(c, steps[0], steps[1], HandledSteps(events[1..]));
      HandleLeaves(c, Some(e));
      HandlerEndLeaves(called, true);
      NextKeeps(c, steps[0]);
      NextKeeps(called, steps[1]);
      RememberedFrom(c.recent, c.cap, e.eventId);
      hide Valid, Next, Run, Remember;
      assert done.completed == c.completed + [called.running.value] && called.running.value.event == e;
      NewEventsAreAnimated(done, events[1..]);
    }
  }

  /** From a new coordinator and its first read: every later operation of that scope, in order, is completed. */
  lemma FirstReadAnimates(cap: nat, read: Snapshot, events: seq<Event>)
    requires forall i :: 0 <= i < |events| ==>
               events[i].scope == read.marker.scope && events[i].sequence > read.marker.watermark
    requires forall i, j :: 0 <= i < j < |events| ==>
               events[i].sequence < events[j].sequence && events[i].eventId != events[j].eventId
    ensures var o := Run(Next(Fresh(cap), InitializeWith(Some(read))), HandledSteps(events));
            [read] <= o.shown && |o.completed| == |events|
            && forall i :: 0 <= i < |events| ==> o.completed[i].event == events[i]
  {
    var c := Next(Fresh(cap), InitializeWith(Some(read)));
    assert Valid(Fresh(cap));
    NextKeeps(Fresh(cap), InitializeWith(Some(read)));
    UpdateLeaves(Fresh(cap), Some(read));
    InitializeLeaves(Fresh(cap), Some(read));
    assert NewEvents(c, events) && c.completed == [] && c.shown == [read] && c.closed.None?;
    hide Valid, Next, NewEvents;
    NewEventsAreAnimated(c, events);
    StillShown(c, HandledSteps(events));
  }

  /** Snapshots once shown stay shown. */
  lemma {:induction false} StillShown(c: Coordinator, steps: seq<Step>)
    requires Valid(c)
    ensures c.shown <= Run(c, steps).shown
    decreases |steps|
  {
    if steps != [] {
      NextKeeps(c, steps[0]);
      NextFollows(c, steps[0]);
      hide Valid, Next;
      StillShown(Next(c, steps[0]), steps[1..]);
    }
  }

  // ----- The object -----

  class StateEventCoordinator {
    const recent: Deduplicator
    var latest: Option<Snapshot>
    var baseline: Option<nat>
    var waiting: Option<Event>
    var running: Option<Animation>
    var closed: Option<Fault>
    var lastHandled: nat
    ghost var shown: seq<Snapshot>
    ghost var started: seq<Animation>
    ghost var completed: seq<Animation>
    ghost var floor: nat

    ghost function Model(): Coordinator
      reads this, recent
    {
      Coordinator(recent.cap, recent.recent, latest, baseline, waiting, running, closed, lastHandled,
                  shown, started, completed, floor)
    }

    ghost predicate Consistent()
      reads this, recent
    {
      recent.Valid() && Valid(Model())
    }

    constructor (cap: nat)
      requires 1 <= cap <= 1_000
      ensures Consistent() && fresh(recent) && Model() == Fresh(cap)
    {
      recent := new Deduplicator(cap);
      latest, baseline, waiting, running, closed, lastHandled := None, None, None, None, None, 0;
      shown, started, completed, floor := [], [], [], 0;
    }

    /** Whether the snapshot is shown, or why it is refused. */
    method UpdateSnapshot(value: Option<Snapshot>) returns (accepted: bool, fault: Option<Fault>)
      requires Consistent()
      modifies this`latest, this`shown
      ensures Consistent() && Model() == Update(old(Model()), value).state
      ensures accepted == Update(old(Model()), value).shown && fault == Update(old(Model()), value).fault
    {
      UpdateKeeps(Model(), value);
      hide Valid;
      accepted := false;
      if closed.Some? {
        return false, closed;
      }
      if value.None? {
        return false, Some(CorrelationMissing);
      }
      var next := value.value;
      if latest.Some? {
        if next.marker.scope != latest.value.marker.scope {
          return false, Some(ScopeChanged);
        }
        if next.marker.revision < latest.value.marker.revision {
          return false, None;
        }
        if next.marker.watermark < latest.value.marker.watermark {
          return false, Some(OrderInvalid);
        }
      }
      latest := Some(next);
      shown := shown + [next];
      return true, None;
    }

    method FinishEvent(event: Event)
      requires recent.Valid()
      modifies recent`recent, this`lastHandled
      ensures recent.Valid() && Model() == Remembered(old(Model()), event)
    {
      recent.RememberEvent(event.eventId);
      lastHandled := Max(lastHandled, event.sequence);
    }

    method DecideEvent(event: Event) returns (fault: Option<Fault>)
      requires Consistent() && baseline.Some? && waiting.None? && running.None?
      modifies this, recent`recent
      ensures Consistent() && Model() == Decide(old(Model()), event).state && fault == Decide(old(Model()), event).fault
    {
      DecideKeeps(Model(), event);
      assert latest.Some?;
      hide Valid, Remember;
      fault := None;
      if event.scope != latest.value.marker.scope {
        fault := Some(ScopeChanged);
      } else if event.eventId in recent.recent || event.sequence <= lastHandled || event.sequence <= baseline.value {
        FinishEvent(event);
      } else {
        var call := Animation(event, baseline.value, event.sequence <= latest.value.marker.watermark);
        running := Some(call);
        started := started + [call];
      }
    }

    method WakeWaiting()
      requires Consistent() && latest.Some?
      modifies this, recent`recent
      ensures Consistent() && Model() == Wake(Rebased(old(Model())))
    {
      RebasedKeeps(Model());
      hide Valid, Decide;
      baseline := Some(latest.value.marker.watermark);
      floor := latest.value.marker.watermark;
      if waiting.Some? {
        var event := waiting.value;
        waiting := None;
        var ignored := DecideEvent(event);
      }
    }

    method InitializeSnapshot(value: Option<Snapshot>) returns (fault: Option<Fault>)
      requires Consistent()
      modifies this, recent`recent
      ensures Consistent() && Model() == Initialize(old(Model()), value).state
      ensures fault == Initialize(old(Model()), value).fault
    {
      hide Update, Wake, Rebased, Valid;
      var accepted;
      accepted, fault := UpdateSnapshot(value);
      if fault.None? && latest.Some? {
        WakeWaiting();
      }
    }

    method PauseReading()
      requires Consistent()
      modifies this`baseline
      ensures Consistent() && Model() == Pause(old(Model()))
    {
      if closed.None? {
        baseline := None;
      }
    }

    method CloseNow(fault: Fault)
      requires Consistent()
      modifies this`closed, this`baseline, this`waiting
      ensures Consistent() && Model() == Close(old(Model()), fault)
    {
      closed, baseline, waiting := Some(fault), None, None;
    }

    /** The synchronous part of handling an event. */
    method HandleNow(event: Option<Event>) returns (fault: Option<Fault>)
      requires Consistent()
      modifies this, recent`recent
      ensures Consistent() && Model() == Handle(old(Model()), event).state && fault == Handle(old(Model()), event).fault
    {
      hide Decide, Forward, Increasing, WellKept;
      if closed.Some? {
        return closed;
      }
      if waiting.Some? || running.Some? {
        return Some(Backpressure);
      }
      if event.None? {
        return Some(CorrelationMissing);
      }
      if baseline.None? {
        waiting := event;
        return None;
      }
      fault := DecideEvent(event.value);
    }

    method EndHandler(ok: bool)
      requires Consistent()
      modifies this`running, this`completed, this`lastHandled, recent`recent
      ensures Consistent() && Model() == HandlerEnds(old(Model()), ok)
    {
      HandlerEndsKeeps(Model(), ok);
      hide Valid, Remember;
      if running.Some? {
        if ok {
          FinishEvent(running.value.event);
          completed := completed + [running.value];
        }
        running := None;
      }
    }

    method EndWait()
      requires Consistent()
      modifies this`waiting
      ensures Consistent() && Model() == TimeOut(old(Model()))
    {
      waiting := None;
    }
  }
}
