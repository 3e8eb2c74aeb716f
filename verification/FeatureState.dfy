/** One feature's stored state: the pure calculation of a combined operation, the SQL tables that apply it, and the
    test runtime's map. */
module FeatureState {
  import opened Contract

  const MAX_VALUES := 100
  const MAX_AMOUNT := 1_000_000

  /** A JSON value; everything but null and numbers is opaque. */
  datatype Json = Null | Number(n: int) | Other(id: nat)

  /** Storage keys; a counter's key is the digest of its name and subject. */
  datatype Key = Plain(key: nat) | CounterKey(name: nat, subject: nat)

  datatype CounterOperation = SetTo(value: int) | Raise(amount: int) | Lower(amount: int) | Reset

  datatype Mutation =
    | Set(key: nat, value: Json)
    | Delete(key: nat)
    | Increment(key: nat, amount: int)
    | Bounded(name: nat, subject: nat, caption: Option<nat>, min: int, max: int, initial: int, operation: CounterOperation)

  predicate Safe(n: int) { -MAX_SAFE_INTEGER <= n <= MAX_SAFE_INTEGER }

  /** What preparation and the storage input checks demand of a mutation. */
  predicate WellFormed(m: Mutation) {
    match m
    case Increment(_, amount) => -MAX_AMOUNT <= amount <= MAX_AMOUNT
    case Bounded(_, _, _, min, max, initial, operation) =>
      && Safe(min) && Safe(max) && min <= initial <= max
      && (match operation
          case SetTo(value) => min <= value <= max
          case Raise(amount) => 1 <= amount <= MAX_AMOUNT
          case Lower(amount) => 1 <= amount <= MAX_AMOUNT
          case Reset => true)
    case _ => true
  }

  function KeyOf(m: Mutation): Key {
    if m.Bounded? then CounterKey(m.name, m.subject) else Plain(m.key)
  }

  function Clamp(n: int, min: int, max: int): int { if n < min then min else if n > max then max else n }

  // ----- The calculation -----

  datatype Summary = Summary(before: Json, after: Json, changed: bool, applied: Option<int>)

  predicate SafeNumber(v: Json, min: int, max: int) { v.Number? && Safe(v.n) && min <= v.n <= max }

  function Difference(before: Json, after: Json): Option<int> {
    if before.Number? && after.Number? && Safe(after.n - before.n) then
      Some(if after.n < before.n then before.n - after.n else after.n - before.n)
    else None
  }

  function Moved(m: Mutation, prior: int): int
    requires m.Bounded?
  {
    match m.operation
    case SetTo(value) => value
    case Reset => m.initial
    case Raise(amount) => Clamp(prior + amount, m.min, m.max)
    case Lower(amount) => Clamp(prior - amount, m.min, m.max)
  }

  /** The result summary of a prepared mutation on the value read before it, or a refusal. */
  function Calculate(m: Mutation, before: Option<Json>): Option<Summary> {
    match m
    case Set(_, value) =>
      var previous := if before.Some? then before.value else Null;
      Some(Summary(previous, value, before != Some(value), Difference(previous, value)))
    case Delete(_) => Some(Summary(if before.Some? then before.value else Null, Null, before.Some?, None))
    case Increment(_, amount) =>
      var prior := if before.Some? then before.value else Number(0);
      if !SafeNumber(prior, -MAX_SAFE_INTEGER, MAX_SAFE_INTEGER) || !Safe(prior.n + amount) then None
      else
        var after := Number(prior.n + amount);
        Some(Summary(prior, after, prior != after, Difference(prior, after)))
    case Bounded(_, _, _, min, max, initial, _) =>
      var prior := if before.Some? then before.value else Number(initial);
      if !SafeNumber(prior, min, max) then None
      else
        var after := Number(Moved(m, prior.n));
        Some(Summary(prior, after, prior != after, Difference(prior, after)))
  }

  // ----- The SQL tables -----

  /** Values, counter subjects with their labels, and the feature's mutation version. */
  datatype Store = Store(values: map<Key, Json>, subjects: map<Key, nat>, version: nat)

  datatype Answer = Refused | Done(store: Store, value: Json)

  function Touched(s: Store): Store { s.(version := s.version + 1) }

  function Row(s: Store, key: Key): Option<Json> { if key in s.values then Some(s.values[key]) else None }

  function SetValue(s: Store, key: Key, value: Json): Answer {
    if Row(s, key) == Some(value) then Done(s, value)
    else if key !in s.values && |s.values| >= MAX_VALUES then Refused
    else Done(Touched(s.(values := s.values[key := value])), value)
  }

  function DeleteValue(s: Store, key: Key): Answer {
    if key !in s.values then Done(s, Null) else Done(Touched(s.(values := s.values - {key})), Null)
  }

  function IncrementState(s: Store, key: Key, amount: int): Answer {
    if !(-MAX_AMOUNT <= amount <= MAX_AMOUNT) then Refused
    else if key !in s.values && |s.values| >= MAX_VALUES then Refused
    else
      var current := if key in s.values then s.values[key] else Number(0);
      if !current.Number? || !Safe(current.n) || !Safe(current.n + amount) then Refused
      else if amount == 0 then Done(s, current)
      else Done(Touched(s.(values := s.values[key := Number(current.n + amount)])), Number(current.n + amount))
  }

  /** A subject's label is recorded once. */
  function RecordSubject(s: Store, key: Key, caption: Option<nat>): Store {
    if caption.None? || key in s.subjects then s else s.(subjects := s.subjects[key := caption.value])
  }

  /** The counter's next value as the tables compute it: a start or a given value, or a signed step held within bounds. */
  function Stepped(m: Mutation, current: int): int
    requires m.Bounded?
  {
    if m.operation.SetTo? then m.operation.value
    else if m.operation.Reset? then m.initial
    else
      var direction := if m.operation.Raise? then 1 else -1;
      var candidate := current + direction * m.operation.amount;
      if candidate < m.min then m.min else if candidate > m.max then m.max else candidate
  }

  function ApplyBounded(s: Store, m: Mutation): Answer
    requires m.Bounded?
  {
    var key := KeyOf(m);
    var current := if key in s.values then s.values[key] else Number(m.initial);
    if !WellFormed(m) || !SafeNumber(current, m.min, m.max) then Refused
    else
      var value := Number(Stepped(m, current.n));
      if key !in s.values && value == Number(m.initial) then Done(s, value)
      else if Row(s, key) == Some(value) then
        var recorded := RecordSubject(s, key, m.caption);
        Done(if recorded != s then Touched(recorded) else s, value)
      else if key !in s.values && |s.values| >= MAX_VALUES then Refused
      else Done(Touched(RecordSubject(s.(values := s.values[key := value]), key, m.caption)), value)
  }

  /** One ordinary mutation. */
  function Mutate(s: Store, m: Mutation): Answer {
    match m
    case Set(_, value) => SetValue(s, KeyOf(m), value)
    case Delete(_) => DeleteValue(s, KeyOf(m))
    case Increment(_, amount) => IncrementState(s, KeyOf(m), amount)
    case Bounded(_, _, _, _, _, _, _) => ApplyBounded(s, m)
  }

  /** The same mutation inside a combined operation: a no-op still advances the revision. */
  function Combine(s: Store, m: Mutation): Answer {
    if s.version >= MAX_SAFE_INTEGER then Refused
    else
      var a := Mutate(s, m);
      if a.Refused? then Refused
      else if a.store.version == s.version then Done(Touched(a.store), a.value)
      else a
  }

  lemma SteppedIsMoved(m: Mutation)
    ensures m.Bounded? ==> forall prior :: Stepped(m, prior) == Moved(m, prior)
  {
  }

  // ----- The test runtime -----

  datatype Memory = Memory(values: map<Key, Json>, revision: nat, operations: nat)

  function MemoryRow(mem: Memory, key: Key): Option<Json> { if key in mem.values then Some(mem.values[key]) else None }

  function MemoryApply(mem: Memory, m: Mutation, result: Summary): Memory {
    var key := KeyOf(m);
    var values :=
      if m.Delete? || (m.Bounded? && m.operation.Reset?) then mem.values - {key}
      else if !m.Bounded? || key in mem.values || result.after != Number(m.initial) then mem.values[key := result.after]
      else mem.values;
    Memory(values, mem.revision + 1, mem.operations + 1)
  }

  function MemoryCombine(mem: Memory, m: Mutation): Option<Memory> {
    var result := Calculate(m, MemoryRow(mem, KeyOf(m)));
    if result.None? then None else Some(MemoryApply(mem, m, result.value))
  }

  // ----- Agreement -----

  /** What an absent value stands for under this mutation. */
  function Default(m: Mutation): Json {
    match m
    case Increment(_, _) => Number(0)
    case Bounded(_, _, _, _, _, initial, _) => Number(initial)
    case _ => Null
  }

  function Read(row: Option<Json>, m: Mutation): Json { if row.Some? then row.value else Default(m) }

  /** Both stores read the same: counters through their default, other values including their absence. */
  ghost predicate Alike(m: Mutation, sql: Option<Json>, memory: Option<Json>) {
    if m.Set? || m.Delete? then sql == memory else Read(sql, m) == Read(memory, m)
  }

  predicate HasRoom(s: Store, m: Mutation) {
    |s.values| + (if KeyOf(m) in s.values then 0 else 1) <= MAX_VALUES
  }

  /** The tables accept exactly what the calculation accepts, hold the value it computed, and touch nothing else. */
  lemma TablesAgree(s: Store, m: Mutation)
    requires WellFormed(m) && HasRoom(s, m) && s.version < MAX_SAFE_INTEGER
    ensures var result, out := Calculate(m, Row(s, KeyOf(m))), Combine(s, m);
            && (result.Some? <==> out.Done?)
            && (result.Some? ==>
                  && Read(Row(out.store, KeyOf(m)), m) == result.value.after == out.value
                  && out.store.version == s.version + 1
                  && forall k :: k != KeyOf(m) ==> Row(out.store, k) == Row(s, k))
  {
    SteppedIsMoved(m);
    hide Moved, Stepped;
  }

  /** So does the test runtime. */
  lemma MemoryAgrees(mem: Memory, m: Mutation)
    requires WellFormed(m)
    ensures var result, out := Calculate(m, MemoryRow(mem, KeyOf(m))), MemoryCombine(mem, m);
            && (result.Some? <==> out.Some?)
            && (result.Some? ==>
                  && Read(MemoryRow(out.value, KeyOf(m)), m) == result.value.after
                  && out.value.revision == mem.revision + 1
                  && forall k :: k != KeyOf(m) ==> MemoryRow(out.value, k) == MemoryRow(mem, k))
  {
  }

  /** Two mutations of one fixed descriptor: a counter keeps its bounds and start, another value its kind. */
  predicate SameDescriptor(m: Mutation, n: Mutation) {
    match (m, n)
    case (Set(k, _), Set(j, _)) => k == j
    case (Delete(k), Delete(j)) => k == j
    case (Increment(k, _), Increment(j, _)) => k == j
    case (Bounded(a, b, _, c, d, e, _), Bounded(f, g, _, h, i, j, _)) => a == f && b == g && c == h && d == i && e == j
    case _ => false
  }

  /** Values alike before are alike after, and both sides calculated the same summary. */
  lemma StepsAlike(s: Store, mem: Memory, m: Mutation)
    requires WellFormed(m) && HasRoom(s, m) && s.version < MAX_SAFE_INTEGER
    requires Alike(m, Row(s, KeyOf(m)), MemoryRow(mem, KeyOf(m)))
    ensures Calculate(m, Row(s, KeyOf(m))) == Calculate(m, MemoryRow(mem, KeyOf(m)))
    ensures Combine(s, m).Done? <==> MemoryCombine(mem, m).Some?
    ensures Combine(s, m).Done? ==>
              Alike(m, Row(Combine(s, m).store, KeyOf(m)), MemoryRow(MemoryCombine(mem, m).value, KeyOf(m)))
  {
    TablesAgree(s, m);
    MemoryAgrees(mem, m);
  }

  /** The tables and the map after a sequence of combined operations; refused ones change nothing. */
  function RunTables(s: Store, ms: seq<Mutation>): Store
    decreases |ms|
  {
    if ms == [] then s
    else
      var a := Combine(s, ms[0]);
      RunTables(if a.Done? then a.store else s, ms[1..])
  }

  function RunMemory(mem: Memory, ms: seq<Mutation>): Memory
    decreases |ms|
  {
    if ms == [] then mem
    else
      var a := MemoryCombine(mem, ms[0]);
      RunMemory(if a.Some? then a.value else mem, ms[1..])
  }

  /** The calculation folded over the value alone, from its default. */
  function RunCalculation(value: Json, ms: seq<Mutation>): Json
    decreases |ms|
  {
    if ms == [] then value
    else
      var result := Calculate(ms[0], Some(value));
      RunCalculation(if result.Some? then result.value.after else value, ms[1..])
  }

  /** Reading a default in place of an absent value calculates the same value after. */
  lemma DefaultIsRead(m: Mutation, before: Option<Json>)
    ensures Calculate(m, before).Some? <==> Calculate(m, Some(Read(before, m))).Some?
    ensures Calculate(m, before).Some? ==>
              Calculate(m, before).value.after == Calculate(m, Some(Read(before, m))).value.after
  {
  }

  lemma DescriptorKeeps(m: Mutation, n: Mutation, sql: Option<Json>, memory: Option<Json>)
    requires SameDescriptor(m, n)
    ensures KeyOf(m) == KeyOf(n) && Default(m) == Default(n) && Read(sql, m) == Read(sql, n)
    ensures Alike(m, sql, memory) == Alike(n, sql, memory)
  {
  }

  ghost predicate Fixed(m: Mutation, ms: seq<Mutation>) {
    forall i :: 0 <= i < |ms| ==> WellFormed(ms[i]) && SameDescriptor(m, ms[i])
  }

  /** After any sequence of combined operations of one descriptor, the tables, the test runtime's map and the pure
      calculation hold the same value, and a counter stays within its bounds. */
  lemma {:induction false} ThreeAgree(s: Store, mem: Memory, m: Mutation, ms: seq<Mutation>)
    requires Fixed(m, ms) && HasRoom(s, m) && s.version + |ms| < MAX_SAFE_INTEGER
    requires Alike(m, Row(s, KeyOf(m)), MemoryRow(mem, KeyOf(m)))
    ensures var value := Read(Row(RunTables(s, ms), KeyOf(m)), m);
            && value == Read(MemoryRow(RunMemory(mem, ms), KeyOf(m)), m)
            && value == RunCalculation(Read(Row(s, KeyOf(m)), m), ms)
            && (m.Bounded? && SafeNumber(Read(Row(s, KeyOf(m)), m), m.min, m.max) ==> SafeNumber(value, m.min, m.max))
            && RunTables(s, ms).version - s.version == RunMemory(mem, ms).revision - mem.revision <= |ms|
    decreases |ms|
  {
    if ms != [] {
      var n := ms[0];
      assert WellFormed(n) && SameDescriptor(m, n);
      DescriptorKeeps(m, n, Row(s, KeyOf(m)), MemoryRow(mem, KeyOf(m)));
      StepsAlike(s, mem, n);
      TablesAgree(s, n);
      DefaultIsRead(n, Row(s, KeyOf(n)));
      CounterStaysInBounds(n, Row(s, KeyOf(n)));
      var a, b := Combine(s, n), MemoryCombine(mem, n);
      var s', mem' := if a.Done? then a.store else s, if b.Some? then b.value else mem;
      DescriptorKeeps(m, n, Row(s', KeyOf(m)), MemoryRow(mem', KeyOf(m)));
      RoomStays(s, n);
      hide Calculate, Combine, MemoryCombine, WellFormed, Alike, SameDescriptor, Default;
      ThreeAgree(s', mem', m, ms[1..]);
    }
  }

  lemma CounterStaysInBounds(m: Mutation, before: Option<Json>)
    requires WellFormed(m)
    ensures m.Bounded? && Calculate(m, before).Some? ==> SafeNumber(Calculate(m, before).value.after, m.min, m.max)
  {
  }

  lemma SizeAround(a: map<Key, Json>, b: map<Key, Json>, key: Key)
    requires forall k :: k != key ==> (k in a <==> k in b)
    ensures |a| + (if key in a then 0 else 1) == |b| + (if key in b then 0 else 1)
  {
    var rest := a.Keys - {key};
    assert rest == b.Keys - {key};
    assert |a.Keys| == |rest| + (if key in a.Keys then 1 else 0) && |b.Keys| == |rest| + (if key in b.Keys then 1 else 0);
  }

  /** A mutation leaves room for the next one of its key. */
  lemma RoomStays(s: Store, m: Mutation)
    requires HasRoom(s, m) && WellFormed(m) && s.version < MAX_SAFE_INTEGER
    ensures Combine(s, m).Done? ==> HasRoom(Combine(s, m).store, m)
  {
    TablesAgree(s, m);
    hide Combine, Calculate, WellFormed;
    if Combine(s, m).Done? {
      var after := Combine(s, m).store;
      forall k | k != KeyOf(m)
        ensures k in s.values <==> k in after.values
      {
        assert Row(after, k) == Row(s, k);
      }
      SizeAround(s.values, after.values, KeyOf(m));
    }
  }

  /** Across descriptors only presence can differ: where both sides held the same, they still do, except after a
      zero increment of an absent value or the reset of a stored counter. */
  lemma PresenceAgrees(s: Store, mem: Memory, m: Mutation)
    requires WellFormed(m) && HasRoom(s, m) && s.version < MAX_SAFE_INTEGER
    requires Row(s, KeyOf(m)) == MemoryRow(mem, KeyOf(m)) && Combine(s, m).Done?
    ensures MemoryCombine(mem, m).Some?
    ensures Row(Combine(s, m).store, KeyOf(m)) == MemoryRow(MemoryCombine(mem, m).value, KeyOf(m))
            <==> !(m.Increment? && m.amount == 0 && KeyOf(m) !in s.values)
                 && !(m.Bounded? && m.operation.Reset? && KeyOf(m) in s.values)
  {
    TablesAgree(s, m);
    MemoryAgrees(mem, m);
  }

  /** The steps after which the two sides differ, where they held the same: the two named cases, and a new value
      for which the tables have no room, a limit the runtime does not have. */
  predicate Parts(s: Store, m: Mutation) {
    var result, stored := Calculate(m, Row(s, KeyOf(m))), KeyOf(m) in s.values;
    && result.Some?
    && (|| (m.Increment? && m.amount == 0 && !stored)
        || (m.Bounded? && m.operation.Reset? && stored)
        || (!stored && |s.values| >= MAX_VALUES
            && (m.Set? || m.Increment? || (m.Bounded? && result.value.after != Default(m)))))
  }

  predicate NoneParts(s: Store, ms: seq<Mutation>)
    decreases |ms|
  {
    ms == [] || (!Parts(s, ms[0]) && NoneParts(RunTables(s, ms[..1]), ms[1..]))
  }

  /** The tables and the map hold the same values, and will after every step. */
  predicate SameThroughout(s: Store, mem: Memory, ms: seq<Mutation>)
    decreases |ms|
  {
    s.values == mem.values
    && (ms == [] || SameThroughout(RunTables(s, ms[..1]), RunMemory(mem, ms[..1]), ms[1..]))
  }

  lemma OneStep(s: Store, mem: Memory, m: Mutation)
    ensures RunTables(s, [m]) == if Combine(s, m).Done? then Combine(s, m).store else s
    ensures RunMemory(mem, [m]) == if MemoryCombine(mem, m).Some? then MemoryCombine(mem, m).value else mem
  {
    assert [m][1..] == [];
    hide Combine, MemoryCombine;
  }

  lemma StoresPart(s: Store, mem: Memory, m: Mutation)
    requires WellFormed(m) && Kept(s) && s.version < MAX_SAFE_INTEGER && s.values == mem.values
    ensures RunTables(s, [m]).values == RunMemory(mem, [m]).values <==> !Parts(s, m)
  {
    OneStep(s, mem, m);
    hide RunTables, RunMemory;
    if HasRoom(s, m) {
      RoomyStoresPart(s, mem, m);
    } else {
      FullStoresPart(s, mem, m);
    }
  }

  lemma RoomyStoresPart(s: Store, mem: Memory, m: Mutation)
    requires WellFormed(m) && HasRoom(s, m) && s.version < MAX_SAFE_INTEGER && s.values == mem.values
    ensures Combine(s, m).Done? <==> MemoryCombine(mem, m).Some?
    ensures Combine(s, m).Done? ==> (Combine(s, m).store.values == MemoryCombine(mem, m).value.values <==> !Parts(s, m))
    ensures Combine(s, m).Refused? ==> !Parts(s, m)
  {
    hide Combine, MemoryCombine, Calculate, WellFormed;
    TablesAgree(s, m);
    MemoryAgrees(mem, m);
    if Combine(s, m).Done? {
      PresenceAgrees(s, mem, m);
      var after, after' := Combine(s, m).store, MemoryCombine(mem, m).value;
      forall k | k != KeyOf(m)
        ensures (k in after.values <==> k in after'.values) && (k in after.values ==> after.values[k] == after'.values[k])
      {
        assert Row(after, k) == Row(s, k) && MemoryRow(after', k) == MemoryRow(mem, k);
      }
      SameRows(after.values, after'.values, KeyOf(m));
    }
  }

  lemma FullStoresPart(s: Store, mem: Memory, m: Mutation)
    requires WellFormed(m) && s.version < MAX_SAFE_INTEGER && s.values == mem.values
    requires KeyOf(m) !in s.values && |s.values| >= MAX_VALUES
    ensures var after := if Combine(s, m).Done? then Combine(s, m).store else s;
            var after' := if MemoryCombine(mem, m).Some? then MemoryCombine(mem, m).value else mem;
            after.values == after'.values <==> !Parts(s, m)
  {
    assert mem.values - {KeyOf(m)} == mem.values;
    SteppedIsMoved(m);
    hide Moved, Stepped;
  }

  lemma SameRows(a: map<Key, Json>, b: map<Key, Json>, key: Key)
    requires forall k :: k != key ==> ((k in a <==> k in b) && (k in a ==> a[k] == b[k]))
    ensures a == b <==> ((key in a <==> key in b) && (key in a ==> a[key] == b[key]))
  {
  }

  /** For any sequence of combined operations of any descriptors, tables and map hold the same values throughout if and
      only if no step increments an absent value by zero, resets a stored counter, or finds the tables full. */
  lemma {:induction false} PresenceOverRuns(s: Store, mem: Memory, ms: seq<Mutation>)
    requires Kept(s) && s.values == mem.values && (forall i :: 0 <= i < |ms| ==> WellFormed(ms[i]))
    requires s.version + |ms| < MAX_SAFE_INTEGER
    ensures SameThroughout(s, mem, ms) <==> NoneParts(s, ms)
    decreases |ms|
  {
    hide WellFormed, RunTables, RunMemory, Parts, Kept, Combine, MemoryCombine;
    if ms != [] {
      assert ms[..1] == [ms[0]];
      StoresPart(s, mem, ms[0]);
      OneStep(s, mem, ms[0]);
      MutateKeeps(s, ms[0]);
      RevisionDiscipline(s, ms[0]);
      if RunTables(s, ms[..1]).values == RunMemory(mem, ms[..1]).values {
        PresenceOverRuns(RunTables(s, ms[..1]), RunMemory(mem, ms[..1]), ms[1..]);
      }
    }
  }

  /** From empty stores: a zero increment leaves the tables without the value and the map with a zero. */
  lemma ZeroIncrementParts()
    ensures var s, mem, ms := Store(map[], map[], 0), Memory(map[], 0, 0), [Increment(0, 0)];
            && Kept(s) && s.values == mem.values && WellFormed(ms[0])
            && !SameThroughout(s, mem, ms) && !NoneParts(s, ms)
            && RunTables(s, ms).values == map[] && RunMemory(mem, ms).values == map[Plain(0) := Number(0)]
  {
    var s, mem, m := Store(map[], map[], 0), Memory(map[], 0, 0), Increment(0, 0);
    OneStep(s, mem, m);
    assert Combine(s, m) == Done(Touched(s), Number(0));
    assert MemoryCombine(mem, m).value.values == map[Plain(0) := Number(0)];
    assert Plain(0) in map[Plain(0) := Number(0)] && Plain(0) !in s.values;
    assert [m][..1] == [m];
    hide RunTables, RunMemory, Combine, MemoryCombine;
  }

  /** A raised counter is reset: the tables keep its start, the map drops it. */
  lemma ResetParts()
    ensures var s, mem := Store(map[], map[], 0), Memory(map[], 0, 0);
            var ms := [Bounded(0, 0, None, 0, 9, 0, Raise(1)), Bounded(0, 0, None, 0, 9, 0, Reset)];
            && WellFormed(ms[0]) && WellFormed(ms[1])
            && RunTables(s, ms).values == map[CounterKey(0, 0) := Number(0)] && RunMemory(mem, ms).values == map[]
  {
    var s, mem := Store(map[], map[], 0), Memory(map[], 0, 0);
    var raise, reset := Bounded(0, 0, None, 0, 9, 0, Raise(1)), Bounded(0, 0, None, 0, 9, 0, Reset);
    var key := CounterKey(0, 0);
    var s', mem' := Store(map[key := Number(1)], map[], 1), Memory(map[key := Number(1)], 1, 1);
    assert Combine(s, raise) == Done(s', Number(1)) && MemoryCombine(mem, raise) == Some(mem');
    assert Combine(s', reset).Done? && Combine(s', reset).store.values == map[key := Number(0)];
    assert MemoryCombine(mem', reset).Some? && MemoryCombine(mem', reset).value.values == map[];
    assert [raise, reset][1..] == [reset];
    assert RunTables(s, [raise, reset]) == RunTables(s', [reset]) && RunMemory(mem, [raise, reset]) == RunMemory(mem', [reset]);
    OneStep(s', mem', reset);
  }

  // ----- The arithmetic -----

  /** Where a counter lands: a step up stops at the maximum, a step down at the minimum. */
  predicate Lands(m: Mutation, prior: int, after: int)
    requires m.Bounded?
  {
    match m.operation
    case SetTo(value) => after == value
    case Reset => after == m.initial
    case Raise(amount) => if prior + amount <= m.max then after == prior + amount else after == m.max
    case Lower(amount) => if prior - amount >= m.min then after == prior - amount else after == m.min
  }

  /** The number a counter, an increment, a set or a delete leaves behind a value it reads, in the calculation, the tables
      and the test runtime alike. */
  predicate Leaves(m: Mutation, before: Option<Json>, after: Json) {
    match m
    case Set(_, value) => after == value
    case Delete(_) => after == Null
    case Increment(_, amount) => after == Number((if before.Some? && before.value.Number? then before.value.n else 0) + amount)
    case Bounded(_, _, _, _, _, initial, _) =>
      after.Number? && Lands(m, if before.Some? && before.value.Number? then before.value.n else initial, after.n)
  }

  /** What a mutation reads decides whether it is accepted: an increment a safe integer whose sum is safe, a counter an
      integer within its bounds, anything else any value. */
  predicate Fits(m: Mutation, before: Option<Json>) {
    match m
    case Set(_, _) => true
    case Delete(_) => true
    case Increment(_, amount) =>
      before.None?
      || (before.value.Number? && -9_007_199_254_740_991 <= before.value.n <= 9_007_199_254_740_991
          && -9_007_199_254_740_991 <= before.value.n + amount <= 9_007_199_254_740_991)
    case Bounded(_, _, _, min, max, _, _) => before.None? || (before.value.Number? && min <= before.value.n <= max)
  }

  /** The summary: the value read, the value left, whether they differ, and by how much. */
  lemma CalculationLeaves(m: Mutation, before: Option<Json>)
    requires WellFormed(m)
    ensures Calculate(m, before).Some? <==> Fits(m, before)
    ensures Fits(m, before) ==>
              var out := Calculate(m, before).value;
              && Leaves(m, before, out.after) && out.before == Read(before, m)
              && (out.changed <==> if m.Set? || m.Delete? then before != (if m.Set? then Some(out.after) else None)
                                   else out.before != out.after)
              && (out.before.Number? && out.after.Number? && -9_007_199_254_740_991 <= out.after.n - out.before.n <= 9_007_199_254_740_991 ==>
                    out.applied == Some(if out.after.n >= out.before.n then out.after.n - out.before.n else out.before.n - out.after.n))
  {
  }

  /** A new value beyond the hundred the tables have room for. */
  predicate Overflows(s: Store, m: Mutation) {
    KeyOf(m) !in s.values && |s.values| >= 100
    && (m.Set? || m.Increment? || (m.Bounded? && !Lands(m, m.initial, m.initial)))
  }

  /** The row left for a value left behind: none where an absent value stands for it. */
  function RowLeft(row: Option<Json>, m: Mutation, value: Json): Option<Json> {
    if m.Delete? then None
    else if row.None? && ((m.Increment? && m.amount == 0) || (m.Bounded? && value == Number(m.initial))) then None
    else Some(value)
  }

  lemma MutateLeaves(s: Store, m: Mutation)
    requires WellFormed(m)
    ensures var out, row := Mutate(s, m), Row(s, KeyOf(m));
            && (out.Refused? <==> !Fits(m, row) || Overflows(s, m))
            && (out.Done? ==>
                  && Leaves(m, row, out.value) && Row(out.store, KeyOf(m)) == RowLeft(row, m, out.value)
                  && (forall k :: k != KeyOf(m) ==> Row(out.store, k) == Row(s, k))
                  && s.version <= out.store.version <= s.version + 1)
  {
    if m.Bounded? {
      CounterLeaves(s, m);
      hide ApplyBounded, Lands;
    }
  }

  lemma CounterLeaves(s: Store, m: Mutation)
    requires WellFormed(m) && m.Bounded?
    ensures var out, row := ApplyBounded(s, m), Row(s, KeyOf(m));
            && (out.Refused? <==> !Fits(m, row) || Overflows(s, m))
            && (out.Done? ==>
                  && Leaves(m, row, out.value) && Row(out.store, KeyOf(m)) == RowLeft(row, m, out.value)
                  && (forall k :: k != KeyOf(m) ==> Row(out.store, k) == Row(s, k))
                  && s.version <= out.store.version <= s.version + 1)
  {
    var prior := if KeyOf(m) in s.values then s.values[KeyOf(m)] else Number(m.initial);
    assert prior.Number? && m.min <= prior.n <= m.max ==> Lands(m, prior.n, Stepped(m, prior.n));
    assert Lands(m, m.initial, m.initial) <==> Stepped(m, m.initial) == m.initial;
    hide Stepped, Lands;
  }

  /** A combined mutation is refused for want of revisions, for a value it cannot work on, or for a new value beyond a
      hundred; otherwise the tables hold the value left, one revision later. */
  lemma TablesLeave(s: Store, m: Mutation)
    requires WellFormed(m)
    ensures var out, row := Combine(s, m), Row(s, KeyOf(m));
            && (out.Refused? <==> s.version >= 9_007_199_254_740_991 || !Fits(m, row) || Overflows(s, m))
            && (out.Done? ==>
                  && Leaves(m, row, out.value) && out.store.version == s.version + 1
                  && (forall k :: k != KeyOf(m) ==> Row(out.store, k) == Row(s, k))
                  && Row(out.store, KeyOf(m)) == RowLeft(row, m, out.value))
  {
    MutateLeaves(s, m);
    hide Mutate, Fits, Leaves, RowLeft, Overflows;
  }

  /** Increments up to a million either way; safe bounds around the start, a value given within them, and steps of one to
      a million. */
  predicate Sensible(m: Mutation) {
    && (m.Increment? ==> -1_000_000 <= m.amount <= 1_000_000)
    && (m.Bounded? ==>
          && -9_007_199_254_740_991 <= m.min <= m.initial <= m.max <= 9_007_199_254_740_991
          && (m.operation.SetTo? ==> m.min <= m.operation.value <= m.max)
          && (m.operation.Raise? ==> 1 <= m.operation.amount <= 1_000_000)
          && (m.operation.Lower? ==> 1 <= m.operation.amount <= 1_000_000))
  }

  /** The checks admit exactly the sensible mutations, and the tables refuse any other. */
  lemma OnlySensible(s: Store, m: Mutation)
    ensures WellFormed(m) <==> Sensible(m)
    ensures !Sensible(m) ==> Mutate(s, m).Refused?
  {
    hide Stepped;
  }

  /** The test runtime accepts what fits, and holds the value left; a reset counter, and a counter that stays at its
      start, it does not hold. */
  lemma MemoryLeaves(mem: Memory, m: Mutation)
    requires WellFormed(m)
    ensures var out, row := MemoryCombine(mem, m), MemoryRow(mem, KeyOf(m));
            && (out.Some? <==> Fits(m, row))
            && (out.Some? ==>
                  && out.value.revision == mem.revision + 1 && out.value.operations == mem.operations + 1
                  && (forall k :: k != KeyOf(m) ==> MemoryRow(out.value, k) == MemoryRow(mem, k))
                  && (MemoryRow(out.value, KeyOf(m)).None? <==>
                        m.Delete? || (m.Bounded? && (m.operation.Reset? || (row.None? && Lands(m, m.initial, m.initial)))))
                  && (MemoryRow(out.value, KeyOf(m)).Some? ==> Leaves(m, row, MemoryRow(out.value, KeyOf(m)).value)))
  {
    CalculationLeaves(m, MemoryRow(mem, KeyOf(m)));
    hide Moved;
  }

  /** The first label a counter is given is kept, once its value is stored. */
  lemma SubjectIsRecorded(s: Store, m: Mutation)
    requires WellFormed(m) && Kept(s)
    ensures var out := Mutate(s, m);
            out.Done? ==>
              out.store.subjects
              == if m.Bounded? && m.caption.Some? && KeyOf(m) in out.store.values && KeyOf(m) !in s.subjects
                 then s.subjects[KeyOf(m) := m.caption.value] else s.subjects
  {
    hide Stepped;
  }

  function SumOf(ms: seq<Mutation>): int
    requires forall i :: 0 <= i < |ms| ==> ms[i].Bounded? && (ms[i].operation.Raise? || ms[i].operation.Lower?)
  {
    if ms == [] then 0
    else
      var n := |ms| - 1;
      SumOf(ms[..n]) + if ms[n].operation.Raise? then ms[n].operation.amount else -ms[n].operation.amount
  }

  /** Raises and lowerings whose partial sums stay within bounds add up, in the tables and in the test runtime. */
  lemma {:induction false} StepsAddUp(s: Store, mem: Memory, m: Mutation, ms: seq<Mutation>, start: int)
    requires m.Bounded? && Fixed(m, ms) && HasRoom(s, m) && s.version + |ms| < MAX_SAFE_INTEGER
    requires forall i :: 0 <= i < |ms| ==> ms[i].Bounded? && (ms[i].operation.Raise? || ms[i].operation.Lower?)
    requires Read(Row(s, KeyOf(m)), m) == Read(MemoryRow(mem, KeyOf(m)), m) == Number(start)
    requires forall i :: 0 <= i <= |ms| ==> m.min <= start + SumOf(ms[..i]) <= m.max
    ensures Read(Row(RunTables(s, ms), KeyOf(m)), m) == Number(start + SumOf(ms))
    ensures Read(MemoryRow(RunMemory(mem, ms), KeyOf(m)), m) == Number(start + SumOf(ms))
    decreases |ms|
  {
    if ms != [] {
      var n := ms[0];
      assert WellFormed(n) && SameDescriptor(m, n);
      PartialSums(m, ms, start);
      DescriptorKeeps(m, n, Row(s, KeyOf(m)), MemoryRow(mem, KeyOf(m)));
      StepLands(s, mem, n, start);
      TablesAgree(s, n);
      RoomStays(s, n);
      var s', mem' := Combine(s, n).store, MemoryCombine(mem, n).value;
      DescriptorKeeps(m, n, Row(s', KeyOf(m)), MemoryRow(mem', KeyOf(m)));
      hide Combine, MemoryCombine, WellFormed, SameDescriptor, Default, SumOf, Calculate;
      StepsAddUp(s', mem', m, ms[1..], start + SumOf([n]));
    }
  }

  /** Partial sums after the first step, counted from where it leads. */
  lemma PartialSums(m: Mutation, ms: seq<Mutation>, start: int)
    requires m.Bounded? && ms != []
    requires forall i :: 0 <= i < |ms| ==> ms[i].Bounded? && (ms[i].operation.Raise? || ms[i].operation.Lower?)
    requires forall i :: 0 <= i <= |ms| ==> m.min <= start + SumOf(ms[..i]) <= m.max
    ensures SumOf([ms[0]]) == if ms[0].operation.Raise? then ms[0].operation.amount else -ms[0].operation.amount
    ensures m.min <= start <= m.max && m.min <= start + SumOf([ms[0]]) <= m.max
    ensures SumOf(ms) == SumOf([ms[0]]) + SumOf(ms[1..])
    ensures forall i :: 0 <= i <= |ms[1..]| ==> m.min <= start + SumOf([ms[0]]) + SumOf(ms[1..][..i]) <= m.max
  {
    assert ms[..0] == [] && ms[..1] == [ms[0]] && [ms[0]][..0] == [];
    assert SumOf(ms[..0]) == 0;
    SumSplits(ms);
    forall i | 0 <= i <= |ms[1..]|
      ensures m.min <= start + SumOf([ms[0]]) + SumOf(ms[1..][..i]) <= m.max
    {
      SumSplits(ms[..i + 1]);
      assert ms[..i + 1][1..] == ms[1..][..i];
    }
  }

  /** One step within bounds moves the value by its amount on both sides. */
  lemma StepLands(s: Store, mem: Memory, n: Mutation, start: int)
    requires n.Bounded? && (n.operation.Raise? || n.operation.Lower?) && WellFormed(n) && HasRoom(s, n) && s.version < MAX_SAFE_INTEGER
    requires Read(Row(s, KeyOf(n)), n) == Read(MemoryRow(mem, KeyOf(n)), n) == Number(start) && n.min <= start <= n.max
    requires var step := if n.operation.Raise? then n.operation.amount else -n.operation.amount; n.min <= start + step <= n.max
    ensures var step := if n.operation.Raise? then n.operation.amount else -n.operation.amount;
            && Combine(s, n).Done? && MemoryCombine(mem, n).Some?
            && Read(Row(Combine(s, n).store, KeyOf(n)), n) == Number(start + step)
            && Read(MemoryRow(MemoryCombine(mem, n).value, KeyOf(n)), n) == Number(start + step)
  {
    TablesAgree(s, n);
    MemoryAgrees(mem, n);
    hide Combine, MemoryCombine;
  }

  lemma {:induction false} SumSplits(ms: seq<Mutation>)
    requires ms != [] && forall i :: 0 <= i < |ms| ==> ms[i].Bounded? && (ms[i].operation.Raise? || ms[i].operation.Lower?)
    ensures SumOf(ms) == SumOf([ms[0]]) + SumOf(ms[1..])
    decreases |ms|
  {
    var n := |ms| - 1;
    if n > 0 {
      SumSplits(ms[..n]);
      assert ms[..n][1..] == ms[1..][..n - 1];
    } else {
      assert ms == [ms[0]];
    }
  }

  // ----- Revisions -----

  /** An ordinary mutation advances the revision by one exactly when a stored value or a subject changed; a
      combined one always does. */
  lemma RevisionDiscipline(s: Store, m: Mutation)
    ensures var a := Mutate(s, m);
            a.Done? ==> a.store.version == s.version + if a.store.values != s.values || a.store.subjects != s.subjects then 1 else 0
    ensures var c := Combine(s, m);
            c.Done? ==> c.store.version == s.version + 1 && Mutate(s, m).Done?
                        && c.store.values == Mutate(s, m).store.values && c.store.subjects == Mutate(s, m).store.subjects
  {
  }

  datatype Operation = Ordinary(mutation: Mutation) | Combined(mutation: Mutation)

  /** A refused operation changes nothing. */
  function Operate(s: Store, o: Operation): Store {
    var a := if o.Combined? then Combine(s, o.mutation) else Mutate(s, o.mutation);
    if a.Done? then a.store else s
  }

  function OperateAll(s: Store, os: seq<Operation>): Store
    decreases |os|
  {
    if os == [] then s else OperateAll(Operate(s, os[0]), os[1..])
  }

  predicate ChangesRows(s: Store, o: Operation) {
    Operate(s, o).values != s.values || Operate(s, o).subjects != s.subjects
  }

  /** The steps of a run that changed a row, or were accepted combined operations. */
  function Counted(s: Store, os: seq<Operation>): nat
    decreases |os|
  {
    if os == [] then 0
    else
      (if ChangesRows(s, os[0]) || (os[0].Combined? && Combine(s, os[0].mutation).Done?) then 1 else 0)
      + Counted(Operate(s, os[0]), os[1..])
  }

  /** What the tables keep: their capacity, and subjects only of stored counters. */
  ghost predicate Kept(s: Store) {
    |s.values| <= MAX_VALUES && forall k :: k in s.subjects ==> k.CounterKey? && k in s.values
  }

  lemma MutateKeeps(s: Store, m: Mutation)
    requires Kept(s)
    ensures Mutate(s, m).Done? ==> Kept(Mutate(s, m).store)
    ensures Combine(s, m).Done? ==> Kept(Combine(s, m).store)
  {
    if m.Bounded? {
      BoundedKeeps(s, m);
      hide ApplyBounded;
    }
    hide Calculate, WellFormed;
  }

  lemma BoundedKeeps(s: Store, m: Mutation)
    requires Kept(s) && m.Bounded?
    ensures ApplyBounded(s, m).Done? ==> Kept(ApplyBounded(s, m).store)
  {
    hide WellFormed, Stepped;
  }

  /** In every run the tables keep within capacity, and the revision counts exactly the steps that changed a row or
      were accepted combined operations. */
  lemma {:induction false} RevisionCountsChanges(s: Store, os: seq<Operation>)
    requires Kept(s)
    ensures Kept(OperateAll(s, os))
    ensures OperateAll(s, os).version == s.version + Counted(s, os)
    decreases |os|
  {
    hide Mutate, Combine, Kept;
    if os != [] {
      RevisionDiscipline(s, os[0].mutation);
      MutateKeeps(s, os[0].mutation);
      RevisionCountsChanges(Operate(s, os[0]), os[1..]);
    }
  }

  // ----- The tables in place -----

  class FeatureStorage {
    var values: map<Key, Json>
    var subjects: map<Key, nat>
    var version: nat

    function Model(): Store
      reads this
    {
      Store(values, subjects, version)
    }

    constructor ()
      ensures Model() == Store(map[], map[], 0) && Kept(Model())
    {
      values, subjects, version := map[], map[], 0;
    }

    /** The new value, or nothing when refused; a refused mutation changes nothing. */
    method Set(key: Key, value: Json) returns (result: Option<Json>)
      requires Kept(Model()) && key.Plain?
      modifies this
      ensures var a := SetValue(old(Model()), key, value);
              if a.Done? then Model() == a.store && result == Some(a.value) else Model() == old(Model()) && result == None
      ensures Kept(Model())
    {
      MutateKeeps(Model(), Mutation.Set(key.key, value));
      if key in values && values[key] == value {
        return Some(value);
      }
      if key !in values && |values| >= MAX_VALUES {
        return None;
      }
      values := values[key := value];
      version := version + 1;
      return Some(value);
    }

    method Delete(key: Key)
      requires Kept(Model()) && key.Plain?
      modifies this
      ensures Model() == DeleteValue(old(Model()), key).store
      ensures Kept(Model())
    {
      MutateKeeps(Model(), Mutation.Delete(key.key));
      if key in values {
        values := values - {key};
        version := version + 1;
      }
    }

    method Increment(key: Key, amount: int) returns (result: Option<Json>)
      requires Kept(Model()) && key.Plain?
      modifies this
      ensures var a := IncrementState(old(Model()), key, amount);
              if a.Done? then Model() == a.store && result == Some(a.value) else Model() == old(Model()) && result == None
      ensures Kept(Model())
    {
      MutateKeeps(Model(), Mutation.Increment(key.key, amount));
      if amount < -MAX_AMOUNT || amount > MAX_AMOUNT || (key !in values && |values| >= MAX_VALUES) {
        return None;
      }
      var current := if key in values then values[key] else Number(0);
      if !current.Number? || !Safe(current.n) || !Safe(current.n + amount) {
        return None;
      }
      if amount == 0 {
        return Some(current);
      }
      values := values[key := Number(current.n + amount)];
      version := version + 1;
      return Some(Number(current.n + amount));
    }

    method RecordCounterSubject(key: Key, caption: Option<nat>) returns (recorded: bool)
      modifies this`subjects
      ensures Model() == RecordSubject(old(Model()), key, caption)
      ensures recorded == (Model() != old(Model()))
    {
      recorded := caption.Some? && key !in subjects;
      if recorded {
        subjects := subjects[key := caption.value];
      }
    }

    method Count(m: Mutation) returns (result: Option<Json>)
      requires Kept(Model())
      requires m.Bounded?
      modifies this
      ensures var a := ApplyBounded(old(Model()), m);
              if a.Done? then Model() == a.store && result == Some(a.value) else Model() == old(Model()) && result == None
      ensures Kept(Model())
    {
      BoundedKeeps(Model(), m);
      var key := KeyOf(m);
      var current := if key in values then values[key] else Number(m.initial);
      if !WellFormed(m) || !SafeNumber(current, m.min, m.max) {
        return None;
      }
      var next := if m.operation.SetTo? then m.operation.value else m.initial;
      if !m.operation.SetTo? && !m.operation.Reset? {
        var direction := if m.operation.Raise? then 1 else -1;
        next := current.n + direction * m.operation.amount;
        if next < m.min {
          next := m.min;
        } else if next > m.max {
          next := m.max;
        }
      }
      var value := Number(next);
      assert next == Stepped(m, current.n);
      hide Stepped;
      if key !in values && value == Number(m.initial) {
        return Some(value);
      }
      if key in values && values[key] == value {
        var recorded := RecordCounterSubject(key, m.caption);
        if recorded {
          version := version + 1;
        }
        return Some(value);
      }
      if key !in values && |values| >= MAX_VALUES {
        return None;
      }
      values := values[key := value];
      var recorded := RecordCounterSubject(key, m.caption);
      version := version + 1;
      return Some(value);
    }

    /** A combined operation's mutation. */
    method Apply(m: Mutation) returns (result: Option<Json>)
      requires Kept(Model())
      modifies this
      ensures var a := Combine(old(Model()), m);
              if a.Done? then Model() == a.store && result == Some(a.value) else Model() == old(Model()) && result == None
      ensures Kept(Model())
    {
      MutateKeeps(Model(), m);
      hide SetValue, DeleteValue, IncrementState, ApplyBounded;
      if version >= MAX_SAFE_INTEGER {
        return None;
      }
      var prior := version;
      match m {
        case Set(_, value) => result := Set(KeyOf(m), value);
        case Delete(_) =>
          DeleteAnswers(Model(), KeyOf(m));
          Delete(KeyOf(m));
          result := Some(Null);
        case Increment(_, amount) => result := Increment(KeyOf(m), amount);
        case Bounded(_, _, _, _, _, _, _) => result := Count(m);
      }
      if result.Some? && version == prior {
        version := version + 1;
      }
    }
  }

  lemma DeleteAnswers(s: Store, key: Key)
    ensures DeleteValue(s, key).Done? && DeleteValue(s, key).value == Null
  {
  }
}
