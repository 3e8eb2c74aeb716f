/** Prepared state/event requests, and their revalidation without live configuration. */
module PreparedRequest {
  import opened Contract
  import opened JsonData
  import opened ArgumentSchema

  datatype Selector = Literal(value: Value) | Input(field: nat) | Config(name: nat) | ResultOf(result: nat)

  /** A mutation or event entry: fixed by the declaration, or selected. */
  datatype Entry = Plain(value: Value) | Select(selector: Selector)

  datatype Named = Named(key: nat, entry: Entry)

  /** A resolved entry: its value, or a part of the result known only after the calculation. */
  datatype Resolved = Fixed(value: Value) | Later(result: nat)

  type Entries = map<nat, Resolved>
  type Configuration = map<nat, Value>

  /** A declared operation; `accepts` stands for the checks on the resolved mutation. */
  datatype Definition = Definition(id: nat, input: Schema, mutation: seq<Named>, event: seq<Named>, accepts: Entries -> bool)

  datatype Request = Request(operation: nat, input: Value, mutation: Entries, event: Entries)

  function SortedEntry(r: Resolved): Resolved { if r.Fixed? then Fixed(Sorted(r.value)) else r }

  function SortedEntries(m: Entries): Entries { map k | k in m :: SortedEntry(m[k]) }

  /** The copy of a request that is compared and stored. */
  function SortedRequest(r: Request): Request {
    Request(r.operation, Sorted(r.input), SortedEntries(r.mutation), SortedEntries(r.event))
  }

  // ----- Preparation -----

  function Resolve(entry: Entry, args: seq<Field>, config: Configuration): Option<Resolved> {
    match entry
    case Plain(value) => Some(Fixed(Sorted(value)))
    case Select(Literal(value)) => Some(Fixed(Sorted(value)))
    case Select(Input(field)) =>
      var found := Lookup(args, field);
      if found.None? then None else Some(Fixed(Sorted(found.value)))
    case Select(Config(name)) => if name in config then Some(Fixed(Sorted(config[name]))) else None
    case Select(ResultOf(result)) => Some(Later(result))
  }

  function ResolveAll(entries: seq<Named>, args: seq<Field>, config: Configuration): Option<Entries> {
    if entries == [] then Some(map[])
    else
      var n := |entries| - 1;
      var rest, last := ResolveAll(entries[..n], args, config), Resolve(entries[n].entry, args, config);
      if rest.None? || last.None? then None else Some(rest.value[entries[n].key := last.value])
  }

  /** The arguments as parsed and sorted. */
  function Arguments(d: Definition, input: Value): Option<Value> {
    var p := Parse(d.input, Some(Sorted(input)));
    if p.Given? && p.value.Obj? then Some(Sorted(p.value)) else None
  }

  function Prepare(d: Definition, input: Value, config: Configuration): Option<Request> {
    var args := Arguments(d, input);
    if args.None? then None
    else
      var mutation := ResolveAll(d.mutation, args.value.fields, config);
      if mutation.None? || !d.accepts(mutation.value) then None
      else
        var event := ResolveAll(d.event, args.value.fields, config);
        if event.None? then None else Some(Request(d.id, args.value, mutation.value, event.value))
  }

  // ----- Revalidation -----

  function ConfigName(entry: Entry): Option<nat> {
    if entry.Select? && entry.selector.Config? then Some(entry.selector.name) else None
  }

  /** The configuration a saved request must have been prepared with: repeated selectors have to agree. */
  function Collect(entries: seq<Named>, saved: Entries, config: Configuration): Option<Configuration> {
    if entries == [] then Some(config)
    else
      var n := |entries| - 1;
      var before := Collect(entries[..n], saved, config);
      var name := ConfigName(entries[n].entry);
      if before.None? || name.None? then before
      else if entries[n].key !in saved || !saved[entries[n].key].Fixed? then None
      else
        var value := saved[entries[n].key].value;
        if name.value in before.value && before.value[name.value] != value then None
        else Some(before.value[name.value := value])
  }

  function Recovered(d: Definition, saved: Request): Option<Configuration> {
    var config := Collect(d.mutation, saved.mutation, map[]);
    if config.None? then None else Collect(d.event, saved.event, config.value)
  }

  function Revalidate(d: Definition, request: Request): Option<Request> {
    var saved := SortedRequest(request);
    var config := Recovered(d, saved);
    if config.None? then None
    else
      var expected := Prepare(d, saved.input, config.value);
      if expected.None? || SortedRequest(expected.value) != saved then None else expected
  }

  /** What the definition constructor guarantees: entries are named once and hold proper values, the input is an
      object, and only events select results. */
  ghost predicate WellFormed(d: Definition) {
    && WellDefined(d.input) && d.input.kind.ObjectKind?
    && EntriesOk(d.mutation) && EntriesOk(d.event)
    && (forall i :: 0 <= i < |d.mutation| ==> !(d.mutation[i].entry.Select? && d.mutation[i].entry.selector.ResultOf?))
  }

  ghost predicate EntriesOk(entries: seq<Named>) {
    && (forall i, j :: 0 <= i < j < |entries| ==> entries[i].key != entries[j].key)
    && (forall i :: 0 <= i < |entries| ==> EntryOk(entries[i].entry))
  }

  predicate EntryOk(entry: Entry) {
    match entry
    case Plain(value) => Proper(value)
    case Select(Literal(value)) => Proper(value)
    case _ => true
  }

  ghost predicate ProperConfig(config: Configuration) { forall k :: k in config ==> Proper(config[k]) }

  // ----- Arguments are a fixpoint -----

  lemma ArgumentsFixpoint(d: Definition, input: Value)
    requires WellFormed(d) && Proper(input) && Arguments(d, input).Some?
    ensures var args := Arguments(d, input).value;
            Proper(args) && Sorted(args) == args && args.Obj? && Arguments(d, args) == Some(args)
  {
    var data := Sorted(input);
    SortedFixpoint(input);
    var p := Parse(d.input, Some(data)).value;
    ParseIsIdempotent(d.input, Some(data));
    var args := Sorted(p);
    SortedFixpoint(p);
    SortedKeepsData(p);
    ParseRespects(d.input, p, args);
    ParseIsProper(d.input, Some(args));
    var q, again := Parse(d.input, Some(args)).value, Parse(d.input, Some(p)).value;
    ParseIsProper(d.input, Some(p));
    SortedDecides(p, again);
    SortedDecides(again, q);
    hide Parse;
  }

  // ----- What a prepared request holds -----

  /** What an entry comes to: its own value, an argument, a configuration value, each key-sorted, or a later result. */
  ghost predicate ResolvesTo(entry: Entry, args: seq<Field>, config: Configuration, r: Resolved) {
    match entry
    case Plain(value) => r == Fixed(Sorted(value))
    case Select(Literal(value)) => r == Fixed(Sorted(value))
    case Select(Input(field)) => exists i :: 0 <= i < |args| && args[i].key == field && r == Fixed(Sorted(args[i].value))
    case Select(Config(name)) => name in config && r == Fixed(Sorted(config[name]))
    case Select(ResultOf(result)) => r == Later(result)
  }

  /** An argument that was not given, or a configuration value that is not there, cannot be selected. */
  predicate Selects(entry: Entry, args: seq<Field>, config: Configuration) {
    match entry
    case Select(Input(field)) => exists i :: 0 <= i < |args| && args[i].key == field
    case Select(Config(name)) => name in config
    case _ => true
  }

  lemma EntryResolves(entry: Entry, args: seq<Field>, config: Configuration)
    ensures Resolve(entry, args, config).Some? <==> Selects(entry, args, config)
    ensures Resolve(entry, args, config).Some? ==> ResolvesTo(entry, args, config, Resolve(entry, args, config).value)
  {
    if entry.Select? && entry.selector.Input? && Lookup(args, entry.selector.field).Some? {
      var i := LookupWhere(args, entry.selector.field);
    }
    hide Sorted;
  }

  ghost predicate ResolvedAs(entries: seq<Named>, args: seq<Field>, config: Configuration, m: Entries) {
    && (forall k :: k in m <==> exists i :: 0 <= i < |entries| && entries[i].key == k)
    && (forall i :: 0 <= i < |entries| ==> entries[i].key in m && ResolvesTo(entries[i].entry, args, config, m[entries[i].key]))
  }

  lemma {:induction false} EntriesResolve(entries: seq<Named>, args: seq<Field>, config: Configuration)
    requires EntriesOk(entries)
    ensures ResolveAll(entries, args, config).Some?
            <==> forall i :: 0 <= i < |entries| ==> Selects(entries[i].entry, args, config)
    ensures ResolveAll(entries, args, config).Some? ==>
              ResolvedAs(entries, args, config, ResolveAll(entries, args, config).value)
    decreases |entries|
  {
    if entries != [] {
      var n := |entries| - 1;
      EntriesResolve(entries[..n], args, config);
      EntryResolves(entries[n].entry, args, config);
      hide Resolve, ResolvesTo, ResolvedAs, Selects, EntryOk;
      LastSelects(entries, args, config);
      if ResolveAll(entries, args, config).Some? {
        LastResolves(entries, args, config, ResolveAll(entries[..n], args, config).value,
                     Resolve(entries[n].entry, args, config).value);
      }
    }
  }

  lemma LastSelects(entries: seq<Named>, args: seq<Field>, config: Configuration)
    requires entries != []
    ensures var n := |entries| - 1;
            (forall i :: 0 <= i < |entries| ==> Selects(entries[i].entry, args, config))
            <==> (forall i :: 0 <= i < n ==> Selects(entries[..n][i].entry, args, config)) && Selects(entries[n].entry, args, config)
  {
    hide Selects;
    var n := |entries| - 1;
    assert forall i :: 0 <= i < n ==> entries[..n][i] == entries[i];
  }

  lemma LastResolves(entries: seq<Named>, args: seq<Field>, config: Configuration, before: Entries, last: Resolved)
    requires EntriesOk(entries) && entries != []
    requires ResolvedAs(entries[..|entries| - 1], args, config, before)
    requires ResolvesTo(entries[|entries| - 1].entry, args, config, last)
    ensures ResolvedAs(entries, args, config, before[entries[|entries| - 1].key := last])
  {
    var n := |entries| - 1;
    var m := before[entries[n].key := last];
    hide ResolvesTo, EntryOk;
    forall k | k in m
      ensures exists i :: 0 <= i < |entries| && entries[i].key == k
    {
      if k in before {
        var i :| 0 <= i < n && entries[..n][i].key == k;
        assert entries[i].key == k;
      }
    }
    forall i | 0 <= i < |entries|
      ensures entries[i].key in m && ResolvesTo(entries[i].entry, args, config, m[entries[i].key])
    {
      if i < n {
        assert entries[..n][i] == entries[i] && entries[i].key != entries[n].key;
      }
    }
  }

  /** A request is prepared exactly when its arguments parse to an object, everything it selects is there, and the
      resolved mutation is accepted; it holds the operation, the parsed arguments, and every entry resolved. */
  lemma PreparedHolds(d: Definition, input: Value, config: Configuration)
    requires WellFormed(d)
    ensures var out, parsed := Prepare(d, input, config), Parse(d.input, Some(Sorted(input)));
            if !parsed.Given? || !parsed.value.Obj? then out.None?
            else
              var args := Sorted(parsed.value).fields;
              if out.Some? then
                && out.value.operation == d.id && out.value.input == Sorted(parsed.value)
                && ResolvedAs(d.mutation, args, config, out.value.mutation) && d.accepts(out.value.mutation)
                && ResolvedAs(d.event, args, config, out.value.event)
              else
                || (exists i :: 0 <= i < |d.mutation| && !Selects(d.mutation[i].entry, args, config))
                || (exists i :: 0 <= i < |d.event| && !Selects(d.event[i].entry, args, config))
                || (exists m :: ResolvedAs(d.mutation, args, config, m) && !d.accepts(m))
  {
    var parsed := Parse(d.input, Some(Sorted(input)));
    if parsed.Given? && parsed.value.Obj? {
      var args := Sorted(parsed.value).fields;
      EntriesResolve(d.mutation, args, config);
      EntriesResolve(d.event, args, config);
      hide Parse, ResolveAll, ResolvedAs, Selects, Sorted;
    }
  }

  /** The resolved entries are the only ones: which they are does not depend on how they were found. */
  lemma ResolvedOnce(entries: seq<Named>, args: seq<Field>, config: Configuration, m: Entries, n: Entries)
    requires ResolvedAs(entries, args, config, m) && ResolvedAs(entries, args, config, n) && DistinctKeys(args)
    ensures m == n
  {
    forall k | k in m
      ensures m[k] == n[k]
    {
      var i :| 0 <= i < |entries| && entries[i].key == k;
      assert ResolvesTo(entries[i].entry, args, config, m[k]) && ResolvesTo(entries[i].entry, args, config, n[k]);
    }
    hide ResolvesTo;
  }

  // ----- Entries -----

  lemma {:induction false} ResolvedAt(entries: seq<Named>, args: seq<Field>, config: Configuration, i: nat)
    requires EntriesOk(entries) && i < |entries| && ResolveAll(entries, args, config).Some?
    ensures entries[i].key in ResolveAll(entries, args, config).value
    ensures Resolve(entries[i].entry, args, config) == Some(ResolveAll(entries, args, config).value[entries[i].key])
    decreases |entries|
  {
    var n := |entries| - 1;
    if i < n {
      assert entries[i].key != entries[n].key;
      ResolvedAt(entries[..n], args, config, i);
    }
  }

  lemma ResolveIsSorted(entry: Entry, args: seq<Field>, config: Configuration)
    requires EntryOk(entry) && Proper(Obj(args)) && ProperConfig(config)
    ensures Resolve(entry, args, config).Some? ==> SortedEntry(Resolve(entry, args, config).value) == Resolve(entry, args, config).value
  {
    match entry {
      case Plain(value) => SortedFixpoint(value);
      case Select(Literal(value)) => SortedFixpoint(value);
      case Select(Input(field)) =>
        if Lookup(args, field).Some? {
          PropersLookup(args, field);
          SortedFixpoint(Lookup(args, field).value);
        }
      case Select(Config(name)) =>
        if name in config {
          SortedFixpoint(config[name]);
        }
      case Select(ResultOf(_)) =>
    }
  }

  lemma {:induction false} ResolvedIsSorted(entries: seq<Named>, args: seq<Field>, config: Configuration)
    requires EntriesOk(entries) && Proper(Obj(args)) && ProperConfig(config)
    ensures ResolveAll(entries, args, config).Some? ==>
              SortedEntries(ResolveAll(entries, args, config).value) == ResolveAll(entries, args, config).value
    decreases |entries|
  {
    if entries != [] {
      var n := |entries| - 1;
      ResolvedIsSorted(entries[..n], args, config);
      ResolveIsSorted(entries[n].entry, args, config);
      hide SortedEntry, Resolve;
    }
  }

  /** Part of a configuration, with its values as a saved request carries them. */
  ghost predicate Carries(part: Configuration, config: Configuration) {
    forall k :: k in part ==> k in config && part[k] == Sorted(config[k])
  }

  ghost predicate Covers(config: Configuration, entries: seq<Named>) {
    forall i :: 0 <= i < |entries| && ConfigName(entries[i].entry).Some? ==> ConfigName(entries[i].entry).value in config
  }

  /** From a prepared request the configuration it used is recovered, never inconsistently. */
  lemma {:induction false} CollectRecovers(entries: seq<Named>, args: seq<Field>, config: Configuration, saved: Entries,
                                           part: Configuration)
    requires EntriesOk(entries) && Carries(part, config)
    requires forall i :: 0 <= i < |entries| ==>
               entries[i].key in saved && Resolve(entries[i].entry, args, config) == Some(saved[entries[i].key])
    ensures Collect(entries, saved, part).Some?
    ensures var out := Collect(entries, saved, part).value;
            Carries(out, config) && Covers(out, entries) && part.Keys <= out.Keys
    decreases |entries|
  {
    if entries != [] {
      var n := |entries| - 1;
      CollectRecovers(entries[..n], args, config, saved, part);
      assert Resolve(entries[n].entry, args, config) == Some(saved[entries[n].key]);
      var before := Collect(entries[..n], saved, part).value;
      forall i | 0 <= i < |entries| && ConfigName(entries[i].entry).Some?
        ensures ConfigName(entries[i].entry).value in Collect(entries, saved, part).value
      {
        if i < n {
          assert entries[..n][i] == entries[i];
        }
      }
    }
  }

  /** Resolving with the recovered configuration gives what resolving with the live one gave. */
  lemma {:induction false} RecoveredResolves(entries: seq<Named>, args: seq<Field>, config: Configuration, part: Configuration)
    requires EntriesOk(entries) && ProperConfig(config) && Carries(part, config) && Covers(part, entries)
    ensures ResolveAll(entries, args, part) == ResolveAll(entries, args, config)
    decreases |entries|
  {
    if entries != [] {
      var n := |entries| - 1;
      assert Covers(part, entries[..n]) by {
        assert forall i :: 0 <= i < n ==> entries[..n][i] == entries[i];
      }
      RecoveredResolves(entries[..n], args, config, part);
      var name := ConfigName(entries[n].entry);
      if name.Some? {
        SortedFixpoint(config[name.value]);
      }
    }
  }

  // ----- Revalidation accepts exactly what preparation produces -----

  lemma PreparedIsSorted(d: Definition, input: Value, config: Configuration)
    requires WellFormed(d) && Proper(input) && ProperConfig(config) && Prepare(d, input, config).Some?
    ensures SortedRequest(Prepare(d, input, config).value) == Prepare(d, input, config).value
  {
    ArgumentsFixpoint(d, input);
    var args := Arguments(d, input).value.fields;
    ResolvedIsSorted(d.mutation, args, config);
    ResolvedIsSorted(d.event, args, config);
    hide Arguments, ResolveAll, SortedEntries;
  }

  /** A prepared request revalidates to itself, with no configuration consulted. */
  lemma PreparedRevalidates(d: Definition, input: Value, config: Configuration)
    requires WellFormed(d) && Proper(input) && ProperConfig(config) && Prepare(d, input, config).Some?
    ensures Revalidate(d, Prepare(d, input, config).value) == Prepare(d, input, config)
  {
    var r := Prepare(d, input, config).value;
    PreparedIsSorted(d, input, config);
    ArgumentsFixpoint(d, input);
    var args := r.input.fields;
    forall i | 0 <= i < |d.mutation|
      ensures d.mutation[i].key in r.mutation && Resolve(d.mutation[i].entry, args, config) == Some(r.mutation[d.mutation[i].key])
    {
      ResolvedAt(d.mutation, args, config, i);
    }
    forall i | 0 <= i < |d.event|
      ensures d.event[i].key in r.event && Resolve(d.event[i].entry, args, config) == Some(r.event[d.event[i].key])
    {
      ResolvedAt(d.event, args, config, i);
    }
    CollectRecovers(d.mutation, args, config, r.mutation, map[]);
    var first := Collect(d.mutation, r.mutation, map[]).value;
    CollectRecovers(d.event, args, config, r.event, first);
    var all := Collect(d.event, r.event, first).value;
    RecoveredResolves(d.mutation, args, config, all);
    RecoveredResolves(d.event, args, config, all);
    hide Arguments, ResolveAll, Collect, SortedRequest, WellFormed, Resolve;
  }

  /** Revalidation accepts a stored request exactly when some arguments and configuration prepare to it. */
  lemma RevalidationIsExact(d: Definition, r: Request)
    requires WellFormed(d) && Proper(r.input) && SortedRequest(r) == r
    requires forall k :: k in r.mutation && r.mutation[k].Fixed? ==> Proper(r.mutation[k].value)
    requires forall k :: k in r.event && r.event[k].Fixed? ==> Proper(r.event[k].value)
    ensures Revalidate(d, r) == Some(r)
            <==> exists input, config :: Proper(input) && ProperConfig(config) && Prepare(d, input, config) == Some(r)
  {
    if Revalidate(d, r) == Some(r) {
      CollectIsProper(d.mutation, r.mutation, map[]);
      CollectIsProper(d.event, r.event, Collect(d.mutation, r.mutation, map[]).value);
      var config := Recovered(d, r).value;
      assert Proper(r.input) && ProperConfig(config) && Prepare(d, r.input, config) == Some(r);
    } else if exists input, config :: Proper(input) && ProperConfig(config) && Prepare(d, input, config) == Some(r) {
      var input, config :| Proper(input) && ProperConfig(config) && Prepare(d, input, config) == Some(r);
      PreparedRevalidates(d, input, config);
    }
  }

  lemma {:induction false} CollectIsProper(entries: seq<Named>, saved: Entries, config: Configuration)
    requires ProperConfig(config) && Collect(entries, saved, config).Some?
    requires forall k :: k in saved && saved[k].Fixed? ==> Proper(saved[k].value)
    ensures ProperConfig(Collect(entries, saved, config).value)
    decreases |entries|
  {
    if entries != [] {
      CollectIsProper(entries[..|entries| - 1], saved, config);
    }
  }

  // ----- The loops -----

  /** Gathers one section's selected configuration, entry by entry. */
  method CollectSection(entries: seq<Named>, saved: Entries, config: Configuration) returns (out: Option<Configuration>)
    ensures out == Collect(entries, saved, config)
  {
    var gathered := config;
    for n := 0 to |entries|
      invariant Collect(entries[..n], saved, config) == Some(gathered)
    {
      assert entries[..n + 1][..n] == entries[..n];
      var name := ConfigName(entries[n].entry);
      if name.Some? {
        if entries[n].key !in saved || !saved[entries[n].key].Fixed? {
          CollectFails(entries, saved, config, n + 1);
          return None;
        }
        var value := saved[entries[n].key].value;
        if name.value in gathered && gathered[name.value] != value {
          CollectFails(entries, saved, config, n + 1);
          return None;
        }
        gathered := gathered[name.value := value];
      }
    }
    assert entries[..|entries|] == entries;
    out := Some(gathered);
  }

  lemma {:induction false} CollectFails(entries: seq<Named>, saved: Entries, config: Configuration, n: nat)
    requires n <= |entries| && Collect(entries[..n], saved, config).None?
    ensures Collect(entries, saved, config).None?
    decreases |entries|
  {
    if n < |entries| {
      var m := |entries| - 1;
      assert entries[..m][..n] == entries[..n];
      CollectFails(entries[..m], saved, config, n);
    } else {
      assert entries[..n] == entries;
    }
  }

  method ValidatePrepared(d: Definition, request: Request) returns (result: Option<Request>)
    ensures result == Revalidate(d, request)
  {
    var saved := SortedRequest(request);
    var first := CollectSection(d.mutation, saved.mutation, map[]);
    if first.None? {
      return None;
    }
    var config := CollectSection(d.event, saved.event, first.value);
    if config.None? {
      return None;
    }
    var expected := Prepare(d, saved.input, config.value);
    if expected.None? || SortedRequest(expected.value) != saved {
      return None;
    }
    result := expected;
  }
}
