/** The canonical form of a stream payload under its schema. */
module CanonicalPayload {
  import opened Contract
  import opened JsonData

  const MAX_PAYLOAD_BYTES := 4_096

  datatype Property = Property(key: nat, schema: Schema)

  datatype Schema =
    | StringSchema(nullable: bool, minLength: nat, maxLength: nat)
    | BooleanSchema(nullable: bool)
    | NumberSchema(nullable: bool, integer: bool, minimum: Option<real>, maximum: Option<real>)
    | ArraySchema(nullable: bool, maxItems: nat, items: Schema)
    | ObjectSchema(nullable: bool, properties: seq<Property>, required: seq<nat>)

  function PropertyOf(properties: seq<Property>, key: nat): (r: Option<Schema>)
    ensures r.Some? <==> exists i :: 0 <= i < |properties| && properties[i].key == key
  {
    if properties == [] then None
    else if properties[0].key == key then Some(properties[0].schema)
    else PropertyOf(properties[1..], key)
  }

  // ----- Object.keys(properties).sort() -----

  function InsertKey(keys: seq<nat>, key: nat): seq<nat> {
    if keys == [] || key < keys[0] then [key] + keys else [keys[0]] + InsertKey(keys[1..], key)
  }

  function SortedKeys(properties: seq<Property>): seq<nat> {
    if properties == [] then [] else InsertKey(SortedKeys(properties[1..]), properties[0].key)
  }

  predicate AscendingKeys(keys: seq<nat>) {
    forall i, j :: 0 <= i < j < |keys| ==> keys[i] < keys[j]
  }

  predicate DistinctProperties(properties: seq<Property>) {
    forall i, j :: 0 <= i < j < |properties| ==> properties[i].key != properties[j].key
  }

  lemma {:induction false} InsertKeyAscending(keys: seq<nat>, key: nat)
    requires AscendingKeys(keys) && key !in keys
    ensures AscendingKeys(InsertKey(keys, key))
    ensures forall k :: k in InsertKey(keys, key) <==> k == key || k in keys
  {
    if keys != [] && !(key < keys[0]) {
      InsertKeyAscending(keys[1..], key);
      assert keys == [keys[0]] + keys[1..];
      var rest := InsertKey(keys[1..], key);
      forall i | 0 <= i < |rest|
        ensures keys[0] < rest[i]
      {
        assert rest[i] in rest;
      }
    }
  }

  lemma {:induction false} SortedKeysAscending(properties: seq<Property>)
    requires DistinctProperties(properties)
    ensures AscendingKeys(SortedKeys(properties))
    ensures forall k :: k in SortedKeys(properties) <==> PropertyOf(properties, k).Some?
  {
    if properties != [] {
      SortedKeysAscending(properties[1..]);
      InsertKeyAscending(SortedKeys(properties[1..]), properties[0].key);
    }
  }

  // ----- Canonicalisation -----

  predicate NumberFits(n: real, s: Schema)
    requires s.NumberSchema?
  {
    && (s.integer ==> IsInteger(n))
    && (s.minimum.Some? ==> s.minimum.value <= n)
    && (s.maximum.Some? ==> n <= s.maximum.value)
  }

  predicate KeysFit(fields: seq<Field>, s: Schema)
    requires s.ObjectSchema?
  {
    && (forall i :: 0 <= i < |fields| ==> PropertyOf(s.properties, fields[i].key).Some?)
    && (forall i :: 0 <= i < |s.required| ==> Lookup(fields, s.required[i]).Some?)
  }

  /** The canonical copy, or nothing when the value does not fit its schema. */
  function Canonical(v: Value, s: Schema, depth: nat): Option<Value>
    requires depth <= 11
    decreases 11 - depth, 0, 0
  {
    if depth > 10 then None
    else if v.Null? then if s.nullable then Some(Null) else None
    else
      match s
      case StringSchema(_, min, max) => if v.Str? && min <= |v.s| <= max then Some(v) else None
      case BooleanSchema(_) => if v.Bool? then Some(v) else None
      case NumberSchema(_, _, _, _) => if v.Num? && NumberFits(v.n, s) then Some(v) else None
      case ArraySchema(_, maxItems, items) =>
        if !v.Arr? || |v.items| > maxItems then None
        else
          var copies := CanonicalItems(v.items, items, depth + 1);
          if copies.None? then None else Some(Arr(copies.value))
      case ObjectSchema(_, properties, _) =>
        if !v.Obj? || !KeysFit(v.fields, s) then None
        else
          var copies := CanonicalFields(SortedKeys(properties), v.fields, properties, depth + 1);
          if copies.None? then None else Some(Obj(copies.value))
  }

  function CanonicalItems(items: seq<Value>, s: Schema, depth: nat): Option<seq<Value>>
    requires depth <= 11
    decreases 11 - depth, 1, |items|
  {
    if items == [] then Some([])
    else
      var first, rest := Canonical(items[0], s, depth), CanonicalItems(items[1..], s, depth);
      if first.None? || rest.None? then None else Some([first.value] + rest.value)
  }

  function CanonicalFields(keys: seq<nat>, fields: seq<Field>, properties: seq<Property>, depth: nat): Option<seq<Field>>
    requires depth <= 11
    decreases 11 - depth, 1, |keys|
  {
    if keys == [] then Some([])
    else
      var rest := CanonicalFields(keys[1..], fields, properties, depth);
      var present, schema := Lookup(fields, keys[0]), PropertyOf(properties, keys[0]);
      if rest.None? || present.None? || schema.None? then rest
      else
        var copy := Canonical(present.value, schema.value, depth);
        if copy.None? then None else Some([Field(keys[0], copy.value)] + rest.value)
  }

  /** Schemas whose objects name a property once. */
  predicate WellMade(s: Schema) {
    match s
    case ArraySchema(_, _, items) => WellMade(items)
    case ObjectSchema(_, properties, _) =>
      DistinctProperties(properties) && forall i :: 0 <= i < |properties| ==> WellMade(properties[i].schema)
    case _ => true
  }

  lemma {:induction false} PropertyIsWellMade(properties: seq<Property>, key: nat)
    requires forall i :: 0 <= i < |properties| ==> WellMade(properties[i].schema)
    requires PropertyOf(properties, key).Some?
    ensures WellMade(PropertyOf(properties, key).value)
  {
    if properties[0].key != key {
      PropertyIsWellMade(properties[1..], key);
    }
  }

  // ----- A canonical copy is the sorted copy -----

  lemma {:induction false} CanonicalIsSorted(v: Value, s: Schema, depth: nat)
    requires depth <= 11 && Proper(v) && WellMade(s)
    ensures Canonical(v, s, depth).Some? ==> Canonical(v, s, depth).value == Sorted(v)
    decreases 11 - depth, 0, 0
  {
    if depth <= 10 && Canonical(v, s, depth).Some? {
      if v.Arr? {
        ItemsAreSorted(v.items, s.items, depth + 1);
      } else if v.Obj? {
        SortedKeysAscending(s.properties);
        FieldsAreSorted(SortedKeys(s.properties), v.fields, s.properties, depth + 1);
        var out := CanonicalFields(SortedKeys(s.properties), v.fields, s.properties, depth + 1).value;
        SortedFieldsLookup(v.fields);
        forall key
          ensures Lookup(out, key) == Lookup(SortedFields(v.fields), key)
        {
          if Lookup(v.fields, key).Some? {
            var i := LookupWhere(v.fields, key);
            assert PropertyOf(s.properties, v.fields[i].key).Some?;
          }
        }
        AscendingUnique(out, SortedFields(v.fields));
      }
    }
  }

  lemma {:induction false} ItemsAreSorted(items: seq<Value>, s: Schema, depth: nat)
    requires depth <= 11 && WellMade(s) && forall i :: 0 <= i < |items| ==> Proper(items[i])
    ensures CanonicalItems(items, s, depth).Some? ==> CanonicalItems(items, s, depth).value == SortedItems(items)
    decreases 11 - depth, 1, |items|
  {
    if items != [] {
      CanonicalIsSorted(items[0], s, depth);
      ItemsAreSorted(items[1..], s, depth);
    }
  }

  lemma {:induction false} FieldsAreSorted(keys: seq<nat>, fields: seq<Field>, properties: seq<Property>, depth: nat)
    requires depth <= 11 && AscendingKeys(keys) && DistinctKeys(fields)
    requires forall i :: 0 <= i < |fields| ==> Proper(fields[i].value)
    requires forall i :: 0 <= i < |properties| ==> WellMade(properties[i].schema)
    requires forall k :: k in keys ==> PropertyOf(properties, k).Some?
    requires CanonicalFields(keys, fields, properties, depth).Some?
    ensures var out := CanonicalFields(keys, fields, properties, depth).value;
            && Ascending(out)
            && (forall i :: 0 <= i < |out| ==> out[i].key in keys)
            && (forall key :: Lookup(out, key)
                              == if key in keys && Lookup(fields, key).Some? then Some(Sorted(Lookup(fields, key).value)) else None)
    decreases 11 - depth, 1, |keys|
  {
    if keys != [] {
      var rest := CanonicalFields(keys[1..], fields, properties, depth).value;
      FieldsAreSorted(keys[1..], fields, properties, depth);
      if Lookup(fields, keys[0]).Some? {
        var i := LookupWhere(fields, keys[0]);
        PropertyIsWellMade(properties, keys[0]);
        CanonicalIsSorted(fields[i].value, PropertyOf(properties, keys[0]).value, depth);
        hide Sorted, Canonical, PropertyOf, WellMade, Proper;
        PrependedField(keys, fields, rest, Field(keys[0], Sorted(fields[i].value)));
      } else {
        hide Sorted, Canonical, PropertyOf, WellMade, Proper;
        assert keys == [keys[0]] + keys[1..];
      }
    }
  }

  lemma PrependedField(keys: seq<nat>, fields: seq<Field>, rest: seq<Field>, first: Field)
    requires AscendingKeys(keys) && keys != [] && first.key == keys[0]
    requires Lookup(fields, first.key).Some? && first.value == Sorted(Lookup(fields, first.key).value)
    requires Ascending(rest) && forall i :: 0 <= i < |rest| ==> rest[i].key in keys[1..]
    requires forall key :: Lookup(rest, key)
                           == if key in keys[1..] && Lookup(fields, key).Some? then Some(Sorted(Lookup(fields, key).value)) else None
    ensures var out := [first] + rest;
            && Ascending(out)
            && (forall i :: 0 <= i < |out| ==> out[i].key in keys)
            && (forall key :: Lookup(out, key)
                              == if key in keys && Lookup(fields, key).Some? then Some(Sorted(Lookup(fields, key).value)) else None)
  {
    var out := [first] + rest;
    assert keys == [keys[0]] + keys[1..] && out[1..] == rest;
    hide Sorted;
    forall key
      ensures Lookup(out, key) == if key == first.key then Some(first.value) else Lookup(rest, key)
    {
    }
  }

  // ----- Field order does not matter -----

  lemma {:induction false} CanonicalRespects(v: Value, w: Value, s: Schema, depth: nat)
    requires depth <= 11 && Proper(v) && Proper(w) && SameData(v, w)
    ensures Canonical(v, s, depth) == Canonical(w, s, depth)
    decreases 11 - depth, 0, 0
  {
    if depth <= 10 {
      if v.Arr? && s.ArraySchema? {
        ItemsRespect(v.items, w.items, s.items, depth + 1);
      } else if v.Obj? && s.ObjectSchema? {
        KeysFitRespects(v.fields, w.fields, s);
        FieldsRespect(SortedKeys(s.properties), v.fields, w.fields, s.properties, depth + 1);
      }
    }
  }

  lemma {:induction false} ItemsRespect(a: seq<Value>, b: seq<Value>, s: Schema, depth: nat)
    requires depth <= 11 && Proper(Arr(a)) && Proper(Arr(b)) && SameData(Arr(a), Arr(b))
    ensures CanonicalItems(a, s, depth) == CanonicalItems(b, s, depth)
    decreases 11 - depth, 1, |a|
  {
    if a != [] {
      CanonicalRespects(a[0], b[0], s, depth);
      assert SameData(Arr(a[1..]), Arr(b[1..]));
      ItemsRespect(a[1..], b[1..], s, depth);
    }
  }

  lemma KeysFitRespects(a: seq<Field>, b: seq<Field>, s: Schema)
    requires s.ObjectSchema? && SameData(Obj(a), Obj(b))
    ensures KeysFit(a, s) <==> KeysFit(b, s)
  {
    forall key
      ensures Lookup(a, key).Some? <==> Lookup(b, key).Some?
    {
      SameLookup(a, b, key);
    }
    KnownKeys(a, b, s.properties);
    KnownKeys(b, a, s.properties);
  }

  lemma KnownKeys(a: seq<Field>, b: seq<Field>, properties: seq<Property>)
    requires forall key :: Lookup(a, key).Some? <==> Lookup(b, key).Some?
    ensures (forall i :: 0 <= i < |a| ==> PropertyOf(properties, a[i].key).Some?) ==>
              forall j :: 0 <= j < |b| ==> PropertyOf(properties, b[j].key).Some?
  {
    if forall i :: 0 <= i < |a| ==> PropertyOf(properties, a[i].key).Some? {
      forall j | 0 <= j < |b|
        ensures PropertyOf(properties, b[j].key).Some?
      {
        assert Lookup(b, b[j].key).Some?;
        var i := LookupWhere(a, b[j].key);
        assert PropertyOf(properties, a[i].key).Some?;
      }
    }
  }

  lemma {:induction false} FieldsRespect(keys: seq<nat>, a: seq<Field>, b: seq<Field>, properties: seq<Property>, depth: nat)
    requires depth <= 11 && Proper(Obj(a)) && Proper(Obj(b)) && SameData(Obj(a), Obj(b))
    ensures CanonicalFields(keys, a, properties, depth) == CanonicalFields(keys, b, properties, depth)
    decreases 11 - depth, 1, |keys|
  {
    if keys != [] {
      FieldsRespect(keys[1..], a, b, properties, depth);
      SameLookup(a, b, keys[0]);
      if Lookup(a, keys[0]).Some? && PropertyOf(properties, keys[0]).Some? {
        var i := LookupWhere(a, keys[0]);
        var j := LookupWhere(b, keys[0]);
        CanonicalRespects(a[i].value, b[j].value, PropertyOf(properties, keys[0]).value, depth);
      }
    }
  }

  // ----- What a schema accepts -----

  /** A value of its schema's kind within its limits, to the eleventh level; an object's fields are all declared, fit
      their own schemas, and include the required ones. */
  predicate Fits(v: Value, s: Schema, depth: nat)
    decreases v
  {
    && depth <= 10
    && match v
       case Null => s.nullable
       case Str(text) => s.StringSchema? && s.minLength <= |text| <= s.maxLength
       case Bool(_) => s.BooleanSchema?
       case Num(n) =>
         && s.NumberSchema?
         && (s.integer ==> n.Floor as real == n && -9_007_199_254_740_991 <= n.Floor <= 9_007_199_254_740_991)
         && (s.minimum.Some? ==> n >= s.minimum.value) && (s.maximum.Some? ==> n <= s.maximum.value)
       case Arr(items) =>
         s.ArraySchema? && |items| <= s.maxItems && forall i :: 0 <= i < |items| ==> Fits(items[i], s.items, depth + 1)
       case Obj(fields) =>
         && s.ObjectSchema?
         && (forall i :: 0 <= i < |fields| ==> Declares(s.properties, fields[i].key))
         && (forall i, j :: 0 <= i < |fields| && 0 <= j < |s.properties| && s.properties[j].key == fields[i].key ==>
               Fits(fields[i].value, s.properties[j].schema, depth + 1))
         && (forall i :: 0 <= i < |s.required| ==> HasField(fields, s.required[i]))
  }

  predicate Declares(properties: seq<Property>, key: nat) {
    exists j :: 0 <= j < |properties| && properties[j].key == key
  }

  predicate HasField(fields: seq<Field>, key: nat) {
    exists j :: 0 <= j < |fields| && fields[j].key == key
  }

  lemma {:induction false} PropertyIs(properties: seq<Property>, j: nat)
    requires DistinctProperties(properties) && j < |properties|
    ensures PropertyOf(properties, properties[j].key) == Some(properties[j].schema)
  {
    if j > 0 {
      assert properties[0].key != properties[j].key;
      PropertyIs(properties[1..], j - 1);
    }
  }

  /** A payload has a canonical form exactly when it fits its schema. */
  lemma {:induction false} AcceptsWhatFits(v: Value, s: Schema, depth: nat)
    requires depth <= 11 && Proper(v) && WellMade(s)
    ensures Canonical(v, s, depth).Some? <==> Fits(v, s, depth)
    decreases 11 - depth, 0, 0
  {
    assert v.Arr? ==> forall i :: 0 <= i < |v.items| ==> Proper(v.items[i]);
    assert v.Obj? ==> DistinctKeys(v.fields) && forall i :: 0 <= i < |v.fields| ==> Proper(v.fields[i].value);
    assert s.ArraySchema? ==> WellMade(s.items);
    assert s.ObjectSchema? ==>
        DistinctProperties(s.properties) && forall i :: 0 <= i < |s.properties| ==> WellMade(s.properties[i].schema);
    hide Proper, WellMade, Canonical, CanonicalItems, CanonicalFields, KnownFit, KeysFit, SortedKeys, PropertyOf,
      DistinctProperties, DistinctKeys;
    if depth <= 10 && v.Arr? && s.ArraySchema? {
      ItemsFit(v.items, s.items, depth + 1);
      ArrayAccepts(v, s, depth);
    } else if depth <= 10 && v.Obj? && s.ObjectSchema? {
      hide Fits;
      ObjectAccepts(v, s, depth);
      SortedKeysAscending(s.properties);
      FieldsFit(SortedKeys(s.properties), v.fields, s.properties, depth + 1);
      ObjectFits(v.fields, s, depth);
    } else {
      hide Fits;
      LeafAccepts(v, s, depth);
    }
  }

  lemma ArrayAccepts(v: Value, s: Schema, depth: nat)
    requires depth <= 10 && v.Arr? && s.ArraySchema?
    ensures Canonical(v, s, depth).Some? <==> |v.items| <= s.maxItems && CanonicalItems(v.items, s.items, depth + 1).Some?
  {
    hide CanonicalItems;
  }

  lemma ObjectAccepts(v: Value, s: Schema, depth: nat)
    requires depth <= 10 && v.Obj? && s.ObjectSchema?
    ensures Canonical(v, s, depth).Some?
            <==> KeysFit(v.fields, s) && CanonicalFields(SortedKeys(s.properties), v.fields, s.properties, depth + 1).Some?
  {
    hide KeysFit, CanonicalFields, SortedKeys;
  }

  lemma LeafAccepts(v: Value, s: Schema, depth: nat)
    requires depth <= 11 && (depth > 10 || !((v.Arr? && s.ArraySchema?) || (v.Obj? && s.ObjectSchema?)))
    ensures Canonical(v, s, depth).Some? <==> Fits(v, s, depth)
  {
    hide CanonicalItems, CanonicalFields, SortedKeys, KeysFit;
  }

  lemma {:induction false} ItemsFit(items: seq<Value>, s: Schema, depth: nat)
    requires depth <= 11 && WellMade(s) && forall i :: 0 <= i < |items| ==> Proper(items[i])
    ensures CanonicalItems(items, s, depth).Some? <==> forall i :: 0 <= i < |items| ==> Fits(items[i], s, depth)
    decreases 11 - depth, 1, |items|
  {
    if items != [] {
      AcceptsWhatFits(items[0], s, depth);
      ItemsFit(items[1..], s, depth);
      assert items == [items[0]] + items[1..];
    }
  }

  /** The declared fields among the keys fit their schemas. */
  predicate KnownFit(keys: seq<nat>, fields: seq<Field>, properties: seq<Property>, depth: nat) {
    forall i :: 0 <= i < |fields| && fields[i].key in keys && PropertyOf(properties, fields[i].key).Some? ==>
      Fits(fields[i].value, PropertyOf(properties, fields[i].key).value, depth)
  }

  lemma {:induction false} FieldsFit(keys: seq<nat>, fields: seq<Field>, properties: seq<Property>, depth: nat)
    requires depth <= 11 && DistinctKeys(fields) && forall i :: 0 <= i < |fields| ==> Proper(fields[i].value)
    requires forall i :: 0 <= i < |properties| ==> WellMade(properties[i].schema)
    ensures CanonicalFields(keys, fields, properties, depth).Some? <==> KnownFit(keys, fields, properties, depth)
    decreases 11 - depth, 1, |keys|
  {
    if keys != [] {
      FieldsFit(keys[1..], fields, properties, depth);
      assert keys == [keys[0]] + keys[1..];
      if Lookup(fields, keys[0]).Some? && PropertyOf(properties, keys[0]).Some? {
        var i := LookupWhere(fields, keys[0]);
        PropertyIsWellMade(properties, keys[0]);
        AcceptsWhatFits(fields[i].value, PropertyOf(properties, keys[0]).value, depth);
      }
      hide Fits, Canonical, PropertyOf, WellMade, Proper;
    }
  }

  lemma DeclaredFit(fields: seq<Field>, properties: seq<Property>, depth: nat, i: nat)
    requires DistinctProperties(properties) && i < |fields|
    ensures Declares(properties, fields[i].key) <==> PropertyOf(properties, fields[i].key).Some?
    ensures PropertyOf(properties, fields[i].key).Some? ==>
              ((forall j :: 0 <= j < |properties| && properties[j].key == fields[i].key ==>
                  Fits(fields[i].value, properties[j].schema, depth))
               <==> Fits(fields[i].value, PropertyOf(properties, fields[i].key).value, depth))
  {
    forall j | 0 <= j < |properties| && properties[j].key == fields[i].key
      ensures PropertyOf(properties, fields[i].key) == Some(properties[j].schema)
    {
      PropertyIs(properties, j);
    }
    hide Fits, PropertyOf;
  }

  lemma RequiredIs(fields: seq<Field>, key: nat)
    ensures Lookup(fields, key).Some? <==> HasField(fields, key)
  {
    if Lookup(fields, key).Some? {
      var j := LookupWhere(fields, key);
    }
  }

  lemma FittingObject(fields: seq<Field>, s: Schema, depth: nat)
    requires depth <= 10 && s.ObjectSchema? && DistinctProperties(s.properties) && Fits(Obj(fields), s, depth)
    ensures KeysFit(fields, s) && KnownFit(SortedKeys(s.properties), fields, s.properties, depth + 1)
  {
    forall i | 0 <= i < |fields|
      ensures PropertyOf(s.properties, fields[i].key).Some?
      ensures Fits(fields[i].value, PropertyOf(s.properties, fields[i].key).value, depth + 1)
    {
      assert Declares(s.properties, fields[i].key);
      DeclaredFit(fields, s.properties, depth + 1, i);
    }
    forall i | 0 <= i < |s.required|
      ensures Lookup(fields, s.required[i]).Some?
    {
      assert HasField(fields, s.required[i]);
      RequiredIs(fields, s.required[i]);
    }
    hide Fits, PropertyOf, SortedKeys, Lookup, Declares, HasField;
  }

  lemma KnownObject(fields: seq<Field>, s: Schema, depth: nat)
    requires depth <= 10 && s.ObjectSchema? && DistinctProperties(s.properties)
    requires forall k :: k in SortedKeys(s.properties) <==> PropertyOf(s.properties, k).Some?
    requires KeysFit(fields, s) && KnownFit(SortedKeys(s.properties), fields, s.properties, depth + 1)
    ensures Fits(Obj(fields), s, depth)
  {
    forall i | 0 <= i < |fields|
      ensures Declares(s.properties, fields[i].key)
      ensures forall j :: 0 <= j < |s.properties| && s.properties[j].key == fields[i].key ==>
                Fits(fields[i].value, s.properties[j].schema, depth + 1)
    {
      assert fields[i].key in SortedKeys(s.properties);
      DeclaredFit(fields, s.properties, depth + 1, i);
    }
    forall i | 0 <= i < |s.required|
      ensures HasField(fields, s.required[i])
    {
      RequiredIs(fields, s.required[i]);
    }
    hide PropertyOf, SortedKeys, Lookup, Declares, HasField, KnownFit, KeysFit;
  }

  lemma ObjectFits(fields: seq<Field>, s: Schema, depth: nat)
    requires depth <= 10 && s.ObjectSchema? && DistinctProperties(s.properties)
    requires forall k :: k in SortedKeys(s.properties) <==> PropertyOf(s.properties, k).Some?
    ensures Fits(Obj(fields), s, depth)
            <==> KeysFit(fields, s) && KnownFit(SortedKeys(s.properties), fields, s.properties, depth + 1)
  {
    hide Fits, KeysFit, KnownFit, SortedKeys, PropertyOf;
    if Fits(Obj(fields), s, depth) {
      FittingObject(fields, s, depth);
    }
    if KeysFit(fields, s) && KnownFit(SortedKeys(s.properties), fields, s.properties, depth + 1) {
      KnownObject(fields, s, depth);
    }
  }

  // ----- Serialisation -----

  /** The text a payload serialises to stands for its canonical value; `bytes` measures it. */
  function Serialize(v: Value, s: Schema, bytes: Value -> nat): Option<Value> {
    var copy := Canonical(v, s, 0);
    if copy.None? || bytes(copy.value) > MAX_PAYLOAD_BYTES then None else copy
  }

  /** The stream's own check: parse, serialise again, compare. */
  predicate StreamAccepts(text: Value, s: Schema, bytes: Value -> nat) {
    Serialize(text, s, bytes) == Some(text)
  }

  /** A serialised payload always passes the stream's re-check, and nothing else does. */
  lemma SerializedPassesRecheck(v: Value, s: Schema, bytes: Value -> nat)
    requires Proper(v) && WellMade(s)
    ensures Serialize(v, s, bytes).Some? ==>
              StreamAccepts(Serialize(v, s, bytes).value, s, bytes) && SameData(v, Serialize(v, s, bytes).value)
    ensures StreamAccepts(v, s, bytes) <==> Serialize(v, s, bytes).Some? && v == Sorted(v)
  {
    CanonicalIsSorted(v, s, 0);
    SortedFixpoint(v);
    SortedKeepsData(v);
    CanonicalRespects(v, Sorted(v), s, 0);
  }

  /** A payload serialises exactly when it fits its schema and its key-sorted copy takes at most four kibibytes. */
  lemma SerializesWhatFits(v: Value, s: Schema, bytes: Value -> nat)
    requires Proper(v) && WellMade(s)
    ensures Serialize(v, s, bytes) == if Fits(v, s, 0) && bytes(Sorted(v)) <= 4_096 then Some(Sorted(v)) else None
  {
    AcceptsWhatFits(v, s, 0);
    CanonicalIsSorted(v, s, 0);
    hide Canonical, Fits, Sorted;
  }

  /** Two payloads serialise alike exactly when they hold the same data: field order never matters, anything else
      always does. */
  lemma SerializationDecides(v: Value, w: Value, s: Schema, bytes: Value -> nat)
    requires Proper(v) && Proper(w) && WellMade(s)
    ensures SameData(v, w) ==> Serialize(v, s, bytes) == Serialize(w, s, bytes)
    ensures Serialize(v, s, bytes).Some? && Serialize(v, s, bytes) == Serialize(w, s, bytes) ==> SameData(v, w)
  {
    CanonicalIsSorted(v, s, 0);
    CanonicalIsSorted(w, s, 0);
    SortedDecides(v, w);
    if SameData(v, w) {
      CanonicalRespects(v, w, s, 0);
    }
  }
}
