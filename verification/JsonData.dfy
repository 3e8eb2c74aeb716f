/** JSON values with ordered object fields, and their key-sorted copies. */
module JsonData {
  import opened Contract

  /** Keys are opaque, in the order their spellings sort. */
  datatype Field = Field(key: nat, value: Value)

  datatype Value = Null | Bool(b: bool) | Num(n: real) | Str(s: string) | Arr(items: seq<Value>) | Obj(fields: seq<Field>)

  /** Number.isSafeInteger. */
  predicate IsInteger(n: real) {
    n.Floor as real == n && -MAX_SAFE_INTEGER <= n.Floor <= MAX_SAFE_INTEGER
  }

  function Lookup(fields: seq<Field>, key: nat): (r: Option<Value>)
    ensures r.Some? ==> Field(key, r.value) in fields
    ensures r.None? ==> forall i :: 0 <= i < |fields| ==> fields[i].key != key
  {
    if fields == [] then None
    else if fields[0].key == key then Some(fields[0].value)
    else Lookup(fields[1..], key)
  }

  predicate DistinctKeys(fields: seq<Field>) {
    forall i, j :: 0 <= i < j < |fields| ==> fields[i].key != fields[j].key
  }

  /** No object has a key twice: what parsing and object literals produce. */
  predicate Proper(v: Value) {
    match v
    case Arr(items) => forall i :: 0 <= i < |items| ==> Proper(items[i])
    case Obj(fields) => DistinctKeys(fields) && forall i :: 0 <= i < |fields| ==> Proper(fields[i].value)
    case _ => true
  }

  /** The same data, whatever the order of object fields. */
  predicate SameData(v: Value, w: Value)
    decreases v
  {
    match (v, w)
    case (Arr(a), Arr(b)) => |a| == |b| && forall i :: 0 <= i < |a| ==> SameData(a[i], b[i])
    case (Obj(a), Obj(b)) =>
      && |a| == |b|
      && (forall i :: 0 <= i < |a| ==> Lookup(b, a[i].key).Some? && SameData(a[i].value, Lookup(b, a[i].key).value))
      && (forall j :: 0 <= j < |b| ==> Lookup(a, b[j].key).Some?)
    case _ => v == w
  }

  // ----- The key-sorted copy -----

  function Insert(fields: seq<Field>, f: Field): seq<Field> {
    if fields == [] || f.key < fields[0].key then [f] + fields else [fields[0]] + Insert(fields[1..], f)
  }

  function Sorted(v: Value): Value
    decreases v, 0
  {
    match v
    case Arr(items) => Arr(SortedItems(items))
    case Obj(fields) => Obj(SortedFields(fields))
    case _ => v
  }

  function SortedItems(items: seq<Value>): (r: seq<Value>)
    ensures |r| == |items|
    ensures forall i :: 0 <= i < |items| ==> r[i] == Sorted(items[i])
    decreases items, 1
  {
    if items == [] then [] else [Sorted(items[0])] + SortedItems(items[1..])
  }

  function SortedFields(fields: seq<Field>): seq<Field>
    decreases fields, 1
  {
    if fields == [] then []
    else
      var first := fields[0];
      assert first.value < first;
      Insert(SortedFields(fields[1..]), Field(first.key, Sorted(first.value)))
  }

  predicate Ascending(fields: seq<Field>) {
    forall i, j :: 0 <= i < j < |fields| ==> fields[i].key < fields[j].key
  }

  lemma {:induction false} InsertLookup(fields: seq<Field>, f: Field, key: nat)
    requires Lookup(fields, f.key).None?
    ensures Lookup(Insert(fields, f), key) == if key == f.key then Some(f.value) else Lookup(fields, key)
  {
    if fields != [] && !(f.key < fields[0].key) {
      InsertLookup(fields[1..], f, key);
      var rest := Insert(fields[1..], f);
      assert ([fields[0]] + rest)[1..] == rest;
    } else {
      assert ([f] + fields)[1..] == fields;
    }
  }

  lemma {:induction false} InsertAscending(fields: seq<Field>, f: Field)
    requires Ascending(fields) && Lookup(fields, f.key).None?
    ensures Ascending(Insert(fields, f)) && |Insert(fields, f)| == |fields| + 1
    ensures forall i :: 0 <= i < |Insert(fields, f)| ==> Insert(fields, f)[i] == f || Insert(fields, f)[i] in fields
  {
    if fields != [] && !(f.key < fields[0].key) {
      InsertAscending(fields[1..], f);
      var rest := Insert(fields[1..], f);
      hide Insert, Lookup;
      assert fields[0].key < f.key;
      forall i | 0 <= i < |rest|
        ensures fields[0].key < rest[i].key && (rest[i] == f || rest[i] in fields)
      {
        assert rest[i] == f || rest[i] in fields[1..];
      }
    }
  }

  /** Sorting keeps every key with the sorted copy of its value. */
  lemma {:induction false} SortedFieldsLookup(fields: seq<Field>)
    requires DistinctKeys(fields)
    ensures Ascending(SortedFields(fields)) && |SortedFields(fields)| == |fields|
    ensures forall key :: Lookup(SortedFields(fields), key)
                          == if Lookup(fields, key).Some? then Some(Sorted(Lookup(fields, key).value)) else None
    decreases |fields|
  {
    if fields != [] {
      SortedFieldsLookup(fields[1..]);
      var rest, first := SortedFields(fields[1..]), Field(fields[0].key, Sorted(fields[0].value));
      assert Lookup(rest, first.key).None?;
      InsertAscending(rest, first);
      forall key
        ensures Lookup(Insert(rest, first), key) == if key == first.key then Some(first.value) else Lookup(rest, key)
      {
        InsertLookup(rest, first, key);
      }
      hide Insert;
    }
  }

  /** Ascending fields are determined by what they hold. */
  lemma {:induction false} AscendingUnique(a: seq<Field>, b: seq<Field>)
    requires Ascending(a) && Ascending(b)
    requires forall key :: Lookup(a, key) == Lookup(b, key)
    ensures a == b
  {
    if a != [] {
      assert Lookup(b, a[0].key) == Some(a[0].value);
    }
    if b != [] {
      assert Lookup(a, b[0].key) == Some(b[0].value);
    }
    if a != [] && b != [] {
      assert a[0].key == b[0].key;
      forall key
        ensures Lookup(a[1..], key) == Lookup(b[1..], key)
      {
        assert Lookup(a, key) == Lookup(b, key);
      }
      AscendingUnique(a[1..], b[1..]);
    }
  }

  lemma {:induction false} LookupAt(fields: seq<Field>, i: nat)
    requires DistinctKeys(fields) && i < |fields|
    ensures Lookup(fields, fields[i].key) == Some(fields[i].value)
  {
    if i > 0 {
      assert fields[0].key != fields[i].key;
      LookupAt(fields[1..], i - 1);
    }
  }

  /** Each key a lookup finds sits at one position. */
  lemma {:induction false} LookupWhere(fields: seq<Field>, key: nat) returns (i: nat)
    requires Lookup(fields, key).Some?
    ensures i < |fields| && fields[i].key == key && fields[i].value == Lookup(fields, key).value
  {
    if fields[0].key == key {
      i := 0;
    } else {
      i := LookupWhere(fields[1..], key);
      i := i + 1;
    }
  }

  /** What an entry of the sorted fields holds. */
  lemma SortedFieldAt(fields: seq<Field>, i: nat)
    requires DistinctKeys(fields) && i < |SortedFields(fields)|
    ensures var f := SortedFields(fields)[i];
            Lookup(fields, f.key).Some? && f.value == Sorted(Lookup(fields, f.key).value)
  {
    SortedFieldsLookup(fields);
    LookupAt(SortedFields(fields), i);
    hide Sorted, SortedFields;
  }

  /** Sorting is a fixpoint after one application. */
  lemma {:induction false} SortedFixpoint(v: Value)
    requires Proper(v)
    ensures Proper(Sorted(v)) && Sorted(Sorted(v)) == Sorted(v)
    decreases v
  {
    match v
    case Arr(items) =>
      forall i | 0 <= i < |items|
        ensures Proper(Sorted(items[i])) && Sorted(Sorted(items[i])) == Sorted(items[i])
      {
        SortedFixpoint(items[i]);
      }
      assert SortedItems(SortedItems(items)) == SortedItems(items);
    case Obj(fields) =>
      forall i | 0 <= i < |fields|
        ensures Proper(Sorted(fields[i].value)) && Sorted(Sorted(fields[i].value)) == Sorted(fields[i].value)
      {
        SortedFixpoint(fields[i].value);
      }
      SortedFieldsFixpoint(fields);
    case _ =>
  }

  lemma SortedFieldsFixpoint(fields: seq<Field>)
    requires DistinctKeys(fields)
    requires forall i :: 0 <= i < |fields| ==>
               Proper(Sorted(fields[i].value)) && Sorted(Sorted(fields[i].value)) == Sorted(fields[i].value)
    ensures DistinctKeys(SortedFields(fields)) && SortedFields(SortedFields(fields)) == SortedFields(fields)
    ensures forall i :: 0 <= i < |SortedFields(fields)| ==> Proper(SortedFields(fields)[i].value)
  {
    var once := SortedFields(fields);
    SortedFieldsLookup(fields);
    forall i | 0 <= i < |once|
      ensures Proper(once[i].value)
    {
      SortedFieldAt(fields, i);
      var j := LookupWhere(fields, once[i].key);
    }
    SortedFieldsLookup(once);
    forall key
      ensures Lookup(SortedFields(once), key) == Lookup(once, key)
    {
      if Lookup(fields, key).Some? {
        var j := LookupWhere(fields, key);
      }
    }
    hide Sorted, SortedFields, Proper;
    AscendingUnique(SortedFields(once), once);
  }

  /** Sorted copies decide sameness: two values hold the same data exactly when their sorted copies are equal. */
  lemma {:induction false} SortedDecides(v: Value, w: Value)
    requires Proper(v) && Proper(w)
    ensures SameData(v, w) <==> Sorted(v) == Sorted(w)
    decreases v
  {
    match (v, w)
    case (Arr(a), Arr(b)) =>
      if |a| == |b| {
        forall i | 0 <= i < |a|
          ensures SameData(a[i], b[i]) <==> Sorted(a[i]) == Sorted(b[i])
        {
          SortedDecides(a[i], b[i]);
        }
        assert (forall i :: 0 <= i < |a| ==> Sorted(a[i]) == Sorted(b[i])) <==> SortedItems(a) == SortedItems(b);
      }
    case (Obj(a), Obj(b)) =>
      forall i | 0 <= i < |a| && Lookup(b, a[i].key).Some?
        ensures var x := Lookup(b, a[i].key).value; SameData(a[i].value, x) <==> Sorted(a[i].value) == Sorted(x)
      {
        var j := LookupWhere(b, a[i].key);
        SortedDecides(a[i].value, b[j].value);
      }
      SortedFieldsDecide(a, b);
    case _ =>
  }

  lemma SortedFieldsDecide(a: seq<Field>, b: seq<Field>)
    requires DistinctKeys(a) && DistinctKeys(b)
    requires forall i :: 0 <= i < |a| && Lookup(b, a[i].key).Some? ==>
               (SameData(a[i].value, Lookup(b, a[i].key).value)
                <==> Sorted(a[i].value) == Sorted(Lookup(b, a[i].key).value))
    ensures SameData(Obj(a), Obj(b)) <==> SortedFields(a) == SortedFields(b)
  {
    SortedFieldsLookup(a);
    SortedFieldsLookup(b);
    hide Sorted, SortedFields;
    if SameData(Obj(a), Obj(b)) {
      forall key
        ensures Lookup(SortedFields(a), key) == Lookup(SortedFields(b), key)
      {
        if Lookup(a, key).Some? {
          var i := LookupWhere(a, key);
          assert a[i].key == key;
        }
        if Lookup(b, key).Some? {
          var j := LookupWhere(b, key);
          assert b[j].key == key;
        }
      }
      AscendingUnique(SortedFields(a), SortedFields(b));
    } else if SortedFields(a) == SortedFields(b) {
      forall i | 0 <= i < |a|
        ensures Lookup(b, a[i].key).Some? && SameData(a[i].value, Lookup(b, a[i].key).value)
      {
        LookupAt(a, i);
        assert Lookup(SortedFields(a), a[i].key) == Some(Sorted(a[i].value));
      }
      forall j | 0 <= j < |b|
        ensures Lookup(a, b[j].key).Some?
      {
        LookupAt(b, j);
        assert Lookup(SortedFields(b), b[j].key).Some?;
      }
    }
  }

  /** A value and its sorted copy hold the same data. */
  lemma SortedKeepsData(v: Value)
    requires Proper(v)
    ensures SameData(v, Sorted(v))
  {
    SortedFixpoint(v);
    SortedDecides(v, Sorted(v));
  }

  lemma SameLookup(a: seq<Field>, b: seq<Field>, key: nat)
    requires SameData(Obj(a), Obj(b))
    ensures Lookup(a, key).Some? <==> Lookup(b, key).Some?
    ensures Lookup(a, key).Some? && DistinctKeys(a) ==> SameData(Lookup(a, key).value, Lookup(b, key).value)
  {
    if Lookup(a, key).Some? {
      var i := LookupWhere(a, key);
      assert Lookup(b, a[i].key).Some?;
    }
    if Lookup(b, key).Some? {
      var j := LookupWhere(b, key);
      assert Lookup(a, b[j].key).Some?;
    }
  }
}
