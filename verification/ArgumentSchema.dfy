/** Schemas for command arguments and operation inputs, and their parsers. */
module ArgumentSchema {
  import opened Contract
  import opened JsonData

  datatype Schema = Schema(kind: Kind, optional: bool, fallback: Option<Value>)

  datatype Kind =
    | StringKind(minLength: nat, maxLength: Option<nat>, trim: bool)
    | NumberKind(integer: bool, min: Option<real>, max: Option<real>)
    | BooleanKind
    | EnumKind(choices: seq<string>)
    | ObjectKind(fields: seq<Declared>, allowUnknown: bool)

  datatype Declared = Declared(key: nat, schema: Schema)

  /** A parse gives a value, gives nothing for an optional field left out, or fails. */
  datatype Parsed = Given(value: Value) | Absent | Bad

  // ----- Strings -----

  predicate IsSpace(c: char) {
    var n := c as int;
    n in {0x20, 0x09, 0x0A, 0x0B, 0x0C, 0x0D, 0xA0, 0x1680, 0x2028, 0x2029, 0x202F, 0x205F, 0x3000, 0xFEFF}
    || 0x2000 <= n <= 0x200A
  }

  function TrimStart(s: string): (r: string)
    ensures r == [] || !IsSpace(r[0])
    ensures |r| <= |s|
    ensures s != [] && !IsSpace(s[0]) ==> r == s
    ensures r != [] ==> s != [] && r[|r| - 1] == s[|s| - 1]
  {
    if s == [] || !IsSpace(s[0]) then s else TrimStart(s[1..])
  }

  function TrimEnd(s: string): (r: string)
    ensures r == [] || !IsSpace(r[|r| - 1])
    ensures s != [] && !IsSpace(s[|s| - 1]) ==> r == s
    ensures r != [] ==> s != [] && r[0] == s[0]
  {
    if s == [] || !IsSpace(s[|s| - 1]) then s else TrimEnd(s[..|s| - 1])
  }

  function Trim(s: string): string { TrimEnd(TrimStart(s)) }

  lemma TrimIsFixed(s: string)
    ensures Trim(Trim(s)) == Trim(s)
  {
  }

  // ----- Parsing -----

  function Declaration(fields: seq<Declared>, key: nat): (r: Option<Schema>)
    ensures r.Some? <==> exists i :: 0 <= i < |fields| && fields[i].key == key
  {
    if fields == [] then None
    else if fields[0].key == key then Some(fields[0].schema)
    else Declaration(fields[1..], key)
  }

  /** A primitive value as its parser returns it. */
  function Primitive(kind: Kind, v: Value): Option<Value>
    requires !kind.ObjectKind?
  {
    match kind
    case StringKind(min, max, trim) =>
      if !v.Str? then None
      else
        var s := if trim then Trim(v.s) else v.s;
        if |s| < min || (max.Some? && |s| > max.value) then None else Some(Str(s))
    case NumberKind(integer, min, max) =>
      if v.Num? && (integer ==> IsInteger(v.n)) && (min.Some? ==> min.value <= v.n) && (max.Some? ==> v.n <= max.value)
      then Some(v) else None
    case BooleanKind => if v.Bool? then Some(v) else None
    case EnumKind(choices) => if v.Str? && v.s in choices then Some(v) else None
  }

  function Parse(schema: Schema, v: Option<Value>): Parsed
    decreases schema, 0
  {
    if v.None? then
      if schema.fallback.Some? then Given(schema.fallback.value) else if schema.optional then Absent else Bad
    else if schema.kind.ObjectKind? then
      if !v.value.Obj? || (!schema.kind.allowUnknown && !AllDeclared(v.value.fields, schema.kind.fields)) then Bad
      else
        var known := ParseFields(schema.kind.fields, v.value.fields);
        if known.None? then Bad
        else Given(Obj(known.value + if schema.kind.allowUnknown then Undeclared(v.value.fields, schema.kind.fields) else []))
    else
      var p := Primitive(schema.kind, v.value);
      if p.None? then Bad else Given(p.value)
  }

  predicate AllDeclared(fields: seq<Field>, declared: seq<Declared>) {
    forall i :: 0 <= i < |fields| ==> Declaration(declared, fields[i].key).Some?
  }

  function Undeclared(fields: seq<Field>, declared: seq<Declared>): seq<Field> {
    if fields == [] then []
    else (if Declaration(declared, fields[0].key).None? then [fields[0]] else []) + Undeclared(fields[1..], declared)
  }

  /** The declared fields in order; one that parses to nothing is left out. */
  function ParseFields(declared: seq<Declared>, fields: seq<Field>): Option<seq<Field>>
    decreases declared, 1
  {
    if declared == [] then Some([])
    else
      var d := declared[0];
      assert d.schema < d;
      var first, rest := Parse(d.schema, Lookup(fields, d.key)), ParseFields(declared[1..], fields);
      if first.Bad? || rest.None? then None
      else if first.Absent? then rest
      else Some([Field(d.key, first.value)] + rest.value)
  }

  /** Definitions are checked: fields are declared once, and a fallback is a value its own parser returned. */
  predicate WellDefined(schema: Schema)
    decreases schema
  {
    && (schema.fallback.Some? ==>
          !schema.kind.ObjectKind? && Primitive(schema.kind, schema.fallback.value) == Some(schema.fallback.value))
    && (schema.kind.ObjectKind? ==>
          var fields := schema.kind.fields;
          && (forall i, j :: 0 <= i < j < |fields| ==> fields[i].key != fields[j].key)
          && (forall i :: 0 <= i < |fields| ==> WellDefined(fields[i].schema)))
  }

  /** Defining a primitive schema: a default needs `optional` and goes through the parser. */
  function Define(kind: Kind, optional: bool, raw: Option<Value>): Option<Schema>
    requires !kind.ObjectKind?
  {
    if raw.None? then Some(Schema(kind, optional, None))
    else if !optional || Primitive(kind, raw.value).None? then None
    else Some(Schema(kind, true, Primitive(kind, raw.value)))
  }

  /** A definition without a default is what it says; one with a default is optional, and its default, as parsed, must be
      admitted. */
  lemma DefineLeaves(kind: Kind, optional: bool, raw: Option<Value>)
    requires !kind.ObjectKind?
    ensures Define(kind, optional, raw)
            == if raw.None? then Some(Schema(kind, optional, None))
               else
                 var text := if kind.StringKind? && kind.trim && raw.value.Str? then Str(Trim(raw.value.s)) else raw.value;
                 if optional && Admits(kind, text) then Some(Schema(kind, true, Some(text))) else None
  {
    hide Trim;
  }

  lemma PrimitiveIsFixed(kind: Kind, v: Value)
    requires !kind.ObjectKind?
    ensures Primitive(kind, v).Some? ==> Primitive(kind, Primitive(kind, v).value) == Primitive(kind, v)
  {
    if kind.StringKind? && v.Str? {
      TrimIsFixed(v.s);
    }
  }

  /** Every schema the definition functions return is well defined. */
  lemma DefinedIsWellDefined(kind: Kind, optional: bool, raw: Option<Value>)
    requires !kind.ObjectKind?
    ensures Define(kind, optional, raw).Some? ==> WellDefined(Define(kind, optional, raw).value)
  {
    if raw.Some? {
      PrimitiveIsFixed(kind, raw.value);
    }
  }

  // ----- What a primitive parser accepts -----

  /** Tabs, line ends, the space separators and the byte-order mark. */
  predicate White(c: char) {
    var n := c as int;
    || 9 <= n <= 13 || n == 32 || n == 160 || n == 5_760 || 8_192 <= n <= 8_202
    || n == 8_232 || n == 8_233 || n == 8_239 || n == 8_287 || n == 12_288 || n == 65_279
  }

  lemma SpaceIsWhite(c: char)
    ensures IsSpace(c) <==> White(c)
  {
  }

  /** Trimming takes off white space at both ends and nothing else. */
  lemma TrimTakesOff(s: string)
    ensures exists i, j :: 0 <= i <= j <= |s| && Trim(s) == s[i..j] && (forall k :: 0 <= k < i || j <= k < |s| ==> White(s[k]))
    ensures Trim(s) == [] || (!White(Trim(s)[0]) && !White(Trim(s)[|Trim(s)| - 1]))
  {
    forall c: char
      ensures IsSpace(c) <==> White(c)
    {
      SpaceIsWhite(c);
    }
    hide IsSpace, White;
    var i := TrimmedStart(s);
    var j := TrimmedEnd(s[i..]);
    assert Trim(s) == s[i..][..j] == s[i..i + j];
    assert forall k :: i + j <= k < |s| ==> s[k] == s[i..][k - i];
  }

  lemma {:induction false} TrimmedStart(s: string) returns (i: nat)
    ensures i <= |s| && TrimStart(s) == s[i..] && forall k :: 0 <= k < i ==> IsSpace(s[k])
  {
    i := 0;
    if s != [] && IsSpace(s[0]) {
      var n := TrimmedStart(s[1..]);
      i := n + 1;
      assert s[1..][n..] == s[i..];
      assert forall k :: 1 <= k < i ==> s[k] == s[1..][k - 1];
    }
  }

  lemma {:induction false} TrimmedEnd(s: string) returns (j: nat)
    ensures j <= |s| && TrimEnd(s) == s[..j] && forall k :: j <= k < |s| ==> IsSpace(s[k])
  {
    j := |s|;
    if s != [] && IsSpace(s[|s| - 1]) {
      j := TrimmedEnd(s[..|s| - 1]);
      assert s[..|s| - 1][..j] == s[..j];
    }
  }

  /** What a primitive argument must be to be accepted as it is, a string after any trimming. */
  predicate Admits(kind: Kind, v: Value) {
    match kind
    case StringKind(min, max, _) => v.Str? && |v.s| >= min && (max.None? || |v.s| <= max.value)
    case NumberKind(integer, min, max) =>
      && v.Num? && (min.None? || v.n >= min.value) && (max.None? || v.n <= max.value)
      && (integer ==> v.n.Floor as real == v.n && -9_007_199_254_740_991 <= v.n.Floor <= 9_007_199_254_740_991)
    case BooleanKind => v.Bool?
    case EnumKind(choices) => v.Str? && exists i :: 0 <= i < |choices| && choices[i] == v.s
    case ObjectKind(_, _) => false
  }

  /** A given primitive argument parses to itself, a trimmed string to its trimmed text, exactly when that is admitted; one
      left out parses to the default, to nothing when it is optional, and otherwise not at all. */
  lemma PrimitiveParses(schema: Schema, v: Option<Value>)
    requires !schema.kind.ObjectKind?
    ensures Parse(schema, v)
            == if v.None? then if schema.fallback.Some? then Given(schema.fallback.value) else if schema.optional then Absent else Bad
               else
                 var text := if schema.kind.StringKind? && schema.kind.trim && v.value.Str? then Str(Trim(v.value.s)) else v.value;
                 if Admits(schema.kind, text) then Given(text) else Bad
  {
    hide Trim;
  }

  // ----- What a parsed object holds -----

  lemma {:induction false} LookupConcat(a: seq<Field>, b: seq<Field>, key: nat)
    ensures Lookup(a + b, key) == if Lookup(a, key).Some? then Lookup(a, key) else Lookup(b, key)
  {
    if a == [] {
      assert a + b == b;
    } else {
      assert (a + b)[1..] == a[1..] + b;
      LookupConcat(a[1..], b, key);
    }
  }

  lemma {:induction false} UndeclaredLookup(fields: seq<Field>, declared: seq<Declared>, key: nat)
    ensures Lookup(Undeclared(fields, declared), key)
            == if Declaration(declared, key).None? then Lookup(fields, key) else None
  {
    if fields != [] {
      UndeclaredLookup(fields[1..], declared, key);
      LookupConcat(if Declaration(declared, fields[0].key).None? then [fields[0]] else [],
                   Undeclared(fields[1..], declared), key);
    }
  }

  lemma DistinctCons(f: Field, rest: seq<Field>)
    requires DistinctKeys(rest) && Lookup(rest, f.key).None?
    ensures DistinctKeys([f] + rest)
  {
  }

  lemma {:induction false} UndeclaredDistinct(fields: seq<Field>, declared: seq<Declared>)
    requires DistinctKeys(fields)
    ensures DistinctKeys(Undeclared(fields, declared))
  {
    if fields != [] {
      UndeclaredDistinct(fields[1..], declared);
      UndeclaredLookup(fields[1..], declared, fields[0].key);
      LookupTail(fields);
      DistinctCons(fields[0], Undeclared(fields[1..], declared));
    }
  }

  lemma LookupTail(fields: seq<Field>)
    requires DistinctKeys(fields) && fields != []
    ensures Lookup(fields[1..], fields[0].key).None?
  {
    forall i | 0 <= i < |fields[1..]|
      ensures fields[1..][i].key != fields[0].key
    {
    }
  }

  function GivenValue(p: Parsed): Option<Value> { if p.Given? then Some(p.value) else None }

  /** What the declared part of a parsed object holds. */
  lemma {:induction false} ParseFieldsLookup(declared: seq<Declared>, fields: seq<Field>, key: nat)
    requires forall i, j :: 0 <= i < j < |declared| ==> declared[i].key != declared[j].key
    requires ParseFields(declared, fields).Some?
    ensures Lookup(ParseFields(declared, fields).value, key)
            == if Declaration(declared, key).Some?
               then GivenValue(Parse(Declaration(declared, key).value, Lookup(fields, key))) else None
  {
    if declared != [] {
      ParseFieldsLookup(declared[1..], fields, key);
    }
  }

  lemma {:induction false} ParseFieldsDistinct(declared: seq<Declared>, fields: seq<Field>)
    requires forall i, j :: 0 <= i < j < |declared| ==> declared[i].key != declared[j].key
    requires ParseFields(declared, fields).Some?
    ensures DistinctKeys(ParseFields(declared, fields).value)
  {
    if declared != [] {
      ParseFieldsDistinct(declared[1..], fields);
      ParseFieldsLookup(declared[1..], fields, declared[0].key);
    }
  }

  lemma {:induction false} ParseFieldsSucceeds(declared: seq<Declared>, fields: seq<Field>)
    ensures ParseFields(declared, fields).Some?
            <==> forall i :: 0 <= i < |declared| ==> !Parse(declared[i].schema, Lookup(fields, declared[i].key)).Bad?
  {
    if declared != [] {
      ParseFieldsSucceeds(declared[1..], fields);
    }
  }

  predicate ObjectFits(kind: Kind, fields: seq<Field>)
    requires kind.ObjectKind?
  {
    && (kind.allowUnknown || AllDeclared(fields, kind.fields))
    && (forall i :: 0 <= i < |kind.fields| ==> !Parse(kind.fields[i].schema, Lookup(fields, kind.fields[i].key)).Bad?)
  }

  /** What a parsed object holds at a key: the declared field as parsed, or an allowed unknown one as it was. */
  function Held(kind: Kind, fields: seq<Field>, key: nat): Option<Value>
    requires kind.ObjectKind?
  {
    var d := Declaration(kind.fields, key);
    if d.Some? then GivenValue(Parse(d.value, Lookup(fields, key)))
    else if kind.allowUnknown then Lookup(fields, key) else None
  }

  lemma ParsedObject(schema: Schema, fields: seq<Field>)
    requires WellDefined(schema) && schema.kind.ObjectKind? && DistinctKeys(fields)
    ensures Parse(schema, Some(Obj(fields))).Given? <==> ObjectFits(schema.kind, fields)
    ensures !Parse(schema, Some(Obj(fields))).Absent?
    ensures ObjectFits(schema.kind, fields) ==>
              var out := Parse(schema, Some(Obj(fields))).value;
              && out.Obj? && DistinctKeys(out.fields)
              && forall key :: Lookup(out.fields, key) == Held(schema.kind, fields, key)
  {
    var kind := schema.kind;
    ParseFieldsSucceeds(kind.fields, fields);
    if ObjectFits(kind, fields) {
      var known := ParseFields(kind.fields, fields).value;
      var extra := if kind.allowUnknown then Undeclared(fields, kind.fields) else [];
      ParseFieldsDistinct(kind.fields, fields);
      UndeclaredDistinct(fields, kind.fields);
      forall key
        ensures Lookup(known + extra, key) == Held(kind, fields, key)
        ensures Lookup(known, key).Some? ==> Lookup(extra, key).None?
      {
        ParseFieldsLookup(kind.fields, fields, key);
        UndeclaredLookup(fields, kind.fields, key);
        LookupConcat(known, extra, key);
      }
      ConcatDistinct(known, extra);
    }
  }

  lemma ConcatDistinct(a: seq<Field>, b: seq<Field>)
    requires DistinctKeys(a) && DistinctKeys(b)
    requires forall key :: Lookup(a, key).Some? ==> Lookup(b, key).None?
    ensures DistinctKeys(a + b)
  {
    forall i, j | 0 <= i < j < |a + b|
      ensures (a + b)[i].key != (a + b)[j].key
    {
      if i < |a| <= j {
        LookupAt(a, i);
        LookupAt(b, j - |a|);
      }
    }
  }

  // ----- Parsing twice, and parsing reordered -----

  lemma SameByLookups(a: seq<Field>, b: seq<Field>)
    requires Proper(Obj(a)) && Proper(Obj(b))
    requires forall key :: Lookup(a, key).Some? <==> Lookup(b, key).Some?
    requires forall key :: Lookup(a, key).Some? ==> SameData(Lookup(a, key).value, Lookup(b, key).value)
    ensures SameData(Obj(a), Obj(b))
  {
    hide Sorted, SortedFields, Insert;
    SortedFieldsLookup(a);
    SortedFieldsLookup(b);
    forall key
      ensures Lookup(SortedFields(a), key) == Lookup(SortedFields(b), key)
    {
      if Lookup(a, key).Some? {
        var i := LookupWhere(a, key);
        var j := LookupWhere(b, key);
        SortedDecides(a[i].value, b[j].value);
      }
    }
    AscendingUnique(SortedFields(a), SortedFields(b));
    forall i | 0 <= i < |a|
      ensures Lookup(b, a[i].key).Some? && SameData(a[i].value, Lookup(b, a[i].key).value)
    {
      LookupAt(a, i);
    }
    forall j | 0 <= j < |b|
      ensures Lookup(a, b[j].key).Some?
    {
      LookupAt(b, j);
    }
  }

  lemma {:induction false} DeclarationAt(fields: seq<Declared>, key: nat) returns (i: nat)
    requires Declaration(fields, key).Some?
    ensures i < |fields| && fields[i].key == key && fields[i].schema == Declaration(fields, key).value
  {
    if fields[0].key == key {
      i := 0;
    } else {
      i := DeclarationAt(fields[1..], key);
      i := i + 1;
    }
  }

  lemma ProperFields(fields: seq<Field>)
    requires DistinctKeys(fields) && forall key :: Lookup(fields, key).Some? ==> Proper(Lookup(fields, key).value)
    ensures Proper(Obj(fields))
  {
    forall i | 0 <= i < |fields|
      ensures Proper(fields[i].value)
    {
      LookupAt(fields, i);
    }
  }

  lemma PropersLookup(fields: seq<Field>, key: nat)
    requires Proper(Obj(fields)) && Lookup(fields, key).Some?
    ensures Proper(Lookup(fields, key).value)
  {
    var i := LookupWhere(fields, key);
  }

  /** Parsing gives proper values. */
  lemma {:induction false} ParseIsProper(schema: Schema, v: Option<Value>)
    requires WellDefined(schema) && (v.Some? ==> Proper(v.value))
    ensures Parse(schema, v).Given? ==> Proper(Parse(schema, v).value)
    ensures Parse(schema, v).Absent? ==> v.None?
    decreases schema
  {
    if v.Some? && v.value.Obj? && schema.kind.ObjectKind? {
      var fields, kind := v.value.fields, schema.kind;
      ParsedObject(schema, fields);
      if ObjectFits(kind, fields) {
        forall key
          ensures Held(kind, fields, key).Some? ==> Proper(Held(kind, fields, key).value)
        {
          if Lookup(fields, key).Some? {
            PropersLookup(fields, key);
          }
          if Declaration(kind.fields, key).Some? {
            var i := DeclarationAt(kind.fields, key);
            ParseIsProper(kind.fields[i].schema, Lookup(fields, key));
          }
        }
        ProperFields(Parse(schema, v).value.fields);
      }
    }
  }

  /** One declared field or unknown entry of a reordered object. */
  lemma {:induction false} HeldRespects(schema: Schema, a: seq<Field>, b: seq<Field>, key: nat)
    requires WellDefined(schema) && schema.kind.ObjectKind?
    requires Proper(Obj(a)) && Proper(Obj(b)) && SameData(Obj(a), Obj(b))
    ensures var kind := schema.kind;
            && (Held(kind, a, key).Some? <==> Held(kind, b, key).Some?)
            && (Held(kind, a, key).Some? ==> SameData(Held(kind, a, key).value, Held(kind, b, key).value))
            && (Declaration(kind.fields, key).Some? ==>
                  var d := Declaration(kind.fields, key).value;
                  Parse(d, Lookup(a, key)).Bad? <==> Parse(d, Lookup(b, key)).Bad?)
    decreases schema, 0
  {
    SameLookup(a, b, key);
    if Lookup(a, key).Some? {
      PropersLookup(a, key);
      PropersLookup(b, key);
    }
    if Declaration(schema.kind.fields, key).Some? {
      var i := DeclarationAt(schema.kind.fields, key);
      var d := schema.kind.fields[i].schema;
      ParseIsProper(d, Lookup(a, key));
      ParseIsProper(d, Lookup(b, key));
      if Lookup(a, key).Some? {
        ParseRespects(d, Lookup(a, key).value, Lookup(b, key).value);
      } else if Parse(d, None).Given? {
        SameItself(Parse(d, None).value);
      }
    }
  }

  lemma DeclaredByLookup(fields: seq<Field>, declared: seq<Declared>)
    ensures AllDeclared(fields, declared) ==> forall key :: Lookup(fields, key).Some? ==> Declaration(declared, key).Some?
    ensures (forall key :: Lookup(fields, key).Some? ==> Declaration(declared, key).Some?) ==> AllDeclared(fields, declared)
  {
    if AllDeclared(fields, declared) {
      forall key | Lookup(fields, key).Some?
        ensures Declaration(declared, key).Some?
      {
        var i := LookupWhere(fields, key);
        assert Declaration(declared, fields[i].key).Some?;
      }
    }
    if forall key :: Lookup(fields, key).Some? ==> Declaration(declared, key).Some? {
      forall i | 0 <= i < |fields|
        ensures Declaration(declared, fields[i].key).Some?
      {
        assert Lookup(fields, fields[i].key).Some?;
      }
    }
  }

  lemma FitRespects(kind: Kind, a: seq<Field>, b: seq<Field>)
    requires kind.ObjectKind?
    requires forall i, j :: 0 <= i < j < |kind.fields| ==> kind.fields[i].key != kind.fields[j].key
    requires forall key :: Lookup(a, key).Some? <==> Lookup(b, key).Some?
    requires forall i :: 0 <= i < |kind.fields| ==>
               var d := kind.fields[i];
               Parse(d.schema, Lookup(a, d.key)).Bad? <==> Parse(d.schema, Lookup(b, d.key)).Bad?
    ensures ObjectFits(kind, a) <==> ObjectFits(kind, b)
  {
    DeclaredByLookup(a, kind.fields);
    DeclaredByLookup(b, kind.fields);
    hide AllDeclared;
  }

  lemma {:induction false} DeclaredIs(fields: seq<Declared>, i: nat)
    requires forall i, j :: 0 <= i < j < |fields| ==> fields[i].key != fields[j].key
    requires i < |fields|
    ensures Declaration(fields, fields[i].key) == Some(fields[i].schema)
  {
    if i > 0 {
      assert fields[0].key != fields[i].key;
      DeclaredIs(fields[1..], i - 1);
    }
  }

  /** Reordering an argument's fields changes neither whether it parses nor what data it parses to. */
  lemma {:induction false} ParseRespects(schema: Schema, v: Value, w: Value)
    requires WellDefined(schema) && Proper(v) && Proper(w) && SameData(v, w)
    ensures Parse(schema, Some(v)).Given? <==> Parse(schema, Some(w)).Given?
    ensures Parse(schema, Some(v)).Given? ==> SameData(Parse(schema, Some(v)).value, Parse(schema, Some(w)).value)
    decreases schema, 1
  {
    if schema.kind.ObjectKind? && v.Obj? {
      forall key
        ensures Lookup(v.fields, key).Some? <==> Lookup(w.fields, key).Some?
        ensures Held(schema.kind, v.fields, key).Some? <==> Held(schema.kind, w.fields, key).Some?
        ensures Held(schema.kind, v.fields, key).Some? ==>
                  SameData(Held(schema.kind, v.fields, key).value, Held(schema.kind, w.fields, key).value)
      {
        HeldRespects(schema, v.fields, w.fields, key);
        SameLookup(v.fields, w.fields, key);
      }
      forall i | 0 <= i < |schema.kind.fields|
        ensures var d := schema.kind.fields[i];
                Parse(d.schema, Lookup(v.fields, d.key)).Bad? <==> Parse(d.schema, Lookup(w.fields, d.key)).Bad?
      {
        HeldRespects(schema, v.fields, w.fields, schema.kind.fields[i].key);
        DeclaredIs(schema.kind.fields, i);
      }
      FitRespects(schema.kind, v.fields, w.fields);
      ObjectsRespect(schema, v.fields, w.fields);
    } else if !schema.kind.ObjectKind? && Parse(schema, Some(v)).Given? {
      ParseIsProper(schema, Some(v));
      SameItself(Parse(schema, Some(v)).value);
    }
  }

  lemma ObjectsRespect(schema: Schema, a: seq<Field>, b: seq<Field>)
    requires WellDefined(schema) && schema.kind.ObjectKind? && Proper(Obj(a)) && Proper(Obj(b))
    requires ObjectFits(schema.kind, a) <==> ObjectFits(schema.kind, b)
    requires forall key :: Held(schema.kind, a, key).Some? <==> Held(schema.kind, b, key).Some?
    requires forall key :: Held(schema.kind, a, key).Some? ==>
               SameData(Held(schema.kind, a, key).value, Held(schema.kind, b, key).value)
    ensures Parse(schema, Some(Obj(a))).Given? <==> Parse(schema, Some(Obj(b))).Given?
    ensures Parse(schema, Some(Obj(a))).Given? ==>
              SameData(Parse(schema, Some(Obj(a))).value, Parse(schema, Some(Obj(b))).value)
  {
    ParsedObject(schema, a);
    ParsedObject(schema, b);
    ParseIsProper(schema, Some(Obj(a)));
    ParseIsProper(schema, Some(Obj(b)));
    hide Parse, Held, ObjectFits;
    if ObjectFits(schema.kind, a) {
      SameByLookups(Parse(schema, Some(Obj(a))).value.fields, Parse(schema, Some(Obj(b))).value.fields);
    }
  }

  lemma SameItself(v: Value)
    requires Proper(v)
    ensures SameData(v, v)
  {
    SortedDecides(v, v);
  }

  /** Parsing what a parse gave gives the same data: parsers are idempotent. */
  lemma {:induction false} ParseIsIdempotent(schema: Schema, v: Option<Value>)
    requires WellDefined(schema) && (v.Some? ==> Proper(v.value)) && Parse(schema, v).Given?
    ensures var p := Parse(schema, v).value;
            Proper(p) && Parse(schema, Some(p)).Given? && SameData(p, Parse(schema, Some(p)).value)
    decreases schema
  {
    var p := Parse(schema, v).value;
    ParseIsProper(schema, v);
    if schema.kind.ObjectKind? {
      var kind, fields := schema.kind, v.value.fields;
      ParsedObject(schema, fields);
      forall key
        ensures Held(kind, p.fields, key).Some? <==> Held(kind, fields, key).Some?
        ensures Held(kind, fields, key).Some? ==> SameData(Held(kind, fields, key).value, Held(kind, p.fields, key).value)
        ensures Declaration(kind.fields, key).Some? ==>
                  !Parse(Declaration(kind.fields, key).value, Lookup(p.fields, key)).Bad?
      {
        if Lookup(fields, key).Some? {
          PropersLookup(fields, key);
        }
        if Declaration(kind.fields, key).Some? {
          var i := DeclarationAt(kind.fields, key);
          DeclaredIs(kind.fields, i);
          ParseIsProper(kind.fields[i].schema, Lookup(fields, key));
          if Held(kind, fields, key).Some? {
            ParseIsIdempotent(kind.fields[i].schema, Lookup(fields, key));
          }
        } else if Held(kind, fields, key).Some? {
          SameItself(Held(kind, fields, key).value);
        }
      }
      forall i | 0 <= i < |kind.fields|
        ensures !Parse(kind.fields[i].schema, Lookup(p.fields, kind.fields[i].key)).Bad?
      {
        DeclaredIs(kind.fields, i);
      }
      DeclaredByLookup(p.fields, kind.fields);
      assert ObjectFits(kind, p.fields);
      ParsedObject(schema, p.fields);
      ParseIsProper(schema, Some(p));
      SameByLookups(p.fields, Parse(schema, Some(p)).value.fields);
    } else {
      if v.Some? {
        PrimitiveIsFixed(schema.kind, v.value);
      }
      SameItself(p);
    }
  }
}
