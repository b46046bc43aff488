/** The closed-schema validator (internal/herdrapi/schema.go), for any schema. */
module Validator {
  import opened Json
  import opened Patterns
  import opened Prelude

  /** The field checkers. Leaf checkers look at one value; the others descend. */
  datatype Checker =
    | Literal(want: string)
    | Match(pattern: Pattern)
    | OneOf(allowed: set<string>)
    | NullOrOneOf(allowed: set<string>)
    | AnyString
    | AnyNumber
    | AnyBool
    | StatusOrLabel
    | Object(schema: Schema)
    | ArrayOf(schema: Schema)
    | Tokens(rules: map<string, Checker>)

  datatype FieldSpec = FieldSpec(required: bool, check: Checker)

  /** The closed set of fields one kind of object may carry. */
  datatype Schema = Schema(specs: map<string, FieldSpec>)

  datatype Part = Key(key: string) | Index(i: nat)
  type Path = seq<Part>

  datatype Reason =
    | UnknownField
    | RequiredMissing
    | UnknownToken
    | WrongType(expected: Checker)
    | WrongValue(expected: Checker)

  datatype Violation = Violation(path: Path, reason: Reason)

  /** What a leaf checker has to say about a value. */
  function Complaint(c: Checker, v: Json): Option<Reason> {
    match c
    case Literal(want) => if !v.Str? then Some(WrongType(c)) else if v.s != want then Some(WrongValue(c)) else None
    case Match(p) => if !v.Str? then Some(WrongType(c)) else if !Matches(p, v.s) then Some(WrongValue(c)) else None
    case OneOf(allowed) =>
      if !v.Str? then Some(WrongType(c)) else if v.s !in allowed then Some(WrongValue(c)) else None
    case NullOrOneOf(allowed) =>
      if v.Null? then None
      else if !v.Str? then Some(WrongType(c)) else if v.s !in allowed then Some(WrongValue(c)) else None
    case AnyString => if !v.Str? then Some(WrongType(c)) else None
    case AnyNumber => if !v.Num? then Some(WrongType(c)) else None
    case AnyBool => if !v.Bool? then Some(WrongType(c)) else None
    case StatusOrLabel =>
      if !v.Str? then Some(WrongType(c))
      else if !Matches(Label, v.s) && v.s !in STATUS_WORDS then Some(WrongValue(c)) else None
    case _ => None
  }

  predicate IsLeaf(c: Checker) {
    !c.Object? && !c.ArrayOf? && !c.Tokens?
  }

  // What the validator reports, as a multiset.

  function Check(c: Checker, path: Path, v: Json): multiset<Violation>
    decreases v
  {
    match c
    case Object(schema) =>
      if v.Obj? then Fields(schema, path, v.fields) + Missing(schema, path, v.fields)
      else multiset{Violation(path, WrongType(c))}
    case ArrayOf(schema) =>
      if v.Arr? then Items(schema, path, v.items) else multiset{Violation(path, WrongType(c))}
    case Tokens(rules) =>
      if v.Null? then multiset{}
      else if v.Obj? then TokenFields(rules, path, v.fields) else multiset{Violation(path, WrongType(c))}
    case _ =>
      var r := Complaint(c, v);
      if r.Some? then multiset{Violation(path, r.value)} else multiset{}
  }

  function OneField(schema: Schema, path: Path, f: Field): multiset<Violation>
    decreases f
  {
    if f.key in schema.specs then Check(schema.specs[f.key].check, path + [Key(f.key)], f.value)
    else multiset{Violation(path + [Key(f.key)], UnknownField)}
  }

  function Fields(schema: Schema, path: Path, fields: seq<Field>): multiset<Violation>
    decreases fields
  {
    if fields == [] then multiset{}
    else OneField(schema, path, fields[0]) + Fields(schema, path, fields[1..])
  }

  function MissingNames(schema: Schema, fields: seq<Field>): set<string> {
    set name | name in schema.specs && schema.specs[name].required && name !in Keys(fields)
  }

  function Missing(schema: Schema, path: Path, fields: seq<Field>): multiset<Violation> {
    multiset(MissingAt(path, MissingNames(schema, fields)))
  }

  function MissingAt(path: Path, names: set<string>): set<Violation> {
    set name | name in names :: Violation(path + [Key(name)], RequiredMissing)
  }

  lemma MissingOneMore(path: Path, names: set<string>, name: string)
    requires name !in names
    ensures MissingAt(path, names + {name}) == MissingAt(path, names) + {Violation(path + [Key(name)], RequiredMissing)}
    ensures Violation(path + [Key(name)], RequiredMissing) !in MissingAt(path, names)
  {
    forall other | other in names
      ensures path + [Key(other)] != path + [Key(name)]
    {
      assert (path + [Key(other)])[|path|] != (path + [Key(name)])[|path|];
    }
  }

  lemma MissingGrows(path: Path, names: set<string>, name: string)
    requires name !in names
    ensures multiset(MissingAt(path, names + {name}))
         == multiset(MissingAt(path, names)) + multiset{Violation(path + [Key(name)], RequiredMissing)}
  {
    MissingOneMore(path, names, name);
  }

  function Items(schema: Schema, path: Path, items: seq<Json>): multiset<Violation>
    decreases items
  {
    if items == [] then multiset{}
    else
      var n := |items| - 1;
      Items(schema, path, items[..n]) + Check(Object(schema), path + [Index(n)], items[n])
  }

  function OneToken(rules: map<string, Checker>, path: Path, f: Field): multiset<Violation>
    decreases f
  {
    if f.key in rules then Check(rules[f.key], path + [Key(f.key)], f.value)
    else multiset{Violation(path + [Key(f.key)], UnknownToken)}
  }

  function TokenFields(rules: map<string, Checker>, path: Path, fields: seq<Field>): multiset<Violation>
    decreases fields
  {
    if fields == [] then multiset{}
    else OneToken(rules, path, fields[0]) + TokenFields(rules, path, fields[1..])
  }

  // The source's algorithm: append to a shared list, visiting fields in map order.

  lemma {:induction false} FieldsPick(schema: Schema, path: Path, fields: seq<Field>, i: nat)
    requires i < |fields|
    ensures Fields(schema, path, fields)
         == OneField(schema, path, fields[i]) + Fields(schema, path, fields[..i] + fields[i + 1..])
  {
    var rest := fields[..i] + fields[i + 1..];
    if i == 0 {
      assert rest == fields[1..];
    } else {
      FieldsPick(schema, path, fields[1..], i - 1);
      assert rest[1..] == fields[1..][..i - 1] + fields[1..][i..];
    }
  }

  lemma {:induction false} TokenFieldsPick(rules: map<string, Checker>, path: Path, fields: seq<Field>, i: nat)
    requires i < |fields|
    ensures TokenFields(rules, path, fields)
         == OneToken(rules, path, fields[i]) + TokenFields(rules, path, fields[..i] + fields[i + 1..])
  {
    var rest := fields[..i] + fields[i + 1..];
    if i == 0 {
      assert rest == fields[1..];
    } else {
      TokenFieldsPick(rules, path, fields[1..], i - 1);
      assert rest[1..] == fields[1..][..i - 1] + fields[1..][i..];
    }
  }

  lemma StillAmong(fields: seq<Field>, rest: seq<Field>, i: nat)
    requires i < |rest| && forall f | f in rest :: f in fields
    ensures forall f | f in rest[..i] + rest[i + 1..] :: f in fields
  {
  }

  class Report {
    var out: seq<Violation>

    constructor ()
      ensures out == []
    {
      out := [];
    }

    method Add(path: Path, reason: Reason)
      modifies this
      ensures out == old(out) + [Violation(path, reason)]
    {
      out := out + [Violation(path, reason)];
    }

    method CheckValue(c: Checker, path: Path, v: Json)
      modifies this
      ensures old(out) <= out
      ensures multiset(out) == multiset(old(out)) + Check(c, path, v)
      decreases v, 1
    {
      match c {
        case Object(schema) =>
          if v.Obj? {
            ValidateObject(path, v.fields, schema);
          } else {
            Add(path, WrongType(c));
          }
        case ArrayOf(schema) =>
          if v.Arr? {
            CheckItems(path, v.items, schema);
          } else {
            Add(path, WrongType(c));
          }
        case Tokens(rules) =>
          if v.Obj? {
            CheckTokens(path, v.fields, rules);
          } else if !v.Null? {
            Add(path, WrongType(c));
          }
        case _ =>
          CheckLeaf(c, path, v);
      }
    }

    method CheckLeaf(c: Checker, path: Path, v: Json)
      requires IsLeaf(c)
      modifies this
      ensures old(out) <= out
      ensures multiset(out) == multiset(old(out)) + Check(c, path, v)
      decreases v, 0
    {
      var r := Complaint(c, v);
      if r.Some? {
        Add(path, r.value);
      }
    }

    /** Two loops: over the object's fields and over the schema's required names, each in an
        order of the map's choosing. */
    method ValidateObject(path: Path, fields: seq<Field>, schema: Schema)
      modifies this
      ensures old(out) <= out
      ensures multiset(out) == multiset(old(out)) + Fields(schema, path, fields) + Missing(schema, path, fields)
      decreases fields
    {
      var rest := fields;
      while rest != []
        invariant forall f | f in rest :: f in fields
        invariant old(out) <= out
        invariant multiset(out) + Fields(schema, path, rest) == multiset(old(out)) + Fields(schema, path, fields)
        decreases |rest|
      {
        var i: nat :| i < |rest|;
        assert rest[i] in fields;
        FieldsPick(schema, path, rest, i);
        CheckField(path, rest[i], schema);
        StillAmong(fields, rest, i);
        rest := rest[..i] + rest[i + 1..];
      }
      ReportMissing(path, fields, schema);
    }

    method CheckField(path: Path, f: Field, schema: Schema)
      modifies this
      ensures old(out) <= out
      ensures multiset(out) == multiset(old(out)) + OneField(schema, path, f)
      decreases f
    {
      if f.key in schema.specs {
        CheckValue(schema.specs[f.key].check, path + [Key(f.key)], f.value);
      } else {
        Add(path + [Key(f.key)], UnknownField);
      }
    }

    method ReportMissing(path: Path, fields: seq<Field>, schema: Schema)
      modifies this
      ensures old(out) <= out
      ensures multiset(out) == multiset(old(out)) + Missing(schema, path, fields)
    {
      var names := schema.specs.Keys;
      ghost var missing: set<string> := {};
      while names != {}
        invariant names <= schema.specs.Keys
        invariant old(out) <= out
        invariant missing == MissingNames(schema, fields) - names
        invariant multiset(out) == multiset(old(out)) + multiset(MissingAt(path, missing))
      {
        var name :| name in names;
        if schema.specs[name].required && name !in Keys(fields) {
          MissingGrows(path, missing, name);
          Add(path + [Key(name)], RequiredMissing);
          missing := missing + {name};
        }
        names := names - {name};
      }
      assert missing == MissingNames(schema, fields);
    }

    method CheckItems(path: Path, items: seq<Json>, schema: Schema)
      modifies this
      ensures old(out) <= out
      ensures multiset(out) == multiset(old(out)) + Items(schema, path, items)
      decreases items
    {
      for i := 0 to |items|
        invariant old(out) <= out
        invariant multiset(out) == multiset(old(out)) + Items(schema, path, items[..i])
      {
        assert items[..i + 1][..i] == items[..i];
        CheckValue(Object(schema), path + [Index(i)], items[i]);
      }
      assert items[..|items|] == items;
    }

    method CheckTokens(path: Path, fields: seq<Field>, rules: map<string, Checker>)
      modifies this
      ensures old(out) <= out
      ensures multiset(out) == multiset(old(out)) + TokenFields(rules, path, fields)
      decreases fields
    {
      var rest := fields;
      while rest != []
        invariant forall f | f in rest :: f in fields
        invariant old(out) <= out
        invariant multiset(out) + TokenFields(rules, path, rest)
               == multiset(old(out)) + TokenFields(rules, path, fields)
        decreases |rest|
      {
        var i: nat :| i < |rest|;
        assert rest[i] in fields;
        TokenFieldsPick(rules, path, rest, i);
        CheckToken(path, rest[i], rules);
        StillAmong(fields, rest, i);
        rest := rest[..i] + rest[i + 1..];
      }
    }

    method CheckToken(path: Path, f: Field, rules: map<string, Checker>)
      modifies this
      ensures old(out) <= out
      ensures multiset(out) == multiset(old(out)) + OneToken(rules, path, f)
      decreases f
    {
      if f.key in rules {
        CheckValue(rules[f.key], path + [Key(f.key)], f.value);
      } else {
        Add(path + [Key(f.key)], UnknownToken);
      }
    }
  }

  // What it means for a document to fit, without saying how violations are found.

  ghost predicate Conforms(c: Checker, v: Json)
    decreases v
  {
    match c
    case Object(schema) =>
      v.Obj?
      && (forall f | f in v.fields :: f.key in schema.specs && Conforms(schema.specs[f.key].check, f.value))
      && (forall name | name in schema.specs && schema.specs[name].required :: name in Keys(v.fields))
    case ArrayOf(schema) =>
      v.Arr? && forall x | x in v.items :: Conforms(Object(schema), x)
    case Tokens(rules) =>
      v.Null? || (v.Obj? && forall f | f in v.fields :: f.key in rules && Conforms(rules[f.key], f.value))
    case _ => Holds(c, v)
  }

  /** What a leaf checker stands for. */
  predicate Holds(c: Checker, v: Json) {
    match c
    case Literal(want) => v == Str(want)
    case Match(p) => v.Str? && Matches(p, v.s)
    case OneOf(allowed) => v.Str? && v.s in allowed
    case NullOrOneOf(allowed) => v == Null || (v.Str? && v.s in allowed)
    case AnyString => v.Str?
    case AnyNumber => v.Num?
    case AnyBool => v.Bool?
    case StatusOrLabel => v.Str? && (Matches(Label, v.s) || v.s in STATUS_WORDS)
    case _ => true
  }

  /** The kind of JSON value a leaf checker looks for. */
  predicate RightKind(c: Checker, v: Json) {
    match c
    case AnyNumber => v.Num?
    case AnyBool => v.Bool?
    case NullOrOneOf(_) => v.Null? || v.Str?
    case _ => v.Str?
  }

  /** A leaf checker complains exactly about values that do not hold, and says whether already the kind is wrong. */
  lemma LeafComplaint(c: Checker, v: Json)
    requires IsLeaf(c)
    ensures Complaint(c, v) == if Holds(c, v) then None
                               else if RightKind(c, v) then Some(WrongValue(c)) else Some(WrongType(c))
  {
  }

  lemma MissingNone(schema: Schema, path: Path, fields: seq<Field>)
    ensures Missing(schema, path, fields) == multiset{}
       <==> forall name | name in schema.specs && schema.specs[name].required :: name in Keys(fields)
  {
    var names := MissingNames(schema, fields);
    if name :| name in names {
      assert Violation(path + [Key(name)], RequiredMissing) in MissingAt(path, names);
      assert Violation(path + [Key(name)], RequiredMissing) in Missing(schema, path, fields);
    } else {
      assert MissingAt(path, names) == {};
      forall name | name in schema.specs && schema.specs[name].required
        ensures name in Keys(fields)
      {
        assert name !in names;
      }
    }
  }

  lemma SumEmpty(a: multiset<Violation>, b: multiset<Violation>)
    ensures a + b == multiset{} <==> a == multiset{} && b == multiset{}
  {
    assert |a + b| == |a| + |b|;
  }

  lemma {:induction false} FieldsEmpty(schema: Schema, path: Path, fields: seq<Field>)
    ensures Fields(schema, path, fields) == multiset{}
       <==> forall f | f in fields :: OneField(schema, path, f) == multiset{}
  {
    if fields != [] {
      FieldsEmpty(schema, path, fields[1..]);
      SumEmpty(OneField(schema, path, fields[0]), Fields(schema, path, fields[1..]));
      assert fields[0] in fields && forall f | f in fields[1..] :: f in fields;
      if Fields(schema, path, fields) == multiset{} {
        forall f | f in fields ensures OneField(schema, path, f) == multiset{} {
          assert f == fields[0] || f in fields[1..];
        }
      }
    }
  }

  lemma {:induction false} TokenFieldsEmpty(rules: map<string, Checker>, path: Path, fields: seq<Field>)
    ensures TokenFields(rules, path, fields) == multiset{}
       <==> forall f | f in fields :: OneToken(rules, path, f) == multiset{}
  {
    if fields != [] {
      TokenFieldsEmpty(rules, path, fields[1..]);
      SumEmpty(OneToken(rules, path, fields[0]), TokenFields(rules, path, fields[1..]));
      assert fields[0] in fields && forall f | f in fields[1..] :: f in fields;
      if TokenFields(rules, path, fields) == multiset{} {
        forall f | f in fields ensures OneToken(rules, path, f) == multiset{} {
          assert f == fields[0] || f in fields[1..];
        }
      }
    }
  }

  predicate ItemClean(schema: Schema, path: Path, items: seq<Json>, i: nat)
    requires i < |items|
  {
    Check(Object(schema), path + [Index(i)], items[i]) == multiset{}
  }

  lemma {:induction false} ItemsEmpty(schema: Schema, path: Path, items: seq<Json>)
    ensures Items(schema, path, items) == multiset{}
       <==> forall i | 0 <= i < |items| :: ItemClean(schema, path, items, i)
  {
    if items != [] {
      var n := |items| - 1;
      ItemsEmpty(schema, path, items[..n]);
      SumEmpty(Items(schema, path, items[..n]), Check(Object(schema), path + [Index(n)], items[n]));
      assert forall i | 0 <= i < n :: ItemClean(schema, path, items[..n], i) == ItemClean(schema, path, items, i);
      assert ItemClean(schema, path, items, n) <==> Check(Object(schema), path + [Index(n)], items[n]) == multiset{};
    }
  }

  /** Soundness and completeness: there is nothing to report exactly when the value fits, at every depth. */
  lemma {:induction false} ReportsNothingIffConforms(c: Checker, path: Path, v: Json)
    ensures Check(c, path, v) == multiset{} <==> Conforms(c, v)
    decreases v
  {
    match c
    case Object(schema) =>
      if v.Obj? {
        forall f | f in v.fields && f.key in schema.specs
          ensures OneField(schema, path, f) == multiset{} <==> Conforms(schema.specs[f.key].check, f.value)
        {
          ReportsNothingIffConforms(schema.specs[f.key].check, path + [Key(f.key)], f.value);
        }
        ObjectClean(schema, path, v.fields);
      }
    case ArrayOf(schema) =>
      if v.Arr? {
        ItemsEmpty(schema, path, v.items);
        forall i | 0 <= i < |v.items|
          ensures ItemClean(schema, path, v.items, i) <==> Conforms(Object(schema), v.items[i])
        {
          ReportsNothingIffConforms(Object(schema), path + [Index(i)], v.items[i]);
        }
      }
    case Tokens(rules) =>
      if v.Obj? {
        forall f | f in v.fields && f.key in rules
          ensures OneToken(rules, path, f) == multiset{} <==> Conforms(rules[f.key], f.value)
        {
          ReportsNothingIffConforms(rules[f.key], path + [Key(f.key)], f.value);
        }
        TokensClean(rules, path, v.fields);
      }
    case _ =>
  }

  lemma ObjectClean(schema: Schema, path: Path, fields: seq<Field>)
    requires forall f | f in fields && f.key in schema.specs ::
               OneField(schema, path, f) == multiset{} <==> Conforms(schema.specs[f.key].check, f.value)
    ensures Check(Object(schema), path, Obj(fields)) == multiset{} <==> Conforms(Object(schema), Obj(fields))
  {
    SumEmpty(Fields(schema, path, fields), Missing(schema, path, fields));
    MissingNone(schema, path, fields);
    FieldsEmpty(schema, path, fields);
  }

  lemma TokensClean(rules: map<string, Checker>, path: Path, fields: seq<Field>)
    requires forall f | f in fields && f.key in rules ::
               OneToken(rules, path, f) == multiset{} <==> Conforms(rules[f.key], f.value)
    ensures Check(Tokens(rules), path, Obj(fields)) == multiset{} <==> Conforms(Tokens(rules), Obj(fields))
  {
    TokenFieldsEmpty(rules, path, fields);
  }
}
