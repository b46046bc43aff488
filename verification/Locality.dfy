/** How the validator's report depends on the document: not on field order, and only locally on content. */
module Locality {
  import opened Json
  import opened Prelude
  import opened Validator

  // Field order.

  /** The same document up to the order of fields in every object. */
  ghost predicate Same(a: Json, b: Json)
    decreases a
  {
    if a.Obj? && b.Obj? then SameFields(a.fields, b.fields)
    else if a.Arr? && b.Arr? then
      |a.items| == |b.items| && forall i | 0 <= i < |a.items| :: Same(a.items[i], b.items[i])
    else a == b
  }

  ghost predicate SameFields(a: seq<Field>, b: seq<Field>)
    decreases a
  {
    && DistinctKeys(a) && DistinctKeys(b) && |a| == |b|
    && Keys(a) == Keys(b)
    && forall f, g | f in a && g in b && f.key == g.key :: Same(f.value, g.value)
  }

  /** Removing a key from both sides keeps the rest the same. */
  lemma SameRest(a: seq<Field>, b: seq<Field>, j: nat)
    requires SameFields(a, b) && a != [] && j < |b| && b[j].key == a[0].key
    ensures SameFields(a[1..], b[..j] + b[j + 1..])
  {
    var rest := b[..j] + b[j + 1..];
    assert forall g | g in rest :: g in b;
    assert forall f | f in a[1..] :: f in a;
    forall k
      ensures k in Keys(a[1..]) <==> k in Keys(rest)
    {
      KeyInTail(a, k);
      KeyInRest(b, j, k);
    }
  }

  lemma KeyInTail(a: seq<Field>, k: string)
    requires DistinctKeys(a) && a != []
    ensures k in Keys(a[1..]) <==> k in Keys(a) && k != a[0].key
  {
    if k in Keys(a) && k != a[0].key {
      var f :| f in a && f.key == k;
      assert f in a[1..];
    }
  }

  lemma KeyInRest(b: seq<Field>, j: nat, k: string)
    requires DistinctKeys(b) && j < |b|
    ensures k in Keys(b[..j] + b[j + 1..]) <==> k in Keys(b) && k != b[j].key
  {
    var rest := b[..j] + b[j + 1..];
    if k in Keys(b) && k != b[j].key {
      var i :| 0 <= i < |b| && b[i].key == k;
      assert b[i] == if i < j then rest[i] else rest[i - 1];
    }
  }

  lemma {:induction false} SameFieldsReport(schema: Schema, path: Path, a: seq<Field>, b: seq<Field>)
    requires SameFields(a, b)
    ensures Fields(schema, path, a) == Fields(schema, path, b)
    decreases a
  {
    if a != [] {
      assert a[0].key in Keys(b);
      var j :| 0 <= j < |b| && b[j].key == a[0].key;
      SameRest(a, b, j);
      SameFieldsReport(schema, path, a[1..], b[..j] + b[j + 1..]);
      FieldsPick(schema, path, b, j);
      if a[0].key in schema.specs {
        OrderIrrelevant(schema.specs[a[0].key].check, path + [Key(a[0].key)], a[0].value, b[j].value);
      }
    }
  }

  lemma {:induction false} SameTokensReport(rules: map<string, Checker>, path: Path, a: seq<Field>, b: seq<Field>)
    requires SameFields(a, b)
    ensures TokenFields(rules, path, a) == TokenFields(rules, path, b)
    decreases a
  {
    if a != [] {
      assert a[0].key in Keys(b);
      var j :| 0 <= j < |b| && b[j].key == a[0].key;
      SameRest(a, b, j);
      SameTokensReport(rules, path, a[1..], b[..j] + b[j + 1..]);
      TokenFieldsPick(rules, path, b, j);
      if a[0].key in rules {
        OrderIrrelevant(rules[a[0].key], path + [Key(a[0].key)], a[0].value, b[j].value);
      }
    }
  }

  lemma {:induction false} SameItemsReport(schema: Schema, path: Path, a: seq<Json>, b: seq<Json>)
    requires |a| == |b| && forall i | 0 <= i < |a| :: Same(a[i], b[i])
    ensures Items(schema, path, a) == Items(schema, path, b)
    decreases a
  {
    if a != [] {
      var n := |a| - 1;
      SameItemsReport(schema, path, a[..n], b[..n]);
      OrderIrrelevant(Object(schema), path + [Index(n)], a[n], b[n]);
    }
  }

  /** The multiset of violations does not depend on the order in which fields are met, at any depth. */
  lemma {:induction false} OrderIrrelevant(c: Checker, path: Path, a: Json, b: Json)
    requires Same(a, b)
    ensures Check(c, path, a) == Check(c, path, b)
    decreases a
  {
    match c
    case Object(schema) =>
      if a.Obj? && b.Obj? {
        SameFieldsReport(schema, path, a.fields, b.fields);
      }
    case ArrayOf(schema) =>
      if a.Arr? && b.Arr? {
        SameItemsReport(schema, path, a.items, b.items);
      }
    case Tokens(rules) =>
      if a.Obj? && b.Obj? {
        SameTokensReport(rules, path, a.fields, b.fields);
      }
    case _ =>
  }

  // Violations lie at or below the checked value.

  predicate Within(path: Path, x: Violation) {
    path <= x.path
  }

  lemma {:induction false} FieldsWithin(schema: Schema, path: Path, fields: seq<Field>, x: Violation)
    requires x in Fields(schema, path, fields)
    ensures Within(path, x)
    decreases fields
  {
    if x in OneField(schema, path, fields[0]) {
      if fields[0].key in schema.specs {
        CheckWithin(schema.specs[fields[0].key].check, path + [Key(fields[0].key)], fields[0].value, x);
      }
    } else {
      FieldsWithin(schema, path, fields[1..], x);
    }
  }

  lemma {:induction false} TokensWithin(rules: map<string, Checker>, path: Path, fields: seq<Field>, x: Violation)
    requires x in TokenFields(rules, path, fields)
    ensures Within(path, x)
    decreases fields
  {
    if x in OneToken(rules, path, fields[0]) {
      if fields[0].key in rules {
        CheckWithin(rules[fields[0].key], path + [Key(fields[0].key)], fields[0].value, x);
      }
    } else {
      TokensWithin(rules, path, fields[1..], x);
    }
  }

  lemma {:induction false} ItemsWithin(schema: Schema, path: Path, items: seq<Json>, x: Violation)
    requires x in Items(schema, path, items)
    ensures Within(path, x)
    decreases items
  {
    var n := |items| - 1;
    if x in Check(Object(schema), path + [Index(n)], items[n]) {
      CheckWithin(Object(schema), path + [Index(n)], items[n], x);
    } else {
      ItemsWithin(schema, path, items[..n], x);
    }
  }

  lemma {:induction false} CheckWithin(c: Checker, path: Path, v: Json, x: Violation)
    requires x in Check(c, path, v)
    ensures Within(path, x)
    decreases v
  {
    match c
    case Object(schema) =>
      if v.Obj? {
        if x in Fields(schema, path, v.fields) {
          FieldsWithin(schema, path, v.fields, x);
        }
      }
    case ArrayOf(schema) =>
      if v.Arr? {
        ItemsWithin(schema, path, v.items, x);
      }
    case Tokens(rules) =>
      if v.Obj? {
        TokensWithin(rules, path, v.fields, x);
      }
    case _ =>
  }

  // Editing a document at a path.

  /** The value under one step of a path. */
  function Child(v: Json, part: Part): Option<Json> {
    match part
    case Key(k) => if v.Obj? then Get(v.fields, k) else None
    case Index(i) => if v.Arr? && i < |v.items| then Some(v.items[i]) else None
  }

  function ReplaceChild(v: Json, part: Part, w: Json): Json
    requires Child(v, part).Some?
  {
    match part
    case Key(k) => Obj(v.fields[Find(v.fields, k) := Field(k, w)])
    case Index(i) => Arr(v.items[i := w])
  }

  predicate Reaches(v: Json, p: Path)
    decreases p
  {
    p == [] || (Child(v, p[0]).Some? && Reaches(Child(v, p[0]).value, p[1..]))
  }

  function ValueAt(v: Json, p: Path): Json
    requires Reaches(v, p)
    decreases p
  {
    if p == [] then v else ValueAt(Child(v, p[0]).value, p[1..])
  }

  function ReplaceAt(v: Json, p: Path, w: Json): Json
    requires Reaches(v, p)
    decreases p
  {
    if p == [] then w else ReplaceChild(v, p[0], ReplaceAt(Child(v, p[0]).value, p[1..], w))
  }

  /** Replacing one field's value keeps the keys, so nothing becomes missing or unknown. */
  lemma KeysKept(fields: seq<Field>, j: nat, w: Json)
    requires j < |fields|
    ensures Keys(fields[j := Field(fields[j].key, w)]) == Keys(fields)
  {
    var other := fields[j := Field(fields[j].key, w)];
    forall k
      ensures k in Keys(other) <==> k in Keys(fields)
    {
      if i :| 0 <= i < |fields| && fields[i].key == k {
        assert other[i].key == k && fields[i] in fields && other[i] in other;
      }
      if i :| 0 <= i < |other| && other[i].key == k {
        assert fields[i].key == k && fields[i] in fields && other[i] in other;
      }
    }
  }

  lemma RestKept(fields: seq<Field>, j: nat, f: Field)
    requires j < |fields|
    ensures var other := fields[j := f];
            other[..j] + other[j + 1..] == fields[..j] + fields[j + 1..]
  {
  }

  lemma AddBoth(
      a: multiset<Violation>, b: multiset<Violation>, c: multiset<Violation>, d: multiset<Violation>,
      e: multiset<Violation>)
    requires a + b == c + d
    ensures (a + e) + b == (c + e) + d
  {
    assert (a + e) + b == (a + b) + e;
    assert (c + e) + d == (c + d) + e;
  }

  /** Two sums over the same rest differ only in the head. */
  lemma SwapHead(
      head: multiset<Violation>, head': multiset<Violation>, rest: multiset<Violation>, extra: multiset<Violation>)
    ensures ((head' + rest) + extra) + head == ((head + rest) + extra) + head'
    ensures (head' + rest) + head == (head + rest) + head'
  {
  }

  lemma {:induction false} ItemsPick(schema: Schema, path: Path, items: seq<Json>, i: nat, w: Json)
    requires i < |items|
    ensures Items(schema, path, items[i := w]) + Check(Object(schema), path + [Index(i)], items[i])
         == Items(schema, path, items) + Check(Object(schema), path + [Index(i)], w)
    decreases |items|
  {
    var n := |items| - 1;
    var other := items[i := w];
    if i < n {
      ItemsPick(schema, path, items[..n], i, w);
      assert other[..n] == items[..n][i := w];
      AddBoth(Items(schema, path, other[..n]), Check(Object(schema), path + [Index(i)], items[i]),
              Items(schema, path, items[..n]), Check(Object(schema), path + [Index(i)], w),
              Check(Object(schema), path + [Index(n)], items[n]));
    } else {
      assert other[..n] == items[..n];
    }
  }

  /** The checker that the tables put in charge of a child, if any. */
  function InCharge(c: Checker, part: Part): Option<Checker> {
    match part
    case Key(k) =>
      if c.Object? && k in c.schema.specs then Some(c.schema.specs[k].check)
      else if c.Tokens? && k in c.rules then Some(c.rules[k])
      else None
    case Index(_) => if c.ArrayOf? then Some(Object(c.schema)) else None
  }

  lemma FieldContribution(schema: Schema, path: Path, fields: seq<Field>, j: nat, w: Json)
    requires j < |fields|
    ensures var k := fields[j].key;
            var c, other := Object(schema), fields[j := Field(k, w)];
            && (k in schema.specs ==>
                  Check(c, path, Obj(other)) + Check(schema.specs[k].check, path + [Key(k)], fields[j].value)
                  == Check(c, path, Obj(fields)) + Check(schema.specs[k].check, path + [Key(k)], w))
            && (k !in schema.specs ==> Check(c, path, Obj(other)) == Check(c, path, Obj(fields)))
  {
    var k := fields[j].key;
    var f := Field(k, w);
    var rest := fields[..j] + fields[j + 1..];
    RestKept(fields, j, f);
    KeysKept(fields, j, w);
    FieldsPick(schema, path, fields, j);
    FieldsPick(schema, path, fields[j := f], j);
    SwapHead(OneField(schema, path, fields[j]), OneField(schema, path, f),
             Fields(schema, path, rest), Missing(schema, path, fields));
  }

  lemma TokenContribution(rules: map<string, Checker>, path: Path, fields: seq<Field>, j: nat, w: Json)
    requires j < |fields|
    ensures var k := fields[j].key;
            var c, other := Tokens(rules), fields[j := Field(k, w)];
            && (k in rules ==>
                  Check(c, path, Obj(other)) + Check(rules[k], path + [Key(k)], fields[j].value)
                  == Check(c, path, Obj(fields)) + Check(rules[k], path + [Key(k)], w))
            && (k !in rules ==> Check(c, path, Obj(other)) == Check(c, path, Obj(fields)))
  {
    var k := fields[j].key;
    var f := Field(k, w);
    var rest := fields[..j] + fields[j + 1..];
    RestKept(fields, j, f);
    TokenFieldsPick(rules, path, fields, j);
    TokenFieldsPick(rules, path, fields[j := f], j);
    SwapHead(OneToken(rules, path, fields[j]), OneToken(rules, path, f),
             TokenFields(rules, path, rest), multiset{});
  }

  /** What one child contributes to the report, and everything else. */
  lemma ChildContribution(c: Checker, path: Path, v: Json, part: Part, w: Json)
    requires Child(v, part).Some?
    ensures InCharge(c, part).Some? ==>
              Check(c, path, ReplaceChild(v, part, w))
              + Check(InCharge(c, part).value, path + [part], Child(v, part).value)
              == Check(c, path, v) + Check(InCharge(c, part).value, path + [part], w)
    ensures InCharge(c, part).None? ==> Check(c, path, ReplaceChild(v, part, w)) == Check(c, path, v)
  {
    match part
    case Key(k) =>
      var j := Find(v.fields, k);
      if c.Object? {
        FieldContribution(c.schema, path, v.fields, j, w);
      } else if c.Tokens? {
        TokenContribution(c.rules, path, v.fields, j, w);
      } else {
        ObjectsAlike(c, path, v, ReplaceChild(v, part, w));
      }
    case Index(i) =>
      if c.ArrayOf? {
        ItemsPick(c.schema, path, v.items, i, w);
      } else {
        ObjectsAlike(c, path, v, ReplaceChild(v, part, w));
      }
  }

  /** A checker that does not descend into a container treats all such containers alike. */
  lemma ObjectsAlike(c: Checker, path: Path, v: Json, w: Json)
    requires (v.Obj? && w.Obj? && !c.Object? && !c.Tokens?) || (v.Arr? && w.Arr? && !c.ArrayOf?)
    ensures Check(c, path, v) == Check(c, path, w)
  {
  }

  /** Replacing the value at one path changes only violations at or below that path. */
  lemma {:induction false} ReplacementIsLocal(c: Checker, path: Path, v: Json, p: Path, w: Json, x: Violation)
    requires Reaches(v, p) && !Within(path + p, x)
    ensures Check(c, path, ReplaceAt(v, p, w))[x] == Check(c, path, v)[x]
    decreases p
  {
    if p == [] {
      assert path + p == path;
      NoneOutside(c, path, v, x);
      NoneOutside(c, path, w, x);
    } else {
      var child := Child(v, p[0]).value;
      var edited := ReplaceAt(child, p[1..], w);
      if InCharge(c, p[0]).Some? {
        assert path + [p[0]] + p[1..] == path + p;
        ReplacementIsLocal(InCharge(c, p[0]).value, path + [p[0]], child, p[1..], w, x);
      }
      ChildLocal(c, path, v, p[0], edited, x);
    }
  }

  lemma NoneOutside(c: Checker, path: Path, v: Json, x: Violation)
    requires !Within(path, x)
    ensures Check(c, path, v)[x] == 0
  {
    if x in Check(c, path, v) {
      CheckWithin(c, path, v, x);
    }
  }

  lemma ChildLocal(c: Checker, path: Path, v: Json, part: Part, edited: Json, x: Violation)
    requires Child(v, part).Some?
    requires InCharge(c, part).Some? ==>
               Check(InCharge(c, part).value, path + [part], edited)[x]
               == Check(InCharge(c, part).value, path + [part], Child(v, part).value)[x]
    ensures Check(c, path, ReplaceChild(v, part, edited))[x] == Check(c, path, v)[x]
  {
    ChildContribution(c, path, v, part, edited);
    if InCharge(c, part).Some? {
      var c' := InCharge(c, part).value;
      CancelAt(Check(c, path, ReplaceChild(v, part, edited)), Check(c', path + [part], Child(v, part).value),
               Check(c, path, v), Check(c', path + [part], edited), x);
    }
  }

  lemma CancelAt(
      a: multiset<Violation>, b: multiset<Violation>, c: multiset<Violation>, d: multiset<Violation>, x: Violation)
    requires a + b == c + d && b[x] == d[x]
    ensures a[x] == c[x]
  {
    assert (a + b)[x] == (c + d)[x];
  }

  // Unknown fields.

  /** The checker that governs the value at a path, if the schema reaches it. */
  function Governing(c: Checker, p: Path): Option<Checker>
    decreases p
  {
    if p == [] then Some(c)
    else if InCharge(c, p[0]).None? then None
    else Governing(InCharge(c, p[0]).value, p[1..])
  }

  /** What a closed object says about a key it does not name. */
  function Unknown(c: Checker, key: string): Option<Reason> {
    if c.Object? && key !in c.schema.specs then Some(UnknownField)
    else if c.Tokens? && key !in c.rules then Some(UnknownToken)
    else None
  }

  function InsertField(fields: seq<Field>, n: nat, f: Field): seq<Field>
    requires n <= |fields|
  {
    fields[..n] + [f] + fields[n..]
  }

  lemma UnknownHere(c: Checker, path: Path, fields: seq<Field>, n: nat, f: Field)
    requires n <= |fields| && Unknown(c, f.key).Some?
    ensures Check(c, path, Obj(InsertField(fields, n, f)))
         == Check(c, path, Obj(fields)) + multiset{Violation(path + [Key(f.key)], Unknown(c, f.key).value)}
  {
    var more := InsertField(fields, n, f);
    assert more[..n] + more[n + 1..] == fields;
    if c.Object? {
      FieldsPick(c.schema, path, more, n);
      KeysPlus(fields, n, f);
      assert MissingNames(c.schema, more) == MissingNames(c.schema, fields);
    } else {
      TokenFieldsPick(c.rules, path, more, n);
    }
  }

  lemma KeysPlus(fields: seq<Field>, n: nat, f: Field)
    requires n <= |fields|
    ensures Keys(InsertField(fields, n, f)) == Keys(fields) + {f.key}
  {
    var more := InsertField(fields, n, f);
    assert forall g :: g in more <==> g in fields || g == f by {
      assert more[n] == f;
      forall g | g in fields ensures g in more {
        var i :| 0 <= i < |fields| && fields[i] == g;
        assert more[if i < n then i else i + 1] == g;
      }
    }
  }

  /** Inserting a key the schema does not name, into any object the schema reaches, at any depth and any
      position, adds exactly one violation, at that key's path, and changes nothing else. */
  lemma {:induction false} UnknownKeyAddsOne(c: Checker, path: Path, v: Json, p: Path, n: nat, f: Field)
    requires Reaches(v, p) && Governing(c, p).Some?
    requires ValueAt(v, p).Obj? && n <= |ValueAt(v, p).fields| && Unknown(Governing(c, p).value, f.key).Some?
    ensures var edited := ReplaceAt(v, p, Obj(InsertField(ValueAt(v, p).fields, n, f)));
            Check(c, path, edited)
            == Check(c, path, v)
               + multiset{Violation(path + p + [Key(f.key)], Unknown(Governing(c, p).value, f.key).value)}
    decreases p
  {
    if p == [] {
      assert path + p == path;
      UnknownHere(c, path, v.fields, n, f);
    } else {
      var child := Child(v, p[0]).value;
      var c' := InCharge(c, p[0]).value;
      UnknownKeyAddsOne(c', path + [p[0]], child, p[1..], n, f);
      assert path + [p[0]] + p[1..] == path + p;
      var edited := ReplaceAt(child, p[1..], Obj(InsertField(ValueAt(v, p).fields, n, f)));
      ChildContribution(c, path, v, p[0], edited);
      var one := multiset{Violation(path + p + [Key(f.key)], Unknown(Governing(c, p).value, f.key).value)};
      Cancel(Check(c, path, ReplaceChild(v, p[0], edited)), Check(c', path + [p[0]], child),
             Check(c, path, v), one);
    }
  }

  lemma Cancel(a: multiset<Violation>, b: multiset<Violation>, d: multiset<Violation>, one: multiset<Violation>)
    requires a + b == d + (b + one)
    ensures a == d + one
  {
    assert a == (a + b) - b;
    assert d + one == (d + (b + one)) - b;
  }
}
