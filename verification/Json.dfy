/** JSON documents. Objects keep their fields in document order, which the sanitizer's traversal
    depends on and the validator must not depend on. */
module Json {
  import opened Prelude

  datatype Json =
    | Null
    | Bool(b: bool)
    | Num(n: real)
    | Str(s: string)
    | Arr(items: seq<Json>)
    | Obj(fields: seq<Field>)

  datatype Field = Field(key: string, value: Json)

  predicate DistinctKeys(fields: seq<Field>) {
    DistinctBy(fields, (f: Field) => f.key)
  }

  /** No object repeats a key: what a decoder delivers. */
  predicate WellFormed(v: Json) {
    match v
    case Arr(items) => forall x | x in items :: WellFormed(x)
    case Obj(fields) => DistinctKeys(fields) && forall f | f in fields :: WellFormed(f.value)
    case _ => true
  }

  function Keys(fields: seq<Field>): set<string> {
    set f | f in fields :: f.key
  }

  /** The position of a key, or the length when it is absent. */
  function Find(fields: seq<Field>, key: string): (i: nat)
    ensures i <= |fields|
    ensures i < |fields| ==> fields[i].key == key
    ensures forall j | 0 <= j < i :: fields[j].key != key
    ensures i == |fields| <==> key !in Keys(fields)
  {
    if fields == [] then 0
    else if fields[0].key == key then assert fields[0] in fields; 0
    else
      assert forall f | f in fields :: f == fields[0] || f in fields[1..];
      assert forall f | f in fields[1..] :: f in fields;
      1 + Find(fields[1..], key)
  }

  function Get(fields: seq<Field>, key: string): Option<Json> {
    var i := Find(fields, key);
    if i < |fields| then Some(fields[i].value) else None
  }
}
