/** The last pass: titles and labels reach their released shape. */
module Relabelling {
  import opened Decimal
  import opened FixtureSchema
  import opened Json
  import opened Patterns
  import opened Prelude
  import opened Renaming
  import opened Sanitize
  import opened Stages
  import opened Validator

  const TITLE_KEYS: set<string> := {"terminal_title", "terminal_title_stripped"}

  /** Nothing in the checker waits for the last pass or depends on tokens. */
  ghost predicate Settled(c: Checker)
    decreases c
  {
    match c
    case Object(schema) => forall k | k in schema.specs :: Settled(schema.specs[k].check)
    case ArrayOf(schema) => forall k | k in schema.specs :: Settled(schema.specs[k].check)
    case Tokens(_) => false
    case _ => c != Match(Label) && c != OneOf(TITLES)
  }

  /** So it says the same before and after. */
  lemma {:induction false} SettledFits(c: Checker, v: Json)
    requires Settled(c)
    ensures Fits(IdsDone, c, v) <==> Fits(Released, c, v)
    decreases v
  {
    match c
    case Object(schema) =>
      if v.Obj? {
        forall i | 0 <= i < |v.fields|
          ensures FieldAlike(schema, IdsDone, v.fields[i], Released, v.fields[i])
        {
          if v.fields[i].key in schema.specs {
            SettledFits(schema.specs[v.fields[i].key].check, v.fields[i].value);
          }
        }
        ObjectFitsAlike(schema, IdsDone, v.fields, Released, v.fields);
      }
    case ArrayOf(schema) =>
      if v.Arr? {
        forall i | 0 <= i < |v.items|
          ensures ItemAlike(schema, IdsDone, v.items[i], Released, v.items[i])
        {
          SettledFits(Object(schema), v.items[i]);
        }
        ArrayFitsAlike(schema, IdsDone, v.items, Released, v.items);
      }
    case _ =>
  }

  /** Labels and titles sit under their own keys; everything else is settled, except for tokens. */
  ghost predicate RecordSchema(schema: Schema) {
    forall k | k in schema.specs :: RecordSpec(k, schema.specs[k].check)
  }

  ghost predicate RecordSpec(key: string, c: Checker) {
    if key == "label" then c == Match(Label)
    else if key in TITLE_KEYS then c == OneOf(TITLES)
    else Settled(c) || c.Tokens?
  }

  /** The record's tokens, if the schema knows any, already conform. */
  ghost predicate TokensReady(schema: Schema, fields: seq<Field>) {
    forall f | f in fields && f.key in schema.specs && schema.specs[f.key].check.Tokens? ::
      Conforms(schema.specs[f.key].check, f.value)
  }

  predicate TokenFree(schema: Schema) {
    forall k | k in schema.specs :: !schema.specs[k].check.Tokens?
  }

  /** What the edits must leave behind under a key. */
  predicate Finished(key: string, v: Json) {
    && (key == "label" ==> v.Str? && Matches(Label, v.s))
    && (key in TITLE_KEYS ==> v.Str? && v.s in TITLES)
  }

  predicate Editable(key: string) {
    key == "label" || key in TITLE_KEYS
  }

  lemma FieldGet(fields: seq<Field>, f: Field)
    requires DistinctKeys(fields) && f in fields
    ensures Get(fields, f.key) == Some(f.value) && f.key in Keys(fields)
  {
    var i :| 0 <= i < |fields| && fields[i] == f;
    GetOf(fields, i);
  }

  lemma GetField(fields: seq<Field>, key: string)
    requires key in Keys(fields)
    ensures Get(fields, key).Some? && Field(key, Get(fields, key).value) in fields
  {
    var i := Find(fields, key);
    assert fields[i] in fields;
  }

  // Objects key by key.

  ghost predicate KeyFits(stage: Stage, schema: Schema, fields: seq<Field>, k: string) {
    k in schema.specs && Get(fields, k).Some? && Fits(stage, schema.specs[k].check, Get(fields, k).value)
  }

  predicate DemandsMet(stage: Stage, schema: Schema, keys: set<string>) {
    forall k | k in schema.specs && Demanded(stage, schema.specs[k]) :: k in keys
  }

  lemma ObjectFitsByKey(stage: Stage, schema: Schema, fields: seq<Field>)
    requires DistinctKeys(fields)
    ensures Fits(stage, Object(schema), Obj(fields))
       <==> (forall k | k in Keys(fields) :: KeyFits(stage, schema, fields, k))
            && DemandsMet(stage, schema, Keys(fields))
  {
    if Fits(stage, Object(schema), Obj(fields)) {
      forall k | k in Keys(fields) ensures KeyFits(stage, schema, fields, k) {
        GetField(fields, k);
      }
    }
    if forall k | k in Keys(fields) :: KeyFits(stage, schema, fields, k) {
      forall f | f in fields
        ensures f.key in schema.specs && Fits(stage, schema.specs[f.key].check, f.value)
      {
        FieldGet(fields, f);
        assert KeyFits(stage, schema, fields, f.key);
      }
    }
  }

  ghost predicate TokenKeyReady(schema: Schema, fields: seq<Field>, k: string) {
    k in schema.specs && schema.specs[k].check.Tokens? ==>
      Get(fields, k).Some? && Conforms(schema.specs[k].check, Get(fields, k).value)
  }

  lemma TokensReadyByKey(schema: Schema, fields: seq<Field>)
    requires DistinctKeys(fields)
    ensures TokensReady(schema, fields) <==> forall k | k in Keys(fields) :: TokenKeyReady(schema, fields, k)
  {
    forall f | f in fields ensures Get(fields, f.key) == Some(f.value) {
      FieldGet(fields, f);
    }
    forall k | k in Keys(fields) ensures Get(fields, k).Some? && Field(k, Get(fields, k).value) in fields {
      GetField(fields, k);
    }
  }

  // Setting one field.

  lemma SetFieldEffect(fields: seq<Field>, key: string, v: Json)
    requires DistinctKeys(fields)
    ensures DistinctKeys(SetField(fields, key, v))
    ensures Keys(SetField(fields, key, v)) == Keys(fields) + {key}
    ensures forall k :: Get(SetField(fields, key, v), k) == if k == key then Some(v) else Get(fields, k)
  {
    var r, i := SetField(fields, key, v), Find(fields, key);
    assert DistinctKeys(r) by {
      if i == |fields| {
        forall j | 0 <= j < |fields| ensures fields[j].key != key {
          assert fields[j] in fields;
        }
      }
    }
    forall k
      ensures k in Keys(r) <==> k in Keys(fields) + {key}
      ensures Get(r, k) == if k == key then Some(v) else Get(fields, k)
    {
      SetFieldAt(fields, key, v, k);
    }
  }

  lemma SetFieldAt(fields: seq<Field>, key: string, v: Json, k: string)
    requires DistinctKeys(fields) && DistinctKeys(SetField(fields, key, v))
    ensures k in Keys(SetField(fields, key, v)) <==> k in Keys(fields) || k == key
    ensures Get(SetField(fields, key, v), k) == if k == key then Some(v) else Get(fields, k)
  {
    var r, i := SetField(fields, key, v), Find(fields, key);
    assert r[i] == Field(key, v) && r[i] in r;
    assert forall f | f in r :: f in fields || f == Field(key, v);
    if k == key {
      GetOf(r, i);
    } else {
      var j := Find(fields, k);
      if j < |fields| {
        assert r[j] == fields[j] && r[j] in r;
        GetOf(r, j);
      }
    }
  }

  lemma SetIfPresentEffect(fields: seq<Field>, key: string, v: Json)
    requires DistinctKeys(fields)
    ensures DistinctKeys(SetIfPresent(fields, key, v)) && Keys(SetIfPresent(fields, key, v)) == Keys(fields)
    ensures forall k :: Get(SetIfPresent(fields, key, v), k)
                        == if k == key && key in Keys(fields) then Some(v) else Get(fields, k)
  {
    SetFieldEffect(fields, key, v);
  }

  lemma RetitledEffect(fields: seq<Field>, generic: string)
    requires DistinctKeys(fields)
    ensures DistinctKeys(Retitled(fields, generic)) && Keys(Retitled(fields, generic)) == Keys(fields)
    ensures forall k :: Get(Retitled(fields, generic), k)
                        == if k in TITLE_KEYS && k in Keys(fields) then Some(Str(generic)) else Get(fields, k)
  {
    SetIfPresentEffect(fields, "terminal_title", Str(generic));
    SetIfPresentEffect(SetIfPresent(fields, "terminal_title", Str(generic)), "terminal_title_stripped", Str(generic));
  }

  // One record.

  /** What an edit has done to a record: titles and labels that the schema names are finished, nothing else changed. */
  ghost predicate RecordEdited(schema: Schema, before: seq<Field>, after: seq<Field>) {
    && DistinctKeys(before) && DistinctKeys(after)
    && Keys(before) <= Keys(after) && Keys(after) - Keys(before) <= {"label"} * schema.specs.Keys
    && ("label" in schema.specs ==> "label" in Keys(after))
    && forall k | k in Keys(after) ::
         if Editable(k) then Get(after, k).Some? && (k in schema.specs ==> Finished(k, Get(after, k).value))
         else k in Keys(before) && Get(after, k) == Get(before, k)
  }

  /** Under each key, the edited record is released exactly if the record fitted and its tokens conform. */
  lemma KeyReleased(schema: Schema, before: seq<Field>, after: seq<Field>, k: string)
    requires RecordSchema(schema) && RecordEdited(schema, before, after) && k in Keys(before)
    ensures KeyFits(Released, schema, after, k)
       <==> KeyFits(IdsDone, schema, before, k) && TokenKeyReady(schema, before, k)
  {
    GetField(before, k);
    if k in schema.specs {
      assert RecordSpec(k, schema.specs[k].check);
      if !Editable(k) && !schema.specs[k].check.Tokens? {
        SettledFits(schema.specs[k].check, Get(before, k).value);
      }
    }
  }

  lemma KeysReleased(schema: Schema, before: seq<Field>, after: seq<Field>)
    requires RecordSchema(schema) && RecordEdited(schema, before, after)
    ensures (forall k | k in Keys(after) :: KeyFits(Released, schema, after, k))
       <==> (forall k | k in Keys(before) :: KeyFits(IdsDone, schema, before, k))
            && forall k | k in Keys(before) :: TokenKeyReady(schema, before, k)
  {
    forall k | k in Keys(before)
      ensures KeyFits(Released, schema, after, k)
         <==> KeyFits(IdsDone, schema, before, k) && TokenKeyReady(schema, before, k)
    {
      KeyReleased(schema, before, after, k);
    }
    if forall k | k in Keys(before) :: KeyFits(Released, schema, after, k) {
      forall k | k in Keys(after) ensures KeyFits(Released, schema, after, k) {
        if k !in Keys(before) {
          LabelReleased(schema, before, after, k);
        }
      }
    }
  }

  lemma LabelReleased(schema: Schema, before: seq<Field>, after: seq<Field>, k: string)
    requires RecordSchema(schema) && RecordEdited(schema, before, after) && k in Keys(after) - Keys(before)
    ensures KeyFits(Released, schema, after, k)
  {
    assert k in {"label"} * schema.specs.Keys;
    assert RecordSpec("label", schema.specs["label"].check);
  }

  lemma DemandsKept(schema: Schema, before: seq<Field>, after: seq<Field>)
    requires RecordSchema(schema) && RecordEdited(schema, before, after)
    ensures DemandsMet(Released, schema, Keys(after)) <==> DemandsMet(IdsDone, schema, Keys(before))
  {
    forall k | k in schema.specs
      ensures Demanded(Released, schema.specs[k]) && k != "label" <==> Demanded(IdsDone, schema.specs[k])
    {
      assert RecordSpec(k, schema.specs[k].check);
    }
    if DemandsMet(Released, schema, Keys(after)) {
      forall k | k in schema.specs && Demanded(IdsDone, schema.specs[k]) ensures k in Keys(before) {
        assert k in Keys(after) && k !in Keys(after) - Keys(before);
      }
    }
    if DemandsMet(IdsDone, schema, Keys(before)) {
      forall k | k in schema.specs && Demanded(Released, schema.specs[k]) ensures k in Keys(after) {
        assert k == "label" || k in Keys(before);
      }
    }
  }

  /** The edited record is released exactly if the record fitted and its tokens conform. */
  lemma EditedRecordFits(schema: Schema, before: seq<Field>, after: seq<Field>)
    requires RecordSchema(schema) && RecordEdited(schema, before, after)
    ensures Fits(Released, Object(schema), Obj(after))
       <==> Fits(IdsDone, Object(schema), Obj(before)) && TokensReady(schema, before)
  {
    ObjectFitsByKey(Released, schema, after);
    ObjectFitsByKey(IdsDone, schema, before);
    TokensReadyByKey(schema, before);
    DemandsKept(schema, before, after);
    KeysReleased(schema, before, after);
  }

  lemma NoTokens(schema: Schema, fields: seq<Field>)
    requires TokenFree(schema)
    ensures TokensReady(schema, fields)
  {
  }

  /** The title loop releases a record that has no label exactly if it fitted. */
  lemma TitledFits(schema: Schema, fields: seq<Field>, generic: string)
    requires RecordSchema(schema) && TokenFree(schema) && "label" !in schema.specs && generic in TITLES
    requires DistinctKeys(fields)
    ensures Fits(Released, Object(schema), Obj(Retitled(fields, generic)))
       <==> Fits(IdsDone, Object(schema), Obj(fields))
  {
    var after := Retitled(fields, generic);
    RetitledEffect(fields, generic);
    assert "label" !in TITLE_KEYS;
    forall k | k in Keys(after)
      ensures if Editable(k) then Get(after, k).Some? && (k in schema.specs ==> Finished(k, Get(after, k).value))
              else k in Keys(fields) && Get(after, k) == Get(fields, k)
    {
      GetField(after, k);
    }
    NoTokens(schema, fields);
    EditedRecordFits(schema, fields, after);
  }

  /** The label loop releases a record exactly if it fitted, its tokens conform and the label is one. */
  lemma LabelledFits(schema: Schema, fields: seq<Field>, s: string)
    requires RecordSchema(schema) && "label" in schema.specs && TITLE_KEYS !! schema.specs.Keys && DistinctKeys(fields)
    ensures Fits(Released, Object(schema), Obj(SetField(fields, "label", Str(s))))
       <==> Matches(Label, s) && Fits(IdsDone, Object(schema), Obj(fields)) && TokensReady(schema, fields)
  {
    var after := SetField(fields, "label", Str(s));
    SetFieldEffect(fields, "label", Str(s));
    if Matches(Label, s) {
      forall k | k in Keys(after)
        ensures if Editable(k) then Get(after, k).Some? && (k in schema.specs ==> Finished(k, Get(after, k).value))
                else k in Keys(fields) && Get(after, k) == Get(fields, k)
      {
        GetField(after, k);
      }
      EditedRecordFits(schema, fields, after);
    } else {
      assert RecordSpec("label", schema.specs["label"].check);
      ObjectFitsByKey(Released, schema, after);
      assert !KeyFits(Released, schema, after, "label");
    }
  }

  /** The title loop leaves a record without titles alone. */
  lemma NothingToTitle(fields: seq<Field>, generic: string)
    requires TITLE_KEYS !! Keys(fields)
    ensures Retitled(fields, generic) == fields
  {
  }

  // Labels.

  lemma SpaceLabelShape(i: nat)
    ensures Matches(Label, "space-" + [Letter(i)]) <==> i < 26
  {
    var s := "space-" + [Letter(i)];
    assert s[6..] == [Letter(i)] && |s| == 7;
    assert s[..6] == SPACE_PREFIX;
    assert AllLower([Letter(i)]) <==> Lower(Letter(i)) by {
      assert [Letter(i)][0] == Letter(i);
    }
    assert !Prefixed(s, TAB_PREFIX) by {
      assert s[..4][0] == 's' && TAB_PREFIX[0] == 't';
    }
  }

  lemma TabLabelShape(i: nat)
    ensures Matches(Label, "tab-" + Itoa(i + 1))
  {
    var s := "tab-" + Itoa(i + 1);
    assert s[..4] == TAB_PREFIX && s[4..] == Itoa(i + 1);
  }

  // One collection.

  ghost predicate ItemsFit(stage: Stage, schema: Schema, items: seq<Json>) {
    forall i | 0 <= i < |items| :: Fits(stage, Object(schema), items[i])
  }

  predicate ItemsDistinct(items: seq<Json>) {
    forall i | 0 <= i < |items| :: items[i].Obj? ==> DistinctKeys(items[i].fields)
  }

  lemma ArrayFits(stage: Stage, schema: Schema, items: seq<Json>)
    ensures Fits(stage, ArrayOf(schema), Arr(items)) <==> ItemsFit(stage, schema, items)
  {
    assert forall i | 0 <= i < |items| :: items[i] in items;
  }

  lemma RetitledKeepsFit(schema: Schema, fields: seq<Field>, generic: string)
    requires TITLE_KEYS !! schema.specs.Keys && DistinctKeys(fields)
    ensures DistinctKeys(Retitled(fields, generic))
    ensures Fits(IdsDone, Object(schema), Obj(Retitled(fields, generic)))
       <==> Fits(IdsDone, Object(schema), Obj(fields))
  {
    RetitledEffect(fields, generic);
    if TITLE_KEYS !! Keys(fields) {
      NothingToTitle(fields, generic);
    } else {
      var k :| k in TITLE_KEYS && k in Keys(fields);
      ObjectFitsByKey(IdsDone, schema, fields);
      ObjectFitsByKey(IdsDone, schema, Retitled(fields, generic));
      assert !KeyFits(IdsDone, schema, fields, k) && !KeyFits(IdsDone, schema, Retitled(fields, generic), k);
    }
  }

  // One collection, item by item.

  ghost predicate ItemReady(schema: Schema, x: Json) {
    x.Obj? ==> TokensReady(schema, x.fields)
  }

  /** The title loop over agents or panes. */
  lemma TitledItemsFit(schema: Schema, items: seq<Json>, generic: string)
    requires RecordSchema(schema) && TokenFree(schema) && "label" !in schema.specs && generic in TITLES
    requires ItemsDistinct(items)
    ensures ItemsFit(Released, schema, EditedItems(Titles(generic), items)) <==> ItemsFit(IdsDone, schema, items)
  {
    forall i | 0 <= i < |items|
      ensures ItemAlike(schema, IdsDone, items[i], Released, EditedItems(Titles(generic), items)[i])
    {
      if items[i].Obj? {
        TitledFits(schema, items[i].fields, generic);
      }
    }
    ItemsFitAlike(schema, IdsDone, items, Released, EditedItems(Titles(generic), items));
  }

  lemma ItemsFitAlike(schema: Schema, from: Stage, a: seq<Json>, to: Stage, b: seq<Json>)
    requires |a| == |b| && forall i | 0 <= i < |a| :: ItemAlike(schema, from, a[i], to, b[i])
    ensures ItemsFit(from, schema, a) <==> ItemsFit(to, schema, b)
  {
    assert forall i | 0 <= i < |a| :: ItemAlike(schema, from, a[i], to, b[i]);
  }

  lemma SpaceItemFits(schema: Schema, items: seq<Json>, i: nat)
    requires RecordSchema(schema) && "label" in schema.specs && TITLE_KEYS !! schema.specs.Keys
    requires ItemsDistinct(items) && i < |items|
    ensures Fits(Released, Object(schema), EditedItems(SpaceLabel, items)[i])
       <==> i < 26 && Fits(IdsDone, Object(schema), items[i]) && ItemReady(schema, items[i])
  {
    if items[i].Obj? {
      SpaceLabelShape(i);
      LabelledFits(schema, items[i].fields, "space-" + [Letter(i)]);
    }
  }

  /** The label loop over workspaces: there must be letters enough, and the tokens must conform. */
  lemma SpaceItemsFit(schema: Schema, items: seq<Json>)
    requires RecordSchema(schema) && "label" in schema.specs && TITLE_KEYS !! schema.specs.Keys
    requires ItemsDistinct(items)
    ensures ItemsFit(Released, schema, EditedItems(SpaceLabel, items))
       <==> ItemsFit(IdsDone, schema, items) && |items| <= 26
            && forall i | 0 <= i < |items| :: ItemReady(schema, items[i])
  {
    var edited := EditedItems(SpaceLabel, items);
    forall i | 0 <= i < |items|
      ensures Fits(Released, Object(schema), edited[i])
         <==> i < 26 && Fits(IdsDone, Object(schema), items[i]) && ItemReady(schema, items[i])
    {
      SpaceItemFits(schema, items, i);
    }
    if |items| > 26 {
      assert !Fits(Released, Object(schema), edited[26]);
    }
  }

  /** The title loop and the label loop over tabs. */
  lemma TabItemsFit(schema: Schema, items: seq<Json>, generic: string)
    requires RecordSchema(schema) && "label" in schema.specs && TITLE_KEYS !! schema.specs.Keys
    requires ItemsDistinct(items) && TokenFree(schema)
    ensures ItemsFit(Released, schema, EditedItems(TabLabel, EditedItems(Titles(generic), items)))
       <==> ItemsFit(IdsDone, schema, items)
  {
    var edited := EditedItems(TabLabel, EditedItems(Titles(generic), items));
    forall i | 0 <= i < |items|
      ensures ItemAlike(schema, IdsDone, items[i], Released, edited[i])
    {
      if items[i].Obj? {
        TabLabelShape(i);
        var titled := Retitled(items[i].fields, generic);
        RetitledKeepsFit(schema, items[i].fields, generic);
        NoTokens(schema, titled);
        LabelledFits(schema, titled, "tab-" + Itoa(i + 1));
      }
    }
    ItemsFitAlike(schema, IdsDone, items, Released, edited);
  }
}
