/** What the sanitizer is for: its output satisfies the closed schema of the fixtures, exactly when there
    are no more workspaces than letters to name them and the tokens it leaves alone conform already. */
module Release {
  import opened Decimal
  import opened FixtureSchema
  import opened Json
  import opened Numbering
  import opened PathRenaming
  import opened Patterns
  import opened Prelude
  import opened Relabelling
  import opened Renaming
  import opened Sanitize
  import opened SanitizeConforms
  import opened Stages
  import opened TokenPasses
  import opened Validator

  // Twelve digits number every identifier.

  lemma FewEnough(kind: Kind, values: seq<string>, x: string) returns (n: nat)
    requires |Distinct(values)| < Pow10(12) && x in values
    ensures n < Pow10(12) && Look(NumberAll(kind, map[], values), x) == Placeholder(kind, n)
  {
    var names := NumberAll(kind, map[], values);
    NumberedAll(kind, map[], values);
    NumberedKeys(kind, values);
    assert |names| == |names.Keys|;
    n :| 1 <= n <= |names| && names[x] == Placeholder(kind, n);
  }

  predicate FewIds(v: Json) {
    |Distinct(IdList(Session, v))| < Pow10(12) && |Distinct(IdList(Terminal, v))| < Pow10(12)
  }

  lemma DictionaryConforms(v: Json)
    requires FewIds(v)
    ensures Placeholders(Dictionary(v), IdList(Session, v), IdList(Terminal, v))
  {
    forall x | x in IdList(Session, v)
      ensures Matches(SessionUuid, Look(Dictionary(v).sessions, x))
    {
      var n := FewEnough(Session, IdList(Session, v), x);
      SessionShape(n);
    }
    forall x | x in IdList(Terminal, v)
      ensures Matches(TerminalId, Look(Dictionary(v).terminals, x))
    {
      var n := FewEnough(Terminal, IdList(Terminal, v), x);
      TerminalShape(n);
    }
  }

  // The snapshot object through the last pass.

  /** What the tables of the five collections say to the last pass. */
  ghost predicate Tables(w: Schema, a: Schema, t: Schema, p: Schema, l: Schema) {
    && (RecordSchema(w) && "label" in w.specs && TITLE_KEYS !! w.specs.Keys && TokensUnderKey(w))
    && (RecordSchema(t) && "label" in t.specs && TITLE_KEYS !! t.specs.Keys && TokenFree(t))
    && (RecordSchema(a) && "label" !in a.specs && TokenFree(a))
    && (RecordSchema(p) && "label" !in p.specs && TokenFree(p))
    && Settled(ArrayOf(l))
  }

  lemma FixtureTables()
    ensures Tables(WORKSPACE, AGENT, TAB, PANE, LAYOUT)
  {
    WorkspaceRecord();
    AgentRecord();
    TabRecord();
    PaneRecord();
    LayoutSettled();
  }

  /** A workspace table and what a snapshot holds under "workspaces": letters for all of them, tokens that conform. */
  ghost predicate SpacesReady(w: Schema, v: Option<Json>) {
    v.Some? && v.value.Arr? ==>
      |v.value.items| <= 26 && forall i | 0 <= i < |v.value.items| :: ItemReady(w, v.value.items[i])
  }

  lemma ItemsOfArray(v: Json)
    requires WellFormed(v) && v.Arr?
    ensures ItemsDistinct(v.items)
  {
    forall i | 0 <= i < |v.items| && v.items[i].Obj?
      ensures DistinctKeys(v.items[i].fields)
    {
      assert v.items[i] in v.items && WellFormed(v.items[i]);
    }
  }

  // One collection through its loops.

  lemma TitledFitsArray(schema: Schema, generic: string, v: Json)
    requires RecordSchema(schema) && "label" !in schema.specs && TokenFree(schema) && generic in TITLES && WellFormed(v)
    ensures Fits(Released, ArrayOf(schema), EditedValue(Titles(generic), v)) <==> Fits(IdsDone, ArrayOf(schema), v)
  {
    if v.Arr? {
      ItemsOfArray(v);
      TitledItemsFit(schema, v.items, generic);
      ArrayFits(IdsDone, schema, v.items);
      ArrayFits(Released, schema, EditedItems(Titles(generic), v.items));
    }
  }

  lemma TabsFitArray(schema: Schema, v: Json)
    requires RecordSchema(schema) && "label" in schema.specs && TITLE_KEYS !! schema.specs.Keys && TokenFree(schema)
    requires WellFormed(v)
    ensures Fits(Released, ArrayOf(schema), EditedValue(TabLabel, EditedValue(Titles("shell"), v)))
       <==> Fits(IdsDone, ArrayOf(schema), v)
  {
    if v.Arr? {
      ItemsOfArray(v);
      TabItemsFit(schema, v.items, "shell");
      ArrayFits(IdsDone, schema, v.items);
      ArrayFits(Released, schema, EditedItems(TabLabel, EditedItems(Titles("shell"), v.items)));
    }
  }

  lemma SpacesFitArray(schema: Schema, v: Json)
    requires RecordSchema(schema) && "label" in schema.specs && TITLE_KEYS !! schema.specs.Keys && WellFormed(v)
    ensures Fits(Released, ArrayOf(schema), EditedValue(SpaceLabel, v))
       <==> Fits(IdsDone, ArrayOf(schema), v) && SpacesReady(schema, Some(v))
  {
    if v.Arr? {
      ItemsOfArray(v);
      SpaceItemsFit(schema, v.items);
      ArrayFits(IdsDone, schema, v.items);
      ArrayFits(Released, schema, EditedItems(SpaceLabel, v.items));
    }
  }

  // The snapshot, key by key.

  lemma SnapshotKey(w: Schema, a: Schema, t: Schema, p: Schema, l: Schema, k: string, v: Json)
    requires Tables(w, a, t, p, l) && k in SnapshotOver(w, a, t, p, l).specs && WellFormed(v)
    ensures Fits(Released, SnapshotOver(w, a, t, p, l).specs[k].check, AfterAll(k, Some(v)).value)
       <==> Fits(IdsDone, SnapshotOver(w, a, t, p, l).specs[k].check, v)
            && (k == "workspaces" ==> SpacesReady(w, Some(v)))
  {
    SnapshotOverTable(w, a, t, p, l);
    NamesApart();
    if k == "panes" {
      TitledFitsArray(p, "shell", v);
    } else if k == "agents" {
      TitledFitsArray(a, "agent", v);
    } else if k == "tabs" {
      TabsFitArray(t, v);
    } else if k == "workspaces" {
      SpacesFitArray(w, v);
    } else {
      OtherSettled(w, a, t, p, l, k);
      SettledFits(SnapshotOver(w, a, t, p, l).specs[k].check, v);
    }
  }

  lemma OtherSettled(w: Schema, a: Schema, t: Schema, p: Schema, l: Schema, k: string)
    requires k in SnapshotOver(w, a, t, p, l).specs && k !in {"panes", "agents", "tabs", "workspaces"}
    requires Settled(ArrayOf(l))
    ensures Settled(SnapshotOver(w, a, t, p, l).specs[k].check)
  {
  }

  lemma NoLabelDemanded(w: Schema, a: Schema, t: Schema, p: Schema, l: Schema)
    ensures DemandsAlike(SnapshotOver(w, a, t, p, l), IdsDone, Released)
  {
  }

  /** The snapshot comes out of the last pass released exactly if it fitted, with letters for its workspaces and
      conformant tokens. */
  lemma SnapshotFits(w: Schema, a: Schema, t: Schema, p: Schema, l: Schema, s: seq<Field>)
    requires Tables(w, a, t, p, l) && WellFormed(Obj(s))
    ensures Fits(Released, Object(SnapshotOver(w, a, t, p, l)), Obj(EditAll(s, EDITS)))
       <==> Fits(IdsDone, Object(SnapshotOver(w, a, t, p, l)), Obj(s)) && SpacesReady(w, Get(s, "workspaces"))
  {
    var schema, after := SnapshotOver(w, a, t, p, l), EditAll(s, EDITS);
    AfterLoops(s);
    forall k | k in Keys(s)
      ensures KeyFits(Released, schema, after, k)
         <==> KeyFits(IdsDone, schema, s, k) && (k == "workspaces" ==> SpacesReady(w, Get(s, k)))
    {
      GetField(s, k);
      assert WellFormed(Get(s, k).value);
      if k in schema.specs {
        SnapshotKey(w, a, t, p, l, k, Get(s, k).value);
      } else {
        SnapshotOverTable(w, a, t, p, l);
      }
    }
    NoLabelDemanded(w, a, t, p, l);
    GetInKeys(s, "workspaces");
    SnapshotByKey(w, schema, s, after);
  }

  lemma SnapshotByKey(w: Schema, schema: Schema, s: seq<Field>, after: seq<Field>)
    requires DistinctKeys(s) && DistinctKeys(after) && Keys(after) == Keys(s)
    requires forall k | k in Keys(s) ::
               KeyFits(Released, schema, after, k)
               <==> KeyFits(IdsDone, schema, s, k) && (k == "workspaces" ==> SpacesReady(w, Get(s, k)))
    requires DemandsAlike(schema, IdsDone, Released)
    requires "workspaces" !in Keys(s) ==> SpacesReady(w, Get(s, "workspaces"))
    ensures Fits(Released, Object(schema), Obj(after))
       <==> Fits(IdsDone, Object(schema), Obj(s)) && SpacesReady(w, Get(s, "workspaces"))
  {
    ObjectFitsByKey(Released, schema, after);
    ObjectFitsByKey(IdsDone, schema, s);
  }

  // The workspaces' tokens, in the document's terms.

  /** What "tokens" holds is all that the schema has to say about a workspace's tokens. */
  lemma FineIsReady(w: Schema, x: Json)
    requires TokensUnderKey(w) && x.Obj? && DistinctKeys(x.fields)
    ensures TokensFine(x) <==> TokensReady(w, x.fields)
  {
    if TokensFine(x) {
      forall f | f in x.fields && f.key in w.specs && w.specs[f.key].check.Tokens?
        ensures Conforms(w.specs[f.key].check, f.value)
      {
        FieldGet(x.fields, f);
      }
    }
    if TokensOf(x).Some? {
      GetInKeys(x.fields, "tokens");
      GetField(x.fields, "tokens");
    }
  }

  lemma ReadyIsAccepted(w: Schema, doc: Json, s: seq<Field>)
    requires TokensUnderKey(w) && WellFormed(Obj(s)) && doc.Obj? && Get(doc.fields, "snapshot") == Some(Obj(s))
    ensures SpacesReady(w, Get(s, "workspaces")) <==> |SpacesOf(doc)| <= 26 && TokensAccepted(doc)
  {
    var v, items := Get(s, "workspaces"), SpacesOf(doc);
    if v.Some? && v.value.Arr? {
      GetField(s, "workspaces");
      assert WellFormed(v.value) && items == v.value.items;
      ItemsOfArray(v.value);
      forall i | 0 <= i < |items|
        ensures ItemReady(w, items[i]) <==> TokensFine(items[i])
      {
        if items[i].Obj? {
          FineIsReady(w, items[i]);
        }
      }
      FineEverywhere(w, items);
    }
  }

  lemma FineEverywhere(w: Schema, items: seq<Json>)
    requires forall i | 0 <= i < |items| :: ItemReady(w, items[i]) <==> TokensFine(items[i])
    ensures (forall i | 0 <= i < |items| :: ItemReady(w, items[i])) <==> forall x | x in items :: TokensFine(x)
  {
    if forall x | x in items :: TokensFine(x) {
      forall i | 0 <= i < |items| ensures ItemReady(w, items[i]) {
        assert items[i] in items;
      }
    }
  }

  // The root object, and the theorem.

  lemma RootTable(inner: Schema)
    ensures var root := RootOver(inner);
            && "snapshot" in root.specs && root.specs["snapshot"] == Required(Object(inner))
            && DemandsAlike(root, IdsDone, Released)
            && forall k | k in root.specs && k != "snapshot" :: Settled(root.specs[k].check)
  {
  }

  /** Without a snapshot object nothing fits. */
  lemma NeedsSnapshot(stage: Stage, root: Schema, inner: Schema, doc: Json)
    requires "snapshot" in root.specs && root.specs["snapshot"] == Required(Object(inner))
    requires WellFormed(doc) && Fits(stage, Object(root), doc)
    ensures doc.Obj? && Get(doc.fields, "snapshot").Some? && Get(doc.fields, "snapshot").value.Obj?
  {
    assert Demanded(stage, root.specs["snapshot"]);
    GetField(doc.fields, "snapshot");
  }

  ghost predicate OthersFit(stage: Stage, root: Schema, fields: seq<Field>) {
    forall k | k in Keys(fields) && k != "snapshot" :: KeyFits(stage, root, fields, k)
  }

  lemma RootSplit(stage: Stage, root: Schema, inner: Schema, fields: seq<Field>, snapshot: Json)
    requires "snapshot" in root.specs && root.specs["snapshot"] == Required(Object(inner))
    requires DistinctKeys(fields) && Get(fields, "snapshot") == Some(snapshot)
    ensures Fits(stage, Object(root), Obj(fields))
       <==> OthersFit(stage, root, fields) && DemandsMet(stage, root, Keys(fields))
            && Fits(stage, Object(inner), snapshot)
  {
    GetInKeys(fields, "snapshot");
    ObjectFitsByKey(stage, root, fields);
    assert KeyFits(stage, root, fields, "snapshot") <==> Fits(stage, Object(inner), snapshot);
  }

  lemma OthersSettled(root: Schema, before: seq<Field>, after: seq<Field>)
    requires forall k | k in root.specs && k != "snapshot" :: Settled(root.specs[k].check)
    requires Keys(after) == Keys(before) && forall k | k != "snapshot" :: Get(after, k) == Get(before, k)
    ensures OthersFit(Released, root, after) <==> OthersFit(IdsDone, root, before)
  {
    forall k | k in Keys(before) && k != "snapshot"
      ensures KeyFits(Released, root, after, k) <==> KeyFits(IdsDone, root, before, k)
    {
      if k in root.specs {
        GetInKeys(before, k);
        SettledFits(root.specs[k].check, Get(before, k).value);
      }
    }
  }

  lemma RootFits(root: Schema, inner: Schema, before: seq<Field>, was: Json, now: Json)
    requires "snapshot" in root.specs && root.specs["snapshot"] == Required(Object(inner))
    requires forall k | k in root.specs && k != "snapshot" :: Settled(root.specs[k].check)
    requires DemandsAlike(root, IdsDone, Released) && DistinctKeys(before) && Get(before, "snapshot") == Some(was)
    ensures Fits(Released, Object(root), Obj(SetField(before, "snapshot", now))) && Fits(IdsDone, Object(inner), was)
       <==> Fits(IdsDone, Object(root), Obj(before)) && Fits(Released, Object(inner), now)
  {
    var after := SetField(before, "snapshot", now);
    SetFieldEffect(before, "snapshot", now);
    GetInKeys(before, "snapshot");
    OthersSettled(root, before, after);
    RootSplit(IdsDone, root, inner, before, was);
    RootSplit(Released, root, inner, after, now);
    assert DemandsMet(Released, root, Keys(after)) <==> DemandsMet(IdsDone, root, Keys(before));
  }

  /** The last pass: its result conforms exactly if the document fitted before it, with at most 26 workspaces whose
      tokens conform. */
  lemma RelabelledConforms(doc: Json)
    requires WellFormed(doc)
    ensures Conforms(Object(ROOT), Relabelled(doc))
       <==> Fits(IdsDone, Object(ROOT), doc) && |SpacesOf(doc)| <= 26 && TokensAccepted(doc)
  {
    FixtureTables();
    RootTable(SNAPSHOT);
    ReleasedConforms(Object(ROOT), Relabelled(doc));
    if doc.Obj? && Get(doc.fields, "snapshot").Some? && Get(doc.fields, "snapshot").value.Obj? {
      RelabelledBy(ROOT, WORKSPACE, AGENT, TAB, PANE, LAYOUT, doc);
    } else {
      NothingFits(ROOT, SNAPSHOT, doc);
    }
  }

  lemma NothingFits(root: Schema, inner: Schema, doc: Json)
    requires "snapshot" in root.specs && root.specs["snapshot"] == Required(Object(inner)) && WellFormed(doc)
    requires !(doc.Obj? && Get(doc.fields, "snapshot").Some? && Get(doc.fields, "snapshot").value.Obj?)
    ensures !Fits(IdsDone, Object(root), doc) && !Fits(Released, Object(root), doc)
  {
    if Fits(IdsDone, Object(root), doc) {
      NeedsSnapshot(IdsDone, root, inner, doc);
    }
    if Fits(Released, Object(root), doc) {
      NeedsSnapshot(Released, root, inner, doc);
    }
  }

  lemma RelabelledBy(root: Schema, w: Schema, a: Schema, t: Schema, p: Schema, l: Schema, doc: Json)
    requires "snapshot" in root.specs && root.specs["snapshot"] == Required(Object(SnapshotOver(w, a, t, p, l)))
    requires forall k | k in root.specs && k != "snapshot" :: Settled(root.specs[k].check)
    requires DemandsAlike(root, IdsDone, Released) && Tables(w, a, t, p, l) && WellFormed(doc)
    requires doc.Obj? && Get(doc.fields, "snapshot").Some? && Get(doc.fields, "snapshot").value.Obj?
    ensures Fits(Released, Object(root), Relabelled(doc))
       <==> Fits(IdsDone, Object(root), doc) && |SpacesOf(doc)| <= 26 && TokensAccepted(doc)
  {
    var was := Get(doc.fields, "snapshot").value;
    var now := Obj(EditAll(was.fields, EDITS));
    GetField(doc.fields, "snapshot");
    assert WellFormed(was);
    SnapshotFits(w, a, t, p, l, was.fields);
    RootFits(root, SnapshotOver(w, a, t, p, l), doc.fields, was, now);
    ReadyIsAccepted(w, doc, was.fields);
    RootSplit(IdsDone, root, SnapshotOver(w, a, t, p, l), doc.fields, was);
    ReleasedSnapshot(root, SnapshotOver(w, a, t, p, l), doc.fields, now);
  }

  lemma ReleasedSnapshot(root: Schema, inner: Schema, before: seq<Field>, now: Json)
    requires "snapshot" in root.specs && root.specs["snapshot"] == Required(Object(inner)) && DistinctKeys(before)
    ensures Fits(Released, Object(root), Obj(SetField(before, "snapshot", now))) ==> Fits(Released, Object(inner), now)
  {
    SetFieldEffect(before, "snapshot", now);
    RootSplit(Released, root, inner, SetField(before, "snapshot", now), now);
  }

  /** For every capture with fewer than 10^12 identifiers of each kind, the sanitized document leaves the validator
      nothing to say exactly if the capture has the schema's shape (with home paths for project paths, strings for
      identifiers, and anything for titles, labels and tokens), lists at most 26 workspaces, and holds only
      conformant tokens. */
  lemma SanitizedConforms(doc: Json)
    requires WellFormed(doc) && FewIds(Paths(doc, map[]).0)
    ensures Conforms(Object(ROOT), Sanitized(doc))
       <==> Fits(Captured, Object(ROOT), doc) && |SpacesOf(doc)| <= 26 && TokensAccepted(doc)
    ensures Check(Object(ROOT), [], Sanitized(doc)) == multiset{} <==> Conforms(Object(ROOT), Sanitized(doc))
  {
    var paths, d := Paths(doc, map[]).0, PathDictionary(doc);
    PathsByDictionary(doc);
    RootPathFree();
    DictionaryCovers(doc);
    PathsFit(Object(ROOT), doc, d);
    PathsWellFormed(doc, d);
    PathsKeepTokens(doc, d);

    var g := Dictionary(paths);
    ScrubbedByDictionary(paths);
    DictionaryConforms(paths);
    RootIds();
    IdsFit(Object(ROOT), paths, false, None, g);
    MapWellFormed(paths, None, g);
    IdsKeepTokens(paths, g);

    RelabelledConforms(MapIds(paths, None, g));
    ReportsNothingIffConforms(Object(ROOT), [], Sanitized(doc));
  }

  // The number of identifiers, told from the capture alone: an object holds at most one of each kind.

  /** How many objects a document holds, at any depth. */
  function Objects(v: Json): nat
    decreases v
  {
    match v
    case Arr(items) => ItemObjects(items)
    case Obj(fields) => 1 + FieldObjects(fields)
    case _ => 0
  }

  function ItemObjects(items: seq<Json>): nat
    decreases items
  {
    if items == [] then 0 else ItemObjects(items[..|items| - 1]) + Objects(items[|items| - 1])
  }

  function FieldObjects(fields: seq<Field>): nat
    decreases fields
  {
    if fields == [] then 0 else FieldObjects(fields[..|fields| - 1]) + Objects(fields[|fields| - 1].value)
  }

  lemma {:induction false} PathsKeepObjects(v: Json, g: Names)
    ensures Objects(MapPaths(v, g)) == Objects(v)
    decreases v
  {
    match v
    case Arr(items) => PathsKeepItemObjects(items, g);
    case Obj(fields) => PathsKeepFieldObjects(fields, g);
    case _ =>
  }

  lemma {:induction false} PathsKeepItemObjects(items: seq<Json>, g: Names)
    ensures ItemObjects(MapPathItems(items, g)) == ItemObjects(items)
    decreases items
  {
    if items != [] {
      var n := |items| - 1;
      PathsKeepItemObjects(items[..n], g);
      PathsKeepObjects(items[n], g);
      assert MapPathItems(items, g)[..n] == MapPathItems(items[..n], g);
    }
  }

  lemma {:induction false} PathsKeepFieldObjects(fields: seq<Field>, g: Names)
    ensures FieldObjects(MapPathFields(fields, g)) == FieldObjects(fields)
    decreases fields
  {
    if fields != [] {
      var n := |fields| - 1;
      PathsKeepFieldObjects(fields[..n], g);
      PathsKeepObjects(fields[n].value, g);
      assert MapPathFields(fields, g)[..n] == MapPathFields(fields[..n], g);
    }
  }

  lemma {:induction false} IdsPerObject(kind: Kind, v: Json)
    ensures |IdList(kind, v)| <= Objects(v)
    decreases v
  {
    match v
    case Arr(items) => IdsPerItem(kind, items);
    case Obj(fields) => IdsPerField(kind, fields);
    case _ =>
  }

  lemma {:induction false} IdsPerItem(kind: Kind, items: seq<Json>)
    ensures |ItemIds(kind, items)| <= ItemObjects(items)
    decreases items
  {
    if items != [] {
      IdsPerItem(kind, items[..|items| - 1]);
      IdsPerObject(kind, items[|items| - 1]);
    }
  }

  lemma {:induction false} IdsPerField(kind: Kind, fields: seq<Field>)
    ensures |FieldIds(kind, fields)| <= FieldObjects(fields)
    decreases fields
  {
    if fields != [] {
      IdsPerField(kind, fields[..|fields| - 1]);
      IdsPerObject(kind, fields[|fields| - 1].value);
    }
  }

  lemma {:induction false} FewDistinct(values: seq<string>)
    ensures |Distinct(values)| <= |values|
  {
    if values != [] {
      var n := |values| - 1;
      FewDistinct(values[..n]);
      assert Distinct(values) == Distinct(values[..n]) + {values[n]};
    }
  }

  lemma FewObjects(doc: Json)
    requires Objects(doc) < Pow10(12)
    ensures FewIds(Paths(doc, map[]).0)
  {
    var paths := Paths(doc, map[]).0;
    PathsByDictionary(doc);
    PathsKeepObjects(doc, PathDictionary(doc));
    IdsPerObject(Session, paths);
    IdsPerObject(Terminal, paths);
    FewDistinct(IdList(Session, paths));
    FewDistinct(IdList(Terminal, paths));
  }

  /** So for a capture with fewer than 10^12 objects the condition can be read off the capture itself. */
  lemma SmallCaptureConforms(doc: Json)
    requires WellFormed(doc) && Objects(doc) < Pow10(12)
    ensures Conforms(Object(ROOT), Sanitized(doc))
       <==> Fits(Captured, Object(ROOT), doc) && |SpacesOf(doc)| <= 26 && TokensAccepted(doc)
  {
    FewObjects(doc);
    SanitizedConforms(doc);
  }
}
