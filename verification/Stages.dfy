/** What a capture looks like to the schema before, between and after the sanitizer's passes. */
module Stages {
  import opened FixtureSchema
  import opened Json
  import opened Numbering
  import opened PathRenaming
  import opened Patterns
  import opened Prelude
  import opened Renaming
  import opened Sanitize
  import opened Validator

  datatype Stage = Captured | PathsDone | IdsDone | Released

  /** A raw capture holds home paths where the fixture must hold project paths, arbitrary strings where it
      must hold placeholders, and anything at all for titles and labels. Everything else is already in
      its final shape. */
  predicate LeafFits(stage: Stage, c: Checker, v: Json) {
    if c == Match(ProjectPath) && stage.Captured? then v.Str? && Prefixed(v.s, HOME)
    else if (c == Match(TerminalId) || c == Match(SessionUuid)) && (stage.Captured? || stage.PathsDone?) then v.Str?
    else if (c == Match(Label) || c == OneOf(TITLES)) && !stage.Released? then true
    else Complaint(c, v).None?
  }

  /** The closed schema at a stage. Labels are added by the last pass, so only then are they required. A capture's
      tokens may be anything: no pass is meant to change them. */
  ghost predicate Fits(stage: Stage, c: Checker, v: Json)
    decreases v
  {
    match c
    case Object(schema) =>
      v.Obj?
      && (forall f | f in v.fields :: f.key in schema.specs && Fits(stage, schema.specs[f.key].check, f.value))
      && (forall name | name in schema.specs && Demanded(stage, schema.specs[name]) :: name in Keys(v.fields))
    case ArrayOf(schema) => v.Arr? && forall x | x in v.items :: Fits(stage, Object(schema), x)
    case Tokens(_) => stage.Released? ==> Conforms(c, v)
    case _ => LeafFits(stage, c, v)
  }

  predicate Demanded(stage: Stage, spec: FieldSpec) {
    spec.required && (stage.Released? || spec.check != Match(Label))
  }

  /** The last stage is the fixture schema itself. */
  lemma {:induction false} ReleasedConforms(c: Checker, v: Json)
    ensures Fits(Released, c, v) <==> Conforms(c, v)
    decreases v
  {
    match c
    case Object(schema) =>
      if v.Obj? {
        forall f | f in v.fields && f.key in schema.specs
          ensures Fits(Released, schema.specs[f.key].check, f.value) <==> Conforms(schema.specs[f.key].check, f.value)
        {
          ReleasedConforms(schema.specs[f.key].check, f.value);
        }
      }
    case ArrayOf(schema) =>
      if v.Arr? {
        forall x | x in v.items
          ensures Fits(Released, Object(schema), x) <==> Conforms(Object(schema), x)
        {
          ReleasedConforms(Object(schema), x);
        }
      }
    case _ =>
  }

  // Containers fit alike when their parts do.

  lemma SameKeys(a: seq<Field>, b: seq<Field>)
    requires |a| == |b| && forall i | 0 <= i < |a| :: a[i].key == b[i].key
    ensures Keys(a) == Keys(b)
    ensures DistinctKeys(a) ==> DistinctKeys(b)
  {
    forall k
      ensures k in Keys(a) <==> k in Keys(b)
    {
      if i :| 0 <= i < |a| && a[i].key == k {
        assert a[i] in a && b[i] in b;
      }
      if i :| 0 <= i < |b| && b[i].key == k {
        assert a[i] in a && b[i] in b;
      }
    }
  }

  /** A field fits the schema at one stage exactly if its counterpart fits at another. */
  ghost predicate FieldAlike(schema: Schema, from: Stage, f: Field, to: Stage, g: Field) {
    && f.key == g.key
    && (f.key in schema.specs ==>
          (Fits(from, schema.specs[f.key].check, f.value) <==> Fits(to, schema.specs[g.key].check, g.value)))
  }

  predicate DemandsAlike(schema: Schema, from: Stage, to: Stage) {
    forall k | k in schema.specs :: Demanded(from, schema.specs[k]) <==> Demanded(to, schema.specs[k])
  }

  lemma ObjectFitsAlike(schema: Schema, from: Stage, a: seq<Field>, to: Stage, b: seq<Field>)
    requires |a| == |b| && forall i | 0 <= i < |a| :: FieldAlike(schema, from, a[i], to, b[i])
    requires DemandsAlike(schema, from, to)
    ensures Fits(from, Object(schema), Obj(a)) <==> Fits(to, Object(schema), Obj(b))
  {
    if Fits(from, Object(schema), Obj(a)) {
      ObjectFitsAcross(schema, from, a, to, b);
    }
    if Fits(to, Object(schema), Obj(b)) {
      forall i | 0 <= i < |a| ensures FieldAlike(schema, to, b[i], from, a[i]) {
        assert FieldAlike(schema, from, a[i], to, b[i]);
      }
      ObjectFitsAcross(schema, to, b, from, a);
    }
  }

  lemma ObjectFitsAcross(schema: Schema, from: Stage, a: seq<Field>, to: Stage, b: seq<Field>)
    requires |a| == |b| && forall i | 0 <= i < |a| :: FieldAlike(schema, from, a[i], to, b[i])
    requires DemandsAlike(schema, from, to) && Fits(from, Object(schema), Obj(a))
    ensures Fits(to, Object(schema), Obj(b))
  {
    assert forall i | 0 <= i < |a| :: a[i].key == b[i].key by {
      assert forall i | 0 <= i < |a| :: FieldAlike(schema, from, a[i], to, b[i]);
    }
    SameKeys(a, b);
    forall g | g in b
      ensures g.key in schema.specs && Fits(to, schema.specs[g.key].check, g.value)
    {
      var i :| 0 <= i < |b| && b[i] == g;
      assert FieldAlike(schema, from, a[i], to, b[i]) && a[i] in a;
    }
  }

  ghost predicate ItemAlike(schema: Schema, from: Stage, x: Json, to: Stage, y: Json) {
    Fits(from, Object(schema), x) <==> Fits(to, Object(schema), y)
  }

  lemma ArrayFitsAlike(schema: Schema, from: Stage, a: seq<Json>, to: Stage, b: seq<Json>)
    requires |a| == |b| && forall i | 0 <= i < |a| :: ItemAlike(schema, from, a[i], to, b[i])
    ensures Fits(from, ArrayOf(schema), Arr(a)) <==> Fits(to, ArrayOf(schema), Arr(b))
  {
    if Fits(from, ArrayOf(schema), Arr(a)) {
      forall y | y in b ensures Fits(to, Object(schema), y) {
        var i :| 0 <= i < |b| && b[i] == y;
        assert ItemAlike(schema, from, a[i], to, b[i]) && a[i] in a;
      }
    }
    if Fits(to, ArrayOf(schema), Arr(b)) {
      forall x | x in a ensures Fits(from, Object(schema), x) {
        var i :| 0 <= i < |a| && a[i] == x;
        assert ItemAlike(schema, from, a[i], to, b[i]) && b[i] in b;
      }
    }
  }

  // First pass: paths.

  predicate Pathy(s: string) {
    Prefixed(s, HOME) || Prefixed(s, TILDE)
  }

  /** None of the schema's fixed words looks like a path. */
  ghost predicate PathFree(c: Checker)
    decreases c
  {
    match c
    case Literal(want) => !Pathy(want)
    case OneOf(allowed) => forall w | w in allowed :: !Pathy(w)
    case NullOrOneOf(allowed) => forall w | w in allowed :: !Pathy(w)
    case Object(schema) => forall k | k in schema.specs :: PathFree(schema.specs[k].check)
    case ArrayOf(schema) => forall k | k in schema.specs :: PathFree(schema.specs[k].check)
    case StatusOrLabel => false
    case _ => true
  }

  lemma PathyStart(s: string)
    requires Pathy(s)
    ensures s != "" && (s[0] == '/' || s[0] == '~')
  {
    if Prefixed(s, HOME) {
      assert s[0] == s[..|HOME|][0] == '/';
    } else {
      assert s[0] == s[..|TILDE|][0] == '~';
    }
  }

  lemma PatternsPathFree(p: Pattern, s: string)
    requires Matches(p, s) && p in {WorkspaceId, TabId, PaneId, DecimalCount}
    ensures !Pathy(s)
  {
    if Pathy(s) {
      PathyStart(s);
    }
  }

  lemma MapPathIsPathy(s: string, g: Names)
    ensures Pathy(MapPath(s, g)) <==> Pathy(s)
    ensures !Pathy(s) ==> MapPath(s, g) == s
  {
    if Prefixed(s, HOME) {
      ProjectIsPathy(Look(g, Base(s)));
    } else if Prefixed(s, TILDE) {
      assert TILDE_PLACEHOLDER[..|TILDE|] == TILDE;
    }
  }

  lemma ProjectIsPathy(tail: string)
    ensures Pathy(PROJECTS + tail)
  {
    assert (PROJECTS + tail)[..|HOME|] == PROJECTS[..|HOME|] == HOME;
  }

  /** Only home paths become project paths. */
  lemma OnlyHomeToProject(s: string, g: Names)
    requires !Prefixed(s, HOME)
    ensures !Matches(ProjectPath, MapPath(s, g))
  {
    TildeIsNotHome();
    ProjectIsHome(MapPath(s, g));
  }

  lemma TildeIsNotHome()
    ensures !Prefixed(TILDE_PLACEHOLDER, HOME)
  {
    assert TILDE_PLACEHOLDER[..|HOME|][0] == '~' && HOME[0] == '/';
  }

  lemma ProjectIsHome(s: string)
    ensures Matches(ProjectPath, s) ==> Prefixed(s, HOME)
  {
    if Matches(ProjectPath, s) {
      assert s[..|HOME|] == s[..|PROJECT_PREFIX|][..|HOME|];
      assert PROJECT_PREFIX[..|HOME|] == HOME;
    }
  }

  /** The renaming has a conformant project path for every listed home path. */
  predicate Covers(g: Names, paths: seq<string>) {
    forall s | s in paths :: Matches(ProjectPath, MapPath(s, g))
  }

  lemma DictionaryCovers(v: Json)
    ensures Covers(PathDictionary(v), HomePaths(v))
  {
    var paths, g := HomePaths(v), PathDictionary(v);
    NumberedAll(Project, map[], Bases(paths));
    forall i | 0 <= i < |paths|
      ensures Prefixed(paths[i], HOME) && Base(paths[i]) in g
    {
      AllHome(v, i);
      BaseIsNumbered(paths, i);
    }
    NumberedCovers(g, paths);
  }

  lemma {:induction false} NumberedCovers(g: Names, paths: seq<string>)
    requires Numbered(Project, g) && forall i | 0 <= i < |paths| :: Prefixed(paths[i], HOME) && Base(paths[i]) in g
    ensures Covers(g, paths)
  {
    if paths != [] {
      NumberedIsCovered(g, paths[0]);
      NumberedCovers(g, paths[1..]);
      assert forall s | s in paths :: s == paths[0] || s in paths[1..];
    }
  }

  lemma BaseIsNumbered(paths: seq<string>, i: nat)
    requires i < |paths|
    ensures Base(paths[i]) in NumberAll(Project, map[], Bases(paths))
  {
    NumberedKeys(Project, Bases(paths));
    assert Bases(paths)[i] == Base(paths[i]);
  }

  lemma NumberedIsCovered(g: Names, s: string)
    requires Numbered(Project, g) && Prefixed(s, HOME) && Base(s) in g
    ensures Matches(ProjectPath, MapPath(s, g))
  {
    var n :| 1 <= n <= |g| && g[Base(s)] == Placeholder(Project, n);
    ProjectShape(n);
  }

  /** Leaves whose value the first pass may change. */
  predicate Rewritable(c: Checker) {
    c in {Match(ProjectPath), Match(TerminalId), Match(SessionUuid), Match(Label), OneOf(TITLES), AnyString}
  }

  lemma PathyUnfit(stage: Stage, c: Checker, s: string)
    requires IsLeaf(c) && PathFree(c) && !Rewritable(c) && Pathy(s)
    ensures !LeafFits(stage, c, Str(s))
  {
    if c.Match? && Matches(c.pattern, s) {
      PatternsPathFree(c.pattern, s);
    }
  }

  lemma StringPathsFit(c: Checker, s: string, g: Names)
    requires IsLeaf(c) && PathFree(c) && (Prefixed(s, HOME) ==> Matches(ProjectPath, MapPath(s, g)))
    ensures LeafFits(Captured, c, Str(s)) <==> LeafFits(PathsDone, c, Str(MapPath(s, g)))
  {
    if c == Match(ProjectPath) {
      if !Prefixed(s, HOME) {
        OnlyHomeToProject(s, g);
      }
    } else if !Rewritable(c) {
      FixedPathsFit(c, s, g);
    }
  }

  lemma FixedPathsFit(c: Checker, s: string, g: Names)
    requires IsLeaf(c) && PathFree(c) && !Rewritable(c)
    ensures LeafFits(Captured, c, Str(s)) <==> LeafFits(PathsDone, c, Str(MapPath(s, g)))
  {
    MapPathIsPathy(s, g);
    if Pathy(s) {
      PathyUnfit(Captured, c, s);
      PathyUnfit(PathsDone, c, MapPath(s, g));
    }
  }

  lemma LeafPathsFit(c: Checker, v: Json, g: Names)
    requires IsLeaf(c) && PathFree(c) && Covers(g, HomePaths(v))
    ensures LeafFits(Captured, c, v) <==> LeafFits(PathsDone, c, MapPaths(v, g))
  {
    if v.Str? {
      assert Prefixed(v.s, HOME) ==> v.s in HomePaths(v);
      StringPathsFit(c, v.s, g);
    }
  }

  /** The path pass, in both directions: a document fits before it exactly if the result fits after it. */
  lemma {:induction false} PathsFit(c: Checker, v: Json, g: Names)
    requires PathFree(c) && Covers(g, HomePaths(v))
    ensures Fits(Captured, c, v) <==> Fits(PathsDone, c, MapPaths(v, g))
    decreases v
  {
    match c
    case Object(schema) =>
      if v.Obj? {
        PathsObjectFit(schema, v.fields, g);
      }
    case ArrayOf(schema) =>
      if v.Arr? {
        PathsArrayFit(schema, v.items, g);
      }
    case Tokens(_) =>
    case _ => LeafPathsFit(c, v, g);
  }

  lemma {:induction false} PathsObjectFit(schema: Schema, fields: seq<Field>, g: Names)
    requires PathFree(Object(schema)) && Covers(g, FieldPaths(fields))
    ensures Fits(Captured, Object(schema), Obj(fields))
       <==> Fits(PathsDone, Object(schema), Obj(MapPathFields(fields, g)))
    decreases fields
  {
    forall i | 0 <= i < |fields|
      ensures FieldAlike(schema, Captured, fields[i], PathsDone, MapPathFields(fields, g)[i])
    {
      MapPathFieldsAt(fields, g, i);
      if fields[i].key in schema.specs {
        FieldPathsHave(fields, i);
        PathsFit(schema.specs[fields[i].key].check, fields[i].value, g);
      }
    }
    ObjectFitsAlike(schema, Captured, fields, PathsDone, MapPathFields(fields, g));
  }

  lemma {:induction false} PathsArrayFit(schema: Schema, items: seq<Json>, g: Names)
    requires PathFree(Object(schema)) && Covers(g, ItemPaths(items))
    ensures Fits(Captured, ArrayOf(schema), Arr(items))
       <==> Fits(PathsDone, ArrayOf(schema), Arr(MapPathItems(items, g)))
    decreases items
  {
    forall i | 0 <= i < |items|
      ensures ItemAlike(schema, Captured, items[i], PathsDone, MapPathItems(items, g)[i])
    {
      MapPathItemsAt(items, g, i);
      ItemPathsHave(items, i);
      PathsFit(Object(schema), items[i], g);
    }
    ArrayFitsAlike(schema, Captured, items, PathsDone, MapPathItems(items, g));
  }

  lemma {:induction false} PathsWellFormed(v: Json, g: Names)
    requires WellFormed(v)
    ensures WellFormed(MapPaths(v, g))
    decreases v
  {
    match v
    case Arr(items) =>
      forall x | x in MapPathItems(items, g) ensures WellFormed(x) {
        var i :| 0 <= i < |items| && MapPathItems(items, g)[i] == x;
        MapPathItemsAt(items, g, i);
        PathsWellFormed(items[i], g);
      }
    case Obj(fields) =>
      SameKeys(fields, MapPathFields(fields, g));
      forall f | f in MapPathFields(fields, g) ensures WellFormed(f.value) {
        var i :| 0 <= i < |fields| && MapPathFields(fields, g)[i] == f;
        MapPathFieldsAt(fields, g, i);
        PathsWellFormed(fields[i].value, g);
      }
    case _ =>
  }

  // Second pass: identifiers.

  /** Where a schema (of a session object, when `session`) puts identifiers: terminal ids exactly under their
      key, session values exactly in session objects, which must have one. */
  ghost predicate IdSchema(schema: Schema, session: bool)
    decreases schema
  {
    forall k | k in schema.specs :: IdSpec(k, schema.specs[k].check, session)
  }

  ghost predicate IdSpec(key: string, c: Checker, session: bool)
    decreases c
  {
    && (c == Match(TerminalId) <==> key == "terminal_id")
    && (c == Match(SessionUuid) <==> session && key == "value")
    && (key == "agent_session" ==> c.Object?)
    && (c.Object? ==> IdSchema(c.schema, key == "agent_session"))
    && (c.ArrayOf? ==> IdSchema(c.schema, false))
  }

  ghost predicate IdReady(c: Checker, session: bool) {
    match c
    case Object(schema) => IdSchema(schema, session)
    case ArrayOf(schema) => IdSchema(schema, false)
    case _ => c != Match(TerminalId) && c != Match(SessionUuid)
  }

  /** Every listed identifier has a conformant placeholder. */
  predicate Placeholders(g: Ids, sessions: seq<string>, terminals: seq<string>) {
    && (forall x | x in sessions :: Matches(SessionUuid, Look(g.sessions, x)))
    && forall x | x in terminals :: Matches(TerminalId, Look(g.terminals, x))
  }

  /** What is known of the replacement for a session object's value: there is one exactly if the object has a string
      to replace, and it conforms. */
  predicate OwnFits(v: Json, session: bool, own: Option<string>) {
    && (own.Some? ==> session && v.Obj? && StringAt(v.fields, "value").Some? && Matches(SessionUuid, own.value))
    && (session && v.Obj? && own.None? ==> StringAt(v.fields, "value").None?)
  }

  predicate SlotsFit(slots: Slots) {
    && (slots.session.Some? ==> Matches(SessionUuid, slots.session.value))
    && (slots.terminal.Some? ==> Matches(TerminalId, slots.terminal.value))
  }

  lemma SlotsConform(fields: seq<Field>, g: Ids)
    requires Placeholders(g, OwnId(Session, fields), OwnId(Terminal, fields))
    ensures SlotsFit(SlotsBy(fields, g))
  {
    var s, t := SessionSlot(fields), StringAt(fields, "terminal_id");
    assert s.Some? ==> s.value in OwnId(Session, fields);
    assert t.Some? ==> t.value in OwnId(Terminal, fields);
  }

  /** The identifier pass, in both directions. */
  lemma {:induction false} IdsFit(c: Checker, v: Json, session: bool, own: Option<string>, g: Ids)
    requires WellFormed(v) && IdReady(c, session) && (session ==> c.Object?) && OwnFits(v, session, own)
    requires Placeholders(g, IdList(Session, v), IdList(Terminal, v))
    ensures Fits(PathsDone, c, v) <==> Fits(IdsDone, c, MapIds(v, own, g))
    decreases v, 2
  {
    MapKeepsShape(v, own, g);
    match c
    case Object(schema) =>
      if v.Obj? {
        IdsObjectFit(schema, v.fields, session, own, g);
      }
    case ArrayOf(schema) =>
      if v.Arr? {
        IdsArrayFit(schema, v.items, g);
      }
    case Tokens(_) =>
    case _ =>
  }

  lemma {:induction false} IdsArrayFit(schema: Schema, items: seq<Json>, g: Ids)
    requires IdSchema(schema, false) && forall x | x in items :: WellFormed(x)
    requires Placeholders(g, ItemIds(Session, items), ItemIds(Terminal, items))
    ensures Fits(PathsDone, ArrayOf(schema), Arr(items)) <==> Fits(IdsDone, ArrayOf(schema), Arr(MapItems(items, g)))
    decreases items, 3
  {
    forall i | 0 <= i < |items|
      ensures ItemAlike(schema, PathsDone, items[i], IdsDone, MapItems(items, g)[i])
    {
      assert items[i] in items;
      MapItemsAt(items, g, i);
      ItemIdsHave(Session, items, i);
      ItemIdsHave(Terminal, items, i);
      IdsFit(Object(schema), items[i], false, None, g);
    }
    ArrayFitsAlike(schema, PathsDone, items, IdsDone, MapItems(items, g));
  }

  lemma {:induction false} IdsObjectFit(
      schema: Schema, fields: seq<Field>, session: bool, own: Option<string>, g: Ids)
    requires WellFormed(Obj(fields)) && IdSchema(schema, session) && OwnFits(Obj(fields), session, own)
    requires Placeholders(g, IdList(Session, Obj(fields)), IdList(Terminal, Obj(fields)))
    ensures Fits(PathsDone, Object(schema), Obj(fields)) <==> Fits(IdsDone, Object(schema), MapIds(Obj(fields), own, g))
    decreases fields, 3
  {
    var slots := SlotsBy(fields, g);
    SlotsConform(fields, g);
    forall i | 0 <= i < |fields|
      ensures FieldAlike(schema, PathsDone, fields[i], IdsDone, MapFields(fields, own, slots, g)[i])
    {
      assert fields[i] in fields;
      MapFieldsAt(fields, own, slots, g, i);
      FieldIdsHave(Session, fields, i);
      FieldIdsHave(Terminal, fields, i);
      if fields[i].key in schema.specs {
        IdsFieldFit(schema, fields, i, session, own, slots, g);
      }
    }
    ObjectFitsAlike(schema, PathsDone, fields, IdsDone, MapFields(fields, own, slots, g));
  }

  lemma IdLeafFit(
      c: Checker, all: seq<Field>, n: nat, session: bool, own: Option<string>, slots: Slots, g: Ids)
    requires n < |all| && DistinctKeys(all) && OwnFits(Obj(all), session, own)
    requires slots == SlotsBy(all, g) && SlotsFit(slots)
    requires (c == Match(TerminalId) && all[n].key == "terminal_id")
          || (c == Match(SessionUuid) && session && all[n].key == "value")
    ensures Fits(PathsDone, c, all[n].value) <==> Fits(IdsDone, c, MapField(all[n], own, slots, g))
  {
    GetOf(all, n);
    MapKeepsShape(all[n].value, None, g);
    assert |"value"| == 5 && |"terminal_id"| == 11 && |"agent_session"| == 13;
  }

  lemma {:induction false} IdsFieldFit(
      schema: Schema, all: seq<Field>, n: nat, session: bool, own: Option<string>, slots: Slots, g: Ids)
    requires n < |all| && DistinctKeys(all) && WellFormed(all[n].value) && all[n].key in schema.specs
    requires IdSchema(schema, session) && OwnFits(Obj(all), session, own)
    requires slots == SlotsBy(all, g) && SlotsFit(slots)
    requires Placeholders(g, IdList(Session, all[n].value), IdList(Terminal, all[n].value))
    ensures Fits(PathsDone, schema.specs[all[n].key].check, all[n].value)
       <==> Fits(IdsDone, schema.specs[all[n].key].check, MapField(all[n], own, slots, g))
    decreases all[n], 0
  {
    var f := all[n];
    var c := schema.specs[f.key].check;
    assert IdSpec(f.key, c, session);
    GetOf(all, n);
    SessionKeyApart();
    if c == Match(SessionUuid) || c == Match(TerminalId) {
      IdLeafFit(c, all, n, session, own, slots, g);
    } else if f.key == "agent_session" {
      IdsFit(c, f.value, true, slots.session, g);
    } else {
      IdsFit(c, f.value, false, None, g);
    }
  }
}
