/** The sanitizer's output satisfies the schema it was written for. */
module SanitizeConforms {
  import opened FixtureSchema
  import opened Json
  import opened Patterns
  import opened Prelude
  import opened Relabelling
  import opened Sanitize
  import opened Stages
  import opened Validator

  // What the tables say, kind by kind: no fixed word looks like a path, and identifiers sit where the
  // second pass looks for them.

  lemma WordPathFree(s: string)
    requires s == "" || (s[0] != '/' && s[0] != '~')
    ensures !Pathy(s)
  {
    if Pathy(s) {
      PathyStart(s);
    }
  }

  lemma WordsPathFree()
    ensures PathFree(OneOf(AGENT_KINDS)) && PathFree(NullOrOneOf(AGENT_STATUS)) && PathFree(OneOf(TITLES))
    ensures PathFree(Literal("session_snapshot"))
  {
    forall w | w in AGENT_KINDS ensures !Pathy(w) { WordPathFree(w); }
    forall w | w in AGENT_STATUS ensures !Pathy(w) { WordPathFree(w); }
    forall w | w in TITLES ensures !Pathy(w) { WordPathFree(w); }
    WordPathFree("session_snapshot");
  }

  lemma RectPathFree()
    ensures PathFree(Object(RECT))
  {
  }

  lemma ScrollPathFree()
    ensures PathFree(Object(SCROLL))
  {
  }

  lemma SessionPathFree()
    ensures PathFree(Object(SESSION))
  {
    WordsPathFree();
  }

  lemma LayoutPanePathFree()
    ensures PathFree(ArrayOf(LAYOUT_PANE))
  {
    RectPathFree();
  }

  lemma SplitPathFree()
    ensures PathFree(ArrayOf(SPLIT))
  {
    RectPathFree();
  }

  lemma LayoutPathFree()
    ensures PathFree(ArrayOf(LAYOUT))
  {
    RectPathFree();
    LayoutPanePathFree();
    SplitPathFree();
  }

  lemma WorkspacePathFree()
    ensures PathFree(ArrayOf(WORKSPACE))
  {
    WordsPathFree();
  }

  /** The checkers that records use. */
  ghost predicate RecordChecker(c: Checker) {
    || c.Match? || c.AnyNumber? || c.AnyBool?
    || c == OneOf(AGENT_KINDS) || c == NullOrOneOf(AGENT_STATUS) || c == OneOf(TITLES)
    || c == Object(SESSION) || c == Object(SCROLL)
  }

  lemma RecordCheckerPathFree(c: Checker)
    requires RecordChecker(c)
    ensures PathFree(c)
  {
    WordsPathFree();
    if c == Object(SESSION) {
      SessionPathFree();
    } else if c == Object(SCROLL) {
      ScrollPathFree();
    }
  }

  lemma RecordPathFree(schema: Schema)
    requires forall k | k in schema.specs :: RecordChecker(schema.specs[k].check)
    ensures PathFree(ArrayOf(schema))
  {
    forall k | k in schema.specs
      ensures PathFree(schema.specs[k].check)
    {
      RecordCheckerPathFree(schema.specs[k].check);
    }
  }

  lemma AgentPathFree()
    ensures PathFree(ArrayOf(AGENT))
  {
    RecordPathFree(AGENT);
  }

  lemma TabPathFree()
    ensures PathFree(ArrayOf(TAB))
  {
    WordsPathFree();
  }

  lemma PanePathFree()
    ensures PathFree(ArrayOf(PANE))
  {
    RecordPathFree(PANE);
  }

  lemma SnapshotOverPathFree(w: Schema, a: Schema, t: Schema, p: Schema, l: Schema)
    requires PathFree(ArrayOf(w)) && PathFree(ArrayOf(a)) && PathFree(ArrayOf(t))
    requires PathFree(ArrayOf(p)) && PathFree(ArrayOf(l))
    ensures PathFree(Object(SnapshotOver(w, a, t, p, l)))
  {
  }

  lemma SnapshotOverIds(w: Schema, a: Schema, t: Schema, p: Schema, l: Schema)
    requires IdSchema(w, false) && IdSchema(a, false) && IdSchema(t, false) && IdSchema(p, false) && IdSchema(l, false)
    ensures IdSchema(SnapshotOver(w, a, t, p, l), false)
  {
  }

  lemma SnapshotPathFree()
    ensures PathFree(Object(SNAPSHOT))
  {
    WorkspacePathFree();
    AgentPathFree();
    TabPathFree();
    PanePathFree();
    LayoutPathFree();
    SnapshotOverPathFree(WORKSPACE, AGENT, TAB, PANE, LAYOUT);
  }

  lemma RootPathFree()
    ensures PathFree(Object(ROOT))
  {
    SnapshotPathFree();
    RootOverPathFree(SNAPSHOT);
  }

  lemma RootOverPathFree(snapshot: Schema)
    requires PathFree(Object(snapshot))
    ensures PathFree(Object(RootOver(snapshot)))
  {
    WordPathFree("session_snapshot");
  }

  lemma FlatIds()
    ensures IdSchema(RECT, false) && IdSchema(SCROLL, false)
  {
  }

  lemma SessionIds()
    ensures IdSchema(SESSION, true)
  {
  }

  lemma LayoutPartsIds()
    ensures IdSchema(LAYOUT_PANE, false) && IdSchema(SPLIT, false)
  {
    FlatIds();
  }

  lemma LayoutIds()
    ensures IdSchema(LAYOUT, false)
  {
    FlatIds();
    LayoutPartsIds();
  }

  lemma WorkspaceIds()
    ensures IdSchema(WORKSPACE, false)
  {
  }

  /** How records place identifiers, without looking into the session and scroll tables. */
  predicate IdShape(key: string, c: Checker) {
    if key == "agent_session" then c == Object(SESSION)
    else if key == "terminal_id" then c == Match(TerminalId)
    else c == Object(SCROLL) || (IsLeaf(c) && c != Match(TerminalId) && c != Match(SessionUuid))
  }

  lemma IdsFromShape(schema: Schema)
    requires forall k | k in schema.specs :: IdShape(k, schema.specs[k].check)
    ensures IdSchema(schema, false)
  {
    SessionIds();
    FlatIds();
    forall k | k in schema.specs
      ensures IdSpec(k, schema.specs[k].check, false)
    {
      assert IdShape(k, schema.specs[k].check);
    }
  }

  lemma AgentIdShapes()
    ensures forall k | k in AGENT.specs :: IdShape(k, AGENT.specs[k].check)
  {
  }

  lemma AgentIds()
    ensures IdSchema(AGENT, false)
  {
    AgentIdShapes();
    IdsFromShape(AGENT);
  }

  lemma TabIds()
    ensures IdSchema(TAB, false)
  {
  }

  lemma PaneIdShapes()
    ensures forall k | k in PANE.specs :: IdShape(k, PANE.specs[k].check)
  {
  }

  lemma PaneIds()
    ensures IdSchema(PANE, false)
  {
    PaneIdShapes();
    IdsFromShape(PANE);
  }

  lemma SnapshotIds()
    ensures IdSchema(SNAPSHOT, false)
  {
    WorkspaceIds();
    AgentIds();
    TabIds();
    PaneIds();
    LayoutIds();
    SnapshotOverIds(WORKSPACE, AGENT, TAB, PANE, LAYOUT);
  }

  lemma RootIds()
    ensures IdSchema(ROOT, false)
  {
    SnapshotIds();
    RootOverIds(SNAPSHOT);
  }

  lemma RootOverIds(snapshot: Schema)
    requires IdSchema(snapshot, false)
    ensures IdSchema(RootOver(snapshot), false)
  {
  }

  // The tables again: labels and titles sit where the last pass sets them.

  lemma FlatSettled()
    ensures Settled(Object(RECT)) && Settled(Object(SCROLL)) && Settled(Object(SESSION))
  {
  }

  lemma LayoutPaneSettled()
    ensures Settled(ArrayOf(LAYOUT_PANE))
  {
    FlatSettled();
  }

  lemma SplitSettled()
    ensures Settled(ArrayOf(SPLIT))
  {
    FlatSettled();
  }

  /** The checkers layouts use. */
  predicate LayoutChecker(c: Checker) {
    || (c.Match? && c.pattern != Label) || c.AnyBool?
    || c == Object(RECT) || c == ArrayOf(LAYOUT_PANE) || c == ArrayOf(SPLIT)
  }

  lemma LayoutCheckerSettled(c: Checker)
    requires LayoutChecker(c)
    ensures Settled(c)
  {
    FlatSettled();
    LayoutPaneSettled();
    SplitSettled();
  }

  lemma LayoutSettled()
    ensures Settled(ArrayOf(LAYOUT))
  {
    LayoutFromChecker(LAYOUT);
  }

  lemma LayoutFromChecker(schema: Schema)
    requires forall k | k in schema.specs :: LayoutChecker(schema.specs[k].check)
    ensures Settled(ArrayOf(schema))
  {
    forall k | k in schema.specs
      ensures Settled(schema.specs[k].check)
    {
      LayoutCheckerSettled(schema.specs[k].check);
    }
  }

  /** The checkers records use for fields that the last pass leaves alone. */
  predicate PlainChecker(c: Checker) {
    || (c.Match? && c.pattern != Label) || c.AnyNumber? || c.AnyBool?
    || c == OneOf(AGENT_KINDS) || c == NullOrOneOf(AGENT_STATUS) || c == Object(SESSION) || c == Object(SCROLL)
  }

  predicate RecordShape(key: string, c: Checker) {
    if key == "label" then c == Match(Label)
    else if key in TITLE_KEYS then c == OneOf(TITLES)
    else PlainChecker(c)
  }

  lemma PlainSettled(c: Checker)
    requires PlainChecker(c)
    ensures Settled(c)
  {
    FlatSettled();
    assert "shell" in TITLES && "shell" !in AGENT_KINDS;
  }

  lemma ShapeSettled(key: string, c: Checker)
    requires RecordShape(key, c)
    ensures RecordSpec(key, c) && !c.Tokens?
  {
    if key != "label" && key !in TITLE_KEYS {
      PlainSettled(c);
    }
  }

  lemma RecordFromShape(schema: Schema)
    requires forall k | k in schema.specs :: RecordShape(k, schema.specs[k].check)
    ensures RecordSchema(schema) && TokenFree(schema)
  {
    forall k | k in schema.specs
      ensures RecordSpec(k, schema.specs[k].check) && !schema.specs[k].check.Tokens?
    {
      ShapeSettled(k, schema.specs[k].check);
    }
  }

  /** The schema's tokens sit under one key, with the fixture's rules. */
  predicate TokensUnderKey(schema: Schema) {
    && "tokens" in schema.specs && schema.specs["tokens"].check == Checker.Tokens(TOKEN_RULES)
    && forall k | k in schema.specs && schema.specs[k].check.Tokens? :: k == "tokens"
  }

  predicate SpaceShape(key: string, c: Checker) {
    if key == "tokens" then c == Checker.Tokens(TOKEN_RULES) else RecordShape(key, c)
  }

  lemma SpaceFromShape(schema: Schema)
    requires forall k | k in schema.specs :: SpaceShape(k, schema.specs[k].check)
    requires "tokens" in schema.specs
    ensures RecordSchema(schema) && TokensUnderKey(schema)
  {
    assert "tokens" != "label" && "tokens" !in TITLE_KEYS;
    forall k | k in schema.specs
      ensures RecordSpec(k, schema.specs[k].check) && (schema.specs[k].check.Tokens? ==> k == "tokens")
    {
      assert SpaceShape(k, schema.specs[k].check);
      if k != "tokens" {
        ShapeSettled(k, schema.specs[k].check);
      }
    }
    assert SpaceShape("tokens", schema.specs["tokens"].check);
  }

  lemma WorkspaceRecord()
    ensures RecordSchema(WORKSPACE) && TokensUnderKey(WORKSPACE)
    ensures "label" in WORKSPACE.specs && TITLE_KEYS !! WORKSPACE.specs.Keys
  {
    WorkspaceShape();
    SpaceFromShape(WORKSPACE);
    WorkspaceKeys();
  }

  lemma WorkspaceShape()
    ensures forall k | k in WORKSPACE.specs :: SpaceShape(k, WORKSPACE.specs[k].check)
    ensures "tokens" in WORKSPACE.specs
  {
  }

  lemma WorkspaceKeys()
    ensures "label" in WORKSPACE.specs && TITLE_KEYS !! WORKSPACE.specs.Keys
  {
  }

  lemma TabRecord()
    ensures RecordSchema(TAB) && TokenFree(TAB)
    ensures "label" in TAB.specs && TITLE_KEYS !! TAB.specs.Keys
  {
    RecordFromShape(TAB);
  }

  lemma AgentShapes()
    ensures forall k | k in AGENT.specs :: RecordShape(k, AGENT.specs[k].check)
  {
  }

  lemma AgentUnlabelled()
    ensures "label" !in AGENT.specs
  {
  }

  lemma AgentRecord()
    ensures RecordSchema(AGENT) && TokenFree(AGENT) && "label" !in AGENT.specs
  {
    AgentShapes();
    AgentUnlabelled();
    RecordFromShape(AGENT);
  }

  lemma PaneShapes()
    ensures forall k | k in PANE.specs :: RecordShape(k, PANE.specs[k].check)
  {
  }

  lemma PaneUnlabelled()
    ensures "label" !in PANE.specs
  {
  }

  lemma PaneRecord()
    ensures RecordSchema(PANE) && TokenFree(PANE) && "label" !in PANE.specs
  {
    PaneShapes();
    PaneUnlabelled();
    RecordFromShape(PANE);
  }

  // The snapshot object through the five loops.

  /** What a loop does to the collection it finds; anything but an array it leaves alone. */
  function EditedValue(edit: Edit, v: Json): Json {
    if v.Arr? then Arr(EditedItems(edit, v.items)) else v
  }

  function EditedGet(edit: Edit, v: Option<Json>): Option<Json> {
    if v.Some? then Some(EditedValue(edit, v.value)) else None
  }

  lemma EditEffect(snapshot: seq<Field>, name: string, edit: Edit)
    requires DistinctKeys(snapshot)
    ensures DistinctKeys(EditCollection(snapshot, name, edit))
    ensures Keys(EditCollection(snapshot, name, edit)) == Keys(snapshot)
    ensures forall k :: Get(EditCollection(snapshot, name, edit), k)
                        == if k == name then EditedGet(edit, Get(snapshot, name)) else Get(snapshot, k)
  {
    var coll := Get(snapshot, name);
    if coll.Some? && coll.value.Arr? {
      SetFieldEffect(snapshot, name, Arr(EditedItems(edit, coll.value.items)));
      GetInKeys(snapshot, name);
    }
  }

  lemma GetInKeys(fields: seq<Field>, key: string)
    ensures Get(fields, key).Some? <==> key in Keys(fields)
  {
  }

  lemma EditAllUnrolled(s: seq<Field>)
    ensures EditAll(s, EDITS)
         == EditCollection(EditCollection(EditCollection(EditCollection(EditCollection(s,
              "panes", Titles("shell")), "agents", Titles("agent")), "tabs", Titles("shell")),
              "workspaces", SpaceLabel), "tabs", TabLabel)
  {
    assert EDITS[..4][..3] == EDITS[..3] && EDITS[..3][..2] == EDITS[..2];
    assert EDITS[..2][..1] == EDITS[..1] && EDITS[..1][..0] == [];
    EditAllStep(s, EDITS);
    EditAllStep(s, EDITS[..4]);
    EditAllStep(s, EDITS[..3]);
    EditAllStep(s, EDITS[..2]);
    EditAllStep(s, EDITS[..1]);
  }

  lemma EditAllStep(s: seq<Field>, edits: seq<(string, Edit)>)
    requires edits != []
    ensures var n := |edits| - 1;
            EditAll(s, edits) == EditCollection(EditAll(s, edits[..n]), edits[n].0, edits[n].1)
  {
  }

  lemma NamesApart()
    ensures "panes" != "agents" && "panes" != "tabs" && "panes" != "workspaces"
    ensures "agents" != "tabs" && "agents" != "workspaces" && "tabs" != "workspaces"
  {
    assert |"panes"| == 5 && |"agents"| == 6 && |"tabs"| == 4 && |"workspaces"| == 10;
  }

  /** What all five loops leave under a key of the snapshot. */
  function AfterAll(k: string, v: Option<Json>): Option<Json> {
    if k == "panes" then EditedGet(Titles("shell"), v)
    else if k == "agents" then EditedGet(Titles("agent"), v)
    else if k == "tabs" then EditedGet(TabLabel, EditedGet(Titles("shell"), v))
    else if k == "workspaces" then EditedGet(SpaceLabel, v)
    else v
  }

  /** What two loops leave under a key. */
  function AfterTwo(k: string, a: string, e: Edit, b: string, f: Edit, v: Option<Json>): Option<Json> {
    var w := if k == a then EditedGet(e, v) else v;
    if k == b then EditedGet(f, w) else w
  }

  lemma AfterTwoLoops(s: seq<Field>, a: string, e: Edit, b: string, f: Edit)
    requires DistinctKeys(s)
    ensures var r := EditCollection(EditCollection(s, a, e), b, f);
            DistinctKeys(r) && Keys(r) == Keys(s) && forall k :: Get(r, k) == AfterTwo(k, a, e, b, f, Get(s, k))
  {
    EditEffect(s, a, e);
    EditEffect(EditCollection(s, a, e), b, f);
  }

  lemma AllFromParts(k: string, v: Option<Json>)
    ensures var v2 := AfterTwo(k, "panes", Titles("shell"), "agents", Titles("agent"), v);
            var v4 := AfterTwo(k, "tabs", Titles("shell"), "workspaces", SpaceLabel, v2);
            AfterAll(k, v) == if k == "tabs" then EditedGet(TabLabel, v4) else v4
  {
    NamesApart();
  }

  lemma AfterLoops(s: seq<Field>)
    requires DistinctKeys(s)
    ensures var r := EditAll(s, EDITS);
            DistinctKeys(r) && Keys(r) == Keys(s) && forall k :: Get(r, k) == AfterAll(k, Get(s, k))
  {
    EditAllUnrolled(s);
    var s2 := EditCollection(EditCollection(s, "panes", Titles("shell")), "agents", Titles("agent"));
    var s4 := EditCollection(EditCollection(s2, "tabs", Titles("shell")), "workspaces", SpaceLabel);
    AfterTwoLoops(s, "panes", Titles("shell"), "agents", Titles("agent"));
    AfterTwoLoops(s2, "tabs", Titles("shell"), "workspaces", SpaceLabel);
    EditEffect(s4, "tabs", TabLabel);
    forall k
      ensures Get(EditAll(s, EDITS), k) == AfterAll(k, Get(s, k))
    {
      AllFromParts(k, Get(s, k));
    }
  }

  lemma SnapshotOverTable(w: Schema, a: Schema, t: Schema, p: Schema, l: Schema)
    ensures var specs := SnapshotOver(w, a, t, p, l).specs;
            && "workspaces" in specs && specs["workspaces"] == Required(ArrayOf(w))
            && "agents" in specs && specs["agents"].check == ArrayOf(a)
            && "tabs" in specs && specs["tabs"].check == ArrayOf(t)
            && "panes" in specs && specs["panes"].check == ArrayOf(p)
  {
  }
}
