/** Concrete captures, to show that the sanitizer's theorem speaks of something and that both its conditions bite. */
module Captures {
  import opened Decimal
  import opened FixtureSchema
  import opened Json
  import opened Numbering
  import opened PathRenaming
  import opened Patterns
  import opened Prelude
  import opened Release
  import opened Renaming
  import opened Sanitize
  import opened SanitizeConforms
  import opened Stages
  import opened TokenPasses
  import opened Validator

  // Trees without identifiers.

  predicate NoIds(v: Json) {
    match v
    case Arr(items) => forall x | x in items :: NoIds(x)
    case Obj(fields) => forall f | f in fields :: f.key !in {"terminal_id", "agent_session"} && NoIds(f.value)
    case _ => true
  }

  lemma {:induction false} NoIdsListed(kind: Kind, v: Json)
    requires NoIds(v)
    ensures IdList(kind, v) == []
    decreases v
  {
    match v
    case Arr(items) => NoItemIds(kind, items);
    case Obj(fields) => NoFieldIds(kind, fields);
    case _ =>
  }

  lemma {:induction false} NoItemIds(kind: Kind, items: seq<Json>)
    requires forall x | x in items :: NoIds(x)
    ensures ItemIds(kind, items) == []
    decreases items
  {
    if items != [] {
      NoItemIds(kind, items[..|items| - 1]);
      NoIdsListed(kind, items[|items| - 1]);
    }
  }

  lemma {:induction false} NoFieldIds(kind: Kind, fields: seq<Field>)
    requires forall f | f in fields :: f.key !in {"terminal_id", "agent_session"} && NoIds(f.value)
    ensures FieldIds(kind, fields) == [] && OwnId(kind, fields) == []
    decreases fields
  {
    NoOwnId(kind, fields);
    if fields != [] {
      NoFieldIds(kind, fields[..|fields| - 1]);
      NoIdsListed(kind, fields[|fields| - 1].value);
    }
  }

  lemma NoOwnId(kind: Kind, fields: seq<Field>)
    requires forall f | f in fields :: f.key !in {"terminal_id", "agent_session"}
    ensures OwnId(kind, fields) == []
  {
    GetInKeys(fields, "terminal_id");
    GetInKeys(fields, "agent_session");
  }

  lemma {:induction false} NoIdsAfterPaths(v: Json, g: Names)
    requires NoIds(v)
    ensures NoIds(MapPaths(v, g))
    decreases v
  {
    match v
    case Arr(items) => NoItemIdsAfterPaths(items, g);
    case Obj(fields) => NoFieldIdsAfterPaths(fields, g);
    case _ =>
  }

  lemma {:induction false} NoItemIdsAfterPaths(items: seq<Json>, g: Names)
    requires forall x | x in items :: NoIds(x)
    ensures forall x | x in MapPathItems(items, g) :: NoIds(x)
    decreases items
  {
    if items != [] {
      NoItemIdsAfterPaths(items[..|items| - 1], g);
      NoIdsAfterPaths(items[|items| - 1], g);
    }
  }

  lemma {:induction false} NoFieldIdsAfterPaths(fields: seq<Field>, g: Names)
    requires forall f | f in fields :: f.key !in {"terminal_id", "agent_session"} && NoIds(f.value)
    ensures forall f | f in MapPathFields(fields, g) :: f.key !in {"terminal_id", "agent_session"} && NoIds(f.value)
    decreases fields
  {
    if fields != [] {
      NoFieldIdsAfterPaths(fields[..|fields| - 1], g);
      NoIdsAfterPaths(fields[|fields| - 1].value, g);
    }
  }

  lemma NoIdsIsFew(v: Json)
    requires NoIds(v)
    ensures FewIds(Paths(v, map[]).0)
  {
    PathsByDictionary(v);
    NoIdsAfterPaths(v, PathDictionary(v));
    NoIdsListed(Session, Paths(v, map[]).0);
    NoIdsListed(Terminal, Paths(v, map[]).0);
    assert Distinct([]) == {};
  }

  // A capture of any number of workspaces that all hold the same tokens.

  function Space(tokens: Json): Json {
    Obj([Field("workspace_id", Str("w1")), Field("agent_status", Null), Field("tokens", tokens)])
  }

  function Spaces(n: nat, tokens: Json): (r: seq<Json>)
    ensures |r| == n && forall x | x in r :: x == Space(tokens)
  {
    if n == 0 then [] else Spaces(n - 1, tokens) + [Space(tokens)]
  }

  function SnapshotFields(n: nat, tokens: Json): seq<Field> {
    [Field("workspaces", Arr(Spaces(n, tokens))), Field("agents", Arr([]))]
  }

  function Capture(n: nat, tokens: Json): Json {
    Obj([Field("type", Str("session_snapshot")), Field("snapshot", Obj(SnapshotFields(n, tokens)))])
  }

  lemma FieldsFit(schema: Schema, fields: seq<Field>)
    requires DistinctKeys(fields) && forall i | 0 <= i < |fields| ::
               && fields[i].key in schema.specs && Fits(Captured, schema.specs[fields[i].key].check, fields[i].value)
               && WellFormed(fields[i].value)
    requires forall k | k in schema.specs && Demanded(Captured, schema.specs[k]) ::
               exists i :: 0 <= i < |fields| && fields[i].key == k
    ensures Fits(Captured, Object(schema), Obj(fields)) && WellFormed(Obj(fields))
  {
    forall k | k in schema.specs && Demanded(Captured, schema.specs[k])
      ensures k in Keys(fields)
    {
      var i :| 0 <= i < |fields| && fields[i].key == k;
      assert fields[i] in fields;
    }
  }

  lemma TwoFieldsFit(schema: Schema, a: Field, b: Field)
    requires a.key != b.key && {a.key, b.key} <= schema.specs.Keys && WellFormed(a.value) && WellFormed(b.value)
    requires Fits(Captured, schema.specs[a.key].check, a.value) && Fits(Captured, schema.specs[b.key].check, b.value)
    requires forall k | k in schema.specs && Demanded(Captured, schema.specs[k]) :: k in {a.key, b.key}
    ensures Fits(Captured, Object(schema), Obj([a, b])) && WellFormed(Obj([a, b]))
    ensures Get([a, b], a.key) == Some(a.value) && Get([a, b], b.key) == Some(b.value)
  {
    var fields := [a, b];
    assert fields[0] == a && fields[1] == b;
    FieldsFit(schema, fields);
    GetOf(fields, 0);
    GetOf(fields, 1);
  }

  lemma ThreeFieldsFit(schema: Schema, a: Field, b: Field, c: Field)
    requires a.key != b.key && a.key != c.key && b.key != c.key && {a.key, b.key, c.key} <= schema.specs.Keys
    requires WellFormed(a.value) && WellFormed(b.value) && WellFormed(c.value)
    requires Fits(Captured, schema.specs[a.key].check, a.value) && Fits(Captured, schema.specs[b.key].check, b.value)
    requires Fits(Captured, schema.specs[c.key].check, c.value)
    requires forall k | k in schema.specs && Demanded(Captured, schema.specs[k]) :: k in {a.key, b.key, c.key}
    ensures Fits(Captured, Object(schema), Obj([a, b, c])) && WellFormed(Obj([a, b, c]))
    ensures Get([a, b, c], c.key) == Some(c.value)
  {
    var fields := [a, b, c];
    assert fields[0] == a && fields[1] == b && fields[2] == c;
    FieldsFit(schema, fields);
    GetOf(fields, 2);
  }

  lemma SpaceTable()
    ensures var specs := WORKSPACE.specs;
            && {"workspace_id", "agent_status", "tokens"} <= specs.Keys
            && specs["workspace_id"].check == Match(WorkspaceId) && specs["agent_status"].check.NullOrOneOf?
            && specs["tokens"].check.Tokens?
            && forall k | k in specs && Demanded(Captured, specs[k]) :: k in {"workspace_id", "agent_status", "tokens"}
  {
  }

  lemma SpaceFits(tokens: Json)
    requires WellFormed(tokens)
    ensures Fits(Captured, Object(WORKSPACE), Space(tokens)) && WellFormed(Space(tokens))
    ensures TokensOf(Space(tokens)) == Some(tokens)
  {
    SpaceTable();
    SpaceFieldsFit(WORKSPACE, tokens);
  }

  lemma SpaceFieldsFit(w: Schema, tokens: Json)
    requires {"workspace_id", "agent_status", "tokens"} <= w.specs.Keys && WellFormed(tokens)
    requires w.specs["workspace_id"].check == Match(WorkspaceId) && w.specs["agent_status"].check.NullOrOneOf?
    requires w.specs["tokens"].check.Tokens?
    requires forall k | k in w.specs && Demanded(Captured, w.specs[k]) ::
               k in {"workspace_id", "agent_status", "tokens"}
    ensures Fits(Captured, Object(w), Space(tokens)) && WellFormed(Space(tokens))
    ensures TokensOf(Space(tokens)) == Some(tokens)
  {
    assert |"workspace_id"| == 12 && |"tokens"| == 6 && "workspace_id"[0] != "agent_status"[0];
    assert Matches(WorkspaceId, "w1");
    ThreeFieldsFit(w, Field("workspace_id", Str("w1")), Field("agent_status", Null), Field("tokens", tokens));
  }

  lemma SpacesFit(w: Schema, n: nat, tokens: Json)
    requires Fits(Captured, Object(w), Space(tokens)) && WellFormed(Space(tokens))
    ensures Fits(Captured, ArrayOf(w), Arr(Spaces(n, tokens))) && WellFormed(Arr(Spaces(n, tokens)))
  {
  }

  lemma NoneFit(a: Schema)
    ensures Fits(Captured, ArrayOf(a), Arr([])) && WellFormed(Arr([]))
  {
  }

  lemma SnapshotFits(w: Schema, a: Schema, t: Schema, p: Schema, l: Schema, n: nat, tokens: Json)
    requires Fits(Captured, Object(w), Space(tokens)) && WellFormed(Space(tokens))
    ensures Fits(Captured, Object(SnapshotOver(w, a, t, p, l)), Obj(SnapshotFields(n, tokens)))
    ensures WellFormed(Obj(SnapshotFields(n, tokens)))
    ensures ItemsOf(SnapshotFields(n, tokens), "workspaces") == Spaces(n, tokens)
  {
    var spaces, agents := Arr(Spaces(n, tokens)), Arr([]);
    SpacesFit(w, n, tokens);
    NoneFit(a);
    SnapshotOverTable(w, a, t, p, l);
    SnapshotDemands(w, a, t, p, l);
    NamesApart();
    TwoFieldsFit(SnapshotOver(w, a, t, p, l), Field("workspaces", spaces), Field("agents", agents));
  }

  lemma SnapshotDemands(w: Schema, a: Schema, t: Schema, p: Schema, l: Schema)
    ensures var specs := SnapshotOver(w, a, t, p, l).specs;
            forall k | k in specs && Demanded(Captured, specs[k]) :: k in {"workspaces", "agents"}
  {
  }

  lemma CaptureFits(n: nat, tokens: Json)
    requires WellFormed(tokens)
    ensures Fits(Captured, Object(ROOT), Capture(n, tokens)) && WellFormed(Capture(n, tokens))
    ensures SpacesOf(Capture(n, tokens)) == Spaces(n, tokens)
  {
    SpaceFits(tokens);
    SnapshotFits(WORKSPACE, AGENT, TAB, PANE, LAYOUT, n, tokens);
    RootAround(SNAPSHOT, Obj(SnapshotFields(n, tokens)));
  }

  lemma RootAround(inner: Schema, snapshot: Json)
    requires Fits(Captured, Object(inner), snapshot) && WellFormed(snapshot)
    ensures var fields := [Field("type", Str("session_snapshot")), Field("snapshot", snapshot)];
            && Fits(Captured, Object(RootOver(inner)), Obj(fields)) && WellFormed(Obj(fields))
            && Get(fields, "snapshot") == Some(snapshot)
  {
    TwoFieldsFit(RootOver(inner), Field("type", Str("session_snapshot")), Field("snapshot", snapshot));
  }

  lemma KeysAreNoIds()
    ensures {"workspace_id", "agent_status", "tokens", "workspaces", "agents", "type", "snapshot"}
         !! {"terminal_id", "agent_session"}
  {
    assert |"terminal_id"| == 11 && |"agent_session"| == 13;
    assert |"workspace_id"| == 12 && |"agent_status"| == 12 && |"workspaces"| == 10 && |"snapshot"| == 8;
  }

  lemma CaptureNoIds(n: nat, tokens: Json)
    requires NoIds(tokens)
    ensures NoIds(Capture(n, tokens))
  {
    KeysAreNoIds();
    assert NoIds(Space(tokens));
    assert NoIds(Arr(Spaces(n, tokens)));
    assert NoIds(Obj(SnapshotFields(n, tokens)));
  }

  /** Whatever the number of workspaces and whatever their tokens, the capture is one the sanitizer is meant for;
      its output is accepted exactly up to 26 workspaces and exactly for conformant tokens. */
  lemma CaptureOutcome(n: nat, tokens: Json)
    requires WellFormed(tokens) && NoIds(tokens)
    ensures WellFormed(Capture(n, tokens)) && Fits(Captured, Object(ROOT), Capture(n, tokens))
    ensures FewIds(Paths(Capture(n, tokens), map[]).0)
    ensures Conforms(Object(ROOT), Sanitized(Capture(n, tokens)))
       <==> n <= 26 && (n > 0 ==> Conforms(Checker.Tokens(TOKEN_RULES), tokens))
  {
    var doc := Capture(n, tokens);
    CaptureFits(n, tokens);
    CaptureNoIds(n, tokens);
    NoIdsIsFew(doc);
    SanitizedConforms(doc);
    SpaceFits(tokens);
    if n > 0 {
      assert Spaces(n, tokens)[0] in SpacesOf(doc);
    }
  }

  /** One workspace with one token that breaks its rule is enough. */
  lemma OneTokenRefused(f: Field)
    requires f.value.Str? && f.key !in {"terminal_id", "agent_session"}
    requires f.key in TOKEN_RULES ==> !Conforms(TOKEN_RULES[f.key], f.value)
    ensures !Conforms(Object(ROOT), Sanitized(Capture(1, Obj([f]))))
  {
    OneBadToken(TOKEN_RULES, f);
    CaptureOutcome(1, Obj([f]));
  }

  lemma OneBadToken(rules: map<string, Checker>, f: Field)
    requires f.key in rules ==> !Conforms(rules[f.key], f.value)
    ensures !Conforms(Checker.Tokens(rules), Obj([f]))
  {
    assert f in [f];
  }

  /** So the status token that carries a workspace's real name, as the daemon writes it by default, is refused. */
  lemma RealNameRefused()
    ensures !Conforms(Object(ROOT), Sanitized(Capture(1, Obj([Field("st_working", Str("orders-api"))]))))
  {
    NameIsNoToken();
    StatusTokenRule();
    OneTokenRefused(Field("st_working", Str("orders-api")));
  }

  lemma StatusTokenRule()
    ensures "st_working" in TOKEN_RULES && TOKEN_RULES["st_working"] == StatusOrLabel
    ensures "st_working" !in {"terminal_id", "agent_session"}
  {
    assert |"st_working"| == 10 && |"terminal_id"| == 11 && |"agent_session"| == 13;
  }

  lemma NameIsNoToken()
    ensures !Conforms(StatusOrLabel, Str("orders-api"))
  {
    if Matches(Label, "orders-api") {
      LabelStart("orders-api");
    }
    assert |"orders-api"| == 10 && forall w | w in STATUS_WORDS :: |w| < 10;
  }

  // A capture on which every pass acts: one pane with a session, a terminal and a working directory.

  function Session1(session: string): Json {
    Obj([Field("value", Str(session))])
  }

  function PaneFields(session: string, terminal: string, cwd: string): seq<Field> {
    [Field("agent_session", Session1(session)), Field("agent_status", Null), Field("cwd", Str(cwd)),
     Field("pane_id", Str("w1:p1")), Field("tab_id", Str("w1:t1")), Field("terminal_id", Str(terminal)),
     Field("workspace_id", Str("w1"))]
  }

  function PaneSnapshot(pane: Json): seq<Field> {
    [Field("workspaces", Arr([])), Field("agents", Arr([])), Field("panes", Arr([pane]))]
  }

  function PaneCapture(session: string, terminal: string, cwd: string): Json {
    Obj([Field("type", Str("session_snapshot")),
         Field("snapshot", Obj(PaneSnapshot(Obj(PaneFields(session, terminal, cwd)))))])
  }

  const PANE_KEYS := {"agent_session", "agent_status", "cwd", "pane_id", "tab_id", "terminal_id", "workspace_id"}

  /** What the pane table says about the pane's fields. */
  predicate PaneTable(p: Schema) {
    && PANE_KEYS <= p.specs.Keys
    && p.specs["agent_session"].check.Object? && p.specs["agent_status"].check.NullOrOneOf?
    && p.specs["cwd"].check == Match(ProjectPath) && p.specs["pane_id"].check == Match(PaneId)
    && p.specs["tab_id"].check == Match(TabId) && p.specs["terminal_id"].check == Match(TerminalId)
    && p.specs["workspace_id"].check == Match(WorkspaceId)
    && forall k | k in p.specs && Demanded(Captured, p.specs[k]) :: k in PANE_KEYS
  }

  lemma FixturePaneTable()
    ensures PaneTable(PANE)
  {
  }

  lemma FixturePaneSession()
    ensures PANE.specs["agent_session"].check == Object(SESSION)
  {
  }

  lemma SessionFits(session: string)
    ensures Fits(Captured, Object(SESSION), Session1(session)) && WellFormed(Session1(session))
  {
    var fields := [Field("value", Str(session))];
    assert fields[0].key == "value";
    FieldsFit(SESSION, fields);
  }

  lemma IdsMatch()
    ensures Matches(WorkspaceId, "w1") && Matches(PaneId, "w1:p1") && Matches(TabId, "w1:t1")
  {
    var p, t := "w1:p1", "w1:t1";
    assert p[1..2] == "1" && p[2] == ':' && p[3] == 'p' && p[4..] == "1";
    assert t[1..2] == "1" && t[2] == ':' && t[3] == 't' && t[4..] == "1";
  }

  lemma PaneKeysDistinct(session: string, terminal: string, cwd: string)
    ensures DistinctKeys(PaneFields(session, terminal, cwd))
  {
    assert |"agent_session"| == 13 && |"agent_status"| == 12 && |"cwd"| == 3 && |"pane_id"| == 7;
    assert |"tab_id"| == 6 && |"terminal_id"| == 11 && |"workspace_id"| == 12;
    assert "agent_status"[0] == 'a' && "workspace_id"[0] == 'w';
  }

  lemma Unfit(schema: Schema, fields: seq<Field>, f: Field)
    requires f in fields && f.key in schema.specs && !Fits(Captured, schema.specs[f.key].check, f.value)
    ensures !Fits(Captured, Object(schema), Obj(fields))
  {
  }

  lemma PaneFieldFits(p: Schema, session: string, terminal: string, cwd: string, i: nat)
    requires PaneTable(p) && Fits(Captured, p.specs["agent_session"].check, Session1(session)) && i < 7
    ensures var f := PaneFields(session, terminal, cwd)[i];
            && f.key in p.specs && WellFormed(f.value)
            && (Fits(Captured, p.specs[f.key].check, f.value) <==> (i == 2 ==> Prefixed(cwd, HOME)))
  {
    if i == 0 {
      SessionFits(session);
    } else if i == 3 || i == 4 || i == 6 {
      PaneIdFits(p, session, terminal, cwd, i);
    }
  }

  lemma PaneIdFits(p: Schema, session: string, terminal: string, cwd: string, i: nat)
    requires PaneTable(p) && i in {3, 4, 6}
    ensures var f := PaneFields(session, terminal, cwd)[i];
            f.key in p.specs && WellFormed(f.value) && Fits(Captured, p.specs[f.key].check, f.value)
  {
    IdsMatch();
  }

  lemma PaneFits(p: Schema, session: string, terminal: string, cwd: string)
    requires PaneTable(p) && Fits(Captured, p.specs["agent_session"].check, Session1(session))
    ensures WellFormed(Obj(PaneFields(session, terminal, cwd)))
    ensures Fits(Captured, Object(p), Obj(PaneFields(session, terminal, cwd))) <==> Prefixed(cwd, HOME)
  {
    var fields := PaneFields(session, terminal, cwd);
    PaneKeysDistinct(session, terminal, cwd);
    forall i | 0 <= i < 7
      ensures fields[i].key in p.specs && WellFormed(fields[i].value)
      ensures Fits(Captured, p.specs[fields[i].key].check, fields[i].value) <==> (i == 2 ==> Prefixed(cwd, HOME))
    {
      PaneFieldFits(p, session, terminal, cwd, i);
    }
    if Prefixed(cwd, HOME) {
      PaneKeysThere(session, terminal, cwd);
      FieldsFit(p, fields);
    } else {
      Unfit(p, fields, fields[2]);
    }
  }

  lemma PaneKeysThere(session: string, terminal: string, cwd: string)
    ensures forall k | k in PANE_KEYS ::
              exists i :: 0 <= i < 7 && PaneFields(session, terminal, cwd)[i].key == k
  {
    var fields := PaneFields(session, terminal, cwd);
    assert fields[0].key == "agent_session" && fields[1].key == "agent_status" && fields[2].key == "cwd";
    assert fields[3].key == "pane_id" && fields[4].key == "tab_id" && fields[5].key == "terminal_id";
    assert fields[6].key == "workspace_id";
  }

  lemma OneFits(p: Schema, x: Json)
    ensures Fits(Captured, ArrayOf(p), Arr([x])) <==> Fits(Captured, Object(p), x)
  {
    assert x in [x];
  }

  lemma PaneSnapshotShape(pane: Json)
    requires WellFormed(pane)
    ensures WellFormed(Obj(PaneSnapshot(pane))) && ItemsOf(PaneSnapshot(pane), "workspaces") == []
  {
    var fields := PaneSnapshot(pane);
    NamesApart();
    assert fields[0].key == "workspaces" && fields[1].key == "agents" && fields[2].key == "panes";
    assert DistinctKeys(fields);
    GetOf(fields, 0);
  }

  lemma PaneSnapshotFits(w: Schema, a: Schema, t: Schema, p: Schema, l: Schema, pane: Json)
    requires WellFormed(pane)
    ensures Fits(Captured, Object(SnapshotOver(w, a, t, p, l)), Obj(PaneSnapshot(pane)))
       <==> Fits(Captured, Object(p), pane)
  {
    var schema := SnapshotOver(w, a, t, p, l);
    SnapshotOverTable(w, a, t, p, l);
    SnapshotDemands(w, a, t, p, l);
    NamesApart();
    NoneFit(w);
    NoneFit(a);
    OneFits(p, pane);
    ThreeFieldsExactly(schema, Field("workspaces", Arr([])), Field("agents", Arr([])), Field("panes", Arr([pane])));
  }

  /** With two fields that fit, the third decides. */
  lemma ThreeFieldsExactly(schema: Schema, a: Field, b: Field, c: Field)
    requires a.key != b.key && a.key != c.key && b.key != c.key && {a.key, b.key, c.key} <= schema.specs.Keys
    requires WellFormed(a.value) && WellFormed(b.value) && WellFormed(c.value)
    requires Fits(Captured, schema.specs[a.key].check, a.value) && Fits(Captured, schema.specs[b.key].check, b.value)
    requires forall k | k in schema.specs && Demanded(Captured, schema.specs[k]) :: k in {a.key, b.key, c.key}
    ensures Fits(Captured, Object(schema), Obj([a, b, c])) <==> Fits(Captured, schema.specs[c.key].check, c.value)
  {
    if Fits(Captured, schema.specs[c.key].check, c.value) {
      ThreeFieldsFit(schema, a, b, c);
    } else {
      assert [a, b, c][2] in [a, b, c];
      Unfit(schema, [a, b, c], c);
    }
  }

  lemma RootAroundExactly(inner: Schema, snapshot: Json)
    requires WellFormed(snapshot)
    ensures var fields := [Field("type", Str("session_snapshot")), Field("snapshot", snapshot)];
            && WellFormed(Obj(fields)) && Get(fields, "snapshot") == Some(snapshot)
            && (Fits(Captured, Object(RootOver(inner)), Obj(fields)) <==> Fits(Captured, Object(inner), snapshot))
  {
    var fields := [Field("type", Str("session_snapshot")), Field("snapshot", snapshot)];
    assert fields[0] in fields && fields[1] in fields && |"type"| == 4 && |"snapshot"| == 8;
    GetOf(fields, 1);
    if Fits(Captured, Object(inner), snapshot) {
      RootAround(inner, snapshot);
    }
  }

  lemma FewPaneObjects(session: string, terminal: string, cwd: string)
    ensures Objects(PaneCapture(session, terminal, cwd)) < Pow10(12)
  {
    var pane := Obj(PaneFields(session, terminal, cwd));
    PaneObjects(session, terminal, cwd);
    SnapshotObjects(pane);
    RootObjects(Obj(PaneSnapshot(pane)));
    assert Pow10(12) == 10 * Pow10(11);
  }

  lemma PlainFields(before: seq<Field>, fields: seq<Field>)
    requires forall f | f in fields :: !f.value.Arr? && !f.value.Obj?
    ensures FieldObjects(before + fields) == FieldObjects(before)
    decreases fields
  {
    if fields == [] {
      assert before + fields == before;
    } else {
      var n := |fields| - 1;
      assert (before + fields)[..|before + fields| - 1] == before + fields[..n];
      PlainFields(before, fields[..n]);
    }
  }

  lemma PaneObjects(session: string, terminal: string, cwd: string)
    ensures Objects(Obj(PaneFields(session, terminal, cwd))) == 2
  {
    var fields := PaneFields(session, terminal, cwd);
    PlainFields([fields[0]], fields[1..]);
    assert [fields[0]] + fields[1..] == fields;
    assert [fields[0]][..0] == [];
    PlainFields([], [Field("value", Str(session))]);
    assert [] + [Field("value", Str(session))] == [Field("value", Str(session))];
  }

  lemma FieldObjectsAppend(fields: seq<Field>, f: Field)
    ensures FieldObjects(fields + [f]) == FieldObjects(fields) + Objects(f.value)
  {
    assert (fields + [f])[..|fields|] == fields;
  }

  lemma SnapshotObjects(pane: Json)
    ensures Objects(Obj(PaneSnapshot(pane))) == 1 + Objects(pane)
  {
    var fields := PaneSnapshot(pane);
    FieldObjectsAppend([], fields[0]);
    FieldObjectsAppend([fields[0]], fields[1]);
    FieldObjectsAppend([fields[0], fields[1]], fields[2]);
    assert fields == [fields[0], fields[1]] + [fields[2]] && [fields[0], fields[1]] == [fields[0]] + [fields[1]];
    assert [fields[0]] == [] + [fields[0]];
    OneItemObjects(pane);
  }

  lemma OneItemObjects(x: Json)
    ensures Objects(Arr([x])) == Objects(x) && Objects(Arr([])) == 0
  {
    assert [x][..0] == [] && [x][0] == x;
    assert ItemObjects([x]) == ItemObjects([]) + Objects(x);
  }

  lemma RootObjects(snapshot: Json)
    ensures Objects(Obj([Field("type", Str("session_snapshot")), Field("snapshot", snapshot)])) == 1 + Objects(snapshot)
  {
    var a, b := Field("type", Str("session_snapshot")), Field("snapshot", snapshot);
    FieldObjectsAppend([], a);
    FieldObjectsAppend([a], b);
    assert [a, b] == [a] + [b] && [a] == [] + [a];
  }

  lemma FixturePaneFits(session: string, terminal: string, cwd: string)
    ensures WellFormed(Obj(PaneFields(session, terminal, cwd)))
    ensures Fits(Captured, Object(PANE), Obj(PaneFields(session, terminal, cwd))) <==> Prefixed(cwd, HOME)
  {
    FixturePaneTable();
    FixturePaneSession();
    SessionFits(session);
    PaneFits(PANE, session, terminal, cwd);
  }

  lemma AroundPaneFits(pane: Json)
    requires WellFormed(pane)
    ensures var doc := Obj([Field("type", Str("session_snapshot")), Field("snapshot", Obj(PaneSnapshot(pane)))]);
            && WellFormed(doc) && SpacesOf(doc) == []
            && (Fits(Captured, Object(ROOT), doc) <==> Fits(Captured, Object(PANE), pane))
  {
    PaneSnapshotShape(pane);
    PaneSnapshotFits(WORKSPACE, AGENT, TAB, PANE, LAYOUT, pane);
    RootAroundExactly(SNAPSHOT, Obj(PaneSnapshot(pane)));
  }

  /** Whatever the session value and the terminal id, the sanitized document is accepted exactly if the working
      directory lies below /Users/. */
  lemma PaneOutcome(session: string, terminal: string, cwd: string)
    ensures WellFormed(PaneCapture(session, terminal, cwd))
    ensures Conforms(Object(ROOT), Sanitized(PaneCapture(session, terminal, cwd))) <==> Prefixed(cwd, HOME)
  {
    FixturePaneFits(session, terminal, cwd);
    AroundPaneFits(Obj(PaneFields(session, terminal, cwd)));
    FewPaneObjects(session, terminal, cwd);
    SmallCaptureConforms(PaneCapture(session, terminal, cwd));
  }

  /** A shell that stands in /tmp is enough to make the sanitized document fail. */
  lemma TmpRefused()
    ensures !Conforms(Object(ROOT), Sanitized(PaneCapture("s", "t", "/tmp")))
  {
    assert |"/tmp"| < |HOME|;
    PaneOutcome("s", "t", "/tmp");
  }

  /** So is one whose directory is written with a tilde: its placeholder is not a project path. */
  lemma TildeRefused()
    ensures !Conforms(Object(ROOT), Sanitized(PaneCapture("s", "t", "~/shop")))
  {
    assert |"~/shop"| < |HOME|;
    PaneOutcome("s", "t", "~/shop");
  }

  /** A shell in a home directory is not. */
  lemma HomeAccepted()
    ensures Conforms(Object(ROOT), Sanitized(PaneCapture("s", "t", "/Users/me/shop")))
  {
    assert "/Users/me/shop"[..|HOME|] == HOME;
    PaneOutcome("s", "t", "/Users/me/shop");
  }
}
