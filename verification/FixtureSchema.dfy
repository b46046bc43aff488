/** The tables of the fixture schema (internal/herdrapi/schema.go) and the validator's entry point. */
module FixtureSchema {
  import opened Json
  import opened Patterns
  import opened Validator

  const AGENT_KINDS: set<string> := {"claude", "codex"}
  const AGENT_STATUS: set<string> := {"idle", "working", "blocked", "done", "unknown"}
  const TITLES: set<string> := {"shell", "agent", "nvim", ""}

  function Required(c: Checker): FieldSpec {
    FieldSpec(true, c)
  }

  function Optional(c: Checker): FieldSpec {
    FieldSpec(false, c)
  }

  const TOKEN_RULES: map<string, Checker> := map[
    "st_working" := StatusOrLabel,
    "st_blocked" := StatusOrLabel,
    "st_done" := StatusOrLabel,
    "st_idle" := StatusOrLabel,
    "st_unknown" := StatusOrLabel,
    "st_none" := StatusOrLabel,
    "att_blocked" := Match(DecimalCount),
    "n_agents" := Match(DecimalCount)]

  const SESSION := Schema(map[
    "agent" := Optional(OneOf(AGENT_KINDS)),
    "kind" := Optional(AnyString),
    "source" := Optional(AnyString),
    "value" := Required(Match(SessionUuid))])

  const SCROLL := Schema(map[
    "max_offset_from_bottom" := Optional(AnyNumber),
    "offset_from_bottom" := Optional(AnyNumber),
    "viewport_rows" := Optional(AnyNumber)])

  const RECT := Schema(map[
    "height" := Optional(AnyNumber),
    "width" := Optional(AnyNumber),
    "x" := Optional(AnyNumber),
    "y" := Optional(AnyNumber)])

  const LAYOUT_PANE := Schema(map[
    "focused" := Optional(AnyBool),
    "pane_id" := Required(Match(PaneId)),
    "rect" := Optional(Object(RECT))])

  const SPLIT := Schema(map[
    "direction" := Optional(AnyString),
    "id" := Optional(AnyString),
    "ratio" := Optional(AnyNumber),
    "rect" := Optional(Object(RECT))])

  const LAYOUT := Schema(map[
    "area" := Optional(Object(RECT)),
    "focused_pane_id" := Optional(Match(PaneId)),
    "panes" := Optional(ArrayOf(LAYOUT_PANE)),
    "splits" := Optional(ArrayOf(SPLIT)),
    "tab_id" := Required(Match(TabId)),
    "workspace_id" := Required(Match(WorkspaceId)),
    "zoomed" := Optional(AnyBool)])

  const WORKSPACE := Schema(map[
    "workspace_id" := Required(Match(WorkspaceId)),
    "label" := Required(Match(Label)),
    "agent_status" := Required(NullOrOneOf(AGENT_STATUS)),
    "active_tab_id" := Optional(Match(TabId)),
    "number" := Optional(AnyNumber),
    "pane_count" := Optional(AnyNumber),
    "tab_count" := Optional(AnyNumber),
    "focused" := Optional(AnyBool),
    "tokens" := Optional(Tokens(TOKEN_RULES))])

  const AGENT := Schema(map[
    "workspace_id" := Required(Match(WorkspaceId)),
    "agent" := Required(OneOf(AGENT_KINDS)),
    "agent_session" := Optional(Object(SESSION)),
    "agent_status" := Required(NullOrOneOf(AGENT_STATUS)),
    "cwd" := Optional(Match(ProjectPath)),
    "focused" := Optional(AnyBool),
    "foreground_cwd" := Optional(Match(ProjectPath)),
    "pane_id" := Optional(Match(PaneId)),
    "revision" := Optional(AnyNumber),
    "state_change_seq" := Optional(AnyNumber),
    "tab_id" := Optional(Match(TabId)),
    "terminal_id" := Optional(Match(TerminalId)),
    "terminal_title" := Optional(OneOf(TITLES)),
    "terminal_title_stripped" := Optional(OneOf(TITLES))])

  const TAB := Schema(map[
    "agent_status" := Required(NullOrOneOf(AGENT_STATUS)),
    "focused" := Optional(AnyBool),
    "label" := Required(Match(Label)),
    "number" := Optional(AnyNumber),
    "pane_count" := Optional(AnyNumber),
    "tab_id" := Required(Match(TabId)),
    "workspace_id" := Required(Match(WorkspaceId))])

  const PANE := Schema(map[
    "agent" := Optional(OneOf(AGENT_KINDS)),
    "agent_session" := Optional(Object(SESSION)),
    "agent_status" := Required(NullOrOneOf(AGENT_STATUS)),
    "cwd" := Optional(Match(ProjectPath)),
    "focused" := Optional(AnyBool),
    "foreground_cwd" := Optional(Match(ProjectPath)),
    "pane_id" := Required(Match(PaneId)),
    "revision" := Optional(AnyNumber),
    "scroll" := Optional(Object(SCROLL)),
    "tab_id" := Required(Match(TabId)),
    "terminal_id" := Required(Match(TerminalId)),
    "terminal_title" := Optional(OneOf(TITLES)),
    "terminal_title_stripped" := Optional(OneOf(TITLES)),
    "workspace_id" := Required(Match(WorkspaceId))])

  /** The snapshot table over the tables of its five collections. */
  function SnapshotOver(workspace: Schema, agent: Schema, tab: Schema, pane: Schema, layout: Schema): Schema {
    Schema(map[
      "workspaces" := Required(ArrayOf(workspace)),
      "agents" := Required(ArrayOf(agent)),
      "tabs" := Optional(ArrayOf(tab)),
      "panes" := Optional(ArrayOf(pane)),
      "layouts" := Optional(ArrayOf(layout)),
      "focused_pane_id" := Optional(Match(PaneId)),
      "focused_tab_id" := Optional(Match(TabId)),
      "focused_workspace_id" := Optional(Match(WorkspaceId)),
      "protocol" := Optional(AnyNumber),
      "version" := Optional(AnyString)])
  }

  const SNAPSHOT := SnapshotOver(WORKSPACE, AGENT, TAB, PANE, LAYOUT)

  function RootOver(snapshot: Schema): Schema {
    Schema(map[
      "type" := Required(Literal("session_snapshot")),
      "snapshot" := Required(Object(snapshot)),
      "_comment" := Optional(AnyString)])
  }

  const ROOT := RootOver(SNAPSHOT)

  /** Every violation of a decoded document, and none exactly when it fits the schema at every depth. */
  method ValidateFixture(doc: Json) returns (out: seq<Violation>)
    ensures multiset(out) == Check(Object(ROOT), [], doc)
    ensures out == [] <==> Conforms(Object(ROOT), doc)
  {
    var report := new Report();
    report.CheckValue(Object(ROOT), [], doc);
    out := report.out;
    ReportsNothingIffConforms(Object(ROOT), [], doc);
    assert |multiset(out)| == |out|;
  }
}
