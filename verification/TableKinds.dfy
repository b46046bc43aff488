/** The schema tables read the other way round: which fields carry what, and which are required. */
module TableKinds {
  import opened FixtureSchema
  import opened Patterns
  import opened Validator

  /** The fields that carry exactly this. */
  function With(schema: Schema, c: Checker): set<string> {
    set k | k in schema.specs && schema.specs[k].check == c
  }

  function RequiredOf(schema: Schema): set<string> {
    set k | k in schema.specs && schema.specs[k].required
  }

  // Sessions.

  lemma SessionTable()
    ensures SESSION.specs.Keys == {"agent", "kind", "source", "value"}
    ensures RequiredOf(SESSION) == {"value"}
    ensures With(SESSION, OneOf({"claude", "codex"})) == {"agent"}
    ensures With(SESSION, Match(SessionUuid)) == {"value"}
    ensures With(SESSION, AnyString) == {"kind", "source"}
  {}

  // Scroll positions.

  lemma ScrollTable()
    ensures SCROLL.specs.Keys == {"max_offset_from_bottom", "offset_from_bottom", "viewport_rows"}
    ensures RequiredOf(SCROLL) == {}
    ensures With(SCROLL, AnyNumber) == {"max_offset_from_bottom", "offset_from_bottom", "viewport_rows"}
  {}

  // Rectangles.

  lemma RectTable()
    ensures RECT.specs.Keys == {"height", "width", "x", "y"}
    ensures RequiredOf(RECT) == {}
    ensures With(RECT, AnyNumber) == {"height", "width", "x", "y"}
  {}

  // Panes of a layout.

  lemma LayoutPaneTable()
    ensures LAYOUT_PANE.specs.Keys == {"focused", "pane_id", "rect"}
    ensures RequiredOf(LAYOUT_PANE) == {"pane_id"}
    ensures With(LAYOUT_PANE, AnyBool) == {"focused"}
    ensures With(LAYOUT_PANE, Match(PaneId)) == {"pane_id"}
    ensures {"rect"} <= LAYOUT_PANE.specs.Keys
    ensures LAYOUT_PANE.specs["rect"].check == Object(RECT)
  {}

  // Splits of a layout.

  lemma SplitTable()
    ensures SPLIT.specs.Keys == {"direction", "id", "ratio", "rect"}
    ensures RequiredOf(SPLIT) == {}
    ensures With(SPLIT, AnyString) == {"direction", "id"}
    ensures With(SPLIT, AnyNumber) == {"ratio"}
    ensures {"rect"} <= SPLIT.specs.Keys
    ensures SPLIT.specs["rect"].check == Object(RECT)
  {}

  // Layouts.

  lemma LayoutFields()
    ensures LAYOUT.specs.Keys == {"area", "focused_pane_id", "panes", "splits", "tab_id", "workspace_id", "zoomed"}
  {}

  lemma LayoutRequired()
    ensures RequiredOf(LAYOUT) == {"tab_id", "workspace_id"}
  {}

  lemma LayoutWorkspaceIds()
    ensures With(LAYOUT, Match(WorkspaceId)) == {"workspace_id"}
  {}

  lemma LayoutTabIds()
    ensures With(LAYOUT, Match(TabId)) == {"tab_id"}
  {}

  lemma LayoutFlags()
    ensures With(LAYOUT, AnyBool) == {"zoomed"}
  {}

  lemma LayoutNested()
    ensures {"area", "panes", "splits"} <= LAYOUT.specs.Keys
    ensures LAYOUT.specs["area"].check == Object(RECT)
    ensures LAYOUT.specs["panes"].check == ArrayOf(LAYOUT_PANE)
    ensures LAYOUT.specs["splits"].check == ArrayOf(SPLIT)
  {}

  lemma LayoutPaneIds()
    ensures With(LAYOUT, Match(PaneId)) == {"focused_pane_id"}
  {}

  lemma LayoutTable()
    ensures LAYOUT.specs.Keys == {"area", "focused_pane_id", "panes", "splits", "tab_id", "workspace_id", "zoomed"}
    ensures RequiredOf(LAYOUT) == {"tab_id", "workspace_id"}
    ensures With(LAYOUT, Match(WorkspaceId)) == {"workspace_id"}
    ensures With(LAYOUT, Match(TabId)) == {"tab_id"}
    ensures With(LAYOUT, Match(PaneId)) == {"focused_pane_id"}
    ensures With(LAYOUT, AnyBool) == {"zoomed"}
    ensures {"area", "panes", "splits"} <= LAYOUT.specs.Keys
    ensures LAYOUT.specs["area"].check == Object(RECT)
    ensures LAYOUT.specs["panes"].check == ArrayOf(LAYOUT_PANE)
    ensures LAYOUT.specs["splits"].check == ArrayOf(SPLIT)
  {
    LayoutFields();
    LayoutRequired();
    LayoutWorkspaceIds();
    LayoutTabIds();
    LayoutPaneIds();
    LayoutFlags();
    LayoutNested();
  }

  // Workspaces.

  lemma WorkspaceFields()
    ensures WORKSPACE.specs.Keys == {
              "active_tab_id", "agent_status", "focused", "label", "number", "pane_count", "tab_count", "tokens",
              "workspace_id"}
  {}

  lemma WorkspaceRequired()
    ensures RequiredOf(WORKSPACE) == {"workspace_id", "label", "agent_status"}
  {}

  lemma WorkspaceWorkspaceIds()
    ensures With(WORKSPACE, Match(WorkspaceId)) == {"workspace_id"}
  {}

  lemma WorkspaceTabIds()
    ensures With(WORKSPACE, Match(TabId)) == {"active_tab_id"}
  {}

  lemma WorkspaceNumbers()
    ensures With(WORKSPACE, AnyNumber) == {"number", "pane_count", "tab_count"}
  {}

  lemma WorkspaceFlags()
    ensures With(WORKSPACE, AnyBool) == {"focused"}
  {}

  lemma WorkspaceLabels()
    ensures With(WORKSPACE, Match(Label)) == {"label"}
  {}

  lemma WorkspaceStatuses()
    ensures With(WORKSPACE, NullOrOneOf({"idle", "working", "blocked", "done", "unknown"})) == {"agent_status"}
  {}

  lemma WorkspaceNested()
    ensures {"tokens"} <= WORKSPACE.specs.Keys
    ensures WORKSPACE.specs["tokens"].check == Checker.Tokens(TOKEN_RULES)
  {}

  lemma WorkspaceTable()
    ensures WORKSPACE.specs.Keys == {
              "active_tab_id", "agent_status", "focused", "label", "number", "pane_count", "tab_count", "tokens",
              "workspace_id"}
    ensures RequiredOf(WORKSPACE) == {"workspace_id", "label", "agent_status"}
    ensures With(WORKSPACE, Match(WorkspaceId)) == {"workspace_id"}
    ensures With(WORKSPACE, Match(TabId)) == {"active_tab_id"}
    ensures With(WORKSPACE, AnyNumber) == {"number", "pane_count", "tab_count"}
    ensures With(WORKSPACE, AnyBool) == {"focused"}
    ensures With(WORKSPACE, Match(Label)) == {"label"}
    ensures With(WORKSPACE, NullOrOneOf({"idle", "working", "blocked", "done", "unknown"})) == {"agent_status"}
    ensures {"tokens"} <= WORKSPACE.specs.Keys
    ensures WORKSPACE.specs["tokens"].check == Checker.Tokens(TOKEN_RULES)
  {
    WorkspaceFields();
    WorkspaceRequired();
    WorkspaceWorkspaceIds();
    WorkspaceTabIds();
    WorkspaceNumbers();
    WorkspaceFlags();
    WorkspaceLabels();
    WorkspaceStatuses();
    WorkspaceNested();
  }

  // Agents.

  lemma AgentFields()
    ensures AGENT.specs.Keys == {
              "agent", "agent_session", "agent_status", "cwd", "focused", "foreground_cwd", "pane_id", "revision",
              "state_change_seq", "tab_id", "terminal_id", "terminal_title", "terminal_title_stripped",
              "workspace_id"}
  {}

  lemma AgentRequired()
    ensures RequiredOf(AGENT) == {"workspace_id", "agent", "agent_status"}
  {}

  lemma AgentWorkspaceIds()
    ensures With(AGENT, Match(WorkspaceId)) == {"workspace_id"}
  {}

  lemma AgentTabIds()
    ensures With(AGENT, Match(TabId)) == {"tab_id"}
  {}

  lemma AgentPaneIds()
    ensures With(AGENT, Match(PaneId)) == {"pane_id"}
  {}

  lemma AgentTerminalIds()
    ensures With(AGENT, Match(TerminalId)) == {"terminal_id"}
  {}

  lemma AgentNumbers()
    ensures With(AGENT, AnyNumber) == {"revision", "state_change_seq"}
  {}

  lemma AgentFlags()
    ensures With(AGENT, AnyBool) == {"focused"}
  {}

  lemma AgentPaths()
    ensures With(AGENT, Match(ProjectPath)) == {"cwd", "foreground_cwd"}
  {}

  lemma AgentTitles()
    ensures With(AGENT, OneOf({"shell", "agent", "nvim", ""})) == {"terminal_title", "terminal_title_stripped"}
  {}

  lemma AgentKinds()
    ensures With(AGENT, OneOf({"claude", "codex"})) == {"agent"}
  {}

  lemma AgentStatuses()
    ensures With(AGENT, NullOrOneOf({"idle", "working", "blocked", "done", "unknown"})) == {"agent_status"}
  {}

  lemma AgentNested()
    ensures {"agent_session"} <= AGENT.specs.Keys
    ensures AGENT.specs["agent_session"].check == Object(SESSION)
  {}

  lemma AgentTable()
    ensures AGENT.specs.Keys == {
              "agent", "agent_session", "agent_status", "cwd", "focused", "foreground_cwd", "pane_id", "revision",
              "state_change_seq", "tab_id", "terminal_id", "terminal_title", "terminal_title_stripped",
              "workspace_id"}
    ensures RequiredOf(AGENT) == {"workspace_id", "agent", "agent_status"}
    ensures With(AGENT, Match(WorkspaceId)) == {"workspace_id"}
    ensures With(AGENT, Match(TabId)) == {"tab_id"}
    ensures With(AGENT, Match(PaneId)) == {"pane_id"}
    ensures With(AGENT, Match(TerminalId)) == {"terminal_id"}
    ensures With(AGENT, AnyNumber) == {"revision", "state_change_seq"}
    ensures With(AGENT, AnyBool) == {"focused"}
    ensures With(AGENT, Match(ProjectPath)) == {"cwd", "foreground_cwd"}
    ensures With(AGENT, OneOf({"shell", "agent", "nvim", ""})) == {"terminal_title", "terminal_title_stripped"}
    ensures With(AGENT, OneOf({"claude", "codex"})) == {"agent"}
    ensures With(AGENT, NullOrOneOf({"idle", "working", "blocked", "done", "unknown"})) == {"agent_status"}
    ensures {"agent_session"} <= AGENT.specs.Keys
    ensures AGENT.specs["agent_session"].check == Object(SESSION)
  {
    AgentFields();
    AgentRequired();
    AgentWorkspaceIds();
    AgentTabIds();
    AgentPaneIds();
    AgentTerminalIds();
    AgentNumbers();
    AgentFlags();
    AgentPaths();
    AgentTitles();
    AgentKinds();
    AgentStatuses();
    AgentNested();
  }

  // Tabs.

  lemma TabFields()
    ensures TAB.specs.Keys == {"agent_status", "focused", "label", "number", "pane_count", "tab_id", "workspace_id"}
  {}

  lemma TabRequired()
    ensures RequiredOf(TAB) == {"agent_status", "label", "tab_id", "workspace_id"}
  {}

  lemma TabWorkspaceIds()
    ensures With(TAB, Match(WorkspaceId)) == {"workspace_id"}
  {}

  lemma TabTabIds()
    ensures With(TAB, Match(TabId)) == {"tab_id"}
  {}

  lemma TabNumbers()
    ensures With(TAB, AnyNumber) == {"number", "pane_count"}
  {}

  lemma TabFlags()
    ensures With(TAB, AnyBool) == {"focused"}
  {}

  lemma TabLabels()
    ensures With(TAB, Match(Label)) == {"label"}
  {}

  lemma TabStatuses()
    ensures With(TAB, NullOrOneOf({"idle", "working", "blocked", "done", "unknown"})) == {"agent_status"}
  {}

  lemma TabTable()
    ensures TAB.specs.Keys == {"agent_status", "focused", "label", "number", "pane_count", "tab_id", "workspace_id"}
    ensures RequiredOf(TAB) == {"agent_status", "label", "tab_id", "workspace_id"}
    ensures With(TAB, Match(WorkspaceId)) == {"workspace_id"}
    ensures With(TAB, Match(TabId)) == {"tab_id"}
    ensures With(TAB, AnyNumber) == {"number", "pane_count"}
    ensures With(TAB, AnyBool) == {"focused"}
    ensures With(TAB, Match(Label)) == {"label"}
    ensures With(TAB, NullOrOneOf({"idle", "working", "blocked", "done", "unknown"})) == {"agent_status"}
  {
    TabFields();
    TabRequired();
    TabWorkspaceIds();
    TabTabIds();
    TabNumbers();
    TabFlags();
    TabLabels();
    TabStatuses();
  }

  // Panes.

  lemma PaneFields()
    ensures PANE.specs.Keys == {
              "agent", "agent_session", "agent_status", "cwd", "focused", "foreground_cwd", "pane_id", "revision",
              "scroll", "tab_id", "terminal_id", "terminal_title", "terminal_title_stripped", "workspace_id"}
  {}

  lemma PaneRequired()
    ensures RequiredOf(PANE) == {"agent_status", "pane_id", "tab_id", "terminal_id", "workspace_id"}
  {}

  lemma PaneWorkspaceIds()
    ensures With(PANE, Match(WorkspaceId)) == {"workspace_id"}
  {}

  lemma PaneTabIds()
    ensures With(PANE, Match(TabId)) == {"tab_id"}
  {}

  lemma PanePaneIds()
    ensures With(PANE, Match(PaneId)) == {"pane_id"}
  {}

  lemma PaneTerminalIds()
    ensures With(PANE, Match(TerminalId)) == {"terminal_id"}
  {}

  lemma PaneNumbers()
    ensures With(PANE, AnyNumber) == {"revision"}
  {}

  lemma PaneFlags()
    ensures With(PANE, AnyBool) == {"focused"}
  {}

  lemma PanePaths()
    ensures With(PANE, Match(ProjectPath)) == {"cwd", "foreground_cwd"}
  {}

  lemma PaneTitles()
    ensures With(PANE, OneOf({"shell", "agent", "nvim", ""})) == {"terminal_title", "terminal_title_stripped"}
  {}

  lemma PaneKinds()
    ensures With(PANE, OneOf({"claude", "codex"})) == {"agent"}
  {}

  lemma PaneStatuses()
    ensures With(PANE, NullOrOneOf({"idle", "working", "blocked", "done", "unknown"})) == {"agent_status"}
  {}

  lemma PaneNested()
    ensures {"agent_session", "scroll"} <= PANE.specs.Keys
    ensures PANE.specs["agent_session"].check == Object(SESSION)
    ensures PANE.specs["scroll"].check == Object(SCROLL)
  {}

  lemma PaneTable()
    ensures PANE.specs.Keys == {
              "agent", "agent_session", "agent_status", "cwd", "focused", "foreground_cwd", "pane_id", "revision",
              "scroll", "tab_id", "terminal_id", "terminal_title", "terminal_title_stripped", "workspace_id"}
    ensures RequiredOf(PANE) == {"agent_status", "pane_id", "tab_id", "terminal_id", "workspace_id"}
    ensures With(PANE, Match(WorkspaceId)) == {"workspace_id"}
    ensures With(PANE, Match(TabId)) == {"tab_id"}
    ensures With(PANE, Match(PaneId)) == {"pane_id"}
    ensures With(PANE, Match(TerminalId)) == {"terminal_id"}
    ensures With(PANE, AnyNumber) == {"revision"}
    ensures With(PANE, AnyBool) == {"focused"}
    ensures With(PANE, Match(ProjectPath)) == {"cwd", "foreground_cwd"}
    ensures With(PANE, OneOf({"shell", "agent", "nvim", ""})) == {"terminal_title", "terminal_title_stripped"}
    ensures With(PANE, OneOf({"claude", "codex"})) == {"agent"}
    ensures With(PANE, NullOrOneOf({"idle", "working", "blocked", "done", "unknown"})) == {"agent_status"}
    ensures {"agent_session", "scroll"} <= PANE.specs.Keys
    ensures PANE.specs["agent_session"].check == Object(SESSION)
    ensures PANE.specs["scroll"].check == Object(SCROLL)
  {
    PaneFields();
    PaneRequired();
    PaneWorkspaceIds();
    PaneTabIds();
    PanePaneIds();
    PaneTerminalIds();
    PaneNumbers();
    PaneFlags();
    PanePaths();
    PaneTitles();
    PaneKinds();
    PaneStatuses();
    PaneNested();
  }

  // The snapshot and the root.

  lemma SnapshotRequired(w: Schema, a: Schema, t: Schema, p: Schema, l: Schema)
    ensures RequiredOf(SnapshotOver(w, a, t, p, l)) == {"workspaces", "agents"}
  {}

  lemma SnapshotCollections(w: Schema, a: Schema, t: Schema, p: Schema, l: Schema)
    ensures var specs := SnapshotOver(w, a, t, p, l).specs;
            && {"workspaces", "agents", "tabs", "panes", "layouts"} <= specs.Keys
            && specs["workspaces"].check == ArrayOf(w) && specs["agents"].check == ArrayOf(a)
            && specs["tabs"].check == ArrayOf(t) && specs["panes"].check == ArrayOf(p)
            && specs["layouts"].check == ArrayOf(l)
  {}

  lemma SnapshotPlain(w: Schema, a: Schema, t: Schema, p: Schema, l: Schema)
    ensures var specs := SnapshotOver(w, a, t, p, l).specs;
            && {"protocol", "version", "focused_pane_id", "focused_tab_id", "focused_workspace_id"} <= specs.Keys
            && specs["protocol"].check == AnyNumber && specs["version"].check == AnyString
            && specs["focused_pane_id"].check == Match(PaneId) && specs["focused_tab_id"].check == Match(TabId)
            && specs["focused_workspace_id"].check == Match(WorkspaceId)
  {}

  lemma SnapshotFields(w: Schema, a: Schema, t: Schema, p: Schema, l: Schema)
    ensures SnapshotOver(w, a, t, p, l).specs.Keys == {
              "workspaces", "agents", "tabs", "panes", "layouts", "focused_pane_id", "focused_tab_id",
              "focused_workspace_id", "protocol", "version"}
  {}

  lemma RootTable(snapshot: Schema)
    ensures var specs := RootOver(snapshot).specs;
            && specs.Keys == {"type", "snapshot", "_comment"} && RequiredOf(RootOver(snapshot)) == {"type", "snapshot"}
            && specs["type"].check == Literal("session_snapshot") && specs["snapshot"].check == Object(snapshot)
            && specs["_comment"].check == AnyString
  {}
}
