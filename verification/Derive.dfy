/** Token derivation (internal/derive/derive.go): from a workspace and the agent list
    to the complete token map that should be published. */
module Derive {
  import opened Decimal
  import opened HerdrApi
  import opened Prelude

  const STATUS_TOKENS: set<string> :=
    {"st_working", "st_blocked", "st_done", "st_idle", "st_unknown", "st_none"}
  const ALL_TOKENS: seq<string> :=
    ["st_working", "st_blocked", "st_done", "st_idle", "st_unknown", "st_none", "att_blocked", "n_agents"]
  const OWNED: set<string> := STATUS_TOKENS + {"att_blocked", "n_agents"}

  /** The status words Herdr classifies an agent by. */
  const CLASSIFIED: set<string> := {"working", "blocked", "done", "idle"}

  /** No agent at all (None) and an unclassified agent ("unknown") are different states;
      an unrecognised word falls back to "unknown". */
  function StatusToken(status: Option<string>): (token: string)
    ensures token in STATUS_TOKENS
    ensures token == "st_none" <==> status.None?
    ensures token == "st_unknown" <==> status.Some? && status.value !in CLASSIFIED
    ensures status.Some? && status.value in CLASSIFIED ==> token == "st_" + status.value
  {
    match status
    case None => "st_none"
    case Some(w) =>
      if w == "working" then "st_working"
      else if w == "blocked" then "st_blocked"
      else if w == "done" then "st_done"
      else if w == "idle" then "st_idle"
      else "st_unknown"
  }

  function CarriedValue(ws: Workspace, mode: string): string {
    if mode == "status" then
      if ws.status.None? then "none" else ws.status.value
    else ws.caption
  }

  predicate Belongs(a: Agent, id: string) {
    a.workspaceId == id
  }

  predicate IsBlocked(a: Agent) {
    a.status == Some("blocked")
  }

  /** How many agents belong to the workspace; how many of those are blocked. */
  function AgentCount(agents: seq<Agent>, id: string): nat {
    if agents == [] then 0
    else AgentCount(agents[..|agents| - 1], id) + (if Belongs(agents[|agents| - 1], id) then 1 else 0)
  }

  function BlockedCount(agents: seq<Agent>, id: string): nat {
    if agents == [] then 0
    else
      var a := agents[|agents| - 1];
      BlockedCount(agents[..|agents| - 1], id) + (if Belongs(a, id) && IsBlocked(a) then 1 else 0)
  }

  /** A zero count is rendered as absence. */
  function Rendered(n: nat): Option<string> {
    if n == 0 then None else Some(Itoa(n))
  }

  /** What one owned key should hold. */
  function TokenFor(ws: Workspace, agents: seq<Agent>, mode: string, key: string): Option<string> {
    if key in STATUS_TOKENS then
      if key == StatusToken(ws.status) then Some(CarriedValue(ws, mode)) else None
    else if key == "att_blocked" then Rendered(BlockedCount(agents, ws.id))
    else if key == "n_agents" then Rendered(AgentCount(agents, ws.id))
    else None
  }

  function DesiredTokens(ws: Workspace, agents: seq<Agent>, mode: string): Tokens {
    map key | key in OWNED :: TokenFor(ws, agents, mode, key)
  }

  /** The first loop: an explicit clear for every owned key. */
  method ClearEveryKey() returns (out: Tokens)
    ensures out == map key | key in OWNED :: None
  {
    out := map[];
    for i := 0 to |ALL_TOKENS|
      invariant out.Keys == set k | k in ALL_TOKENS[..i]
      invariant forall k | k in out :: out[k] == None
    {
      assert ALL_TOKENS[..i + 1] == ALL_TOKENS[..i] + [ALL_TOKENS[i]];
      out := out[ALL_TOKENS[i] := None];
    }
    assert ALL_TOKENS[..|ALL_TOKENS|] == ALL_TOKENS;
    OwnedKeys();
  }

  /** The second loop: count the workspace's agents and its blocked agents. */
  method CountAgents(agents: seq<Agent>, id: string) returns (blocked: nat, total: nat)
    ensures total == AgentCount(agents, id) && blocked == BlockedCount(agents, id)
  {
    blocked, total := 0, 0;
    for i := 0 to |agents|
      invariant total == AgentCount(agents[..i], id)
      invariant blocked == BlockedCount(agents[..i], id)
    {
      assert agents[..i + 1][..i] == agents[..i];
      if Belongs(agents[i], id) {
        total := total + 1;
        if IsBlocked(agents[i]) {
          blocked := blocked + 1;
        }
      }
    }
    assert agents[..|agents|] == agents;
  }

  /** The source's algorithm: clear every owned key, set one status key, add the two counts. */
  method Desired(ws: Workspace, agents: seq<Agent>, mode: string) returns (out: Tokens)
    ensures out == DesiredTokens(ws, agents, mode)
  {
    out := ClearEveryKey();
    var value := ws.caption;
    if mode == "status" {
      value := if ws.status.None? then "none" else ws.status.value;
    }
    out := out[StatusToken(ws.status) := Some(value)];
    var blocked, total := CountAgents(agents, ws.id);
    if blocked > 0 {
      out := out["att_blocked" := Some(Itoa(blocked))];
    }
    if total > 0 {
      out := out["n_agents" := Some(Itoa(total))];
    }
    CountKeysApart();
    Assembled(ws, agents, mode, out);
  }

  lemma CountKeysApart()
    ensures "att_blocked" !in STATUS_TOKENS && "n_agents" !in STATUS_TOKENS && "att_blocked" != "n_agents"
  {
    assert "att_blocked"[0] == 'a' && "n_agents"[0] == 'n';
    assert forall k | k in STATUS_TOKENS :: k[0] == 's';
  }

  lemma Assembled(ws: Workspace, agents: seq<Agent>, mode: string, out: Tokens)
    requires out.Keys == OWNED
    requires forall k | k in STATUS_TOKENS ::
               out[k] == if k == StatusToken(ws.status) then Some(CarriedValue(ws, mode)) else None
    requires out["att_blocked"] == Rendered(BlockedCount(agents, ws.id))
    requires out["n_agents"] == Rendered(AgentCount(agents, ws.id))
    ensures out == DesiredTokens(ws, agents, mode)
  {
    CountKeysApart();
  }

  lemma OwnedKeys()
    ensures (set k | k in ALL_TOKENS) == OWNED
  {
  }

  /** Exactly one of the six status keys is set. */
  ghost predicate OneStatusSet(want: Tokens) {
    exists k :: k in STATUS_TOKENS && k in want && want[k].Some?
      && forall other | other in STATUS_TOKENS && other in want && want[other].Some? :: other == k
  }

  lemma DesiredShape(ws: Workspace, agents: seq<Agent>, mode: string)
    ensures DesiredTokens(ws, agents, mode).Keys == OWNED
    ensures OneStatusSet(DesiredTokens(ws, agents, mode))
  {
    var want := DesiredTokens(ws, agents, mode);
    var k := StatusToken(ws.status);
    assert k in want && want[k].Some?;
  }

  /** Reading a published count back; absence reads as zero. */
  function ReadCount(v: Option<string>): nat {
    if v.Some? && AllDigits(v.value) then ParseNat(v.value) else 0
  }

  lemma ReadRendered(n: nat)
    ensures ReadCount(Rendered(n)) == n
  {
    ParseItoa(n);
  }

  lemma {:induction false} BlockedAtMostAll(agents: seq<Agent>, id: string)
    ensures BlockedCount(agents, id) <= AgentCount(agents, id)
  {
    if agents != [] {
      BlockedAtMostAll(agents[..|agents| - 1], id);
    }
  }

  ghost function Members(agents: seq<Agent>, id: string): set<int> {
    set i | 0 <= i < |agents| && Belongs(agents[i], id)
  }

  ghost function BlockedMembers(agents: seq<Agent>, id: string): set<int> {
    set i | 0 <= i < |agents| && Belongs(agents[i], id) && IsBlocked(agents[i])
  }

  lemma MembersStep(agents: seq<Agent>, id: string)
    requires agents != []
    ensures var n := |agents| - 1;
            var before, blocked := Members(agents[..n], id), BlockedMembers(agents[..n], id);
            && n !in before && n !in blocked
            && Members(agents, id) == before + (if Belongs(agents[n], id) then {n} else {})
            && BlockedMembers(agents, id)
               == blocked + if Belongs(agents[n], id) && IsBlocked(agents[n]) then {n} else {}
  {
    var n := |agents| - 1;
    assert forall i | 0 <= i < n :: agents[..n][i] == agents[i];
    assert forall i | 0 <= i < n :: i in Members(agents, id) <==> i in Members(agents[..n], id);
    assert forall i | 0 <= i < n :: i in BlockedMembers(agents, id) <==> i in BlockedMembers(agents[..n], id);
  }

  /** The counts are what they are called: how many positions of the list hold an agent of the workspace,
      and how many a blocked one. */
  lemma {:induction false} CountsAreCardinalities(agents: seq<Agent>, id: string)
    ensures AgentCount(agents, id) == |Members(agents, id)|
    ensures BlockedCount(agents, id) == |BlockedMembers(agents, id)|
  {
    if agents == [] {
      assert Members([], id) == {} && BlockedMembers([], id) == {};
    } else {
      CountsAreCardinalities(agents[..|agents| - 1], id);
      MembersStep(agents, id);
    }
  }

  /** The two published counts read back as the two counts of the agent list, and the
      blocked badge never exceeds the agent count. */
  lemma PublishedCounts(ws: Workspace, agents: seq<Agent>, mode: string)
    ensures var want := DesiredTokens(ws, agents, mode);
            && "n_agents" in want && "att_blocked" in want
            && ReadCount(want["n_agents"]) == AgentCount(agents, ws.id)
            && ReadCount(want["att_blocked"]) == BlockedCount(agents, ws.id)
            && ReadCount(want["att_blocked"]) <= ReadCount(want["n_agents"])
  {
    CountKeysApart();
    ReadRendered(AgentCount(agents, ws.id));
    ReadRendered(BlockedCount(agents, ws.id));
    BlockedAtMostAll(agents, ws.id);
  }

  /** What the set status key holds: the status word or "none" when the mode asks for it, the workspace's label in
      every other mode. */
  lemma StatusValue(ws: Workspace, agents: seq<Agent>, mode: string, key: string)
    requires key in STATUS_TOKENS
    ensures var want := DesiredTokens(ws, agents, mode);
            && key in want && (want[key].Some? <==> key == StatusToken(ws.status))
            && (want[key].Some? && mode != "status" ==> want[key].value == ws.caption)
            && (want[key].Some? && mode == "status" && ws.status.Some? ==> want[key].value == ws.status.value)
            && (want[key].Some? && mode == "status" && ws.status.None? ==> want[key].value == "none")
  {
  }

  ghost function AgentsOf(agents: seq<Agent>, id: string): set<int> {
    set i | 0 <= i < |agents| && agents[i].workspaceId == id
  }

  ghost function BlockedOf(agents: seq<Agent>, id: string): set<int> {
    set i | 0 <= i < |agents| && agents[i].workspaceId == id && agents[i].status == Some("blocked")
  }

  /** A published count is absent for zero, and otherwise a decimal that reads back as the count. */
  predicate Publishes(v: Option<string>, n: nat) {
    if n == 0 then v.None? else v.Some? && AllDigits(v.value) && ParseNat(v.value) == n
  }

  /** What the two count keys hold: how many positions of the list hold an agent of the workspace, and how many of
      these a blocked one. */
  lemma CountValues(ws: Workspace, agents: seq<Agent>, mode: string)
    ensures var want := DesiredTokens(ws, agents, mode);
            && "n_agents" in want && Publishes(want["n_agents"], |AgentsOf(agents, ws.id)|)
            && "att_blocked" in want && Publishes(want["att_blocked"], |BlockedOf(agents, ws.id)|)
  {
    CountKeysApart();
    CountsAreCardinalities(agents, ws.id);
    assert Members(agents, ws.id) == AgentsOf(agents, ws.id);
    assert BlockedMembers(agents, ws.id) == BlockedOf(agents, ws.id);
    ParseItoa(AgentCount(agents, ws.id));
    ParseItoa(BlockedCount(agents, ws.id));
  }

  // Conservation of agents over distinct workspaces.

  function SumPublished(workspaces: seq<Workspace>, agents: seq<Agent>, mode: string): nat {
    if workspaces == [] then 0
    else
      var n := |workspaces| - 1;
      var want := DesiredTokens(workspaces[n], agents, mode);
      SumPublished(workspaces[..n], agents, mode) + (if "n_agents" in want then ReadCount(want["n_agents"]) else 0)
  }

  ghost predicate Homed(a: Agent, workspaces: seq<Workspace>) {
    exists ws :: ws in workspaces && Belongs(a, ws.id)
  }

  ghost function HomedCount(agents: seq<Agent>, workspaces: seq<Workspace>): nat {
    if agents == [] then 0
    else
      HomedCount(agents[..|agents| - 1], workspaces)
      + (if Homed(agents[|agents| - 1], workspaces) then 1 else 0)
  }

  lemma {:induction false} HomedNowhere(agents: seq<Agent>)
    ensures HomedCount(agents, []) == 0
  {
    if agents != [] {
      HomedNowhere(agents[..|agents| - 1]);
    }
  }

  lemma {:induction false} HomedStep(agents: seq<Agent>, workspaces: seq<Workspace>)
    requires workspaces != [] && DistinctIds(workspaces)
    ensures HomedCount(agents, workspaces)
         == HomedCount(agents, workspaces[..|workspaces| - 1]) + AgentCount(agents, workspaces[|workspaces| - 1].id)
  {
    if agents != [] {
      HomedStep(agents[..|agents| - 1], workspaces);
      var a, n := agents[|agents| - 1], |workspaces| - 1;
      if Belongs(a, workspaces[n].id) {
        assert workspaces[n] in workspaces;
        assert !Homed(a, workspaces[..n]);
      } else if Homed(a, workspaces) {
        var ws :| ws in workspaces && Belongs(a, ws.id);
        assert ws in workspaces[..n];
      }
    }
  }

  /** No agent is lost or counted twice: over distinct workspaces the published agent counts
      sum to the number of agents that belong to one of them. */
  lemma {:induction false} AgentsConserved(workspaces: seq<Workspace>, agents: seq<Agent>, mode: string)
    requires DistinctIds(workspaces)
    ensures SumPublished(workspaces, agents, mode) == HomedCount(agents, workspaces)
  {
    if workspaces == [] {
      HomedNowhere(agents);
    } else {
      var n := |workspaces| - 1;
      AgentsConserved(workspaces[..n], agents, mode);
      HomedStep(agents, workspaces);
      PublishedCounts(workspaces[n], agents, mode);
    }
  }

  // The agents' order does not matter.

  lemma {:induction false} CountsWithout(agents: seq<Agent>, i: nat, id: string)
    requires i < |agents|
    ensures var rest := agents[..i] + agents[i + 1..];
            && AgentCount(agents, id) == AgentCount(rest, id) + (if Belongs(agents[i], id) then 1 else 0)
            && BlockedCount(agents, id)
               == BlockedCount(rest, id) + (if Belongs(agents[i], id) && IsBlocked(agents[i]) then 1 else 0)
  {
    var n := |agents| - 1;
    var rest := agents[..i] + agents[i + 1..];
    if i == n {
      assert rest == agents[..n];
    } else {
      CountsWithout(agents[..n], i, id);
      assert rest[..|rest| - 1] == agents[..n][..i] + agents[..n][i + 1..];
    }
  }

  lemma {:induction false} CountsPermute(a: seq<Agent>, b: seq<Agent>, id: string)
    requires multiset(a) == multiset(b)
    ensures AgentCount(a, id) == AgentCount(b, id) && BlockedCount(a, id) == BlockedCount(b, id)
  {
    if a == [] {
      assert |multiset(b)| == 0;
    } else {
      var n := |a| - 1;
      var j := Partner(a, b);
      CountsPermute(a[..n], b[..j] + b[j + 1..], id);
      CountsWithout(b, j, id);
    }
  }

  lemma Partner(a: seq<Agent>, b: seq<Agent>) returns (j: nat)
    requires a != [] && multiset(a) == multiset(b)
    ensures j < |b| && b[j] == a[|a| - 1]
    ensures multiset(a[..|a| - 1]) == multiset(b[..j] + b[j + 1..])
  {
    var n := |a| - 1;
    assert a[n] in multiset(b);
    j :| 0 <= j < |b| && b[j] == a[n];
    RemoveOne(b, j);
    assert a == a[..n] + [a[n]];
    assert multiset(a[..n]) == multiset(a) - multiset{a[n]};
  }

  /** The order in which the server lists agents does not affect what is published. */
  lemma DesiredPermutes(ws: Workspace, a: seq<Agent>, b: seq<Agent>, mode: string)
    requires multiset(a) == multiset(b)
    ensures DesiredTokens(ws, a, mode) == DesiredTokens(ws, b, mode)
  {
    CountsPermute(a, b, ws.id);
  }
}
