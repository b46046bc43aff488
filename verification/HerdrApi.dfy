/** The wire types of a session snapshot (internal/herdrapi/types.go) and the one check
    the client makes on it (internal/herdrapi/client.go). */
module HerdrApi {
  import opened Prelude

  /** `caption` is the wire field "label". A missing, null or empty tokens object all read as the empty map. */
  datatype Workspace = Workspace(id: string, caption: string, status: Option<string>, tokens: map<string, string>)
  datatype Agent = Agent(workspaceId: string, kind: string, status: Option<string>)
  datatype Snapshot = Snapshot(workspaces: seq<Workspace>, agents: seq<Agent>)

  /** A token write: None clears the key (an explicit JSON null). */
  type Tokens = map<string, Option<string>>

  datatype Error = Rpc(message: string) | EmptySnapshot

  /** One session.snapshot call: either the RPC failed or a payload was decoded. */
  datatype Reply = Failed(error: Error) | Payload(snap: Snapshot)

  /** A payload without workspaces was misread; it is an error, never an empty session. */
  function SnapshotOf(reply: Reply): Reply {
    match reply
    case Failed(_) => reply
    case Payload(snap) => if |snap.workspaces| == 0 then Failed(EmptySnapshot) else reply
  }

  predicate DistinctIds(workspaces: seq<Workspace>) {
    DistinctBy(workspaces, (ws: Workspace) => ws.id)
  }
}
