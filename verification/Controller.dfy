/** The controller (internal/controller/controller.go), updating its cache in place. */
module Controller {
  import opened Config
  import opened Derive
  import opened Herdr
  import opened HerdrApi
  import opened Prelude
  import opened Reconciling

  /** True exactly when writing `want` over what the server reports would change nothing.
      The keys are visited in whatever order the map yields them. */
  method ObservedMatchesDesired(observed: map<string, string>, want: Tokens) returns (same: bool)
    ensures same <==> Overlay(observed, want) == observed
  {
    var after := Overlay(observed, want);
    var pending := want.Keys;
    while pending != {}
      invariant pending <= want.Keys
      invariant forall k | k in want && k !in pending ::
                  if want[k].None? then k !in observed else k in observed && observed[k] == want[k].value
    {
      var k :| k in pending;
      if want[k].None? {
        if k in observed {
          assert k !in after;
          return false;
        }
      } else if k !in observed || observed[k] != want[k].value {
        assert k in after && after[k] == want[k].value;
        return false;
      }
      pending := pending - {k};
    }
    return true;
  }

  class Controller {
    const cfg: Config
    const server: Server
    var last: map<string, int>

    constructor (cfg: Config, server: Server)
      ensures this.cfg == cfg && this.server == server && last == map[]
    {
      this.cfg := cfg;
      this.server := server;
      last := map[];
    }

    ghost function Sys(): Sys
      reads this, server
    {
      Reconciling.Sys(last, server.store)
    }

    /** How many workspaces have a recorded successful write. */
    function Tracked(): nat
      reads this
    {
      |last|
    }

    method Invalidate()
      modifies this
      ensures last == map[] && Tracked() == 0
    {
      last := map[];
    }

    /** `fates` says what the environment makes of each report call, should it be made. */
    method Reconcile(snap: Snapshot, now: int, fates: seq<Fate>) returns (written: nat, firstErr: Option<Error>)
      requires |fates| == |snap.workspaces|
      modifies this, server
      ensures Tally(Sys(), written, firstErr) == Pass(PolicyOf(cfg), JobsOf(cfg, snap), now, fates, old(Sys()))
    {
      var seen: set<string> := {};
      written, firstErr := 0, None;
      ghost var jobs := JobsOf(cfg, snap);
      for i := 0 to |snap.workspaces|
        invariant seen == Ids(jobs[..i])
        invariant Tally(Sys(), written, firstErr)
               == ServeAll(PolicyOf(cfg), jobs[..i], now, fates[..i], old(Sys()))
      {
        var ws := snap.workspaces[i];
        ExtendPass(PolicyOf(cfg), jobs, now, fates, old(Sys()), i);
        seen := seen + {ws.id};
        var want := Desired(ws, snap.agents, cfg.value);
        var same := ObservedMatchesDesired(ws.tokens, want);
        if ws.id in last && same && now - last[ws.id] < cfg.HeartbeatAge() {
          continue;
        }
        var err := server.ReportWorkspaceMetadata(ws.id, want, cfg.TtlMillis(), fates[i]);
        if err.Some? {
          if firstErr.None? {
            firstErr := err;
          }
          continue;
        }
        last := last[ws.id := now];
        written := written + 1;
      }
      assert jobs[..|jobs|] == jobs && fates[..|fates|] == fates;
      Prune(seen);
    }

    /** The second loop: forget every workspace that was not seen. */
    method Prune(seen: set<string>)
      modifies this
      ensures last == Only(old(last), seen)
    {
      var pending := last.Keys;
      while pending != {}
        invariant pending <= old(last).Keys
        invariant last == map k | k in old(last) && (k in seen || k in pending) :: old(last)[k]
      {
        var id :| id in pending;
        if id !in seen {
          last := last - {id};
        }
        pending := pending - {id};
      }
    }
  }

  lemma ExtendPass(p: Policy, jobs: seq<Job>, now: int, fates: seq<Fate>, start: Reconciling.Sys, i: nat)
    requires |fates| == |jobs| && i < |jobs|
    ensures ServeAll(p, jobs[..i + 1], now, fates[..i + 1], start)
         == Serve(p, jobs[i], now, fates[i], ServeAll(p, jobs[..i], now, fates[..i], start))
    ensures Ids(jobs[..i + 1]) == Ids(jobs[..i]) + {jobs[i].id}
  {
    assert jobs[..i + 1][..i] == jobs[..i] && fates[..i + 1][..i] == fates[..i];
    var more := jobs[..i + 1];
    forall id | id in Ids(jobs[..i]) + {jobs[i].id}
      ensures id in Ids(more)
    {
      if id == jobs[i].id {
        assert more[i].id == id;
      } else {
        var j :| 0 <= j < i && jobs[..i][j].id == id;
        assert more[j].id == id;
      }
    }
  }
}
