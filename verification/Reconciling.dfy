/** The specification of one reconcile pass, on values: what happens to the write-skip cache
    and to the server, workspace by workspace. */
module Reconciling {
  import opened Config
  import opened Derive
  import opened Herdr
  import opened HerdrApi
  import opened Prelude

  /** The two configuration numbers a pass depends on: the age at which a write is repeated,
      and the lifetime sent with it. */
  datatype Policy = Policy(heartbeat: int, ttlMs: int)

  function PolicyOf(cfg: Config): Policy {
    Policy(cfg.HeartbeatAge(), cfg.TtlMillis())
  }

  /** One workspace of the pass: what the snapshot reports for it and what it should hold. */
  datatype Job = Job(id: string, observed: map<string, string>, want: Tokens)

  /** `last` records the time of the last successful write per workspace. */
  datatype Sys = Sys(last: map<string, int>, store: Store)
  datatype Tally = Tally(sys: Sys, written: nat, firstErr: Option<Error>)

  /** A write is skipped only when there is a record, the server already reports exactly the
      wanted tokens, and the record is young. */
  predicate MustWrite(p: Policy, job: Job, last: map<string, int>, now: int) {
    !(job.id in last && Overlay(job.observed, job.want) == job.observed && now - last[job.id] < p.heartbeat)
  }

  function Serve(p: Policy, job: Job, now: int, fate: Fate, t: Tally): Tally {
    if !MustWrite(p, job, t.sys.last, now) then t
    else
      var store := Reported(t.sys.store, job.id, job.want, p.ttlMs, fate);
      if fate.Accepted? then
        Tally(Sys(t.sys.last[job.id := now], store), t.written + 1, t.firstErr)
      else
        Tally(Sys(t.sys.last, store), t.written, if t.firstErr.None? then Some(fate.error) else t.firstErr)
  }

  function ServeAll(p: Policy, jobs: seq<Job>, now: int, fates: seq<Fate>, start: Sys): Tally
    requires |fates| == |jobs|
  {
    if jobs == [] then Tally(start, 0, None)
    else
      var n := |jobs| - 1;
      Serve(p, jobs[n], now, fates[n], ServeAll(p, jobs[..n], now, fates[..n], start))
  }

  function Ids(jobs: seq<Job>): set<string> {
    set i | 0 <= i < |jobs| :: jobs[i].id
  }

  /** The whole pass: serve every job, then forget workspaces that are no longer listed. */
  function Pass(p: Policy, jobs: seq<Job>, now: int, fates: seq<Fate>, start: Sys): Tally
    requires |fates| == |jobs|
  {
    var t := ServeAll(p, jobs, now, fates, start);
    t.(sys := Sys(Only(t.sys.last, Ids(jobs)), t.sys.store))
  }

  function JobsOf(cfg: Config, snap: Snapshot): (jobs: seq<Job>)
    ensures |jobs| == |snap.workspaces|
  {
    seq(|snap.workspaces|, i requires 0 <= i < |snap.workspaces| =>
      var ws := snap.workspaces[i];
      Job(ws.id, ws.tokens, DesiredTokens(ws, snap.agents, cfg.value)))
  }

  /** No call is made exactly if there is a record younger than the heartbeat and the snapshot shows every wanted
      token: nothing under the keys to clear, the right value under the others. */
  lemma SkippedExactly(p: Policy, job: Job, last: map<string, int>, now: int)
    ensures !MustWrite(p, job, last, now)
       <==> && job.id in last && now < last[job.id] + p.heartbeat
            && forall k | k in job.want ::
                 if job.want[k].None? then k !in job.observed
                 else k in job.observed && job.observed[k] == job.want[k].value
  {
    OverlayFixed(job.observed, job.want);
  }

  /** What a tick works on: for each listed workspace, in list order, the tokens reported for it and those derived for
      it from the whole agent list. */
  lemma JobsExactly(cfg: Config, snap: Snapshot, i: nat)
    requires i < |snap.workspaces|
    ensures var ws, job := snap.workspaces[i], JobsOf(cfg, snap)[i];
            job.id == ws.id && job.observed == ws.tokens && job.want == DesiredTokens(ws, snap.agents, cfg.value)
    ensures |JobsOf(cfg, snap)| == |snap.workspaces|
  {
  }
}
