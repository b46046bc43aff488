/** The tick loop (internal/daemon/daemon.go): polling, backoff, and recovery after an outage. */
module Daemon {
  import opened Config
  import opened Controller
  import opened Derive
  import opened Herdr
  import opened HerdrApi
  import opened NoLapse
  import opened PassEffect
  import opened Prelude
  import opened Reconciling
  import opened Runs

  const BASE_BACKOFF := 250 * MILLISECOND
  const MAX_BACKOFF := 5 * SECOND

  /** What the environment does during one iteration: the reply to the snapshot call, the instants, and
      the fate of each report call that may follow. */
  datatype Poll = Poll(reply: Reply, snapAt: int, now: int, fates: seq<Fate>, done: int)

  /** How an iteration ends: by sleeping the backoff, or by waiting for the ticker. */
  datatype Wait = Backoff(length: int) | NextTick

  predicate Fitting(script: seq<Poll>) {
    forall poll | poll in script && poll.reply.Payload? :: |poll.fates| == |poll.reply.snap.workspaces|
  }

  predicate Down(poll: Poll) {
    SnapshotOf(poll.reply).Failed?
  }

  /** The loop's variables. */
  datatype Loop = Loop(backoff: int, sawFailure: bool, sys: Sys, waits: seq<Wait>)

  function Iterate(cfg: Config, base: int, max: int, poll: Poll, l: Loop): Loop
    requires Fitting([poll])
  {
    assert poll in [poll];
    if Down(poll) then
      Loop(if 2 * l.backoff > max then max else 2 * l.backoff, true, l.sys, l.waits + [Backoff(l.backoff)])
    else
      var sys := if l.sawFailure then l.sys.(last := map[]) else l.sys;
      var snap := poll.reply.snap;
      Loop(base, false, Pass(PolicyOf(cfg), JobsOf(cfg, snap), poll.now, poll.fates, sys).sys, l.waits + [NextTick])
  }

  function LoopAfter(cfg: Config, base: int, max: int, script: seq<Poll>, start: Sys): Loop
    requires Fitting(script)
  {
    if script == [] then Loop(base, false, start, [])
    else
      var n := |script| - 1;
      Iterate(cfg, base, max, script[n], LoopAfter(cfg, base, max, script[..n], start))
  }

  /** The loop until its context ends, which is when the script does. */
  method Run(cfg: Config, server: Server, base: int, max: int, script: seq<Poll>)
    returns (ctrl: Controller, waits: seq<Wait>)
    requires Fitting(script)
    modifies server
    ensures fresh(ctrl) && ctrl.cfg == cfg && ctrl.server == server
    ensures var l := LoopAfter(cfg, base, max, script, Reconciling.Sys(map[], old(server.store)));
            ctrl.Sys() == l.sys && waits == l.waits
  {
    ctrl := new Controller(cfg, server);
    waits := [];
    var backoff, sawFailure := base, false;
    ghost var start := ctrl.Sys();
    for i := 0 to |script|
      invariant fresh(ctrl) && ctrl.cfg == cfg && ctrl.server == server
      invariant Loop(backoff, sawFailure, ctrl.Sys(), waits) == LoopAfter(cfg, base, max, script[..i], start)
    {
      var poll := script[i];
      assert script[..i + 1][..i] == script[..i];
      match SnapshotOf(poll.reply) {
        case Failed(_) =>
          sawFailure := true;
          waits := waits + [Backoff(backoff)];
          backoff := 2 * backoff;
          if backoff > max {
            backoff := max;
          }
        case Payload(snap) =>
          backoff := base;
          if sawFailure {
            ctrl.Invalidate();
            sawFailure := false;
          }
          var _, _ := ctrl.Reconcile(snap, poll.now, poll.fates);
          waits := waits + [NextTick];
      }
    }
    assert script[..|script|] == script;
  }

  // Backoff in closed form.

  function Pow2(k: nat): (p: nat)
    ensures p >= 1
  {
    if k == 0 then 1 else 2 * Pow2(k - 1)
  }

  /** How many polls in a row have just failed. */
  function Streak(script: seq<Poll>): (k: nat)
    ensures k <= |script|
  {
    if script == [] || !Down(script[|script| - 1]) then 0
    else 1 + Streak(script[..|script| - 1])
  }

  /** The k-th wait of a streak. */
  function WaitAt(base: int, max: int, k: nat): int
    requires k > 0
  {
    Min(base * Pow2(k - 1), max)
  }

  lemma FittingPrefix(script: seq<Poll>, n: nat)
    requires Fitting(script) && n <= |script|
    ensures Fitting(script[..n])
  {
    assert forall poll | poll in script[..n] :: poll in script;
  }

  lemma Doubled(base: int, k: nat)
    ensures base * Pow2(k + 1) == 2 * (base * Pow2(k))
  {
  }

  /** After k failures in a row the next backoff is min(base * 2^k, max); the wait just made after the
      k-th failure was min(base * 2^(k-1), max); and the failure flag says whether the last poll failed. */
  lemma {:induction false} BackoffClosedForm(cfg: Config, base: int, max: int, script: seq<Poll>, start: Sys)
    requires Fitting(script) && 0 < base <= max
    ensures var l, k := LoopAfter(cfg, base, max, script, start), Streak(script);
            && l.backoff == Min(base * Pow2(k), max)
            && (l.sawFailure <==> k > 0)
            && |l.waits| == |script|
            && (script != [] ==> l.waits[|script| - 1] == if k > 0 then Backoff(WaitAt(base, max, k)) else NextTick)
  {
    if script != [] {
      var n := |script| - 1;
      FittingPrefix(script, n);
      BackoffClosedForm(cfg, base, max, script[..n], start);
      Doubled(base, Streak(script[..n]));
    }
  }

  /** The time slept in the last k iterations. */
  function Slept(waits: seq<Wait>, k: nat): int
    requires k <= |waits|
  {
    if k == 0 then 0
    else
      var w := waits[|waits| - 1];
      Slept(waits[..|waits| - 1], k - 1) + (if w.Backoff? then w.length else 0)
  }

  /** Doubling until the cap: the first `m + 1` waits are powers, the rest are capped. */
  function OutageClosedForm(base: int, max: int, m: nat, k: nat): int {
    if k <= m + 1 then base * (Pow2(k) - 1)
    else base * (Pow2(m + 1) - 1) + (k - m - 1) * max
  }

  lemma {:induction false} PowGrows(base: int, a: nat, b: nat)
    requires base > 0 && a <= b
    ensures base * Pow2(a) <= base * Pow2(b)
    decreases b
  {
    if a < b {
      PowGrows(base, a, b - 1);
      Doubled(base, b - 1);
    }
  }

  lemma OutageStep(base: int, max: int, m: nat, k: nat)
    requires k > 0 && 0 < base && base * Pow2(m) <= max < base * Pow2(m + 1)
    ensures OutageClosedForm(base, max, m, k) == OutageClosedForm(base, max, m, k - 1) + WaitAt(base, max, k)
  {
    if k <= m + 1 {
      PowGrows(base, k - 1, m);
      assert Pow2(k) == 2 * Pow2(k - 1);
      Distribute(base, Pow2(k - 1));
    } else {
      PowGrows(base, m + 1, k - 1);
      OneMore(k - m - 1, max);
    }
  }

  lemma Distribute(base: int, p: int)
    ensures base * (2 * p - 1) == base * (p - 1) + base * p
  {
  }

  lemma OneMore(n: int, max: int)
    ensures n * max == (n - 1) * max + max
  {
  }

  /** The total time slept in a streak of failures, where the cap lies between base * 2^m and base * 2^(m+1). */
  lemma {:induction false} OutageLength(cfg: Config, base: int, max: int, m: nat, script: seq<Poll>, start: Sys)
    requires Fitting(script) && 0 < base && base * Pow2(m) <= max < base * Pow2(m + 1)
    ensures |LoopAfter(cfg, base, max, script, start).waits| == |script|
    ensures Slept(LoopAfter(cfg, base, max, script, start).waits, Streak(script))
         == OutageClosedForm(base, max, m, Streak(script))
  {
    PowGrows(base, 0, m);
    BackoffClosedForm(cfg, base, max, script, start);
    var k := Streak(script);
    if k > 0 {
      var n := |script| - 1;
      FittingPrefix(script, n);
      var l := LoopAfter(cfg, base, max, script[..n], start);
      OutageLength(cfg, base, max, m, script[..n], start);
      assert LoopAfter(cfg, base, max, script, start).waits[..n] == l.waits;
      OutageStep(base, max, m, k);
    } else {
      assert OutageClosedForm(base, max, m, 0) == 0;
    }
  }

  /** Doubling reaches the cap: there is always such an m. */
  lemma {:induction false} CapReached(base: int, max: int) returns (m: nat)
    requires 0 < base <= max
    ensures base * Pow2(m) <= max < base * Pow2(m + 1)
    decreases max - base
  {
    if max < 2 * base {
      m := 0;
    } else {
      var k := CapReached(2 * base, max);
      m := k + 1;
      DoubledBase(base, k);
      DoubledBase(base, k + 1);
    }
  }

  lemma DoubledBase(base: int, k: nat)
    ensures base * Pow2(k + 1) == 2 * base * Pow2(k)
  {
    assert Pow2(k + 1) == 2 * Pow2(k);
  }

  /** With the shipped schedule, the first five failures of an outage sleep 250 ms, 500 ms, 1 s, 2 s and 4 s, and
      each further one 5 s. */
  lemma ShippedOutage(cfg: Config, script: seq<Poll>, start: Sys)
    requires Fitting(script)
    ensures var waits, k := LoopAfter(cfg, BASE_BACKOFF, MAX_BACKOFF, script, start).waits, Streak(script);
            && |waits| == |script|
            && Slept(waits, k)
               == if k <= 5 then BASE_BACKOFF * (Pow2(k) - 1) else 7750 * MILLISECOND + (k - 5) * MAX_BACKOFF
  {
    assert Pow2(1) == 2 && Pow2(2) == 4 && Pow2(3) == 8 && Pow2(4) == 16 && Pow2(5) == 32;
    OutageLength(cfg, BASE_BACKOFF, MAX_BACKOFF, 4, script, start);
  }

  // Outages.

  /** However long it lasts, an outage changes neither the cache nor the server. */
  lemma {:induction false} OutageChangesNothing(cfg: Config, base: int, max: int, script: seq<Poll>, start: Sys)
    requires Fitting(script)
    ensures Fitting(script[..|script| - Streak(script)])
    ensures LoopAfter(cfg, base, max, script, start).sys
         == LoopAfter(cfg, base, max, script[..|script| - Streak(script)], start).sys
  {
    FittingPrefix(script, |script| - Streak(script));
    if Streak(script) > 0 {
      var n := |script| - 1;
      FittingPrefix(script, n);
      OutageChangesNothing(cfg, base, max, script[..n], start);
      assert script[..n][..n - Streak(script[..n])] == script[..|script| - Streak(script)];
    } else {
      assert script[..|script|] == script;
    }
  }

  /** An iteration whose poll brought nothing keeps cache and server, remembers the failure, sleeps the backoff and
      doubles it up to the cap. */
  lemma IterateOnNothing(cfg: Config, base: int, max: int, poll: Poll, l: Loop)
    requires Fitting([poll]) && (poll.reply.Failed? || poll.reply.snap.workspaces == [])
    ensures var after := Iterate(cfg, base, max, poll, l);
            && after.sys == l.sys && after.sawFailure && after.waits == l.waits + [Backoff(l.backoff)]
            && after.backoff == Min(l.backoff + l.backoff, max)
  {
  }

  /** Any other iteration forgets the failure, resets the backoff, waits for the ticker, and reconciles from the cache,
      or from an empty one if the iteration before it failed. */
  lemma IterateOnSnapshot(cfg: Config, base: int, max: int, poll: Poll, l: Loop)
    requires Fitting([poll]) && poll.reply.Payload? && poll.reply.snap.workspaces != []
    ensures poll in [poll]
    ensures var after := Iterate(cfg, base, max, poll, l);
            var start := if l.sawFailure then Sys(map[], l.sys.store) else l.sys;
            && !after.sawFailure && after.backoff == base && after.waits == l.waits + [NextTick]
            && after.sys == Pass(PolicyOf(cfg), JobsOf(cfg, poll.reply.snap), poll.now, poll.fates, start).sys
  {
    assert poll in [poll];
  }

  /** The loop's state lies k failures behind another: same cache and server, k backoffs slept since. */
  predicate FailuresLater(before: Loop, l: Loop, k: nat) {
    && l.sys == before.sys && (k > 0 ==> l.sawFailure)
    && |l.waits| == |before.waits| + k && before.waits <= l.waits
    && forall i | |before.waits| <= i < |l.waits| :: l.waits[i].Backoff?
  }

  lemma OneFailureLater(before: Loop, mid: Loop, l: Loop, k: nat)
    requires FailuresLater(before, mid, k)
    requires l.sys == mid.sys && l.sawFailure && exists length :: l.waits == mid.waits + [Backoff(length)]
    ensures FailuresLater(before, l, k + 1)
  {
  }

  /** The outage said on the replies alone: if the last k polls brought nothing, cache and server are as they were
      before them, k backoffs were slept, and the loop remembers the failure. */
  lemma {:induction false} NothingChangesNothing(
      cfg: Config, base: int, max: int, script: seq<Poll>, k: nat, start: Sys)
    requires Fitting(script) && k <= |script|
    requires forall i | |script| - k <= i < |script| ::
               script[i].reply.Failed? || script[i].reply.snap.workspaces == []
    ensures Fitting(script[..|script| - k])
    ensures FailuresLater(LoopAfter(cfg, base, max, script[..|script| - k], start),
                          LoopAfter(cfg, base, max, script, start), k)
  {
    FittingPrefix(script, |script| - k);
    if k > 0 {
      var n := |script| - 1;
      FittingPrefix(script, n);
      FittingLast(script);
      NothingChangesNothing(cfg, base, max, script[..n], k - 1, start);
      assert script[..n][..n - (k - 1)] == script[..|script| - k];
      var before, mid := LoopAfter(cfg, base, max, script[..|script| - k], start),
                         LoopAfter(cfg, base, max, script[..n], start);
      IterateOnNothing(cfg, base, max, script[n], mid);
      OneFailureLater(before, mid, LoopAfter(cfg, base, max, script, start), k - 1);
    } else {
      assert script[..|script|] == script;
    }
  }

  /** And the recovery: after a poll that brought nothing, the next one that lists workspaces calls the server for each
      of them, whatever it reports and whatever the cache held. */
  lemma RecoveryAfterNothing(
      cfg: Config, base: int, max: int, script: seq<Poll>, poll: Poll, start: Sys, i: nat)
    requires Fitting(script) && Fitting([poll]) && 0 < base <= max && script != []
    requires script[|script| - 1].reply.Failed? || script[|script| - 1].reply.snap.workspaces == []
    requires poll.reply.Payload? && DistinctIds(poll.reply.snap.workspaces) && i < |poll.reply.snap.workspaces|
    ensures var before, ws, fate := LoopAfter(cfg, base, max, script, start), poll.reply.snap.workspaces[i],
                                    (assert poll in [poll]; poll.fates[i]);
            var after := Iterate(cfg, base, max, poll, before).sys;
            && RecordOf(after.last, ws.id) == (if fate.Accepted? then Some(poll.now) else None)
            && Held(after.store, ws.id)
               == Held(Reported(before.sys.store, ws.id, DesiredTokens(ws, poll.reply.snap.agents, cfg.value),
                                cfg.TtlMillis(), fate), ws.id)
  {
    RecoveryWritesAll(cfg, base, max, script, poll, start, i);
  }

  /** The first successful poll after an outage calls the server for every listed workspace, whatever the
      snapshot reports and whatever the cache held: the records are exactly the accepted calls, and every
      call that reaches the server writes. */
  lemma RecoveryWritesAll(cfg: Config, base: int, max: int, script: seq<Poll>, poll: Poll, start: Sys, i: nat)
    requires 0 < base <= max && Fitting(script) && Fitting([poll])
    requires Streak(script) > 0 && !Down(poll)
    requires DistinctIds(poll.reply.snap.workspaces) && i < |poll.reply.snap.workspaces|
    ensures var before, ws, fate := LoopAfter(cfg, base, max, script, start), poll.reply.snap.workspaces[i],
                                    (assert poll in [poll]; poll.fates[i]);
            var after := Iterate(cfg, base, max, poll, before).sys;
            && RecordOf(after.last, ws.id) == (if fate.Accepted? then Some(poll.now) else None)
            && Held(after.store, ws.id)
               == if fate.Reaches()
                  then Written(Held(before.sys.store, ws.id), DesiredTokens(ws, poll.reply.snap.agents, cfg.value),
                               ExpiryOf(cfg.TtlMillis(), fate.at))
                  else Held(before.sys.store, ws.id)
  {
    assert poll in [poll];
    BackoffClosedForm(cfg, base, max, script, start);
    var sys := LoopAfter(cfg, base, max, script, start).sys.(last := map[]);
    Listed(PolicyOf(cfg), JobsOf(cfg, poll.reply.snap), poll.now, poll.fates, sys, i);
  }

  // The loop as a run of the whole system.

  /** The snapshot reports what the server held when it was taken. */
  predicate Honest(poll: Poll, store: Store) {
    poll.reply.Payload? ==>
      forall ws | ws in poll.reply.snap.workspaces :: ws.tokens == Observe(Held(store, ws.id), poll.snapAt)
  }

  predicate HonestScript(cfg: Config, base: int, max: int, script: seq<Poll>, start: Sys)
    requires Fitting(script)
  {
    script == [] ||
    (var n := |script| - 1;
     FittingPrefix(script, n);
     && HonestScript(cfg, base, max, script[..n], start)
     && Honest(script[n], LoopAfter(cfg, base, max, script[..n], start).sys.store))
  }

  function TickOf(cfg: Config, poll: Poll): Event
    requires poll.reply.Payload? && |poll.fates| == |poll.reply.snap.workspaces|
  {
    var snap := poll.reply.snap;
    Tick(poll.snapAt, poll.now,
         seq(|snap.workspaces|, i requires 0 <= i < |snap.workspaces| =>
           Visit(snap.workspaces[i].id, DesiredTokens(snap.workspaces[i], snap.agents, cfg.value), poll.fates[i])),
         poll.done)
  }

  /** A failed poll is a missed tick; the first success after a failure invalidates before its tick. */
  function EventsOf(cfg: Config, script: seq<Poll>): seq<Event>
    requires Fitting(script)
  {
    if script == [] then []
    else
      var n := |script| - 1;
      FittingPrefix(script, n);
      assert script[n] in script;
      EventsOf(cfg, script[..n]) +
      (if Down(script[n]) then [Missed]
       else if Streak(script[..n]) > 0 then [Invalidated, TickOf(cfg, script[n])]
       else [TickOf(cfg, script[n])])
  }

  lemma {:induction false} ExecAppend(p: Policy, a: seq<Event>, b: seq<Event>, s: Sys)
    ensures Exec(p, a + b, s) == Exec(p, b, Exec(p, a, s))
  {
    if b == [] {
      assert a + b == a;
    } else {
      var n := |b| - 1;
      assert (a + b)[..|a + b| - 1] == a + b[..n];
      ExecAppend(p, a, b[..n], s);
    }
  }

  lemma ExecOne(p: Policy, e: Event, s: Sys)
    ensures Exec(p, [e], s) == Step(p, e, s)
  {
    assert [e][..0] == [];
  }

  lemma TickOfIsPass(cfg: Config, poll: Poll, s: Sys)
    requires poll.reply.Payload? && |poll.fates| == |poll.reply.snap.workspaces| && Honest(poll, s.store)
    ensures Step(PolicyOf(cfg), TickOf(cfg, poll), s)
         == Pass(PolicyOf(cfg), JobsOf(cfg, poll.reply.snap), poll.now, poll.fates, s).sys
  {
    var e := TickOf(cfg, poll);
    var snap := poll.reply.snap;
    assert JobsAt(e.visits, s.store, e.snapAt) == JobsOf(cfg, snap) by {
      forall i | 0 <= i < |snap.workspaces|
        ensures JobsAt(e.visits, s.store, e.snapAt)[i] == JobsOf(cfg, snap)[i]
      {
        assert snap.workspaces[i] in snap.workspaces;
      }
    }
    assert FatesOf(e.visits) == poll.fates;
  }

  /** Against a server that reports honestly, the loop does to cache and server exactly what the run of its
      events does, so everything proved of runs holds of the daemon. */
  lemma {:induction false} LoopIsRun(cfg: Config, base: int, max: int, script: seq<Poll>, start: Sys)
    requires Fitting(script) && 0 < base <= max && HonestScript(cfg, base, max, script, start)
    ensures LoopAfter(cfg, base, max, script, start).sys == Exec(PolicyOf(cfg), EventsOf(cfg, script), start)
  {
    if script != [] {
      var n, p := |script| - 1, PolicyOf(cfg);
      FittingPrefix(script, n);
      assert script[n] in script;
      LoopIsRun(cfg, base, max, script[..n], start);
      BackoffClosedForm(cfg, base, max, script[..n], start);
      var l := LoopAfter(cfg, base, max, script[..n], start);
      if Down(script[n]) {
        ExecAppend(p, EventsOf(cfg, script[..n]), [Missed], start);
        ExecOne(p, Missed, l.sys);
      } else {
        var e := TickOf(cfg, script[n]);
        var sys := if l.sawFailure then l.sys.(last := map[]) else l.sys;
        TickOfIsPass(cfg, script[n], sys);
        ExecOne(p, e, sys);
        if l.sawFailure {
          assert [Invalidated, e] == [Invalidated] + [e];
          ExecAppend(p, [Invalidated], [e], l.sys);
          ExecOne(p, Invalidated, l.sys);
          ExecAppend(p, EventsOf(cfg, script[..n]), [Invalidated, e], start);
        } else {
          ExecAppend(p, EventsOf(cfg, script[..n]), [e], start);
        }
      }
    }
  }

  /** Every tick the loop makes from a snapshot with distinct ids is complete in the sense runs require. */
  lemma TickOfIsComplete(cfg: Config, poll: Poll)
    requires poll.reply.Payload? && |poll.fates| == |poll.reply.snap.workspaces|
    requires DistinctIds(poll.reply.snap.workspaces)
    ensures Complete(TickOf(cfg, poll))
  {
    var e, snap := TickOf(cfg, poll), poll.reply.snap;
    forall v | v in e.visits
      ensures v.want.Keys == OWNED && OneStatusSet(v.want)
    {
      var i :| 0 <= i < |e.visits| && e.visits[i] == v;
      DesiredShape(snap.workspaces[i], snap.agents, cfg.value);
    }
  }

  /** Polls with distinct ids, on a clock that does not run backwards. */
  predicate Timed(script: seq<Poll>, from: int)
    requires Fitting(script)
  {
    script == [] ||
    (var n := |script| - 1;
     FittingPrefix(script, n);
     assert script[n] in script;
     && Timed(script[..n], from)
     && (!Down(script[n]) ==>
           && DistinctIds(script[n].reply.snap.workspaces)
           && Now(script[..n], from) <= script[n].snapAt <= script[n].now <= script[n].done
           && forall f | f in script[n].fates :: script[n].now <= f.at <= script[n].done))
  }

  /** The end of the last successful poll. */
  function Now(script: seq<Poll>, from: int): int {
    if script == [] then from
    else if Down(script[|script| - 1]) then Now(script[..|script| - 1], from)
    else script[|script| - 1].done
  }

  lemma ProperAppend(run: seq<Event>, e: Event, from: int)
    requires Proper(run, from) && Complete(e) && Ordered(e, Clock(run, from))
    ensures Proper(run + [e], from)
    ensures Clock(run + [e], from) == if e.Tick? then e.done else Clock(run, from)
  {
    assert (run + [e])[..|run|] == run;
  }

  lemma TickOfIsOrdered(cfg: Config, poll: Poll, from: int)
    requires poll.reply.Payload? && |poll.fates| == |poll.reply.snap.workspaces|
    requires from <= poll.snapAt <= poll.now <= poll.done
    requires forall f | f in poll.fates :: poll.now <= f.at <= poll.done
    ensures Ordered(TickOf(cfg, poll), from)
  {
    var e := TickOf(cfg, poll);
    forall v | v in e.visits
      ensures e.now <= v.fate.at <= e.done
    {
      var i :| 0 <= i < |e.visits| && e.visits[i] == v;
      assert poll.fates[i] in poll.fates;
    }
  }

  /** The loop's events form a proper run. */
  lemma {:induction false} LoopIsProper(cfg: Config, script: seq<Poll>, from: int)
    requires Fitting(script) && Timed(script, from)
    ensures Proper(EventsOf(cfg, script), from) && Clock(EventsOf(cfg, script), from) == Now(script, from)
  {
    if script != [] {
      var n := |script| - 1;
      FittingPrefix(script, n);
      assert script[n] in script;
      LoopIsProper(cfg, script[..n], from);
      var before := EventsOf(cfg, script[..n]);
      if Down(script[n]) {
        ProperAppend(before, Missed, from);
      } else {
        var e := TickOf(cfg, script[n]);
        TickOfIsComplete(cfg, script[n]);
        TickOfIsOrdered(cfg, script[n], Now(script[..n], from));
        if Streak(script[..n]) > 0 {
          ProperAppend(before, Invalidated, from);
          ProperAppend(before + [Invalidated], e, from);
          assert before + [Invalidated, e] == before + [Invalidated] + [e];
        } else {
          ProperAppend(before, e, from);
        }
      }
    }
  }

  // The lifetime guarantee for the loop itself.

  /** The poll is a successful one that lists the workspace and has acted on it by instant t. */
  ghost predicate ActedBy(cfg: Config, poll: Poll, id: string, t: int)
    requires Fitting([poll])
  {
    assert poll in [poll];
    !Down(poll) && Lists(TickOf(cfg, poll), id) && VisitOf(TickOf(cfg, poll), id).fate.at <= t
  }

  /** The status tokens the server holds for the workspace at instant t, while the loop runs. */
  ghost function StatusDuring(
      cfg: Config, base: int, max: int, script: seq<Poll>, start: Sys, id: string, t: int): Entries
    requires Fitting(script)
  {
    if script == [] then Only(Held(start.store, id), STATUS_TOKENS)
    else
      var n := |script| - 1;
      FittingPrefix(script, n);
      FittingLast(script);
      if ActedBy(cfg, script[n], id, t)
      then Only(Held(LoopAfter(cfg, base, max, script, start).sys.store, id), STATUS_TOKENS)
      else StatusDuring(cfg, base, max, script[..n], start, id, t)
  }

  lemma FittingLast(script: seq<Poll>)
    requires Fitting(script) && script != []
    ensures Fitting([script[|script| - 1]])
  {
    assert script[|script| - 1] in script;
  }

  lemma StatusAtLast(p: Policy, run: seq<Event>, e: Event, s: Sys, id: string, t: int)
    ensures StatusAt(p, run + [e], s, id, t)
         == if Lists(e, id) && VisitOf(e, id).fate.at <= t
            then Only(Held(Exec(p, run + [e], s).store, id), STATUS_TOKENS)
            else StatusAt(p, run, s, id, t)
  {
    assert (run + [e])[..|run|] == run;
  }

  lemma StatusAtEvents(cfg: Config, script: seq<Poll>, start: Sys, id: string, t: int)
    requires Fitting(script) && script != []
    ensures Fitting([script[|script| - 1]]) && Fitting(script[..|script| - 1])
    ensures StatusAt(PolicyOf(cfg), EventsOf(cfg, script), start, id, t)
         == if ActedBy(cfg, script[|script| - 1], id, t)
            then Only(Held(Exec(PolicyOf(cfg), EventsOf(cfg, script), start).store, id), STATUS_TOKENS)
            else StatusAt(PolicyOf(cfg), EventsOf(cfg, script[..|script| - 1]), start, id, t)
  {
    var n, p := |script| - 1, PolicyOf(cfg);
    FittingPrefix(script, n);
    FittingLast(script);
    assert script[n] in script;
    var before := EventsOf(cfg, script[..n]);
    if Down(script[n]) {
      StatusAtLast(p, before, Missed, start, id, t);
    } else if Streak(script[..n]) > 0 {
      var e := TickOf(cfg, script[n]);
      StatusAtLast(p, before, Invalidated, start, id, t);
      StatusAtLast(p, before + [Invalidated], e, start, id, t);
      assert before + [Invalidated, e] == before + [Invalidated] + [e];
    } else {
      StatusAtLast(p, before, TickOf(cfg, script[n]), start, id, t);
    }
  }

  /** Against a server that reports honestly, these are the status tokens of the run of the loop's events. */
  lemma {:induction false} DuringIsStatusAt(
      cfg: Config, base: int, max: int, script: seq<Poll>, start: Sys, id: string, t: int)
    requires Fitting(script) && 0 < base <= max && HonestScript(cfg, base, max, script, start)
    ensures StatusDuring(cfg, base, max, script, start, id, t)
         == StatusAt(PolicyOf(cfg), EventsOf(cfg, script), start, id, t)
  {
    if script != [] {
      FittingPrefix(script, |script| - 1);
      DuringIsStatusAt(cfg, base, max, script[..|script| - 1], start, id, t);
      LoopIsRun(cfg, base, max, script, start);
      StatusAtEvents(cfg, script, start, id, t);
    }
  }

  lemma FirstAndRest(first: Poll, script: seq<Poll>)
    requires Fitting([first] + script)
    ensures Fitting([first]) && Fitting(script) && first in [first]
    ensures script != [] ==>
              var n := |script| - 1;
              ([first] + script)[..n + 1] == [first] + script[..n] && ([first] + script)[n + 1] == script[n]
  {
    assert first in [first] + script && forall poll | poll in script :: poll in [first] + script;
  }

  /** A success in front changes nothing about the events that follow it. */
  lemma {:induction false} EventsAfterFirst(cfg: Config, first: Poll, script: seq<Poll>)
    requires Fitting([first] + script) && !Down(first)
    ensures Fitting([first]) && Fitting(script) && first in [first]
    ensures Streak([first] + script) == Streak(script)
    ensures EventsOf(cfg, [first] + script) == [TickOf(cfg, first)] + EventsOf(cfg, script)
  {
    FirstAndRest(first, script);
    if script == [] {
      assert [first] + script == [first] && [first][..0] == [];
    } else {
      FittingPrefix([first] + script, |script|);
      EventsAfterFirst(cfg, first, script[..|script| - 1]);
    }
  }

  /** Once the first tick has acted, the status tokens are those of the rest, started after it. */
  lemma {:induction false} StatusAfterFirst(p: Policy, e: Event, run: seq<Event>, s: Sys, id: string, t: int)
    requires Lists(e, id) && VisitOf(e, id).fate.at <= t
    ensures StatusAt(p, [e] + run, s, id, t) == StatusAt(p, run, Step(p, e, s), id, t)
  {
    ExecAppend(p, [e], run, s);
    ExecOne(p, e, s);
    if run == [] {
      assert [e] + run == [] + [e];
      StatusAtLast(p, [], e, s, id, t);
    } else {
      var n := |run| - 1;
      assert [e] + run == ([e] + run[..n]) + [run[n]] && run == run[..n] + [run[n]];
      StatusAtLast(p, [e] + run[..n], run[n], s, id, t);
      StatusAfterFirst(p, e, run[..n], s, id, t);
    }
  }

  /** The poll writes the workspace and the write is accepted; the script after it leaves the workspace listed, and
      its successful ticks are at most `gap` apart, the last of them less than `gap` before t. */
  ghost predicate Tended(cfg: Config, s: Sys, first: Poll, script: seq<Poll>, id: string, gap: int, t: int)
    requires Fitting([first]) && !Down(first) && Fitting(script)
  {
    assert first in [first];
    var e, p := TickOf(cfg, first), PolicyOf(cfg);
    && Lists(e, id) && Calls(p, s, e, VisitOf(e, id)) && VisitOf(e, id).fate.Accepted?
    && Covered(p, EventsOf(cfg, script), Step(p, e, s), id, first.now, gap)
    && VisitOf(e, id).fate.at <= t < LastGood(p, EventsOf(cfg, script), Step(p, e, s), id, first.now) + gap
  }

  /** The whole promise for the loop. A validated configuration with a whole-millisecond lifetime; a server that
      reports honestly; a poll that writes the workspace successfully, from any state; any script after it,
      failures included, in which successful ticks are at most two poll intervals apart. Then at every instant from
      that write on, the server holds exactly one live status token for the workspace. */
  lemma DaemonKeepsOneStatus(
      cfg: Config, base: int, max: int, s: Sys, first: Poll, script: seq<Poll>, id: string, t: int)
    requires cfg.Valid() && cfg.ttl % MILLISECOND == 0 && 0 < base <= max
    requires Fitting([first] + script) && Fitting([first]) && Fitting(script) && !Down(first)
    requires Timed([first], first.snapAt) && Timed(script, first.done)
    requires HonestScript(cfg, base, max, [first] + script, s)
    requires Tended(cfg, s, first, script, id, 2 * cfg.pollInterval, t)
    ensures OneStatusLive(StatusDuring(cfg, base, max, [first] + script, s, id, t), t)
  {
    assert first in [first] && [first][..0] == [];
    var e, p, run := TickOf(cfg, first), PolicyOf(cfg), EventsOf(cfg, script);
    OneMissedPoll(cfg);
    TickOfIsComplete(cfg, first);
    TickOfIsOrdered(cfg, first, first.snapAt);
    LoopIsProper(cfg, script, first.done);
    assert Story(p, 2 * cfg.pollInterval, s, e, run, id, t);
    DuringIsStatusAt(cfg, base, max, [first] + script, s, id, t);
    EventsAfterFirst(cfg, first, script);
    StatusAfterFirst(p, e, run, s, id, t);
  }

  /** In particular at the end of the script, for the server's state as the loop leaves it. */
  lemma DaemonLeavesOneStatus(
      cfg: Config, base: int, max: int, s: Sys, first: Poll, script: seq<Poll>, id: string, t: int)
    requires cfg.Valid() && cfg.ttl % MILLISECOND == 0 && 0 < base <= max
    requires Fitting([first] + script) && Fitting([first]) && Fitting(script) && !Down(first)
    requires Timed([first], first.snapAt) && Timed(script, first.done)
    requires HonestScript(cfg, base, max, [first] + script, s)
    requires Tended(cfg, s, first, script, id, 2 * cfg.pollInterval, t) && Now(script, first.done) <= t
    ensures OneStatusLive(Held(LoopAfter(cfg, base, max, [first] + script, s).sys.store, id), t)
  {
    DaemonKeepsOneStatus(cfg, base, max, s, first, script, id, t);
    assert first in [first];
    var e, p, run := TickOf(cfg, first), PolicyOf(cfg), EventsOf(cfg, script);
    DuringIsStatusAt(cfg, base, max, [first] + script, s, id, t);
    EventsAfterFirst(cfg, first, script);
    StatusAfterFirst(p, e, run, s, id, t);
    LoopIsProper(cfg, script, first.done);
    StatusAtEnd(p, run, Step(p, e, s), id, first.now, 2 * cfg.pollInterval, first.done, t);
    LoopIsRun(cfg, base, max, [first] + script, s);
    ExecAppend(p, [e], run, s);
    ExecOne(p, e, s);
    OnlyStatusMatters(Held(Exec(p, [e] + run, s).store, id), t);
  }

  lemma OnlyStatusMatters(m: Entries, t: int)
    requires OneStatusLive(Only(m, STATUS_TOKENS), t)
    ensures OneStatusLive(m, t)
  {
    var held := Only(m, STATUS_TOKENS);
    var k :| k in held && Live(held[k], t)
      && forall other | other in STATUS_TOKENS && other in held && Live(held[other], t) :: other == k;
    assert forall other | other in STATUS_TOKENS :: other in m <==> other in held;
  }
}
