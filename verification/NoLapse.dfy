/** The lifetime guarantee: when a published status token can lapse between ticks, and when it cannot. */
module NoLapse {
  import opened Config
  import opened Derive
  import opened Herdr
  import opened HerdrApi
  import opened PassEffect
  import opened Prelude
  import opened Reconciling
  import opened Runs

  /** Exactly one of the six status tokens is live at instant t. */
  ghost predicate OneStatusLive(m: Entries, t: int) {
    exists k :: k in STATUS_TOKENS && k in m && Live(m[k], t)
      && forall other | other in STATUS_TOKENS && other in m && Live(m[other], t) :: other == k
  }

  ghost function VisitOf(e: Event, id: string): (v: Visit)
    requires Lists(e, id)
    ensures v in e.visits && v.id == id
  {
    var v :| v in e.visits && v.id == id;
    v
  }

  /** The tick is successful for the workspace: nothing had to be written, or the write was accepted. */
  ghost predicate Good(p: Policy, s: Sys, e: Event, id: string) {
    Lists(e, id) && (Calls(p, s, e, VisitOf(e, id)) ==> VisitOf(e, id).fate.Accepted?)
  }

  /** The clock reading of the latest successful tick. */
  ghost function LastGood(p: Policy, run: seq<Event>, s: Sys, id: string, good: int): int {
    if run == [] then good
    else
      var n := |run| - 1;
      if Good(p, Exec(p, run[..n], s), run[n], id) then run[n].now else LastGood(p, run[..n], s, id, good)
  }

  /** The event leaves the workspace's status tokens to the daemon. Another plugin may still write other keys, and
      anything may happen to other workspaces. */
  predicate LeavesStatus(e: Event, s: Sys, id: string) {
    e.Tampered? ==>
      Only(Held(Disturb(e.op, s.store), id), STATUS_TOKENS) == Only(Held(s.store, id), STATUS_TOKENS)
  }

  /** Nobody else touches the status tokens, the workspace stays open, and from the clock reading of one
      successful tick to the write instant of the next at most `gap` passes. Polls and calls may fail in
      between. */
  ghost predicate Covered(p: Policy, run: seq<Event>, s: Sys, id: string, good: int, gap: int) {
    run == [] ||
    (var n := |run| - 1;
     && Covered(p, run[..n], s, id, good, gap)
     && LeavesStatus(run[n], Exec(p, run[..n], s), id)
     && (run[n].Tick? ==> Lists(run[n], id))
     && (Good(p, Exec(p, run[..n], s), run[n], id) ==>
           VisitOf(run[n], id).fate.at <= LastGood(p, run[..n], s, id, good) + gap))
  }

  /** The status tokens the server holds for the workspace at instant t: a tick acts on them at its write
      instant, and nothing else does. */
  ghost function StatusAt(p: Policy, run: seq<Event>, s: Sys, id: string, t: int): Entries {
    if run == [] then Only(Held(s.store, id), STATUS_TOKENS)
    else
      var n := |run| - 1;
      if Lists(run[n], id) && VisitOf(run[n], id).fate.at <= t
      then Only(Held(Exec(p, run, s).store, id), STATUS_TOKENS)
      else StatusAt(p, run[..n], s, id, t)
  }

  /** Once all ticks are over, those are the tokens in the final state. */
  lemma {:induction false} StatusAtEnd(
      p: Policy, run: seq<Event>, s: Sys, id: string, good: int, gap: int, from: int, t: int)
    requires Proper(run, from) && Covered(p, run, s, id, good, gap) && Clock(run, from) <= t
    ensures StatusAt(p, run, s, id, t) == Only(Held(Exec(p, run, s).store, id), STATUS_TOKENS)
  {
    if run != [] && !run[|run| - 1].Tick? {
      StatusAtEnd(p, run[..|run| - 1], s, id, good, gap, from, t);
    }
  }

  function Lifetime(p: Policy): int {
    p.ttlMs * MILLISECOND
  }

  /** One status token is held until at least `good + gap`, alone, and longer than the recorded write demands. */
  ghost predicate Secured(p: Policy, s: Sys, id: string, good: int, gap: int) {
    var m := Held(s.store, id);
    && (id in s.last ==> s.last[id] <= good)
    && exists k :: k in STATUS_TOKENS && k in m && m[k].expiry.Some?
        && good + gap <= m[k].expiry.value
        && (id in s.last ==> s.last[id] + Lifetime(p) <= m[k].expiry.value)
        && forall other | other in STATUS_TOKENS && other in m :: other == k
  }

  lemma SecuredIsLive(p: Policy, s: Sys, id: string, good: int, gap: int, t: int)
    requires Secured(p, s, id, good, gap) && t < good + gap
    ensures OneStatusLive(Only(Held(s.store, id), STATUS_TOKENS), t)
  {
    var m := Held(s.store, id);
    var k :| k in STATUS_TOKENS && k in m && m[k].expiry.Some? && good + gap <= m[k].expiry.value
      && forall other | other in STATUS_TOKENS && other in m :: other == k;
    assert k in Only(m, STATUS_TOKENS) && Live(m[k], t);
  }

  lemma WrittenStatus(m: Entries, want: Tokens, expiry: Option<int>)
    requires want.Keys == OWNED && OneStatusSet(want)
    ensures var after := Written(m, want, expiry);
            exists k :: k in STATUS_TOKENS && k in after && after[k].expiry == expiry
              && forall other | other in STATUS_TOKENS && other in after :: other == k
  {
    var k :| k in STATUS_TOKENS && k in want && want[k].Some?
      && forall other | other in STATUS_TOKENS && other in want && want[other].Some? :: other == k;
    assert k in Written(m, want, expiry);
  }

  /** The policy numbers leave room for the gap. */
  predicate Roomy(p: Policy, gap: int) {
    p.heartbeat + gap <= Lifetime(p) + 1
  }

  predicate Sane(p: Policy) {
    p.ttlMs > 0 && p.heartbeat > 0
  }

  /** A call that reaches the server secures the workspace from the recorded or the given instant. */
  lemma SecuredByWrite(p: Policy, e: Event, s: Sys, v: Visit, good: int, gap: int)
    requires Sane(p) && Roomy(p, gap)
    requires e.Tick? && Complete(e) && v in e.visits && Ordered(e, e.snapAt)
    requires Calls(p, s, e, v) && v.fate.Reaches() && good <= e.now
    requires v.fate.Accepted? || (v.id in s.last ==> s.last[v.id] <= good)
    ensures Secured(p, Step(p, e, s), v.id, if v.fate.Accepted? then e.now else good, gap)
  {
    OnVisit(p, e, s, v);
    WrittenStatus(Held(s.store, v.id), v.want, ExpiryOf(p.ttlMs, v.fate.at));
  }

  /** Every event of an undisturbed run keeps the workspace secured. */
  lemma SecuredStep(p: Policy, e: Event, s: Sys, id: string, good: int, gap: int)
    requires Sane(p) && Roomy(p, gap) && Secured(p, s, id, good, gap)
    requires LeavesStatus(e, s, id) && Complete(e) && Ordered(e, good) && (e.Tick? ==> Lists(e, id))
    ensures Secured(p, Step(p, e, s), id, if Good(p, s, e, id) then e.now else good, gap)
  {
    if e.Tick? {
      var v := VisitOf(e, id);
      if Calls(p, s, e, v) && v.fate.Reaches() {
        SecuredByWrite(p, e, s, v, good, gap);
      } else {
        OnVisit(p, e, s, v);
      }
    } else {
      SecuredKept(p, s, Step(p, e, s), id, good, gap);
    }
  }

  /** Only the status tokens and the record matter. */
  lemma SecuredKept(p: Policy, s: Sys, s': Sys, id: string, good: int, gap: int)
    requires Secured(p, s, id, good, gap) && (id in s'.last ==> id in s.last && s'.last[id] == s.last[id])
    requires Only(Held(s'.store, id), STATUS_TOKENS) == Only(Held(s.store, id), STATUS_TOKENS)
    ensures Secured(p, s', id, good, gap)
  {
    var m, m' := Held(s.store, id), Held(s'.store, id);
    forall k | k in STATUS_TOKENS
      ensures k in m <==> k in m'
      ensures k in m ==> m[k] == m'[k]
    {
      assert k in Only(m, STATUS_TOKENS) <==> k in Only(m', STATUS_TOKENS);
      assert k in m ==> Only(m, STATUS_TOKENS)[k] == m[k];
    }
  }

  lemma {:induction false} GoodBeforeClock(p: Policy, run: seq<Event>, s: Sys, id: string, good: int, from: int)
    requires Proper(run, from) && good <= from
    ensures LastGood(p, run, s, id, good) <= Clock(run, from)
  {
    if run != [] {
      GoodBeforeClock(p, run[..|run| - 1], s, id, good, from);
    }
  }

  lemma {:induction false} SecuredRun(p: Policy, run: seq<Event>, s: Sys, id: string, good: int, gap: int, from: int)
    requires Sane(p) && Roomy(p, gap) && Secured(p, s, id, good, gap) && good <= from
    requires Proper(run, from) && Covered(p, run, s, id, good, gap)
    ensures Secured(p, Exec(p, run, s), id, LastGood(p, run, s, id, good), gap)
  {
    if run != [] {
      var n := |run| - 1;
      SecuredRun(p, run[..n], s, id, good, gap, from);
      GoodBeforeClock(p, run[..n], s, id, good, from);
      SecuredStep(p, run[n], Exec(p, run[..n], s), id, LastGood(p, run[..n], s, id, good), gap);
    }
  }

  lemma {:induction false} SecuredAlways(
      p: Policy, run: seq<Event>, s: Sys, id: string, good: int, gap: int, from: int, t: int)
    requires Sane(p) && Roomy(p, gap) && Secured(p, s, id, good, gap) && good <= from
    requires Proper(run, from) && Covered(p, run, s, id, good, gap)
    requires t < LastGood(p, run, s, id, good) + gap
    ensures OneStatusLive(StatusAt(p, run, s, id, t), t)
  {
    if run == [] {
      SecuredIsLive(p, s, id, good, gap, t);
    } else if Lists(run[|run| - 1], id) && VisitOf(run[|run| - 1], id).fate.at <= t {
      SecuredRun(p, run, s, id, good, gap, from);
      SecuredIsLive(p, Exec(p, run, s), id, LastGood(p, run, s, id, good), gap, t);
    } else {
      StillCovered(p, run, s, id, good, gap, t);
      SecuredAlways(p, run[..|run| - 1], s, id, good, gap, from, t);
    }
  }

  /** Until the write instant of the last tick, the period before it still covers t. */
  lemma StillCovered(p: Policy, run: seq<Event>, s: Sys, id: string, good: int, gap: int, t: int)
    requires run != [] && Covered(p, run, s, id, good, gap) && t < LastGood(p, run, s, id, good) + gap
    requires !(Lists(run[|run| - 1], id) && VisitOf(run[|run| - 1], id).fate.at <= t)
    ensures t < LastGood(p, run[..|run| - 1], s, id, good) + gap
  {
  }

  /** A workspace's story: from any state s, tick `first` writes it successfully, then `run` goes on
      undisturbed; t lies between that write and the end of the period the latest successful tick covers. */
  ghost predicate Story(p: Policy, gap: int, s: Sys, first: Event, run: seq<Event>, id: string, t: int) {
    && first.Tick? && Complete(first) && Ordered(first, first.snapAt) && Lists(first, id)
    && Calls(p, s, first, VisitOf(first, id)) && VisitOf(first, id).fate.Accepted?
    && Proper(run, first.done)
    && Covered(p, run, Step(p, first, s), id, first.now, gap)
    && VisitOf(first, id).fate.at <= t < LastGood(p, run, Step(p, first, s), id, first.now) + gap
  }

  ghost predicate NeverLapses(p: Policy, gap: int) {
    forall s, first, run, id, t | Story(p, gap, s, first, run, id, t) ::
      OneStatusLive(StatusAt(p, run, Step(p, first, s), id, t), t)
  }

  lemma RoomyNeverLapses(p: Policy, gap: int)
    requires Sane(p) && Roomy(p, gap)
    ensures NeverLapses(p, gap)
  {
    forall s, first, run, id, t | Story(p, gap, s, first, run, id, t)
      ensures OneStatusLive(StatusAt(p, run, Step(p, first, s), id, t), t)
    {
      SecuredByWrite(p, first, s, VisitOf(first, id), first.now, gap);
      SecuredAlways(p, run, Step(p, first, s), id, first.now, gap, first.done, t);
    }
  }

  // The converse: a run that lapses whenever the policy is too tight.

  function Instant(id: string, want: Tokens, t: int): Event {
    Tick(t, t, [Visit(id, want, Accepted(t))], t)
  }

  lemma InstantShape(id: string, want: Tokens, t: int)
    requires want.Keys == OWNED && OneStatusSet(want)
    ensures Complete(Instant(id, want, t)) && Ordered(Instant(id, want, t), t)
    ensures Lists(Instant(id, want, t), id) && VisitOf(Instant(id, want, t), id) == Visit(id, want, Accepted(t))
  {
    assert Visit(id, want, Accepted(t)) in Instant(id, want, t).visits;
  }

  /** The state after a first write at time zero on an empty server. */
  function Written0(p: Policy, id: string, want: Tokens): Sys {
    Step(p, Instant(id, want, 0), Sys(map[], map[]))
  }

  lemma AfterFirst(p: Policy, id: string, want: Tokens)
    requires Sane(p) && want.Keys == OWNED && OneStatusSet(want)
    ensures RecordOf(Written0(p, id, want).last, id) == Some(0)
    ensures Held(Written0(p, id, want).store, id) == Written(map[], want, Some(Lifetime(p)))
  {
    InstantShape(id, want, 0);
    OnVisit(p, Instant(id, want, 0), Sys(map[], map[]), Visit(id, want, Accepted(0)));
  }

  lemma SkipInstant(p: Policy, id: string, want: Tokens, t: int, s: Sys)
    requires Sane(p) && want.Keys == OWNED && OneStatusSet(want) && t < p.heartbeat <= Lifetime(p)
    requires RecordOf(s.last, id) == Some(0) && Held(s.store, id) == Written(map[], want, Some(Lifetime(p)))
    ensures !Calls(p, s, Instant(id, want, t), Visit(id, want, Accepted(t)))
    ensures RecordOf(Step(p, Instant(id, want, t), s).last, id) == Some(0)
    ensures Held(Step(p, Instant(id, want, t), s).store, id) == Held(s.store, id)
  {
    InstantShape(id, want, t);
    ObserveWritten(map[], want, Some(Lifetime(p)), t);
    OverlayOwned(map[], want);
    assert Observe(map[], t) == map[];
    OnVisit(p, Instant(id, want, t), s, Visit(id, want, Accepted(t)));
  }

  /** After the first write, `run` only skipped: the state is as written, and t is covered. */
  ghost predicate Quiet(p: Policy, gap: int, id: string, want: Tokens, run: seq<Event>, t: int) {
    var s := Written0(p, id, want);
    && Proper(run, 0) && Clock(run, 0) == t
    && Covered(p, run, s, id, 0, gap) && LastGood(p, run, s, id, 0) == t
    && RecordOf(Exec(p, run, s).last, id) == Some(0)
    && Held(Exec(p, run, s).store, id) == Written(map[], want, Some(Lifetime(p)))
  }

  lemma QuietStart(p: Policy, gap: int, id: string, want: Tokens)
    requires Sane(p) && want.Keys == OWNED && OneStatusSet(want)
    ensures Quiet(p, gap, id, want, [], 0)
  {
    AfterFirst(p, id, want);
  }

  lemma QuietExtended(p: Policy, gap: int, id: string, want: Tokens, run: seq<Event>, from: int, t: int)
    requires Sane(p) && want.Keys == OWNED && OneStatusSet(want) && t < p.heartbeat <= Lifetime(p)
    requires Quiet(p, gap, id, want, run, from) && from <= t <= from + gap
    ensures Quiet(p, gap, id, want, run + [Instant(id, want, t)], t)
  {
    var s, e := Written0(p, id, want), Instant(id, want, t);
    var more := run + [e];
    assert more[..|more| - 1] == run && more[|more| - 1] == e;
    SkipInstant(p, id, want, t, Exec(p, run, s));
    InstantShape(id, want, t);
    assert Exec(p, more, s) == Step(p, e, Exec(p, run, s));
    assert Good(p, Exec(p, run, s), e, id);
  }

  /** A run of ticks at t, t - gap, t - 2*gap, ... down to the first within a gap of zero. */
  lemma {:induction false} QuietEvery(p: Policy, gap: int, id: string, want: Tokens, t: int) returns (run: seq<Event>)
    requires Sane(p) && want.Keys == OWNED && OneStatusSet(want) && 0 <= t < p.heartbeat <= Lifetime(p) && gap > 0
    ensures Quiet(p, gap, id, want, run, t)
    ensures run != [] && run[|run| - 1] == Instant(id, want, t)
    decreases t
  {
    var before, from := [], 0;
    if t > gap {
      from := t - gap;
      before := QuietEvery(p, gap, id, want, from);
    } else {
      QuietStart(p, gap, id, want);
    }
    QuietExtended(p, gap, id, want, before, from, t);
    run := before + [Instant(id, want, t)];
  }

  lemma QuietStory(p: Policy, gap: int, id: string, want: Tokens, run: seq<Event>, t: int)
    requires want.Keys == OWNED && OneStatusSet(want)
    requires Quiet(p, gap, id, want, run, t) && 0 <= Lifetime(p) < t + gap
    ensures Story(p, gap, Sys(map[], map[]), Instant(id, want, 0), run, id, Lifetime(p))
  {
    InstantShape(id, want, 0);
  }

  lemma QuietHeld(p: Policy, gap: int, id: string, want: Tokens, run: seq<Event>, last: int, t: int)
    requires want.Keys == OWNED && OneStatusSet(want)
    requires Quiet(p, gap, id, want, run, last) && last <= t && run != [] && run[|run| - 1] == Instant(id, want, last)
    ensures StatusAt(p, run, Written0(p, id, want), id, t)
         == Only(Written(map[], want, Some(Lifetime(p))), STATUS_TOKENS)
  {
    InstantShape(id, want, last);
  }

  lemma LapsedAtEnd(p: Policy, gap: int, id: string, want: Tokens) returns (run: seq<Event>)
    requires Sane(p) && want.Keys == OWNED && OneStatusSet(want) && p.heartbeat <= Lifetime(p)
    requires gap > 0 && !Roomy(p, gap)
    ensures Story(p, gap, Sys(map[], map[]), Instant(id, want, 0), run, id, Lifetime(p))
    ensures !OneStatusLive(StatusAt(p, run, Written0(p, id, want), id, Lifetime(p)), Lifetime(p))
  {
    var last := p.heartbeat - 1;
    run := QuietEvery(p, gap, id, want, last);
    QuietStory(p, gap, id, want, run, last);
    QuietHeld(p, gap, id, want, run, last, Lifetime(p));
  }

  /** Any workspace, with its label as the value, serves for the counterexample. */
  lemma TightLapses(p: Policy, gap: int)
    requires Sane(p) && p.heartbeat <= Lifetime(p) && gap > 0 && !Roomy(p, gap)
    ensures !NeverLapses(p, gap)
  {
    var ws := Workspace("w1", "space-a", None, map[]);
    var want := DesiredTokens(ws, [], "label");
    DesiredShape(ws, [], "label");
    var run := LapsedAtEnd(p, gap, "w1", want);
  }

  /** The lifetime guarantee holds for every run exactly when the age at which a write is repeated plus the
      gap between successful ticks fits into the granted lifetime (counting whole nanoseconds). */
  lemma NoLapseExactly(p: Policy, gap: int)
    requires Sane(p) && p.heartbeat <= Lifetime(p) && gap > 0
    ensures NeverLapses(p, gap) <==> p.heartbeat + gap <= Lifetime(p) + 1
  {
    if Roomy(p, gap) {
      RoomyNeverLapses(p, gap);
    } else {
      TightLapses(p, gap);
    }
  }

  /** k polls missed in a row, in any run, never cost a status token. */
  ghost predicate Survives(cfg: Config, k: nat) {
    NeverLapses(PolicyOf(cfg), (k + 1) * cfg.pollInterval)
  }

  lemma GapPositive(k: nat, poll: int)
    requires poll > 0
    ensures (k + 1) * poll > 0
  {
  }

  /** The policy of a validated configuration, in the configuration's own numbers. */
  lemma PolicyNumbers(cfg: Config)
    requires cfg.Valid()
    ensures Sane(PolicyOf(cfg)) && PolicyOf(cfg).heartbeat <= Lifetime(PolicyOf(cfg)) && cfg.pollInterval > 0
    ensures Lifetime(PolicyOf(cfg)) == cfg.EffectiveTtl() && PolicyOf(cfg).heartbeat == cfg.HeartbeatAge()
  {
    ValidArithmetic(cfg);
  }

  /** For a validated configuration, k missed polls are survived exactly when the numbers say so. */
  lemma MissedPolls(cfg: Config, k: nat)
    requires cfg.Valid()
    ensures Survives(cfg, k)
       <==> cfg.HeartbeatAge() + (k + 1) * cfg.pollInterval <= cfg.EffectiveTtl() + 1
  {
    PolicyNumbers(cfg);
    GapPositive(k, cfg.pollInterval);
    NoLapseExactly(PolicyOf(cfg), (k + 1) * cfg.pollInterval);
  }

  /** The promise of the validator, for lifetimes in whole milliseconds: one missed poll never
      costs a token. */
  lemma OneMissedPoll(cfg: Config)
    requires cfg.Valid() && cfg.ttl % MILLISECOND == 0
    ensures Survives(cfg, 1)
  {
    ValidArithmetic(cfg);
    MissedPolls(cfg, 1);
  }

  /** The validator's floor on the lifetime is neither too low nor too high: for lifetimes in whole milliseconds
      that divide by three, one missed poll is survived exactly when the lifetime is at least three polls. */
  lemma FloorIsExact(cfg: Config)
    requires cfg.ttl > 0 && cfg.ttl % (3 * MILLISECOND) == 0 && cfg.pollInterval > 0
    ensures Survives(cfg, 1) <==> cfg.ttl >= 3 * cfg.pollInterval
  {
    var thirds := cfg.ttl / (3 * MILLISECOND);
    assert cfg.ttl == thirds * (3 * MILLISECOND);
    assert cfg.HeartbeatAge() == thirds * MILLISECOND;
    assert cfg.TtlMillis() == 3 * thirds;
    NoLapseExactly(PolicyOf(cfg), 2 * cfg.pollInterval);
  }

  /** With a sub-millisecond lifetime the promise can fail: truncation makes the granted lifetime too short. */
  lemma SubMillisecondLapses()
    ensures var cfg := Default().(pollInterval := 500_000_001, ttl := 1_500_000_003);
            cfg.Valid() && !Survives(cfg, 1)
  {
    MissedPolls(Default().(pollInterval := 500_000_001, ttl := 1_500_000_003), 1);
  }

  /** At the tightest lifetime the validator accepts, two missed polls do cost tokens. */
  lemma TwoMissedPollsLapse()
    ensures var tight := Default().(ttl := 9 * SECOND);
            tight.Valid() && !Survives(tight, 2)
  {
    MissedPolls(Default().(ttl := 9 * SECOND), 2);
  }

  /** The default configuration survives nineteen missed polls and not twenty. */
  lemma DefaultSurvivesNineteen()
    ensures Survives(Default(), 19)
  {
    assert Default().HeartbeatAge() + 20 * Default().pollInterval <= Default().EffectiveTtl() + 1;
    MissedPolls(Default(), 19);
  }

  lemma DefaultFailsAtTwenty()
    ensures !Survives(Default(), 20)
  {
    MissedPolls(Default(), 20);
  }
}
