/** How often a workspace is written, and what the cache can hold, over whole runs. */
module WriteBound {
  import opened Derive
  import opened Herdr
  import opened HerdrApi
  import opened NoLapse
  import opened PassEffect
  import opened Prelude
  import opened Reconciling
  import opened Runs
  import opened SelfHeal

  /** A bystander's tally for one workspace: report calls made for it, and everything that can justify one.
      `prev` and `seenAt` are what the latest tick wanted and when it saw the server agree;
      `dirty` says the owned tokens were tampered with since. */
  datatype Ledger = Ledger(
    writes: nat, wantChanges: nat, serverChanges: nat, resets: nat,
    firstWrite: int, lastWrite: int,
    prev: Option<Tokens>, seenAt: int, dirty: bool)

  const BLANK := Ledger(0, 0, 0, 0, 0, 0, None, 0, false)

  /** Some owned token live at `from` has lapsed by `to`. */
  predicate Lapsed(m: Entries, from: int, to: int) {
    exists k :: k in m && k in OWNED && Live(m[k], from) && !Live(m[k], to)
  }

  function Bit(b: bool): nat {
    if b then 1 else 0
  }

  ghost function Note(p: Policy, e: Event, s: Sys, id: string, l: Ledger): Ledger {
    match e
    case Missed => l
    case Invalidated => l.(resets := l.resets + Bit(id in s.last))
    case Tampered(op) =>
      if Only(Held(Disturb(op, s.store), id), OWNED) == Only(Held(s.store, id), OWNED) then l
      else l.(serverChanges := l.serverChanges + 1, dirty := true)
    case Tick(snapAt, now, _, _) =>
      if !Lists(e, id) then l.(resets := l.resets + Bit(id in s.last))
      else
        var v := VisitOf(e, id);
        var called := Calls(p, s, e, v);
        Ledger(
          l.writes + Bit(called),
          l.wantChanges + Bit(l.prev.Some? && l.prev.value != v.want),
          l.serverChanges + Bit(l.prev.Some? && !l.dirty && Lapsed(Held(s.store, id), l.seenAt, snapAt)),
          l.resets,
          if called && l.writes == 0 then now else l.firstWrite,
          if called then now else l.lastWrite,
          Some(v.want), if called then v.fate.at else snapAt, false)
  }

  ghost function Watch(p: Policy, run: seq<Event>, s: Sys, id: string): Ledger {
    if run == [] then BLANK
    else
      var n := |run| - 1;
      Note(p, run[n], Exec(p, run[..n], s), id, Watch(p, run[..n], s, id))
  }

  predicate AllAccepted(run: seq<Event>) {
    forall e | e in run && e.Tick? :: forall v | v in e.visits :: v.fate.Accepted?
  }

  /** What the counted causes allow. */
  function Allowance(p: Policy, l: Ledger): int
    requires p.heartbeat > 0
  {
    1 + l.wantChanges + l.serverChanges + l.resets + (l.lastWrite - l.firstWrite) / p.heartbeat
  }

  /** A write that is already paid for but has not been made. */
  predicate Pending(s: Sys, id: string, l: Ledger) {
    id !in s.last || l.dirty
  }

  ghost predicate Balanced(p: Policy, s: Sys, id: string, l: Ledger)
    requires p.heartbeat > 0
  {
    l.writes > 0 ==>
      && l.firstWrite <= l.lastWrite
      && (id in s.last ==> s.last[id] == l.lastWrite)
      && l.prev.Some? && l.prev.value.Keys == OWNED
      && (!Pending(s, id, l) ==> Only(Observe(Held(s.store, id), l.seenAt), OWNED) == Published(l.prev.value))
      && l.writes + Bit(Pending(s, id, l)) <= Allowance(p, l)
  }

  /** If the server still reports what was wanted before, nothing lapsed, and the same is wanted now,
      then a write would change nothing. */
  lemma StillMatches(m: Entries, want: Tokens, from: int, to: int)
    requires want.Keys == OWNED && from <= to && !Lapsed(m, from, to)
    requires Only(Observe(m, from), OWNED) == Published(want)
    ensures Overlay(Observe(m, to), want) == Observe(m, to)
  {
    forall k | k in OWNED
      ensures k in Observe(m, to) <==> want[k].Some?
      ensures k in Observe(m, to) ==> Observe(m, to)[k] == want[k].value
    {
      assert k in Only(Observe(m, from), OWNED) <==> k in Published(want);
      assert k in m ==> (Live(m[k], from) <==> Live(m[k], to));
    }
  }

  lemma MulMonotone(x: int, y: int, d: int)
    requires x <= y && d > 0
    ensures x * d <= y * d
  {
  }

  lemma DivAtLeast(x: int, d: int, q: int)
    requires d > 0 && q * d <= x
    ensures q <= x / d
  {
    if x / d < q {
      MulMonotone(x / d + 1, q, d);
    }
  }

  lemma DivMonotone(a: int, b: int, d: int)
    requires d > 0 && a <= b
    ensures a / d <= b / d
  {
    DivAtLeast(b, d, a / d);
  }

  /** Waiting at least one heartbeat earns at least one more. */
  lemma HeartbeatEarned(first: int, last: int, now: int, hb: int)
    requires hb > 0 && now - last >= hb
    ensures (now - first) / hb >= (last - first) / hb + 1
  {
    var q := (last - first) / hb;
    assert (q + 1) * hb == q * hb + hb <= now - first;
    DivAtLeast(now - first, hb, q + 1);
  }

  /** Why a call was made for a workspace whose record is intact and whose tokens were not tampered with. */
  lemma CallExplained(p: Policy, s: Sys, e: Event, v: Visit, l: Ledger)
    requires p.heartbeat > 0 && e.Tick? && v.want.Keys == OWNED && l.seenAt <= e.snapAt
    requires l.writes > 0 && Balanced(p, s, v.id, l) && !Pending(s, v.id, l) && Calls(p, s, e, v)
    ensures || l.prev.value != v.want
            || Lapsed(Held(s.store, v.id), l.seenAt, e.snapAt)
            || e.now - l.lastWrite >= p.heartbeat
  {
    if l.prev.value == v.want && !Lapsed(Held(s.store, v.id), l.seenAt, e.snapAt) {
      StillMatches(Held(s.store, v.id), v.want, l.seenAt, e.snapAt);
    }
  }

  /** After a tick that called or skipped, the server reports what was wanted. */
  lemma SeenAfter(p: Policy, s: Sys, e: Event, v: Visit)
    requires p.ttlMs > 0 && e.Tick? && Complete(e) && v in e.visits && v.fate.Accepted?
    ensures var at := if Calls(p, s, e, v) then v.fate.at else e.snapAt;
            Only(Observe(Held(Step(p, e, s).store, v.id), at), OWNED) == Published(v.want)
  {
    OnVisit(p, e, s, v);
    var m := Held(s.store, v.id);
    if Calls(p, s, e, v) {
      OwnedAfterWrite(m, v.want, ExpiryOf(p.ttlMs, v.fate.at), v.fate.at, v.fate.at);
    } else {
      OwnedWhenSkipped(m, v.want, e.snapAt, e.snapAt);
    }
  }

  /** The books after a visit: a call is covered by a pending write, a counted change, or a heartbeat. */
  lemma VisitAfforded(p: Policy, e: Event, s: Sys, id: string, l: Ledger)
    requires Sane(p) && Balanced(p, s, id, l) && l.writes > 0
    requires e.Tick? && Complete(e) && Lists(e, id)
    requires l.seenAt <= e.snapAt && l.lastWrite <= e.now
    ensures var l' := Note(p, e, s, id, l);
            l'.firstWrite <= l'.lastWrite && l'.writes <= Allowance(p, l')
  {
    var v, l' := VisitOf(e, id), Note(p, e, s, id, l);
    if Calls(p, s, e, v) {
      if !Pending(s, id, l) {
        CallExplained(p, s, e, v, l);
      }
      CallPaid(p, l, Pending(s, id, l), l'.wantChanges - l.wantChanges + l'.serverChanges - l.serverChanges, e.now);
    }
  }

  /** A call that is pending, or that comes with a counted change or a full heartbeat, keeps within the allowance. */
  lemma CallPaid(p: Policy, l: Ledger, pending: bool, changes: int, now: int)
    requires p.heartbeat > 0 && l.lastWrite <= now && changes >= 0
    requires l.writes + Bit(pending) <= Allowance(p, l)
    requires pending || changes > 0 || now - l.lastWrite >= p.heartbeat
    ensures l.writes + 1
         <= 1 + l.wantChanges + l.serverChanges + l.resets + changes + (now - l.firstWrite) / p.heartbeat
  {
    DivMonotone(l.lastWrite - l.firstWrite, now - l.firstWrite, p.heartbeat);
    if now - l.lastWrite >= p.heartbeat {
      HeartbeatEarned(l.firstWrite, l.lastWrite, now, p.heartbeat);
    }
  }

  /** The state after a visit, in the ledger's terms. */
  lemma VisitBooks(p: Policy, e: Event, s: Sys, id: string, l: Ledger)
    requires Sane(p) && e.Tick? && Complete(e) && Lists(e, id) && VisitOf(e, id).fate.Accepted?
    ensures var s', l' := Step(p, e, s), Note(p, e, s, id, l);
            && l'.prev.Some? && l'.prev.value.Keys == OWNED && !l'.dirty
            && Only(Observe(Held(s'.store, id), l'.seenAt), OWNED) == Published(l'.prev.value)
            && RecordOf(s'.last, id) == (if l'.writes > l.writes then Some(l'.lastWrite) else RecordOf(s.last, id))
            && id in s'.last
            && (l'.writes <= l.writes ==> l'.writes == l.writes && l'.lastWrite == l.lastWrite)
  {
    OnVisit(p, e, s, VisitOf(e, id));
    SeenAfter(p, s, e, VisitOf(e, id));
  }

  lemma FirstCall(p: Policy, e: Event, s: Sys, id: string, l: Ledger)
    requires Sane(p) && e.Tick? && Lists(e, id) && l.writes == 0
    ensures var l' := Note(p, e, s, id, l);
            l'.writes > 0 ==> l'.firstWrite == l'.lastWrite && l'.writes == 1 <= Allowance(p, l')
  {
  }

  lemma BalancedVisit(p: Policy, e: Event, s: Sys, id: string, l: Ledger)
    requires Sane(p) && Balanced(p, s, id, l)
    requires e.Tick? && Complete(e) && Lists(e, id) && VisitOf(e, id).fate.Accepted?
    requires l.writes > 0 ==> l.seenAt <= e.snapAt && l.lastWrite <= e.now
    ensures Balanced(p, Step(p, e, s), id, Note(p, e, s, id, l))
  {
    VisitBooks(p, e, s, id, l);
    if l.writes > 0 {
      VisitAfforded(p, e, s, id, l);
      BalancedFrom(p, s, Step(p, e, s), id, l, Note(p, e, s, id, l));
    } else {
      FirstCall(p, e, s, id, l);
    }
  }

  lemma BalancedFrom(p: Policy, s: Sys, s': Sys, id: string, l: Ledger, l': Ledger)
    requires Sane(p) && Balanced(p, s, id, l) && l.writes > 0
    requires l'.prev.Some? && l'.prev.value.Keys == OWNED && !l'.dirty && id in s'.last
    requires Only(Observe(Held(s'.store, id), l'.seenAt), OWNED) == Published(l'.prev.value)
    requires RecordOf(s'.last, id) == (if l'.writes > l.writes then Some(l'.lastWrite) else RecordOf(s.last, id))
    requires l'.writes <= l.writes ==> l'.lastWrite == l.lastWrite
    requires l'.firstWrite <= l'.lastWrite && l'.writes <= Allowance(p, l')
    ensures Balanced(p, s', id, l')
  {
    if l'.writes <= l.writes {
      assert id in s.last;
    }
  }

  lemma BalancedOther(p: Policy, e: Event, s: Sys, id: string, l: Ledger)
    requires Sane(p) && Balanced(p, s, id, l) && !Lists(e, id)
    ensures Balanced(p, Step(p, e, s), id, Note(p, e, s, id, l))
  {
    match e
    case Missed =>
    case Invalidated =>
    case Tick(_, _, _, _) =>
      OffVisit(p, e, s, id);
    case Tampered(op) =>
      var m, m' := Held(s.store, id), Held(Disturb(op, s.store), id);
      if Only(m', OWNED) == Only(m, OWNED) {
        SameOwned(m, m', l.seenAt);
      }
  }

  lemma SameOwned(m: Entries, n: Entries, t: int)
    requires Only(m, OWNED) == Only(n, OWNED)
    ensures Only(Observe(m, t), OWNED) == Only(Observe(n, t), OWNED)
  {
    forall k | k in OWNED
      ensures k in m <==> k in n
      ensures k in m ==> m[k] == n[k]
    {
      assert k in Only(m, OWNED) <==> k in Only(n, OWNED);
      assert k in m ==> Only(m, OWNED)[k] == m[k];
    }
  }

  /** The ledger's instants lie within the run. */
  ghost predicate Timely(l: Ledger, from: int, clock: int) {
    l.writes > 0 ==> from <= l.firstWrite && l.seenAt <= clock && l.lastWrite <= clock
  }

  lemma {:induction false} TimelyRun(p: Policy, run: seq<Event>, s: Sys, id: string, from: int)
    requires Proper(run, from)
    ensures Timely(Watch(p, run, s, id), from, Clock(run, from))
  {
    if run != [] {
      var n := |run| - 1;
      TimelyRun(p, run[..n], s, id, from);
      ClockGrows(run[..n], from);
      ClockGrows(run, from);
    }
  }

  lemma {:induction false} BalancedRun(p: Policy, run: seq<Event>, s: Sys, id: string, from: int)
    requires Sane(p) && Proper(run, from) && AllAccepted(run)
    ensures Balanced(p, Exec(p, run, s), id, Watch(p, run, s, id))
  {
    if run != [] {
      var n := |run| - 1;
      var e, s', l := run[n], Exec(p, run[..n], s), Watch(p, run[..n], s, id);
      assert e in run && forall x | x in run[..n] :: x in run;
      BalancedRun(p, run[..n], s, id, from);
      if Lists(e, id) {
        TimelyRun(p, run[..n], s, id, from);
        BalancedVisit(p, e, s', id, l);
      } else {
        BalancedOther(p, e, s', id, l);
      }
    }
  }

  lemma {:induction false} ClockGrows(run: seq<Event>, from: int)
    requires Proper(run, from)
    ensures from <= Clock(run, from)
    ensures run != [] ==> Clock(run[..|run| - 1], from) <= Clock(run, from)
  {
    if run != [] {
      ClockGrows(run[..|run| - 1], from);
    }
  }

  /** In any run whose report calls all succeed, a workspace is written at most once plus once per change of
      what it should hold, per change on the server that was not ours (lapses included), per dropped cache
      record, and per full heartbeat between the first and the last write. */
  lemma WritesBounded(p: Policy, run: seq<Event>, s: Sys, id: string, from: int)
    requires Sane(p) && Proper(run, from) && AllAccepted(run)
    ensures var l := Watch(p, run, s, id);
            l.writes <= 1 + l.wantChanges + l.serverChanges + l.resets + (Clock(run, from) - from) / p.heartbeat
  {
    var l, end := Watch(p, run, s, id), Clock(run, from);
    BalancedRun(p, run, s, id, from);
    TimelyRun(p, run, s, id, from);
    ClockGrows(run, from);
    Affordable(p, l, from, end);
  }

  lemma Affordable(p: Policy, l: Ledger, from: int, end: int)
    requires p.heartbeat > 0 && from <= end
    requires l.writes > 0 ==> from <= l.firstWrite && l.lastWrite <= end && l.writes <= Allowance(p, l)
    ensures l.writes <= 1 + l.wantChanges + l.serverChanges + l.resets + (end - from) / p.heartbeat
  {
    if l.writes > 0 {
      DivMonotone(l.lastWrite - l.firstWrite, end - from, p.heartbeat);
    } else {
      DivAtLeast(end - from, p.heartbeat, 0);
    }
  }

  // The ledger counts what it says.

  /** What can happen to a workspace at an event of a run. */
  datatype Cause = Called | Dropped | Rewanted | Interfered | Expired

  /** What the latest tick that listed the workspace wanted for it. */
  ghost function Wanted(run: seq<Event>, id: string): Option<Tokens> {
    if run == [] then None
    else
      var e := run[|run| - 1];
      if Lists(e, id) then Some(VisitOf(e, id).want) else Wanted(run[..|run| - 1], id)
  }

  /** A report call is made for it; its record goes; a tick wants something else than the tick before; somebody else
      changes its owned tokens; one of them lapses between two ticks that nobody interfered between. */
  ghost predicate Happens(c: Cause, p: Policy, run: seq<Event>, s: Sys, id: string, i: nat)
    requires i < |run|
  {
    var before, after, e := Exec(p, run[..i], s), Exec(p, run[..i + 1], s), run[i];
    match c
    case Called => Lists(e, id) && Calls(p, before, e, VisitOf(e, id))
    case Dropped => id in before.last && id !in after.last
    case Rewanted => Lists(e, id) && Wanted(run[..i], id).Some? && Wanted(run[..i], id).value != VisitOf(e, id).want
    case Interfered => e.Tampered? && Only(Held(after.store, id), OWNED) != Only(Held(before.store, id), OWNED)
    case Expired =>
      var l := Watch(p, run[..i], s, id);
      Lists(e, id) && Wanted(run[..i], id).Some? && !l.dirty && Lapsed(Held(before.store, id), l.seenAt, e.snapAt)
  }

  /** The positions below n at which f holds. */
  ghost function Where(n: nat, f: nat -> bool): set<nat> {
    set i: nat | i < n && f(i)
  }

  lemma OneMorePosition(n: nat, f: nat -> bool, g: nat -> bool)
    requires forall i: nat | i < n :: f(i) == g(i)
    ensures |Where(n + 1, f)| == |Where(n, g)| + Bit(f(n))
  {
    assert Where(n + 1, f) == Where(n, g) + if f(n) then {n} else {};
  }

  ghost function Occurs(c: Cause, p: Policy, run: seq<Event>, s: Sys, id: string): nat -> bool {
    (i: nat) => i < |run| && Happens(c, p, run, s, id, i)
  }

  /** How many events of the run are an occasion of c. */
  ghost function Occasions(c: Cause, p: Policy, run: seq<Event>, s: Sys, id: string): nat {
    |Where(|run|, Occurs(c, p, run, s, id))|
  }

  lemma HappensAlike(c: Cause, p: Policy, run: seq<Event>, s: Sys, id: string, n: nat, i: nat)
    requires i < n <= |run|
    ensures Happens(c, p, run[..n], s, id, i) == Happens(c, p, run, s, id, i)
  {
    assert run[..n][..i] == run[..i] && run[..n][..i + 1] == run[..i + 1] && run[..n][i] == run[i];
  }

  lemma OccasionsStep(c: Cause, p: Policy, run: seq<Event>, s: Sys, id: string)
    requires run != []
    ensures Occasions(c, p, run, s, id)
         == Occasions(c, p, run[..|run| - 1], s, id) + Bit(Happens(c, p, run, s, id, |run| - 1))
  {
    var n := |run| - 1;
    var f, g := Occurs(c, p, run, s, id), Occurs(c, p, run[..n], s, id);
    forall i: nat | i < n
      ensures f(i) == g(i)
    {
      HappensAlike(c, p, run, s, id, n, i);
    }
    OneMorePosition(n, f, g);
  }

  lemma {:induction false} PrevIsWanted(p: Policy, run: seq<Event>, s: Sys, id: string)
    ensures Watch(p, run, s, id).prev == Wanted(run, id)
  {
    if run != [] {
      PrevIsWanted(p, run[..|run| - 1], s, id);
    }
  }

  lemma WritesStep(p: Policy, run: seq<Event>, s: Sys, id: string)
    requires run != []
    ensures var l, l' := Watch(p, run[..|run| - 1], s, id), Watch(p, run, s, id);
            l'.writes == l.writes + Bit(Happens(Called, p, run, s, id, |run| - 1))
  {
  }

  lemma ResetsStep(p: Policy, run: seq<Event>, s: Sys, id: string)
    requires run != [] && Complete(run[|run| - 1])
    ensures var l, l' := Watch(p, run[..|run| - 1], s, id), Watch(p, run, s, id);
            l'.resets == l.resets + Bit(Happens(Dropped, p, run, s, id, |run| - 1))
  {
    var n := |run| - 1;
    var before := Exec(p, run[..n], s);
    assert run[..n + 1] == run;
    if run[n].Tick? {
      if Lists(run[n], id) {
        OnVisit(p, run[n], before, VisitOf(run[n], id));
      } else {
        OffVisit(p, run[n], before, id);
      }
    }
  }

  lemma WantsStep(p: Policy, run: seq<Event>, s: Sys, id: string)
    requires run != []
    ensures var l, l' := Watch(p, run[..|run| - 1], s, id), Watch(p, run, s, id);
            l'.wantChanges == l.wantChanges + Bit(Happens(Rewanted, p, run, s, id, |run| - 1))
  {
    PrevIsWanted(p, run[..|run| - 1], s, id);
  }

  lemma ServerStep(p: Policy, run: seq<Event>, s: Sys, id: string)
    requires run != []
    ensures var n, l, l' := |run| - 1, Watch(p, run[..|run| - 1], s, id), Watch(p, run, s, id);
            l'.serverChanges
            == l.serverChanges + Bit(Happens(Interfered, p, run, s, id, n)) + Bit(Happens(Expired, p, run, s, id, n))
  {
    assert run[..|run| - 1 + 1] == run;
    PrevIsWanted(p, run[..|run| - 1], s, id);
  }

  /** Every count of the ledger is the number of events at which the thing happened. */
  lemma {:induction false} LedgerCounts(p: Policy, run: seq<Event>, s: Sys, id: string, from: int)
    requires Proper(run, from)
    ensures var l := Watch(p, run, s, id);
            && l.writes == Occasions(Called, p, run, s, id) && l.resets == Occasions(Dropped, p, run, s, id)
            && l.wantChanges == Occasions(Rewanted, p, run, s, id)
            && l.serverChanges == Occasions(Interfered, p, run, s, id) + Occasions(Expired, p, run, s, id)
  {
    if run == [] {
      NoOccasions(p, s, id);
    } else {
      LedgerCounts(p, run[..|run| - 1], s, id, from);
      WritesStep(p, run, s, id);
      ResetsStep(p, run, s, id);
      WantsStep(p, run, s, id);
      ServerStep(p, run, s, id);
      AllOccasionsStep(p, run, s, id);
    }
  }

  lemma NoOccasions(p: Policy, s: Sys, id: string)
    ensures forall c :: Occasions(c, p, [], s, id) == 0
  {
    forall c ensures Occasions(c, p, [], s, id) == 0 {
      assert Where(0, Occurs(c, p, [], s, id)) == {};
    }
  }

  lemma AllOccasionsStep(p: Policy, run: seq<Event>, s: Sys, id: string)
    requires run != []
    ensures forall c :: Occasions(c, p, run, s, id)
                        == Occasions(c, p, run[..|run| - 1], s, id) + Bit(Happens(c, p, run, s, id, |run| - 1))
  {
    forall c
      ensures Occasions(c, p, run, s, id)
           == Occasions(c, p, run[..|run| - 1], s, id) + Bit(Happens(c, p, run, s, id, |run| - 1))
    {
      OccasionsStep(c, p, run, s, id);
    }
  }

  // What the cache can hold.

  /** The workspaces of the latest tick. */
  function LatestListed(run: seq<Event>): set<string> {
    if run == [] then {}
    else
      var e := run[|run| - 1];
      if e.Tick? then set v | v in e.visits :: v.id else LatestListed(run[..|run| - 1])
  }

  /** From an empty cache, and whatever fails, every record names a workspace of the latest
      tick and carries a time that is not in the future. */
  lemma {:induction false} RecordsSane(p: Policy, run: seq<Event>, s: Sys, from: int)
    requires Proper(run, from) && s.last == map[]
    ensures forall id | id in Exec(p, run, s).last ::
              id in LatestListed(run) && Exec(p, run, s).last[id] <= Clock(run, from)
  {
    if run != [] {
      var n := |run| - 1;
      var before, after := Exec(p, run[..n], s), Exec(p, run, s);
      RecordsSane(p, run[..n], s, from);
      ClockGrows(run, from);
      if run[n].Tick? {
        forall id | id in after.last
          ensures id in LatestListed(run) && after.last[id] <= Clock(run, from)
        {
          if Lists(run[n], id) {
            OnVisit(p, run[n], before, VisitOf(run[n], id));
          } else {
            OffVisit(p, run[n], before, id);
          }
        }
      }
    }
  }

  /** So the cache never outgrows the session. */
  lemma TrackedBounded(p: Policy, run: seq<Event>, s: Sys, from: int)
    requires Proper(run, from) && s.last == map[]
    ensures |Exec(p, run, s).last| <= |LatestListed(run)|
  {
    RecordsSane(p, run, s, from);
    var last := Exec(p, run, s).last;
    Smaller(last.Keys, LatestListed(run));
    assert |last| == |last.Keys|;
  }

  lemma {:induction false} Smaller<T>(a: set<T>, b: set<T>)
    requires a <= b
    ensures |a| <= |b|
  {
    if a != {} {
      var x :| x in a;
      Smaller(a - {x}, b - {x});
    }
  }
}
