/** Racing starts, and what stop signals. */
module Races {
  import opened LockProtocol
  import opened Prelude

  /** The steps of start processes and their children when nothing fails and nobody interferes. */
  predicate Progress(a: Step) {
    a.Acquire? || a.Release? || a.Spawn? || a.Truncate? || a.Name? || a.Listen?
  }

  predicate AllProgress(steps: seq<Step>) {
    forall a | a in steps :: Progress(a)
  }

  /** Only start processes, at least one, and a free lock. */
  predicate Starters(s: State) {
    s.lock.None? && s.procs != map[] && forall p | p in s.procs :: s.procs[p] == StartProbe
  }

  /** Places from which a process can still become, or already is, the daemon. */
  predicate Hopeful(pc: Pc) {
    pc in {StartProbe, StartHolding, StartSpawning, DaemonTry, DaemonLocked, DaemonWriting, DaemonNamed, DaemonRunning}
  }

  /** The race's invariant: the lock discipline holds, everybody is still in the race, and somebody is.
      A process leaves the race empty-handed only by meeting a lock that another racer holds. */
  ghost predicate Racing(s: State) {
    Inv(s) && s.procs != map[] && forall p | p in s.procs :: Hopeful(s.procs[p])
  }

  lemma RacingStep(s: State, a: Step)
    requires Racing(s) && Progress(a) && Enabled(s, a)
    ensures Racing(Apply(s, a))
  {
    InvStep(s, a);
    var s' := Apply(s, a);
    if a.Spawn? {
      assert a.child in s'.procs;
    } else if a.Acquire? && s.lock.Some? {
      assert s.procs[a.p] != StopProbe && s.lock.value != a.p;
      assert s.lock.value in s'.procs;
    } else {
      assert a.p in s'.procs;
    }
  }

  lemma {:induction false} RacingAlways(s: State, steps: seq<Step>)
    requires Racing(s) && AllProgress(steps) && StateAfter(s, steps).Some?
    ensures Racing(StateAfter(s, steps).value)
  {
    if steps != [] {
      var n := |steps| - 1;
      assert steps[n] in steps && forall a | a in steps[..n] :: a in steps;
      RacingAlways(s, steps[..n]);
      RacingStep(StateAfter(s, steps[..n]).value, steps[n]);
    }
  }

  /** No racer can move any more. */
  ghost predicate Settled(s: State) {
    forall a | Progress(a) :: !Enabled(s, a)
  }

  lemma FreePid(procs: map<Pid, Pc>) returns (p: Pid)
    ensures p !in procs
  {
    var used := procs.Keys;
    p := 0;
    while p in used
      invariant used <= procs.Keys
      invariant forall q | q in procs && q !in used :: q < p
      invariant forall q | q in used :: p <= q
      decreases |used|
    {
      used := used - {p};
      p := p + 1;
    }
  }

  /** Whoever is in the race and not yet in the run loop can move. */
  lemma RacerCanMove(s: State, p: Pid) returns (a: Step)
    requires Racing(s) && p in s.procs && s.procs[p] != DaemonRunning
    ensures Progress(a) && Enabled(s, a)
  {
    var child := FreePid(s.procs);
    match s.procs[p]
    case StartProbe => a := Acquire(p);
    case DaemonTry => a := Acquire(p);
    case StartHolding => a := Release(p);
    case StartSpawning => a := Spawn(p, child);
    case DaemonLocked => a := Truncate(p);
    case DaemonWriting => a := Name(p);
    case _ => a := Listen(p);
  }

  /** A race that is over has exactly one survivor: a daemon in its run loop, holding the lock and named by
      the PID file. */
  lemma OneLeft(end: State) returns (d: Pid)
    requires Racing(end) && Settled(end)
    ensures end.procs == map[d := DaemonRunning] && end.lock == Some(d) && end.file == Names(d)
  {
    d :| d in end.procs;
    forall p | p in end.procs
      ensures end.procs[p] == DaemonRunning
    {
      if end.procs[p] != DaemonRunning {
        var a := RacerCanMove(end, p);
      }
    }
    assert forall p | p in end.procs :: Holding(end.procs[p]);
    assert end.procs == map[d := DaemonRunning];
    assert Publishing(end.procs[d]);
  }

  /** However any number of racing starts and their children interleave, a race that is over leaves exactly one
      of them: a daemon in its run loop, holding the lock and named by the PID file. */
  lemma OneDaemonSurvives(s: State, steps: seq<Step>)
    requires Starters(s) && AllProgress(steps) && StateAfter(s, steps).Some?
    requires Settled(StateAfter(s, steps).value)
    ensures var end := StateAfter(s, steps).value;
            exists d :: end.procs == map[d := DaemonRunning] && end.lock == Some(d) && end.file == Names(d)
  {
    StartersRace(s);
    RacingAlways(s, steps);
    var d := OneLeft(StateAfter(s, steps).value);
  }

  lemma StartersRace(s: State)
    requires Starters(s)
    ensures Racing(s)
  {
  }

  /** A daemon in its run loop is not moved by any step of a race. */
  lemma DaemonStays(s: State, a: Step, d: Pid)
    requires Racing(s) && Progress(a) && Enabled(s, a) && At(s, d, DaemonRunning)
    ensures At(Apply(s, a), d, DaemonRunning)
  {
  }

  lemma {:induction false} DaemonStaysAlong(s: State, steps: seq<Step>, d: Pid)
    requires Racing(s) && AllProgress(steps) && StateAfter(s, steps).Some? && At(s, d, DaemonRunning)
    ensures At(StateAfter(s, steps).value, d, DaemonRunning)
  {
    if steps != [] {
      var n := |steps| - 1;
      assert steps[n] in steps && forall a | a in steps[..n] :: a in steps;
      DaemonStaysAlong(s, steps[..n], d);
      RacingAlways(s, steps[..n]);
      DaemonStays(StateAfter(s, steps[..n]).value, steps[n], d);
    }
  }

  /** Starting again is harmless: with a daemon in its run loop, and any number of starts and children anywhere in
      their course, every race ends with that very daemon alone. */
  lemma StartIsIdempotent(s: State, steps: seq<Step>, d: Pid)
    requires Racing(s) && At(s, d, DaemonRunning)
    requires AllProgress(steps) && StateAfter(s, steps).Some? && Settled(StateAfter(s, steps).value)
    ensures var end := StateAfter(s, steps).value;
            end.procs == map[d := DaemonRunning] && end.lock == Some(d) && end.file == Names(d)
  {
    RacingAlways(s, steps);
    DaemonStaysAlong(s, steps, d);
    var only := OneLeft(StateAfter(s, steps).value);
  }

  // Every race is over after at most seven steps per start.

  function Left(pc: Pc): nat {
    match pc
    case StartProbe => 7
    case StartHolding => 6
    case StartSpawning => 5
    case DaemonTry => 4
    case DaemonLocked => 3
    case DaemonWriting => 2
    case DaemonNamed => 1
    case _ => 0
  }

  ghost function Total(procs: map<Pid, Pc>): nat {
    if procs == map[] then 0
    else
      var p :| p in procs;
      Left(procs[p]) + Total(procs - {p})
  }

  lemma {:induction false} TotalWithout(procs: map<Pid, Pc>, p: Pid)
    requires p in procs
    ensures Total(procs) == Left(procs[p]) + Total(procs - {p})
    decreases |procs|
  {
    var q :| q in procs && Total(procs) == Left(procs[q]) + Total(procs - {q});
    if q != p {
      TotalWithout(procs - {q}, p);
      TotalWithout(procs - {p}, q);
      assert procs - {q} - {p} == procs - {p} - {q};
    }
  }

  lemma TotalMove(procs: map<Pid, Pc>, p: Pid, pc: Pc)
    ensures Total(procs[p := pc]) == Total(procs - {p}) + Left(pc)
  {
    TotalWithout(procs[p := pc], p);
    assert procs[p := pc] - {p} == procs - {p};
  }

  lemma ProgressCosts(s: State, a: Step)
    requires Racing(s) && Progress(a) && Enabled(s, a)
    ensures Total(Apply(s, a).procs) < Total(s.procs)
  {
    TotalWithout(s.procs, a.p);
    if a.Spawn? {
      SpawnCosts(s.procs, a.p, a.child);
    } else if !(a.Acquire? && s.lock.Some?) {
      var pc := Apply(s, a).procs[a.p];
      assert Left(pc) < Left(s.procs[a.p]);
      TotalMove(s.procs, a.p, pc);
      assert Apply(s, a).procs == s.procs[a.p := pc];
    }
  }

  lemma SpawnCosts(procs: map<Pid, Pc>, p: Pid, child: Pid)
    requires p in procs && procs[p] == StartSpawning && child !in procs
    ensures Total(procs[child := DaemonTry] - {p}) < Total(procs)
  {
    TotalMove(procs, child, DaemonTry);
    assert procs - {child} == procs;
    TotalWithout(procs[child := DaemonTry], p);
  }

  lemma {:induction false} StartersTotal(procs: map<Pid, Pc>)
    requires forall p | p in procs :: procs[p] == StartProbe
    ensures Total(procs) == 7 * |procs|
    decreases |procs|
  {
    if procs != map[] {
      var p :| p in procs;
      TotalWithout(procs, p);
      StartersTotal(procs - {p});
    }
  }

  lemma {:induction false} RaceSpends(s: State, steps: seq<Step>)
    requires Starters(s) && AllProgress(steps) && StateAfter(s, steps).Some?
    ensures |steps| + Total(StateAfter(s, steps).value.procs) <= Total(s.procs)
  {
    StartersRace(s);
    if steps != [] {
      var n := |steps| - 1;
      assert steps[n] in steps && forall a | a in steps[..n] :: a in steps;
      RaceSpends(s, steps[..n]);
      RacingAlways(s, steps[..n]);
      ProgressCosts(StateAfter(s, steps[..n]).value, steps[n]);
    }
  }

  /** A race of N starts cannot go on for more than 7 * N steps, so every race ends. */
  lemma RacesEnd(s: State, steps: seq<Step>)
    requires Starters(s) && AllProgress(steps) && StateAfter(s, steps).Some?
    ensures |steps| <= 7 * |s.procs|
  {
    RaceSpends(s, steps);
    StartersTotal(s.procs);
  }

  lemma Taken(s: State, steps: seq<Step>, before: State, a: Step) returns (more: seq<Step>, now: State)
    requires StateAfter(s, steps) == Some(before) && Enabled(before, a)
    ensures more == steps + [a] && StateAfter(s, more) == Some(now) && now == Apply(before, a)
    ensures AllProgress(steps) && Progress(a) ==> AllProgress(more)
  {
    more, now := steps + [a], Apply(before, a);
    assert more[..|more| - 1] == steps;
  }

  const TWO_STARTS := State(None, Absent, map[1 := StartProbe, 2 := StartProbe])

  /** A child can indeed step aside because of a mere probe: here start 2's probe turns away the
      daemon that start 1 spawned, and only start 2 is left in the race. */
  lemma ProbeTurnsChildAway() returns (steps: seq<Step>, now: State)
    ensures Starters(TWO_STARTS) && AllProgress(steps) && Spawn(1, 3) in steps
    ensures StateAfter(TWO_STARTS, steps) == Some(now) && now.lock == Some(2)
    ensures now.procs.Keys == {2} && At(now, 2, StartHolding)
  {
    assert 1 in TWO_STARTS.procs;
    steps, now := FirstSpawns(TWO_STARTS);
    steps, now := Taken(TWO_STARTS, steps, now, Acquire(2));
    steps, now := Taken(TWO_STARTS, steps, now, Acquire(3));
  }

  lemma FirstSpawns(s: State) returns (steps: seq<Step>, now: State)
    requires s.lock == None && s.procs.Keys == {1, 2} && At(s, 1, StartProbe) && At(s, 2, StartProbe)
    ensures StateAfter(s, steps) == Some(now) && AllProgress(steps) && Spawn(1, 3) in steps
    ensures now.lock == None && now.procs.Keys == {2, 3} && At(now, 2, StartProbe) && At(now, 3, DaemonTry)
  {
    steps, now := FirstProbes(s);
    SpawnThird(now);
    steps, now := Taken(s, steps, now, Spawn(1, 3));
  }

  lemma FirstProbes(s: State) returns (steps: seq<Step>, now: State)
    requires s.lock == None && s.procs.Keys == {1, 2} && At(s, 1, StartProbe) && At(s, 2, StartProbe)
    ensures StateAfter(s, steps) == Some(now) && AllProgress(steps)
    ensures now.lock == None && now.procs.Keys == {1, 2} && At(now, 1, StartSpawning) && At(now, 2, StartProbe)
  {
    steps, now := Taken(s, [], s, Acquire(1));
    assert now.lock == Some(1) && now.procs.Keys == {1, 2};
    assert At(now, 1, StartHolding) && At(now, 2, StartProbe);
    steps, now := Taken(s, steps, now, Release(1));
    assert now.lock == None && At(now, 1, StartSpawning) && At(now, 2, StartProbe);
  }

  lemma SpawnThird(s: State)
    requires s.lock == None && s.procs.Keys == {1, 2} && At(s, 1, StartSpawning) && At(s, 2, StartProbe)
    ensures Enabled(s, Spawn(1, 3))
    ensures var now := Apply(s, Spawn(1, 3));
            now.lock == None && now.procs.Keys == {2, 3} && At(now, 2, StartProbe) && At(now, 3, DaemonTry)
  {
  }

  // What stop signals.

  function StateAt(s: State, steps: seq<Step>, i: nat): State
    requires i <= |steps| && StateAfter(s, steps).Some?
  {
    PrefixRuns(s, steps, i);
    StateAfter(s, steps[..i]).value
  }

  lemma {:induction false} PrefixRuns(s: State, steps: seq<Step>, i: nat)
    requires i <= |steps| && StateAfter(s, steps).Some?
    ensures StateAfter(s, steps[..i]).Some?
  {
    if i < |steps| {
      PrefixRuns(s, steps[..|steps| - 1], i);
      assert steps[..|steps| - 1][..i] == steps[..i];
    } else {
      assert steps[..i] == steps;
    }
  }

  lemma NextState(s: State, steps: seq<Step>, i: nat)
    requires i < |steps| && StateAfter(s, steps).Some?
    ensures Enabled(StateAt(s, steps, i), steps[i])
    ensures StateAt(s, steps, i + 1) == Apply(StateAt(s, steps, i), steps[i])
  {
    PrefixRuns(s, steps, i + 1);
    assert steps[..i + 1][..i] == steps[..i];
  }

  /** A stop that has read its target keeps it for as long as it lives. */
  lemma AimKept(s: State, a: Step, t: Pid, d: Pid)
    requires Enabled(s, a) && At(s, t, StopAimed(d)) && t in Apply(s, a).procs
    ensures At(Apply(s, a), t, StopAimed(d))
  {
  }

  lemma {:induction false} AimKeptAlong(s: State, steps: seq<Step>, t: Pid, d: Pid, j: nat, k: nat)
    requires StateAfter(s, steps).Some? && j <= k <= |steps|
    requires At(StateAt(s, steps, j), t, StopAimed(d))
    requires forall m | j <= m <= k :: t in StateAt(s, steps, m).procs
    ensures At(StateAt(s, steps, k), t, StopAimed(d))
    decreases k
  {
    if j < k {
      AimKeptAlong(s, steps, t, d, j, k - 1);
      NextState(s, steps, k - 1);
      AimKept(StateAt(s, steps, k - 1), steps[k - 1], t, d);
    }
  }

  lemma ReadAims(s: State, t: Pid, d: Pid)
    requires Inv(s) && Enabled(s, Read(t)) && d in s.procs && Publishing(s.procs[d])
    ensures At(Apply(s, Read(t)), t, StopAimed(d))
  {
  }

  lemma SignalDrains(s: State, t: Pid, d: Pid)
    requires At(s, t, StopAimed(d)) && At(s, d, DaemonRunning)
    ensures At(Apply(s, Signal(t)), d, DaemonDraining)
  {
  }

  /** If a stop (still alive) reads the PID file at step j and signals at step k, and one daemon is in its run
      loop at both, then the signal goes to that daemon, which starts to drain. */
  lemma StopHitsTheDaemon(s: State, steps: seq<Step>, t: Pid, d: Pid, j: nat, k: nat)
    requires Fresh(s) && StateAfter(s, steps).Some? && j < k < |steps|
    requires steps[j] == Read(t) && steps[k] == Signal(t)
    requires forall m | j <= m <= k :: t in StateAt(s, steps, m).procs
    requires At(StateAt(s, steps, j), d, DaemonRunning) && At(StateAt(s, steps, k), d, DaemonRunning)
    ensures At(StateAt(s, steps, k), t, StopAimed(d))
    ensures At(StateAt(s, steps, k + 1), d, DaemonDraining)
  {
    AimTaken(s, steps, t, d, j);
    AimKeptAlong(s, steps, t, d, j + 1, k);
    NextState(s, steps, k);
    SignalDrains(StateAt(s, steps, k), t, d);
  }

  lemma AimTaken(s: State, steps: seq<Step>, t: Pid, d: Pid, j: nat)
    requires Fresh(s) && StateAfter(s, steps).Some? && j < |steps| && steps[j] == Read(t)
    requires At(StateAt(s, steps, j), d, DaemonRunning)
    ensures At(StateAt(s, steps, j + 1), t, StopAimed(d))
  {
    InvAt(s, steps, j);
    NextState(s, steps, j);
    ReadAims(StateAt(s, steps, j), t, d);
  }

  lemma HoldKept(s: State, a: Step, t: Pid)
    requires Enabled(s, a) && At(s, t, StopHolding)
    ensures a != Signal(t) && a != Read(t)
    ensures t in Apply(s, a).procs ==> At(Apply(s, a), t, StopHolding)
  {
  }

  lemma HoldTaken(s: State, steps: seq<Step>, t: Pid, i: nat)
    requires StateAfter(s, steps).Some? && i < |steps|
    requires steps[i] == Acquire(t) && At(StateAt(s, steps, i), t, StopProbe) && StateAt(s, steps, i).lock.None?
    ensures At(StateAt(s, steps, i + 1), t, StopHolding)
  {
    NextState(s, steps, i);
  }

  lemma HoldKeptAt(s: State, steps: seq<Step>, t: Pid, k: nat)
    requires StateAfter(s, steps).Some? && k < |steps| && At(StateAt(s, steps, k), t, StopHolding)
    ensures steps[k] != Signal(t) && steps[k] != Read(t)
    ensures t in StateAt(s, steps, k + 1).procs ==> At(StateAt(s, steps, k + 1), t, StopHolding)
  {
    NextState(s, steps, k);
    HoldKept(StateAt(s, steps, k), steps[k], t);
  }

  /** A stop that got the lock signals nobody, whatever the PID file says. */
  lemma {:induction false} StopWithLockSignalsNobody(s: State, steps: seq<Step>, t: Pid, i: nat, k: nat)
    requires StateAfter(s, steps).Some? && i < k < |steps|
    requires steps[i] == Acquire(t) && At(StateAt(s, steps, i), t, StopProbe) && StateAt(s, steps, i).lock.None?
    requires forall m | i < m <= k :: t in StateAt(s, steps, m).procs
    ensures At(StateAt(s, steps, k), t, StopHolding) && steps[k] != Signal(t) && steps[k] != Read(t)
    decreases k
  {
    if i + 1 < k {
      StopWithLockSignalsNobody(s, steps, t, i, k - 1);
      HoldKeptAt(s, steps, t, k - 1);
    } else {
      HoldTaken(s, steps, t, i);
    }
    HoldKeptAt(s, steps, t, k);
  }

  /** The process is this socket's daemon, between WritePID and its deferred removal. */
  predicate Serving(s: State, p: Pid) {
    p in s.procs && Publishing(s.procs[p])
  }

  /** Whether a daemon serves can be told from the lock alone: its holder does. */
  predicate DaemonHolds(s: State) {
    s.lock.Some? && Serving(s, s.lock.value)
  }

  /** Exactly when a stop's read finds a daemon: when at that moment the lock is held by one that serves. Then
      the target is the lock's holder. */
  lemma ReadFindsDaemon(s: State, steps: seq<Step>, t: Pid, q: Pid)
    requires Fresh(s) && StateAfter(s, steps).Some?
    requires var now := StateAfter(s, steps).value;
             Enabled(now, Read(t)) && At(Apply(now, Read(t)), t, StopAimed(q))
    ensures var now := StateAfter(s, steps).value;
            && (Serving(now, q) <==> DaemonHolds(now))
            && (DaemonHolds(now) ==> now.lock == Some(q))
  {
    InvAlways(s, steps);
    var now := StateAfter(s, steps).value;
    if DaemonHolds(now) {
      ReadAims(now, t, now.lock.value);
    }
  }

  /** Whom the signal at step k reaches when the stop read at step j, told from the read and from the lock and
      the file at the signal. It reaches this socket's serving daemon exactly when at the signal the lock is held
      by a serving daemon and the file names what it named at the read. If that fails, whoever bears the pid
      that was read is killed. Nobody else is touched. */
  lemma SignalFindsDaemon(s: State, steps: seq<Step>, t: Pid, j: nat, k: nat) returns (q: Pid)
    requires Fresh(s) && StateAfter(s, steps).Some? && j < k < |steps|
    requires steps[j] == Read(t) && steps[k] == Signal(t)
    requires forall m | j <= m <= k :: t in StateAt(s, steps, m).procs
    ensures var read, now := StateAt(s, steps, j), StateAt(s, steps, k);
            && read.file == Names(q) && At(now, t, StopAimed(q))
            && (Serving(now, q) <==> DaemonHolds(now) && now.lock == Some(q))
            && (Serving(now, q) <==> DaemonHolds(now) && now.file == read.file)
    ensures var read, now, after := StateAt(s, steps, j), StateAt(s, steps, k), StateAt(s, steps, k + 1);
            && (!(DaemonHolds(now) && now.file == read.file) ==> q !in after.procs)
            && forall p | p in now.procs && p != t && p != q :: At(after, p, now.procs[p])
  {
    q := ReadTarget(s, steps, t, j);
    AimKeptAlong(s, steps, t, q, j + 1, k);
    InvAt(s, steps, k);
    NamedHolds(StateAt(s, steps, k), q);
    NextState(s, steps, k);
    SignalEffect(StateAt(s, steps, k), t, q);
  }

  lemma SignalEffect(s: State, t: Pid, q: Pid)
    requires At(s, t, StopAimed(q))
    ensures !Serving(s, q) ==> q !in Apply(s, Signal(t)).procs
    ensures forall p | p in s.procs && p != t && p != q :: At(Apply(s, Signal(t)), p, s.procs[p])
  {
  }

  lemma InvAt(s: State, steps: seq<Step>, k: nat)
    requires Fresh(s) && StateAfter(s, steps).Some? && k <= |steps|
    ensures Inv(StateAt(s, steps, k))
  {
    PrefixRuns(s, steps, k);
    InvAlways(s, steps[..k]);
  }

  lemma ReadTarget(s: State, steps: seq<Step>, t: Pid, j: nat) returns (q: Pid)
    requires StateAfter(s, steps).Some? && j < |steps| && steps[j] == Read(t)
    requires t in StateAt(s, steps, j + 1).procs
    ensures StateAt(s, steps, j).file == Names(q) && At(StateAt(s, steps, j + 1), t, StopAimed(q))
  {
    NextState(s, steps, j);
    q := StateAt(s, steps, j).file.pid;
  }

  lemma NamedHolds(s: State, q: Pid)
    requires Inv(s)
    ensures Serving(s, q) <==> DaemonHolds(s) && s.lock == Some(q)
    ensures Serving(s, q) <==> DaemonHolds(s) && s.file == Names(q)
  {
  }

  /** A stop and a start about to probe, a file left over from a crash, and a stranger with the old pid. */
  const LEFTOVER := State(None, Names(7), map[1 := StartProbe, 2 := StopProbe, 7 := Bystander])

  lemma ProbeMet() returns (steps: seq<Step>, now: State)
    ensures StateAfter(LEFTOVER, steps) == Some(now) && now.lock == Some(1) && now.file == Names(7)
    ensures now.procs.Keys == {1, 2, 7}
    ensures At(now, 1, StartHolding) && At(now, 2, StopContended) && At(now, 7, Bystander)
  {
    steps, now := Taken(LEFTOVER, [], LEFTOVER, Acquire(1));
    steps, now := Taken(LEFTOVER, steps, now, Acquire(2));
  }

  /** Contention alone does not mean that a daemon is running. With a PID file left over from a crash, a stop
      that meets another start's probe signals whatever process now bears the old pid. */
  lemma StopMeetsProbe() returns (steps: seq<Step>, before: State, now: State)
    ensures Fresh(LEFTOVER) && steps != [] && steps[|steps| - 1] == Signal(2)
    ensures StateAfter(LEFTOVER, steps[..|steps| - 1]) == Some(before) && At(before, 7, Bystander)
    ensures StateAfter(LEFTOVER, steps) == Some(now) && 7 !in now.procs && now.lock == Some(1)
  {
    steps, before := ProbeMet();
    steps, before := Taken(LEFTOVER, steps, before, Read(2));
    var reading := steps;
    steps, now := Taken(LEFTOVER, steps, before, Signal(2));
    assert steps[..|steps| - 1] == reading;
  }

  /** The same with the lock already free again when the stop reads. */
  lemma StopReadsLate() returns (steps: seq<Step>, before: State, now: State)
    ensures Fresh(LEFTOVER) && steps != [] && steps[|steps| - 1] == Signal(2)
    ensures StateAfter(LEFTOVER, steps[..|steps| - 1]) == Some(before) && At(before, 7, Bystander)
    ensures StateAfter(LEFTOVER, steps) == Some(now) && 7 !in now.procs && now.lock == None
  {
    steps, before := ProbeMet();
    steps, before := Taken(LEFTOVER, steps, before, Release(1));
    steps, before := Taken(LEFTOVER, steps, before, Read(2));
    var reading := steps;
    steps, now := Taken(LEFTOVER, steps, before, Signal(2));
    assert steps[..|steps| - 1] == reading;
  }

  /** A daemon and a stop, and no file. */
  const CLEAN := State(None, Absent, map[1 := DaemonTry, 2 := StopProbe])

  lemma DaemonMet() returns (steps: seq<Step>, now: State)
    ensures |steps| == 5 && StateAfter(CLEAN, steps) == Some(now)
    ensures now.lock == Some(1) && now.file == Names(1)
    ensures At(now, 1, DaemonRunning) && At(now, 2, StopContended) && now.procs.Keys == {1, 2}
  {
    steps, now := DaemonUp(CLEAN);
    steps, now := Taken(CLEAN, steps, now, Listen(1));
    steps, now := Taken(CLEAN, steps, now, Acquire(2));
  }

  lemma DaemonUp(s: State) returns (steps: seq<Step>, now: State)
    requires s.lock == None && s.procs.Keys == {1, 2} && At(s, 1, DaemonTry) && At(s, 2, StopProbe)
    ensures |steps| == 3 && StateAfter(s, steps) == Some(now)
    ensures now.lock == Some(1) && now.file == Names(1)
    ensures At(now, 1, DaemonNamed) && At(now, 2, StopProbe) && now.procs.Keys == {1, 2}
  {
    steps, now := Taken(s, [], s, Acquire(1));
    steps, now := Taken(s, steps, now, Truncate(1));
    steps, now := Taken(s, steps, now, Name(1));
  }

  lemma Finished(s: State, steps: seq<Step>, met: State) returns (more: seq<Step>, now: State)
    requires StateAfter(s, steps) == Some(met) && met.lock == Some(1) && met.procs.Keys == {1, 2}
    requires At(met, 1, DaemonRunning) && At(met, 2, StopAimed(1))
    ensures StateAfter(s, more) == Some(now) && more == steps + [Terminate(1), Return(1), Remove(1)]
    ensures now.lock == Some(1) && now.procs.Keys == {1, 2}
    ensures At(now, 1, DaemonUnlocking) && At(now, 2, StopAimed(1))
  {
    more, now := Taken(s, steps, met, Terminate(1));
    more, now := Taken(s, more, now, Return(1));
    more, now := Taken(s, more, now, Remove(1));
  }

  lemma HandedOver(s: State, steps: seq<Step>, met: State) returns (more: seq<Step>, now: State)
    requires StateAfter(s, steps) == Some(met) && met.lock == Some(1) && met.procs.Keys == {1, 2}
    requires At(met, 1, DaemonUnlocking) && At(met, 2, StopAimed(1))
    ensures StateAfter(s, more) == Some(now) && more == steps + [Unlock(1), Launch(1, Bystander)]
    ensures At(now, 1, Bystander) && At(now, 2, StopAimed(1)) && now.lock == None
  {
    more, now := Taken(s, steps, met, Unlock(1));
    more, now := Taken(s, more, now, Launch(1, Bystander));
  }

  lemma Recycled(met: seq<Step>, read: State) returns (more: seq<Step>, now: State)
    requires StateAfter(CLEAN, met) == Some(read) && read.lock == Some(1) && read.file == Names(1)
    requires At(read, 1, DaemonRunning) && At(read, 2, StopContended) && read.procs.Keys == {1, 2}
    ensures StateAfter(CLEAN, more) == Some(now) && At(now, 1, Bystander) && At(now, 2, StopAimed(1))
    ensures more == met + [Read(2), Terminate(1), Return(1), Remove(1), Unlock(1), Launch(1, Bystander)]
  {
    more, now := Taken(CLEAN, met, read, Read(2));
    more, now := Finished(CLEAN, more, now);
    more, now := HandedOver(CLEAN, more, now);
  }

  /** Finding the daemon at the read is not enough either. Without any file left over, a daemon that ends
      between the read and the signal can hand its pid to a stranger, who is then signalled. */
  lemma PidRecycled() returns (steps: seq<Step>, read: State, before: State, now: State)
    ensures Fresh(CLEAN) && |steps| == 12 && steps[5] == Read(2) && steps[11] == Signal(2)
    ensures StateAfter(CLEAN, steps[..5]) == Some(read) && DaemonHolds(read) && read.file == Names(1)
    ensures StateAfter(CLEAN, steps[..11]) == Some(before) && At(before, 1, Bystander)
    ensures StateAfter(CLEAN, steps) == Some(now) && 1 !in now.procs
  {
    var met;
    met, read := DaemonMet();
    var handed;
    handed, before := Recycled(met, read);
    steps, now := Taken(CLEAN, handed, before, Signal(2));
    assert steps[..5] == met && steps[..11] == handed;
  }

  // What start's "already running" means.

  /** A start steps aside exactly when it finds the lock taken, and a daemon is then past the lock exactly when the
      holder is not itself a start or a stop that merely probes. */
  lemma StartStepsAside(s: State, steps: seq<Step>, p: Pid)
    requires Fresh(s) && StateAfter(s, steps).Some? && At(StateAfter(s, steps).value, p, StartProbe)
    ensures var now := StateAfter(s, steps).value;
            && Enabled(now, Acquire(p)) && (p !in Apply(now, Acquire(p)).procs <==> now.lock.Some?)
            && (now.lock.Some? ==>
                  ((exists d :: d in now.procs && PastLock(now.procs[d]))
                   <==> !At(now, now.lock.value, StartHolding) && !At(now, now.lock.value, StopHolding)))
  {
    InvAlways(s, steps);
  }

  const START_AND_STOP := State(None, Absent, map[1 := StartProbe, 2 := StopProbe])

  /** So a stop that finds nothing to stop can make a start report that one is already running, and nobody runs in
      the end. */
  lemma StopTurnsStartAway() returns (steps: seq<Step>, now: State)
    ensures Fresh(START_AND_STOP) && steps == [Acquire(2), Acquire(1), Release(2)]
    ensures StateAfter(START_AND_STOP, steps) == Some(now) && now.procs == map[] && now.lock == None
  {
    steps, now := Taken(START_AND_STOP, [], START_AND_STOP, Acquire(2));
    assert now.lock == Some(2) && now.procs.Keys == {1, 2} && At(now, 1, StartProbe) && At(now, 2, StopHolding);
    steps, now := Taken(START_AND_STOP, steps, now, Acquire(1));
    assert now.lock == Some(2) && now.procs.Keys == {2} && At(now, 2, StopHolding);
    steps, now := Taken(START_AND_STOP, steps, now, Release(2));
    assert now.procs.Keys == {};
  }
}
