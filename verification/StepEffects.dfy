/** What each step of the lock protocol does, said field by field, and what follows for a daemon that dies. */
module StepEffects {
  import opened LockProtocol
  import opened Prelude
  import opened Races

  /** p has exited: it is gone, its lock if it held one is free, and nothing else changed. */
  predicate Gone(before: State, after: State, p: Pid) {
    && p !in after.procs
    && after.lock == (if before.lock == Some(p) then None else before.lock)
    && after.file == before.file
    && after.procs.Keys == before.procs.Keys - {p}
    && forall q | q in after.procs :: after.procs[q] == before.procs[q]
  }

  /** p now stands at pc, and nobody else has moved, come or gone. */
  predicate Stands(before: State, after: State, p: Pid, pc: Pc) {
    && p in after.procs && after.procs[p] == pc
    && after.procs.Keys == before.procs.Keys + {p}
    && forall q | q in before.procs && q != p :: after.procs[q] == before.procs[q]
  }

  /** Death at any point, wherever the process stands: the operating system drops its lock, and the PID file is
      left as it is. */
  lemma CrashEffect(s: State, p: Pid)
    requires p in s.procs
    ensures Enabled(s, Crash(p)) && Gone(s, Apply(s, Crash(p)), p)
  {
  }

  /** SIGTERM from anybody: a daemon in its run loop starts to drain, or keeps draining; any other process dies. */
  lemma TerminateEffect(s: State, p: Pid)
    requires p in s.procs
    ensures var after := Apply(s, Terminate(p));
            if s.procs[p] == DaemonRunning || s.procs[p] == DaemonDraining
            then Stands(s, after, p, DaemonDraining) && after.lock == s.lock && after.file == s.file
            else Gone(s, after, p)
  {
  }

  /** Giving up: a daemon that already has the lock still has to close it, any other process just exits. */
  lemma GiveUpEffect(s: State, p: Pid)
    requires Enabled(s, GiveUp(p))
    ensures var after := Apply(s, GiveUp(p));
            if s.procs[p] == DaemonLocked || s.procs[p] == DaemonWriting
            then Stands(s, after, p, DaemonUnlocking) && after.lock == s.lock && after.file == s.file
            else Gone(s, after, p)
  {
  }

  /** A free lock is taken by whoever asks; with a taken one, a stop goes on to the PID file and anybody else exits. */
  lemma AcquireEffect(s: State, p: Pid)
    requires Enabled(s, Acquire(p))
    ensures var after := Apply(s, Acquire(p));
            && after.file == s.file
            && (s.lock == None ==> after.lock == Some(p))
            && (s.lock == None && s.procs[p] == StartProbe ==> Stands(s, after, p, StartHolding))
            && (s.lock == None && s.procs[p] == DaemonTry ==> Stands(s, after, p, DaemonLocked))
            && (s.lock == None && s.procs[p] == StopProbe ==> Stands(s, after, p, StopHolding))
            && (s.lock != None && s.procs[p] == StopProbe ==>
                  Stands(s, after, p, StopContended) && after.lock == s.lock)
            && (s.lock != None && s.procs[p] != StopProbe ==> Gone(s, after, p))
  {
  }

  /** A probe that found nobody lets go of the lock: the start goes on to spawn, the stop is done. */
  lemma ReleaseEffect(s: State, p: Pid)
    requires Enabled(s, Release(p)) && Inv(s)
    ensures var after := Apply(s, Release(p));
            && after.lock == None && after.file == s.file
            && (s.procs[p] == StartHolding ==> Stands(s, after, p, StartSpawning))
            && (s.procs[p] == StopHolding ==> Gone(s, after, p))
  {
  }

  /** Spawning replaces the start by a daemon that has yet to try for the lock. */
  lemma SpawnEffect(s: State, p: Pid, child: Pid)
    requires Enabled(s, Spawn(p, child)) && Inv(s)
    ensures var after := Apply(s, Spawn(p, child));
            && after.lock == s.lock && after.file == s.file
            && after.procs.Keys == s.procs.Keys - {p} + {child} && At(after, child, DaemonTry)
            && forall q | q in s.procs && q != p :: At(after, q, s.procs[q])
  {
    assert !Holding(s.procs[p]);
  }

  /** A new process stands where it was launched and touches nothing. */
  lemma LaunchEffect(s: State, p: Pid, pc: Pc)
    requires Enabled(s, Launch(p, pc))
    ensures var after := Apply(s, Launch(p, pc));
            p !in s.procs && Stands(s, after, p, pc) && after.lock == s.lock && after.file == s.file
  {
  }

  /** The daemon's own way through: only these steps touch the PID file, and only closing the lock ends it. */
  lemma DaemonEffects(s: State, p: Pid)
    ensures Enabled(s, Truncate(p)) ==>
              var after := Apply(s, Truncate(p));
              Stands(s, after, p, DaemonWriting) && after.lock == s.lock && after.file == Empty
    ensures Enabled(s, Name(p)) ==>
              var after := Apply(s, Name(p));
              Stands(s, after, p, DaemonNamed) && after.lock == s.lock && after.file == Names(p)
    ensures Enabled(s, Listen(p)) ==>
              var after := Apply(s, Listen(p));
              Stands(s, after, p, DaemonRunning) && after.lock == s.lock && after.file == s.file
    ensures Enabled(s, Return(p)) ==>
              var after := Apply(s, Return(p));
              Stands(s, after, p, DaemonCleanup) && after.lock == s.lock && after.file == s.file
    ensures Enabled(s, Remove(p)) ==>
              var after := Apply(s, Remove(p));
              Stands(s, after, p, DaemonUnlocking) && after.lock == s.lock && after.file == Absent
    ensures Enabled(s, Unlock(p)) ==> Gone(s, Apply(s, Unlock(p)), p)
  {
  }

  /** Reading: a pid becomes the target, without one the stop is done. */
  lemma ReadEffect(s: State, p: Pid)
    requires Enabled(s, Read(p))
    ensures var after := Apply(s, Read(p));
            && (forall d | s.file == Names(d) ::
                  Stands(s, after, p, StopAimed(d)) && after.lock == s.lock && after.file == s.file)
            && (s.file == Absent || s.file == Empty ==> Gone(s, after, p))
  {
  }

  /** Signalling is what SIGTERM does to the target, after which the stop is done. */
  lemma SignalIsTerminate(s: State, p: Pid, d: Pid)
    requires Inv(s) && At(s, p, StopAimed(d))
    ensures d in s.procs ==> Gone(Apply(s, Terminate(d)), Apply(s, Signal(p)), p)
    ensures d !in s.procs ==> Gone(s, Apply(s, Signal(p)), p)
  {
  }

  /** The lock cannot go stale: it is free again exactly when its holder has exited, or is a start that let go of it. */
  lemma NeverStale(s: State, a: Step, h: Pid)
    requires Inv(s) && Enabled(s, a) && s.lock == Some(h)
    ensures Apply(s, a).lock == None <==> h !in Apply(s, a).procs || At(Apply(s, a), h, StartSpawning)
    ensures Apply(s, a).lock != None ==> Apply(s, a).lock == Some(h)
  {
    InvStep(s, a);
    LockHeldOrFree(s, a, h);
    var after := Apply(s, a);
    if after.lock == None && h in after.procs {
      HolderLetsGo(s, a, h);
    }
  }

  lemma LockHeldOrFree(s: State, a: Step, h: Pid)
    requires Inv(s) && Enabled(s, a) && s.lock == Some(h)
    ensures Apply(s, a).lock == None || Apply(s, a).lock == Some(h)
  {
  }

  lemma HolderLetsGo(s: State, a: Step, h: Pid)
    requires Inv(s) && Enabled(s, a) && s.lock == Some(h) && Apply(s, a).lock == None && h in Apply(s, a).procs
    ensures At(Apply(s, a), h, StartSpawning)
  {
  }

  /** Whoever held the lock when it died, the next start gets it. */
  lemma LockAfterCrash(s: State, p: Pid, q: Pid)
    requires s.lock == Some(p) && p in s.procs && p != q && At(s, q, StartProbe)
    ensures var after := Apply(s, Crash(p));
            && Enabled(after, Acquire(q)) && Apply(after, Acquire(q)).lock == Some(q)
            && At(Apply(after, Acquire(q)), q, StartHolding)
  {
    CrashEffect(s, p);
    AcquireEffect(Apply(s, Crash(p)), q);
  }

  const NOBODY := State(None, Absent, map[])

  lemma DaemonLocks(s: State) returns (steps: seq<Step>, now: State)
    requires s.lock == None && s.procs.Keys == {}
    ensures StateAfter(s, steps) == Some(now) && steps == [Launch(1, DaemonTry), Acquire(1)]
    ensures now.lock == Some(1) && now.procs.Keys == {1} && At(now, 1, DaemonLocked)
  {
    var launched;
    steps, launched := Taken(s, [], s, Launch(1, DaemonTry));
    assert launched.lock == None && launched.procs.Keys == {1} && At(launched, 1, DaemonTry);
    steps, now := Taken(s, steps, launched, Acquire(1));
    assert now.lock == Some(1) && now.procs.Keys == {1};
  }

  lemma DaemonGoesOn(s: State, steps: seq<Step>, locked: State) returns (more: seq<Step>, now: State)
    requires StateAfter(s, steps) == Some(locked)
    requires locked.lock == Some(1) && locked.procs.Keys == {1} && At(locked, 1, DaemonLocked)
    ensures StateAfter(s, more) == Some(now) && more == steps + [Truncate(1), Name(1), Listen(1)]
    ensures now.lock == Some(1) && now.file == Names(1) && now.procs.Keys == {1} && At(now, 1, DaemonRunning)
  {
    more, now := Taken(s, steps, locked, Truncate(1));
    assert now.lock == Some(1) && now.procs.Keys == {1} && At(now, 1, DaemonWriting);
    more, now := Taken(s, more, now, Name(1));
    assert now.lock == Some(1) && now.procs.Keys == {1} && At(now, 1, DaemonNamed);
    more, now := Taken(s, more, now, Listen(1));
  }

  lemma DaemonComesUp() returns (steps: seq<Step>, now: State)
    ensures Fresh(NOBODY) && StateAfter(NOBODY, steps) == Some(now)
    ensures steps == [Launch(1, DaemonTry), Acquire(1), Truncate(1), Name(1), Listen(1)]
    ensures now.lock == Some(1) && now.file == Names(1) && now.procs.Keys == {1} && At(now, 1, DaemonRunning)
  {
    steps, now := DaemonLocks(NOBODY);
    steps, now := DaemonGoesOn(NOBODY, steps, now);
  }

  /** A left-over PID file is within reach: a daemon that is killed in its run loop leaves one behind, with the lock
      free and nobody running. */
  lemma CrashLeavesFile() returns (steps: seq<Step>, now: State)
    ensures steps == [Launch(1, DaemonTry), Acquire(1), Truncate(1), Name(1), Listen(1), Crash(1)]
    ensures StateAfter(NOBODY, steps) == Some(now)
    ensures now.lock == None && now.file == Names(1) && now.procs == map[]
  {
    var up;
    steps, up := DaemonComesUp();
    CrashEffect(up, 1);
    steps, now := Taken(NOBODY, steps, up, Crash(1));
    assert now.procs.Keys == {};
  }

  /** A start after that is not turned away by it. */
  lemma StartAfterCrash() returns (steps: seq<Step>, now: State)
    ensures StateAfter(NOBODY, steps) == Some(now) && |steps| == 8 && steps[5] == Crash(1)
    ensures steps[6] == Launch(2, StartProbe) && steps[7] == Acquire(2)
    ensures now.lock == Some(2) && now.file == Names(1) && At(now, 2, StartHolding)
  {
    steps, now := CrashLeavesFile();
    LaunchEffect(now, 2, StartProbe);
    var launched;
    steps, launched := Taken(NOBODY, steps, now, Launch(2, StartProbe));
    AcquireEffect(launched, 2);
    steps, now := Taken(NOBODY, steps, launched, Acquire(2));
  }
}
