/** The start / stop / daemon protocol (cmd/herdr-tokens/main.go and the lock and PID-file steps of
    internal/daemon/daemon.go) for one socket, as a transition system over any number of processes.
    Each step is one system call; any process may die at any point; pids may be reused. */
module LockProtocol {
  import opened Prelude

  type Pid = nat

  /** os.WriteFile truncates before it writes, so the file can be seen empty. */
  datatype File = Absent | Empty | Names(pid: Pid)

  /** Where a live process stands. A process that has exited is not in the process table. */
  datatype Pc =
    | StartProbe      // start: about to take the lock
    | StartHolding    // start: nobody was running, about to release the lock
    | StartSpawning   // start: about to check the configuration and spawn the daemon
    | DaemonTry       // daemon: about to take the lock
    | DaemonLocked    // daemon: about to write the PID file
    | DaemonWriting   // daemon: PID file truncated
    | DaemonNamed     // daemon: PID file written, signals not yet caught
    | DaemonRunning   // daemon: in the run loop
    | DaemonDraining  // daemon: signalled, the run loop is returning
    | DaemonCleanup   // daemon: signals no longer caught, about to remove the PID file
    | DaemonUnlocking // daemon: about to close the lock
    | StopProbe       // stop: about to take the lock
    | StopHolding     // stop: nobody was running, about to release the lock
    | StopContended   // stop: the lock was taken, about to read the PID file
    | StopAimed(target: Pid) // stop: about to signal
    | Bystander       // a process that has nothing to do with this plugin

  datatype State = State(lock: Option<Pid>, file: File, procs: map<Pid, Pc>)

  datatype Step =
    | Launch(p: Pid, pc: Pc)   // a user, a hook or anybody else starts a process
    | Acquire(p: Pid)
    | Release(p: Pid)
    | Spawn(p: Pid, child: Pid)
    | GiveUp(p: Pid)           // invalid configuration or an I/O error
    | Truncate(p: Pid)
    | Name(p: Pid)
    | Listen(p: Pid)
    | Return(p: Pid)
    | Remove(p: Pid)
    | Unlock(p: Pid)
    | Read(p: Pid)
    | Signal(p: Pid)           // stop signals its target
    | Terminate(p: Pid)        // somebody else signals p
    | Crash(p: Pid)

  predicate At(s: State, p: Pid, pc: Pc) {
    p in s.procs && s.procs[p] == pc
  }

  predicate Probing(pc: Pc) {
    pc == StartProbe || pc == DaemonTry || pc == StopProbe
  }

  predicate Enabled(s: State, a: Step) {
    match a
    case Launch(p, pc) => p !in s.procs && (Probing(pc) || pc == Bystander)
    case Acquire(p) => p in s.procs && Probing(s.procs[p])
    case Release(p) => At(s, p, StartHolding) || At(s, p, StopHolding)
    case Spawn(p, child) => At(s, p, StartSpawning) && child !in s.procs
    case GiveUp(p) => p in s.procs &&
      (Probing(s.procs[p]) || s.procs[p] in {StartSpawning, DaemonLocked, DaemonWriting, StopContended})
    case Truncate(p) => At(s, p, DaemonLocked)
    case Name(p) => At(s, p, DaemonWriting)
    case Listen(p) => At(s, p, DaemonNamed)
    case Return(p) => At(s, p, DaemonDraining)
    case Remove(p) => At(s, p, DaemonCleanup)
    case Unlock(p) => At(s, p, DaemonUnlocking)
    case Read(p) => At(s, p, StopContended)
    case Signal(p) => p in s.procs && s.procs[p].StopAimed?
    case Terminate(p) => p in s.procs
    case Crash(p) => p in s.procs
  }

  /** Exit for any reason: the operating system drops the lock if the process held it. */
  function Exit(s: State, p: Pid): State {
    State(if s.lock == Some(p) then None else s.lock, s.file, s.procs - {p})
  }

  function Move(s: State, p: Pid, pc: Pc): State {
    s.(procs := s.procs[p := pc])
  }

  /** SIGTERM: the run loop catches it; anywhere else it kills. */
  function Deliver(s: State, p: Pid): State {
    if At(s, p, DaemonRunning) || At(s, p, DaemonDraining) then Move(s, p, DaemonDraining) else Exit(s, p)
  }

  function TryLock(s: State, p: Pid): State
    requires p in s.procs
  {
    if s.lock.None? then
      Move(s, p, if s.procs[p] == StartProbe then StartHolding
                 else if s.procs[p] == DaemonTry then DaemonLocked
                 else StopHolding).(lock := Some(p))
    else if s.procs[p] == StopProbe then Move(s, p, StopContended)
    else Exit(s, p)
  }

  function Apply(s: State, a: Step): State
    requires Enabled(s, a)
  {
    match a
    case Launch(p, pc) => Move(s, p, pc)
    case Acquire(p) => TryLock(s, p)
    case Release(p) =>
      if s.procs[p] == StartHolding then Move(s, p, StartSpawning).(lock := None) else Exit(s, p)
    case Spawn(p, child) => Exit(Move(s, child, DaemonTry), p)
    case GiveUp(p) =>
      if s.procs[p] in {DaemonLocked, DaemonWriting} then Move(s, p, DaemonUnlocking) else Exit(s, p)
    case Truncate(p) => Move(s, p, DaemonWriting).(file := Empty)
    case Name(p) => Move(s, p, DaemonNamed).(file := Names(p))
    case Listen(p) => Move(s, p, DaemonRunning)
    case Return(p) => Move(s, p, DaemonCleanup)
    case Remove(p) => Move(s, p, DaemonUnlocking).(file := Absent)
    case Unlock(p) => Exit(s, p)
    case Read(p) => if s.file.Names? then Move(s, p, StopAimed(s.file.pid)) else Exit(s, p)
    case Signal(p) => Exit(Deliver(s, s.procs[p].target), p)
    case Terminate(p) => Deliver(s, p)
    case Crash(p) => Exit(s, p)
  }

  /** A daemon past its successful AcquireLock. */
  predicate PastLock(pc: Pc) {
    pc in {DaemonLocked, DaemonWriting, DaemonNamed, DaemonRunning, DaemonDraining, DaemonCleanup, DaemonUnlocking}
  }

  predicate Holding(pc: Pc) {
    PastLock(pc) || pc == StartHolding || pc == StopHolding
  }

  /** Between WritePID and the deferred removal. */
  predicate Publishing(pc: Pc) {
    pc in {DaemonNamed, DaemonRunning, DaemonDraining, DaemonCleanup}
  }

  /** The lock's holder is exactly the process that stands where it should hold the lock,
      and a publishing daemon is named by the PID file. */
  ghost predicate Inv(s: State) {
    && (s.lock.Some? ==> s.lock.value in s.procs)
    && (forall p | p in s.procs :: Holding(s.procs[p]) <==> s.lock == Some(p))
    && (forall p | p in s.procs && Publishing(s.procs[p]) :: s.file == Names(p))
    && (forall p | p in s.procs && s.procs[p] == DaemonWriting :: s.file == Empty)
  }

  lemma InvMove(s: State, p: Pid, pc: Pc)
    requires Inv(s) && p in s.procs && (Holding(pc) <==> Holding(s.procs[p]))
    requires Publishing(pc) ==> Publishing(s.procs[p])
    requires pc != DaemonWriting
    ensures Inv(Move(s, p, pc))
  {
  }

  lemma InvExit(s: State, p: Pid)
    requires Inv(s)
    ensures Inv(Exit(s, p))
  {
  }

  lemma InvDeliver(s: State, p: Pid)
    requires Inv(s)
    ensures Inv(Deliver(s, p))
  {
    if At(s, p, DaemonRunning) || At(s, p, DaemonDraining) {
      InvMove(s, p, DaemonDraining);
    } else {
      InvExit(s, p);
    }
  }

  lemma InvLaunch(s: State, p: Pid, pc: Pc)
    requires Inv(s) && p !in s.procs && (Probing(pc) || pc == Bystander)
    ensures Inv(Move(s, p, pc))
  {
  }

  lemma InvAcquire(s: State, p: Pid)
    requires Inv(s) && p in s.procs && Probing(s.procs[p])
    ensures Inv(TryLock(s, p))
  {
    if s.lock.Some? {
      if s.procs[p] == StopProbe { InvMove(s, p, StopContended); } else { InvExit(s, p); }
    }
  }

  lemma InvRelease(s: State, p: Pid)
    requires Inv(s) && Enabled(s, Release(p))
    ensures Inv(Apply(s, Release(p)))
  {
    if s.procs[p] != StartHolding { InvExit(s, p); }
  }

  lemma InvFile(s: State, a: Step)
    requires Inv(s) && Enabled(s, a) && (a.Truncate? || a.Name? || a.Remove?)
    ensures Inv(Apply(s, a))
  {
    OnlyPublisher(s, a.p);
  }

  /** Every step of every process keeps the invariant. */
  lemma InvStep(s: State, a: Step)
    requires Inv(s) && Enabled(s, a)
    ensures Inv(Apply(s, a))
  {
    match a
    case Launch(p, pc) => InvLaunch(s, p, pc);
    case Acquire(p) => InvAcquire(s, p);
    case Release(p) => InvRelease(s, p);
    case Spawn(p, child) =>
      InvLaunch(s, child, DaemonTry);
      InvExit(Move(s, child, DaemonTry), p);
    case GiveUp(p) =>
      if s.procs[p] in {DaemonLocked, DaemonWriting} { InvMove(s, p, DaemonUnlocking); } else { InvExit(s, p); }
    case Truncate(p) => InvFile(s, a);
    case Name(p) => InvFile(s, a);
    case Listen(p) => InvMove(s, p, DaemonRunning);
    case Return(p) => InvMove(s, p, DaemonCleanup);
    case Remove(p) => InvFile(s, a);
    case Unlock(p) => InvExit(s, p);
    case Read(p) =>
      if s.file.Names? { InvMove(s, p, StopAimed(s.file.pid)); } else { InvExit(s, p); }
    case Signal(p) =>
      InvDeliver(s, s.procs[p].target);
      InvExit(Deliver(s, s.procs[p].target), p);
    case Terminate(p) => InvDeliver(s, p);
    case Crash(p) => InvExit(s, p);
  }

  /** Writing the PID file, or named by it. */
  predicate OnDuty(pc: Pc) {
    pc == DaemonWriting || Publishing(pc)
  }

  lemma OnlyPublisher(s: State, p: Pid)
    requires Inv(s) && p in s.procs && Holding(s.procs[p])
    ensures forall q | q in s.procs && OnDuty(s.procs[q]) :: q == p
  {
  }

  // Runs.

  function StateAfter(s: State, steps: seq<Step>): Option<State> {
    if steps == [] then Some(s)
    else
      var before := StateAfter(s, steps[..|steps| - 1]);
      if before.Some? && Enabled(before.value, steps[|steps| - 1])
      then Some(Apply(before.value, steps[|steps| - 1]))
      else None
  }

  /** Nobody has started anything yet; a PID file may be left over from an earlier crash. */
  predicate Fresh(s: State) {
    s.lock.None? && forall p | p in s.procs :: Probing(s.procs[p]) || s.procs[p] == Bystander
  }

  lemma {:induction false} InvAlways(s: State, steps: seq<Step>)
    requires Inv(s) && StateAfter(s, steps).Some?
    ensures Inv(StateAfter(s, steps).value)
  {
    if steps != [] {
      InvAlways(s, steps[..|steps| - 1]);
      InvStep(StateAfter(s, steps[..|steps| - 1]).value, steps[|steps| - 1]);
    }
  }

  /** In every reachable state at most one daemon is past AcquireLock, it is the lock's holder, and from
      WritePID to the deferred removal the PID file names it. */
  lemma AtMostOneDaemon(s: State, steps: seq<Step>, p: Pid)
    requires Fresh(s) && StateAfter(s, steps).Some?
    ensures var now := StateAfter(s, steps).value;
            p in now.procs && PastLock(now.procs[p]) ==>
              && now.lock == Some(p)
              && (forall q | q in now.procs && PastLock(now.procs[q]) :: q == p)
              && (Publishing(now.procs[p]) ==> now.file == Names(p))
  {
    InvAlways(s, steps);
  }

  // The PID file in runs where no daemon dies between writing the file and removing it.

  /** A step that takes nobody off the run between WritePID and removal, except by removing the file. A daemon
      may still fail or die before its pid is written, which can leave an empty file behind. */
  predicate Tidy(s: State, a: Step)
    requires Enabled(s, a)
  {
    forall p | p in s.procs && Publishing(s.procs[p]) ::
      a == Remove(p) || (p in Apply(s, a).procs && Publishing(Apply(s, a).procs[p]))
  }

  predicate TidyRun(s: State, steps: seq<Step>)
    requires StateAfter(s, steps).Some?
  {
    steps == [] ||
    (var n := |steps| - 1;
     TidyRun(s, steps[..n]) && Tidy(StateAfter(s, steps[..n]).value, steps[n]))
  }

  ghost predicate FileOwned(s: State) {
    s.file.Names? ==> s.file.pid in s.procs && Publishing(s.procs[s.file.pid])
  }

  lemma FileOwnedStep(s: State, a: Step)
    requires Inv(s) && FileOwned(s) && Enabled(s, a) && Tidy(s, a)
    ensures FileOwned(Apply(s, a))
  {
    InvStep(s, a);
    if a.Name? {
      assert Publishing(Apply(s, a).procs[a.p]);
    } else if Apply(s, a).file.Names? {
      assert Apply(s, a).file == s.file;
    }
  }

  lemma {:induction false} FileOwnedAlways(s: State, steps: seq<Step>)
    requires Fresh(s) && !s.file.Names? && StateAfter(s, steps).Some? && TidyRun(s, steps)
    ensures FileOwned(StateAfter(s, steps).value)
  {
    if steps != [] {
      var n := |steps| - 1;
      FileOwnedAlways(s, steps[..n]);
      InvAlways(s, steps[..n]);
      FileOwnedStep(StateAfter(s, steps[..n]).value, steps[n]);
    }
  }

  /** In such runs the PID file names a process only while that process is a daemon between WritePID and its
      deferred removal, and then it holds the lock; and it names one whenever there is such a daemon. */
  lemma FileOnlyWhileHeld(s: State, steps: seq<Step>)
    requires Fresh(s) && !s.file.Names? && StateAfter(s, steps).Some? && TidyRun(s, steps)
    ensures var now := StateAfter(s, steps).value;
            && (now.file.Names? ==> now.lock == Some(now.file.pid))
            && (now.file.Names? <==> exists p :: p in now.procs && Publishing(now.procs[p]))
            && forall p | p in now.procs && Publishing(now.procs[p]) :: now.file == Names(p)
  {
    InvAlways(s, steps);
    FileOwnedAlways(s, steps);
  }
}
