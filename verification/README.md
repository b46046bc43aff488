# herdr-tokens: a verified model

herdr-tokens is a small daemon that polls a terminal multiplexer (Herdr), derives a handful of
metadata tokens for every workspace, and keeps them alive on the server by rewriting them before
their lifetime ends. This project models three parts of it in Dafny and proves what they are for.

**Reconciling, lifetimes and ticks.** `Config`, `HerdrApi` and `Derive` hold the configuration, the
wire types and the token derivation. `Herdr` is the server: per workspace a map from key to a value
and an expiry instant, with the effect of one report call. `Reconciling` says on values what one
pass does to the write-skip cache and to the server; `Controller` is the class that does it in
place. `PassEffect` gives the exact effect of a pass under arbitrary failures. `Runs` puts passes
into timed runs together with failed polls, cache invalidations and an adversary (another plugin
overwrites a key, somebody clears one, the server restarts empty). Over those runs, `SelfHeal`,
`NoLapse` and `WriteBound` prove one-tick healing, the exact condition under which a status token
can lapse, and an amortised bound on writes. `Daemon` is the tick loop with its backoff, shown to be
such a run.

**The lock and PID-file protocol.** `LockProtocol` is a transition system over any number of
`start`, `stop` and `daemon` processes in which each step is one system call, any process may die at
any point, and pids are reused. `StepEffects` says field by field what each step does and what is left
when a daemon dies. `Races` proves that N racing starts always end with one daemon and says whom `stop`
signals.

**The closed schema and the sanitizer that must satisfy it.** `Json`, `Patterns` and `Validator`
model the recursive validator for any schema, and `Leaves` says what every leaf checker and pattern
accepts; `FixtureSchema` holds the repository's tables, and `TableKinds` reads them the other way round.
`Locality` shows how a report depends on the document, `ProducerSchema` that what the daemon
publishes fits. `Numbering`, `Sanitize`, `Renaming` and `PathRenaming` model the sanitizer and show
its passes to be canonical renamings; `Everywhere` and `Labels` say what they leave at every place of a
document. `Stages`, `TokenPasses`, `Relabelling`, `SanitizeConforms` and
`Release` follow a capture through the passes up to the exact condition under which the output
satisfies the schema; `Captures` gives concrete ones on both sides of it.

Times are integers in nanoseconds. Token lifetimes are sent in whole milliseconds, so the lifetime
the server grants is the configured one truncated; the model keeps the truncation.

## What the proofs found

Four statements in the repository's comments and documentation do not hold as written, and one
purpose is met only under conditions. The model follows the code.

- `internal/config/config.go:45` says a repeat at a third of the lifetime tolerates two missed ticks.
  At the shortest lifetime that `Validate` accepts, two missed polls lose the token
  (`NoLapse.TwoMissedPollsLapse`). The exact number follows from `NoLapse.MissedPolls`; with the
  defaults it is nineteen.
- `internal/config/config.go:58-61` promises that one missed tick cannot expire a token. That holds
  for lifetimes in whole milliseconds (`NoLapse.OneMissedPoll`), and where the lifetime divides by
  three it is exactly the right floor (`NoLapse.FloorIsExact`). A lifetime with a fraction of a
  millisecond is truncated on the wire and can then be too short (`NoLapse.SubMillisecondLapses`).
- `cmd/herdr-tokens/main.go:221-226` says that `stop` signals only the daemon belonging to its socket
  and that contention on the lock means a real daemon holds it. A `start` or another `stop` also takes
  the lock for a moment; with a PID file left over from a crash, `stop` then signals whatever process
  has that pid now (`Races.StopMeetsProbe`), also when the probe is over by the time it reads
  (`Races.StopReadsLate`). And a daemon that ends between the read and the signal can leave its pid to
  a stranger (`Races.PidRecycled`). The signal goes to a daemon of this socket that serves, that is between writing
  and removing its PID file, exactly when at the signal the lock is held by one that serves and the file
  still names what was read (`Races.SignalFindsDaemon`).
- `cmd/herdr-tokens/main.go:138-141` says that the lock answers whether a daemon is running. `start`
  reports one whenever the lock is taken (`cmd/herdr-tokens/main.go:165-169`), which is true exactly when
  the holder is not another `start` or a `stop` that probes (`Races.StartStepsAside`): a `stop` with
  nothing to stop can turn a `start` away, and nobody runs in the end (`Races.StopTurnsStartAway`). Among
  `start`s alone somebody always remains (`Races.OneDaemonSurvives`).
- The sanitizer exists to produce fixtures that satisfy the schema. Its terminal and session
  placeholders (`scripts/sanitize.py:48-57`) do, as long as their number is below 10^12
  (`Numbering.TerminalShape`, `Numbering.SessionShape`). The whole document does exactly under three
  conditions on the capture (`Release.SanitizedConforms`, `Release.SmallCaptureConforms`):
  - it has the schema's shape, with a path below `/Users/` in every working directory field. The path pass
    makes project paths of these only (`scripts/sanitize.py:37-41`), so a shell that stands in `/tmp` leaves
    a document that `internal/herdrapi/schema.go:139` refuses, and so does one in a directory written with a
    tilde, whose placeholder is not of the shape that `scripts/sanitize.py:23-24` promises
    (`Captures.PaneOutcome`, `Captures.TmpRefused`, `Captures.TildeRefused`);
  - it lists at most 26 workspaces, because the twenty-seventh label (`scripts/sanitize.py:101-102`) is not
    made of letters (`Captures.CaptureOutcome`);
  - every workspace's tokens conform already: no pass makes them conform, and the rules at
    `internal/herdrapi/schema.go:83-92` refuse a real workspace name, which the daemon publishes by default
    (`Captures.RealNameRefused`).

## Model

| member | source | states |
|---|---|---|
| `Config.ValidArithmetic` | internal/config/config.go:46-61 | a validated configuration always sends a positive lifetime, repeats strictly before it ends, loses less than a millisecond to truncation, and leaves room for a third of the lifetime plus two polls |
| `Config.ValidExactly` | internal/config/config.go:48-66 | a configuration is accepted exactly for version 1, polls between half a second and a minute, a lifetime between three polls and a day, and one of two words |
| `Config.ComplaintExactly` | internal/config/config.go:48-66 | the complaint names the first rule that is broken, in the source's order |
| `Config.DefaultIs` | internal/config/config.go:35-42 | the defaults in numbers, and that they are accepted |
| `Derive.StatusToken` | internal/derive/derive.go:39-47 | the result is one of the six status keys; `st_none` exactly for no status, `st_unknown` exactly for unclassified words, otherwise the key carries the word |
| `Derive.ClearEveryKey` | internal/derive/derive.go:57-60 | every owned key is present with an explicit clear |
| `Derive.CountAgents` | internal/derive/derive.go:73-82 | the counters end as the workspace's agent count and blocked count |
| `Derive.CountsAreCardinalities` | internal/derive/derive.go:73-82 | the two counts are the numbers of list positions holding an agent, and a blocked agent, of the workspace |
| `Derive.Desired` | internal/derive/derive.go:56-92 | the built map assigns every owned key what it should hold |
| `Derive.DesiredShape` | internal/derive/derive.go:49-54 | the map is complete over the owned keys and sets exactly one status key |
| `Derive.StatusValue` | internal/derive/derive.go:62-71 | the set status key holds the workspace's label, or in mode "status" the status word, or "none" without one |
| `Derive.CountValues` | internal/derive/derive.go:73-90 | each count key is absent for zero and otherwise a decimal that reads back as the number of list positions with an agent, and a blocked agent, of the workspace |
| `Derive.PublishedCounts` | internal/derive/derive.go:83-90 | the published decimal counts read back as the true counts (absent is zero), and blocked never exceeds all |
| `Derive.AgentsConserved` | internal/derive/derive.go:73-90 | over distinct workspaces the published agent counts sum to the number of agents that belong to one of them |
| `Derive.DesiredPermutes` | internal/derive/derive.go:73-82 | the order of the agent list does not matter |
| `Herdr.Server.Apply` | internal/daemon/run_test.go:99-119 | setting and clearing keys one at a time in any order gives the overlaid entries and leaves other workspaces alone |
| `Herdr.Server.ReportWorkspaceMetadata` | internal/herdrapi/client.go:118-130 | the whole new server state and the returned error for every fate of the call, including an error after the effect |
| `Herdr.WrittenTwice` | internal/daemon/run_test.go:104-118 | a write is idempotent and keeps foreign entries with their expiry |
| `Herdr.ObserveWritten` | internal/daemon/run_test.go:121-136 | a snapshot taken while the lifetime runs reports the old report overlaid with the write |
| `Herdr.OverlayOwned` | internal/controller/controller.go:120-131 | an overlay by a complete map fixes the owned part whatever was there, and nothing else |
| `Herdr.OverlayFixed` | internal/controller/controller.go:117-124 | a write changes nothing exactly if every cleared key is absent and every set key has its value |
| `Herdr.ReportEffect` | internal/herdrapi/client.go:118-130 | one report call entry by entry: what is set, with which expiry, what is cleared, and that everything else stays; nothing changes for a call that does not take effect |
| `Herdr.ReportShows` | internal/daemon/run_test.go:121-136 | a snapshot shows exactly the entries that have not expired, with their values |
| `Reconciling.SkippedExactly` | internal/controller/controller.go:82-86 | no call is made exactly for a young record and a report that shows every wanted token and no other owned one |
| `Reconciling.JobsExactly` | internal/controller/controller.go:78-84 | each workspace is compared with the map derived from it and the whole agent list |
| `Runs.DisturbEffect` | internal/controller/controller.go:43-47 | what an overwrite, a clear and a restart do to a workspace's entries |
| `Controller.ObservedMatchesDesired` | internal/controller/controller.go:133-147 | in any iteration order, true exactly when writing the wanted map over the report would change nothing |
| `Controller.Controller.constructor` | internal/controller/controller.go:29-31 | a new controller has an empty cache |
| `Controller.Controller.Invalidate` | internal/controller/controller.go:52-54 | the cache is empty afterwards and nothing is tracked |
| `Controller.Controller.Reconcile` | internal/controller/controller.go:73-107 | count, error, cache and server after the pass are those of the specified pass |
| `Controller.Controller.Prune` | internal/controller/controller.go:101-105 | exactly the records of seen workspaces remain |
| `PassEffect.Listed` | internal/controller/controller.go:78-99 | a listed workspace's record becomes now exactly when a call is made and accepted and is kept otherwise; its server entries change exactly when a call reaches the server |
| `PassEffect.Unlisted` | internal/controller/controller.go:101-105 | an unlisted workspace has no record afterwards and its entries are untouched |
| `PassEffect.ReturnedCount` | internal/controller/controller.go:97-106 | the count is the number of workspaces whose call succeeded |
| `PassEffect.ReturnedError` | internal/controller/controller.go:89-96 | the error is that of the first failure in list order, and there is none exactly when no call failed |
| `SelfHeal.OneTickHeals` | internal/controller/controller.go:56-67 | from any cache and any server contents, an error-free tick leaves the wanted values on the owned keys until one of them lapses, and foreign entries untouched |
| `SelfHeal.ForeignIndependent` | internal/controller/controller.go:126-132 | over whole runs, foreign entries evolve the same whatever the cache held and wherever it was invalidated |
| `SelfHeal.InvalidateIrrelevant` | internal/controller/controller.go:36-51 | inserting invalidations anywhere in a run, or starting from another cache, never changes what is reported after an error-free tick |
| `NoLapse.StatusAtEnd` | internal/controller/controller.go:78-99 | the status tokens held at an instant after all ticks are those of the final state, whatever others did to other keys |
| `NoLapse.RoomyNeverLapses` | internal/controller/controller.go:69-72 | in every run in which nobody else touches the status tokens and successful ticks are at most `gap` apart, exactly one status token is live at every instant, if the policy leaves room |
| `NoLapse.TightLapses` | internal/controller/controller.go:82-86 | if it does not, some run lapses |
| `NoLapse.NoLapseExactly` | internal/controller/controller.go:82-88 | never lapsing is equivalent to heartbeat age plus gap fitting into the granted lifetime |
| `NoLapse.MissedPolls` | internal/config/config.go:44-46 | for a validated configuration, k missed polls are survived in every run exactly when the arithmetic says so |
| `NoLapse.OneMissedPoll` | internal/config/config.go:58-61 | with a whole-millisecond lifetime one missed poll never costs a token |
| `NoLapse.FloorIsExact` | internal/config/config.go:58-61 | for lifetimes that are multiples of three milliseconds the floor of three polls is exactly what one missed poll needs |
| `NoLapse.SubMillisecondLapses` | internal/config/config.go:58-61 | a validated configuration with a fractional millisecond for which one missed poll does cost a token |
| `NoLapse.TwoMissedPollsLapse` | internal/config/config.go:44-46 | a validated configuration for which two missed polls cost a token |
| `NoLapse.DefaultSurvivesNineteen` | internal/config/config.go:35-42 | the default configuration survives nineteen missed polls |
| `NoLapse.DefaultFailsAtTwenty` | internal/config/config.go:35-42 | and not twenty |
| `WriteBound.WritesBounded` | internal/controller/controller.go:82-98 | in runs whose calls succeed: writes are at most one, plus changes of the wanted map, foreign changes and lapses, dropped records, and full heartbeats |
| `WriteBound.LedgerCounts` | internal/controller/controller.go:82-98 | each number in that bound is the number of events at which the thing happens: a call, a dropped record, a changed want, foreign interference, a lapse |
| `WriteBound.RecordsSane` | internal/controller/controller.go:97-105 | over any run, whatever fails, every record names a workspace of the last tick and is not in the future |
| `WriteBound.TrackedBounded` | internal/controller/controller.go:33-34 | the number of tracked workspaces never exceeds those last listed |
| `Daemon.Run` | internal/daemon/daemon.go:67-141 | cache, server and waits after any script of polls are those of the specified loop |
| `Daemon.BackoffClosedForm` | internal/daemon/daemon.go:74-109 | the wait after the k-th failure in a row is min(base 2^(k-1), max), it resets on success, and the failure flag says whether the last poll failed |
| `Daemon.OutageLength` | internal/daemon/daemon.go:99-107 | the total wait of a streak of failures in closed form, for the m at which doubling reaches the cap |
| `Daemon.CapReached` | internal/daemon/daemon.go:104-106 | there is such an m for every base up to the cap |
| `Daemon.ShippedOutage` | internal/daemon/daemon.go:54-57 | with 250 ms and 5 s: base (2^k-1) for up to five failures, then 7.75 s and five more for each |
| `Daemon.OutageChangesNothing` | internal/daemon/daemon.go:94-108 | however long, a streak of failed or empty snapshots changes neither cache nor server |
| `Daemon.IterateOnNothing` | internal/daemon/daemon.go:94-108 | a failed call or a payload without workspaces keeps cache and server, sets the flag, sleeps the backoff and doubles it up to the cap |
| `Daemon.IterateOnSnapshot` | internal/daemon/daemon.go:109-140 | any other reply resets the backoff, clears the flag, and reconciles from an empty cache exactly after a failure |
| `Daemon.NothingChangesNothing` | internal/herdrapi/client.go:112-114 | if the last k replies failed or listed no workspace, cache and server are as before them and k backoffs were slept |
| `Daemon.RecoveryWritesAll` | internal/daemon/daemon.go:111-133 | the first success after an outage calls the server for every listed workspace whatever it reports |
| `Daemon.RecoveryAfterNothing` | internal/daemon/daemon.go:111-133 | the same said on the replies: after one that failed or listed nothing |
| `Daemon.LoopIsRun` | internal/daemon/daemon.go:89-140 | against a server that reports honestly, the loop is the run of its events, so what holds of runs holds of the daemon |
| `Daemon.TickOfIsComplete` | internal/controller/controller.go:78-80 | every tick of the loop wants complete maps with one status key |
| `Daemon.LoopIsProper` | internal/daemon/daemon.go:89-140 | the loop's events form a well-timed run |
| `Daemon.EventsAfterFirst` | internal/daemon/daemon.go:89-140 | a success in front of a script changes nothing about the events that follow it |
| `Daemon.DuringIsStatusAt` | internal/daemon/daemon.go:89-140 | the status tokens on the server while the loop runs are those of the run of its events |
| `Daemon.DaemonKeepsOneStatus` | internal/daemon/daemon.go:59-62 | for the loop itself, against an honest server, from any state: with a validated whole-millisecond configuration and successful ticks at most two polls apart, the server holds exactly one live status token at every instant from the first write on |
| `Daemon.DaemonLeavesOneStatus` | internal/daemon/daemon.go:59-62 | in particular in the server state the loop ends with |
| `LockProtocol.InvStep` | cmd/herdr-tokens/main.go:107-132 | every step of every process, crashes and signals included, keeps the lock and PID-file invariant |
| `LockProtocol.AtMostOneDaemon` | cmd/herdr-tokens/main.go:107-132 | in every reachable state at most one daemon is past the lock, it is the holder, and from writing the PID file to removing it the file names it |
| `StepEffects.CrashEffect` | internal/daemon/daemon.go:163-171 | a process that dies anywhere is gone, its lock is free, the PID file and all others stay |
| `StepEffects.TerminateEffect` | cmd/herdr-tokens/main.go:129-131 | SIGTERM makes a daemon in its run loop drain and ends anybody else |
| `StepEffects.GiveUpEffect` | cmd/herdr-tokens/main.go:95-127 | giving up ends a process, except that a daemon with the lock still has to close it |
| `StepEffects.AcquireEffect` | internal/daemon/daemon.go:175-191 | a free lock goes to whoever asks; with a taken one a stop goes on to the PID file and anybody else exits |
| `StepEffects.ReleaseEffect` | cmd/herdr-tokens/main.go:175-179 | a probe lets go of the lock: the start goes on, the stop is done |
| `StepEffects.SpawnEffect` | cmd/herdr-tokens/main.go:205-218 | the start is replaced by a daemon that has yet to try for the lock |
| `StepEffects.DaemonEffects` | cmd/herdr-tokens/main.go:111-132 | the daemon's own steps: which of them touch the PID file, and that closing the lock ends it |
| `StepEffects.ReadEffect` | cmd/herdr-tokens/main.go:248-253 | the pid in the file becomes the target, without one the stop is done |
| `StepEffects.SignalIsTerminate` | cmd/herdr-tokens/main.go:254-264 | the signal does to the target what SIGTERM does, and the stop is done |
| `StepEffects.NeverStale` | internal/daemon/daemon.go:163-171 | the lock is free again exactly when its holder has exited or is a start that let go of it, and never changes hands otherwise |
| `StepEffects.LockAfterCrash` | cmd/herdr-tokens/main.go:135-141 | whoever held the lock when it died, a start that asks next gets it |
| `StepEffects.CrashLeavesFile` | cmd/herdr-tokens/main.go:135-141 | a run from nothing to a killed daemon: lock free, nobody running, its PID file left over |
| `StepEffects.StartAfterCrash` | cmd/herdr-tokens/main.go:135-141 | a start after it gets the lock |
| `LockProtocol.FileOnlyWhileHeld` | cmd/herdr-tokens/main.go:122-129 | where no daemon dies between writing its pid and its cleanup, the file names a process exactly while there is such a daemon, it names that one, and that one holds the lock |
| `Races.RacingStep` | cmd/herdr-tokens/main.go:164-218 | the inductive invariant of a race: somebody who can still become the daemon is always left |
| `Races.OneDaemonSurvives` | cmd/herdr-tokens/main.go:135-218 | every complete interleaving of any number of starts and their children ends with exactly one daemon, holding the lock and named by the file |
| `Races.StartIsIdempotent` | cmd/herdr-tokens/main.go:135-141 | with a daemon in its run loop and any number of starts and children anywhere in their course, every race ends with that very daemon alone |
| `Races.RacesEnd` | cmd/herdr-tokens/main.go:164-218 | no race of N starts lasts longer than 7N steps |
| `Races.ProbeTurnsChildAway` | cmd/herdr-tokens/main.go:175-179 | a run in which one start's probe makes another start's child step aside |
| `Races.StopHitsTheDaemon` | cmd/herdr-tokens/main.go:248-261 | if one daemon is in its loop when stop reads and when it signals, that daemon gets the signal and drains |
| `Races.StopWithLockSignalsNobody` | cmd/herdr-tokens/main.go:235-241 | a stop that got the lock neither reads nor signals, whatever the file says |
| `Races.ReadFindsDaemon` | cmd/herdr-tokens/main.go:248-253 | at every reachable read, the pid is a serving daemon's exactly when the lock is held by one, and then it is that one |
| `Races.SignalFindsDaemon` | cmd/herdr-tokens/main.go:221-262 | the signal reaches the serving daemon exactly when at that moment one holds the lock and the file still names what was read; otherwise whoever bears the pid is killed; nobody else is touched |
| `Races.StopMeetsProbe` | cmd/herdr-tokens/main.go:221-226 | a run in which stop kills a bystander because it met a start's probe |
| `Races.StopReadsLate` | cmd/herdr-tokens/main.go:248-253 | the same with the lock free again at the read |
| `Races.PidRecycled` | cmd/herdr-tokens/main.go:249-262 | a run in which the read finds the daemon and the signal a stranger |
| `Races.StartStepsAside` | cmd/herdr-tokens/main.go:164-169 | a start steps aside exactly when the lock is taken; a daemon is then past the lock exactly when the holder does not merely probe |
| `Races.StopTurnsStartAway` | cmd/herdr-tokens/main.go:138-141 | a run in which a stop's probe makes a start report a running daemon, and nobody runs in the end |
| `Decimal.ParseItoa` | internal/derive/derive.go:84-89 | decimal rendering is injective: parsing gives the number back |
| `Decimal.Pad12Exact` | scripts/sanitize.py:62-67 | padding keeps the number, and gives twelve digits exactly below 10^12 |
| `FixtureSchema.ValidateFixture` | internal/herdrapi/schema.go:495-507 | the reported list is a permutation of the specified violations, and empty exactly when the document fits the schema at every depth |
| `Validator.Report.CheckValue` | internal/herdrapi/schema.go:227-359 | a checker appends exactly its violations and keeps those already there |
| `Validator.Report.ValidateObject` | internal/herdrapi/schema.go:206-223 | in any iteration order, the violations of the fields and of the missing required names |
| `Validator.Report.ReportMissing` | internal/herdrapi/schema.go:215-222 | one violation per missing required name |
| `Validator.Report.CheckItems` | internal/herdrapi/schema.go:316-333 | the violations of every element at its index |
| `Validator.Report.CheckTokens` | internal/herdrapi/schema.go:340-359 | the violations of a tokens object, key by key |
| `Validator.ReportsNothingIffConforms` | internal/herdrapi/schema.go:9-24 | for any schema, nothing is reported exactly when the value satisfies the closed-schema predicate at every depth |
| `Validator.LeafComplaint` | internal/herdrapi/schema.go:227-303 | a leaf checker complains exactly about values that do not hold, by type for the wrong kind and by value otherwise |
| `Leaves.LeavesExactly` | internal/herdrapi/schema.go:166-303 | what each leaf checker accepts: numbers, booleans, strings, one word, one of some words, null or such a word, a pattern, a status word or label |
| `Leaves.LeafReport` | internal/herdrapi/schema.go:227-303 | a refused leaf is one violation at its own path, with the reason for its kind |
| `Leaves.WorkspaceIdPattern` | internal/herdrapi/schema.go:117 | exactly "w" and digits |
| `Leaves.TabIdPattern` | internal/herdrapi/schema.go:128 | exactly "w", digits, ":t" and at least one capital letter or digit |
| `Leaves.PaneIdPattern` | internal/herdrapi/schema.go:130 | exactly "w", digits, ":p" and at least one capital letter or digit |
| `Leaves.LabelPattern` | internal/herdrapi/schema.go:137 | exactly "space-" or "space-x-" and small letters, or "tab-" and digits |
| `Leaves.ProjectPathPattern` | internal/herdrapi/schema.go:139 | exactly the project prefix and digits |
| `Leaves.TerminalIdPattern` | internal/herdrapi/schema.go:140 | exactly "term_" and twelve digits |
| `Leaves.SessionUuidPattern` | internal/herdrapi/schema.go:141 | exactly the fixed prefix and twelve digits |
| `Leaves.CountPattern` | internal/herdrapi/schema.go:146 | exactly one or more digits |
| `Leaves.ContainerReport` | internal/herdrapi/schema.go:305-349 | a value of the wrong container kind is one violation at its own path; null tokens are none |
| `Leaves.MissingReport` | internal/herdrapi/schema.go:215-222 | a name is reported missing once, under that name, exactly if it is required and absent |
| `TableKinds.SessionTable` | internal/herdrapi/schema.go:363-371 | which fields a session has, what each carries, and that only the value is required |
| `TableKinds.ScrollTable` | internal/herdrapi/schema.go:373-377 | the same for scroll positions |
| `TableKinds.RectTable` | internal/herdrapi/schema.go:379-384 | the same for rectangles |
| `TableKinds.LayoutPaneTable` | internal/herdrapi/schema.go:386-390 | the same for the panes of a layout |
| `TableKinds.SplitTable` | internal/herdrapi/schema.go:392-398 | the same for splits |
| `TableKinds.LayoutTable` | internal/herdrapi/schema.go:400-408 | the same for layouts |
| `TableKinds.WorkspaceTable` | internal/herdrapi/schema.go:410-420 | the same for workspaces |
| `TableKinds.AgentTable` | internal/herdrapi/schema.go:422-437 | the same for agents |
| `TableKinds.TabTable` | internal/herdrapi/schema.go:439-447 | the same for tabs |
| `TableKinds.PaneTable` | internal/herdrapi/schema.go:449-464 | the same for panes |
| `TableKinds.SnapshotFields` | internal/herdrapi/schema.go:466-477 | which fields a snapshot has |
| `TableKinds.SnapshotCollections` | internal/herdrapi/schema.go:466-471 | which table governs each of its collections |
| `TableKinds.SnapshotPlain` | internal/herdrapi/schema.go:472-476 | what its other fields carry |
| `TableKinds.SnapshotRequired` | internal/herdrapi/schema.go:466-477 | only workspaces and agents are required |
| `TableKinds.RootTable` | internal/herdrapi/schema.go:479-489 | the root's fields, what they carry, and which are required |
| `Locality.OrderIrrelevant` | internal/herdrapi/schema.go:206-223 | the multiset of violations is the same for any field order at any depth |
| `Locality.CheckWithin` | internal/herdrapi/schema.go:190-192 | every violation lies at or below the checked path |
| `Locality.ReplacementIsLocal` | internal/herdrapi/schema.go:190-223 | replacing one value changes only violations at or below its path |
| `Locality.UnknownKeyAddsOne` | internal/herdrapi/schema.go:206-213 | a key the schema does not name, inserted into any object it reaches, adds exactly one violation at that key's path |
| `ProducerSchema.RulesMirrorTokens` | internal/herdrapi/schema.go:83-97 | the schema's token keys are the owned keys, with the right rule each |
| `ProducerSchema.PublishedTokensConform` | internal/derive/derive.go:56-92 | for a conformant label and status, any agents and either mode, the published tokens pass |
| `Numbering.PlaceholderInjective` | scripts/sanitize.py:60-68 | different numbers give different placeholders |
| `Numbering.NumberedAll` | scripts/sanitize.py:60-68 | different values never share a placeholder and numbers stay within the dictionary's size |
| `Numbering.FirstOccurrence` | scripts/sanitize.py:60-68 | a value's number is one more than the number of distinct values before its first occurrence |
| `Numbering.TerminalShape` | scripts/sanitize.py:60-63 | a terminal placeholder matches the schema exactly below 10^12 |
| `Numbering.SessionShape` | scripts/sanitize.py:65-68 | a session placeholder matches the schema exactly below 10^12 |
| `Numbering.ProjectShape` | scripts/sanitize.py:16-20 | a project placeholder always matches the schema |
| `Sanitize.StripSlashes` | scripts/sanitize.py:17 | the string up to its last character that is no slash |
| `Sanitize.LastSegment` | scripts/sanitize.py:17 | the longest suffix without a slash |
| `Sanitize.Base` | scripts/sanitize.py:17 | the slash-free suffix of the stripped path that cannot be made longer, or "root" for a path of slashes |
| `Sanitize.Letter` | scripts/sanitize.py:102 | the character i places after 'a', a lower-case letter exactly for the first 26 |
| `Sanitize.Sanitizer.Project` | scripts/sanitize.py:16-20 | the path's last segment is numbered on first occurrence and its placeholder returned |
| `Sanitize.Sanitizer.ScrubPaths` | scripts/sanitize.py:22-41 | the rebuilt tree and the dictionary after it |
| `Sanitize.Sanitizer.NextTerminalId` | scripts/sanitize.py:60-63 | as the numbering function says |
| `Sanitize.Sanitizer.NextSessionUuid` | scripts/sanitize.py:65-68 | as the numbering function says |
| `Sanitize.Sanitizer.ScrubNode` | scripts/sanitize.py:70-86 | the tree with identifiers renamed, and both dictionaries after it |
| `Sanitize.Sanitizer.EditLoop` | scripts/sanitize.py:95-104 | every record of one collection edited, the others untouched |
| `Sanitize.Sanitizer.Relabel` | scripts/sanitize.py:95-104 | the five loops in order |
| `Sanitize.Sanitizer.Run` | scripts/sanitize.py:15-104 | all passes from empty dictionaries |
| `PathRenaming.PathsByDictionary` | scripts/sanitize.py:22-41 | the path pass is a plain renaming by its own final dictionary, and touches nothing but paths |
| `PathRenaming.SameProjectKept` | scripts/sanitize.py:30-32 | between any two places holding a home path, results are equal exactly when the last segments are |
| `PathRenaming.PathsTwice` | scripts/sanitize.py:22-43 | applying the path pass again changes nothing |
| `Everywhere.PathEverywhere` | scripts/sanitize.py:22-41 | every string at every depth: below /Users/ a project path numbered by its last segment, below ~/ the fixed placeholder, otherwise unchanged |
| `Everywhere.ProjectNumber` | scripts/sanitize.py:16-20 | the number in a project path is one more than the number of different last segments before its first occurrence |
| `Renaming.ScrubIsMap` | scripts/sanitize.py:70-86 | the pass with its growing dictionary is a plain renaming by any extension of the final one |
| `Renaming.ScrubbedByDictionary` | scripts/sanitize.py:70-88 | the pass renames by its own final dictionaries and changes nothing else |
| `Renaming.EqualityKept` | scripts/sanitize.py:70-88 | between any two places holding an identifier of one kind, equality is kept and reflected |
| `Renaming.NumberRenamed` | scripts/sanitize.py:60-68 | numbering does not see the names: an injective renaming of the values gives the same numbers |
| `Renaming.MapCompose` | scripts/sanitize.py:70-86 | renaming the tree twice is renaming it once by the composition |
| `Renaming.NamesForgotten` | scripts/sanitize.py:70-88 | any injective renaming of the input's ids gives the same sanitized tree |
| `Renaming.ScrubTwice` | scripts/sanitize.py:70-88 | applying the pass again changes nothing |
| `Everywhere.TerminalEverywhere` | scripts/sanitize.py:71-81 | the terminal id of every object at any depth is replaced by the one its dictionary has for it |
| `Everywhere.SessionEverywhere` | scripts/sanitize.py:71-79 | so is the value of every object's session |
| `Everywhere.OthersEverywhere` | scripts/sanitize.py:70-86 | every other plain field of every object stays |
| `Everywhere.TerminalNumber` | scripts/sanitize.py:60-63 | the number in a terminal placeholder is one more than the number of different ids before its first occurrence |
| `Everywhere.SessionNumber` | scripts/sanitize.py:65-68 | the same for sessions |
| `Stages.PathsFit` | scripts/sanitize.py:22-43 | in both directions: a document has a capture's shape exactly if the path pass gives one whose paths satisfy the schema |
| `Stages.OnlyHomeToProject` | scripts/sanitize.py:37-41 | only strings below /Users/ become project paths |
| `Stages.IdsFit` | scripts/sanitize.py:70-88 | in both directions: exactly then the identifier pass gives one whose identifiers satisfy the schema too |
| `Stages.ReleasedConforms` | internal/herdrapi/schema.go:479-507 | the last stage is exactly conformance to the fixture schema |
| `TokenPasses.PathsKeepTokens` | scripts/sanitize.py:22-43 | the path pass keeps the number of workspaces, and their tokens conform afterwards exactly if they did before |
| `TokenPasses.IdsKeepTokens` | scripts/sanitize.py:70-88 | so does the identifier pass |
| `Relabelling.SpaceLabelShape` | scripts/sanitize.py:101-102 | the label of workspace i matches the schema exactly when i < 26 |
| `Relabelling.TabLabelShape` | scripts/sanitize.py:103-104 | tab labels always match |
| `Relabelling.EditedRecordFits` | scripts/sanitize.py:95-104 | a record whose titles and label are set satisfies the schema exactly if the rest did and its tokens do |
| `Relabelling.TitledItemsFit` | scripts/sanitize.py:95-99 | the title loop releases agents and panes exactly if they fitted |
| `Relabelling.SpaceItemsFit` | scripts/sanitize.py:101-102 | the label loop releases the workspaces exactly if they fitted, are at most 26, and hold conformant tokens |
| `Relabelling.TabItemsFit` | scripts/sanitize.py:95-104 | title and label loop together release the tabs exactly if they fitted |
| `SanitizeConforms.AfterLoops` | scripts/sanitize.py:95-104 | what each collection holds after all five loops, and that everything else stays |
| `Labels.SpaceLabels` | scripts/sanitize.py:101-102 | the label of workspace i is "space-" and the i-th letter of the alphabet, and nothing else in it changes |
| `Labels.TabLabels` | scripts/sanitize.py:95-104 | the label of tab i is "tab-" and a decimal that reads i + 1, its titles become "shell", and nothing else in it changes |
| `Labels.PaneTitles` | scripts/sanitize.py:95-99 | the titles a pane has become "shell", and nothing else in it changes |
| `Labels.AgentTitles` | scripts/sanitize.py:95-99 | the titles an agent has become "agent", and nothing else in it changes |
| `Labels.OthersKept` | scripts/sanitize.py:95-104 | outside the four collections nothing changes |
| `Labels.SpacesApart` | scripts/sanitize.py:101-102 | no two of the first 26 workspaces share a label |
| `Labels.TabsApart` | scripts/sanitize.py:103-104 | no two tabs share a label |
| `Release.DictionaryConforms` | scripts/sanitize.py:60-68 | fewer than 10^12 identifiers of each kind all get conformant placeholders |
| `Release.SnapshotFits` | scripts/sanitize.py:95-104 | the snapshot comes out of the five loops released exactly if it fitted, with letters for its workspaces and conformant tokens |
| `Release.RelabelledConforms` | scripts/sanitize.py:95-104 | for any document, the result of the last pass conforms exactly if the document fitted before it and lists at most 26 workspaces, all with conformant tokens |
| `Release.SanitizedConforms` | scripts/sanitize.py:22-104 | for any document with fewer than 10^12 identifiers of each kind after the path pass: the sanitized document has no violations exactly if the document has a capture's shape (home paths in the working directory fields included), lists at most 26 workspaces, and the tokens of each conform |
| `Release.SmallCaptureConforms` | scripts/sanitize.py:22-104 | the same for any document with fewer than 10^12 objects, so that every condition is one on the document given |
| `Captures.CaptureOutcome` | scripts/sanitize.py:101-102 | for every n and all tokens, a capture of n such workspaces meets the theorem's hypotheses, and conforms exactly for n up to 26 and conformant tokens |
| `Captures.RealNameRefused` | internal/herdrapi/schema.go:67-92 | one workspace whose status token carries its real name makes the sanitized document fail |
| `Captures.PaneOutcome` | scripts/sanitize.py:22-104 | a capture of one pane with any session value, any terminal id and any working directory, on which every pass acts, conforms exactly for a directory below /Users/ |
| `Captures.TmpRefused` | scripts/sanitize.py:37-41 | a shell in /tmp makes the sanitized document fail |
| `Captures.TildeRefused` | scripts/sanitize.py:23-24 | so does one in a directory written with a tilde, although it is given a placeholder |
| `Captures.HomeAccepted` | scripts/sanitize.py:37-41 | one in a home directory under /Users/ does not |

## Left out

- Release.SanitizedConforms: fewer than 10^12 identifiers of each kind (or objects, in Release.SmallCaptureConforms) is a hypothesis, while the exact bound for a single placeholder is Numbering.TerminalShape and Numbering.SessionShape.
- Sanitize.Sanitizer.ScrubNode: the script renames inside the tree it was given; the model rebuilds the tree, so sharing of one object between two places, which a decoded document cannot have, is not captured.
- Sanitize.Sanitizer.Relabel: where the script would raise an exception (no snapshot object, a record that is no object) the model leaves the value unchanged.
- Sanitize.Letter: beyond position 50000 the model uses one fixed character that is no letter, where the script would go on through the code points and finally fail.
- Validator.Report.CheckValue: paths are sequences of keys and indices and reasons are a datatype; the formatted texts are not modelled.
- FixtureSchema.ValidateFixture: it starts from the decoded document; text that does not parse is reported before this point.
- Herdr.Server.ReportWorkspaceMetadata: the constant source name is not sent; framing, sockets, deadlines and cancellation are reduced to the fate of a call.
- Daemon.Run: the end of the context is the end of the script of polls; the ticker is a wait of unspecified length, and clock readings are given by the script.
- SelfHeal.OneTickHeals: interference happens between ticks, not between the snapshot and the writes of one tick; expiry within a tick is modelled.
- LockProtocol.FileOnlyWhileHeld: nobody but daemons writes or removes the PID file.
- Patterns: no general regular expressions, only matchers for the fixed patterns of the schema.
- TOML and JSON decoding, environment lookups and config.Load: file reading and foreign libraries.
- The textual replacements in scripts/sanitize.py:7-13, which depend on the machine account.
- The hashed state file names: one lock, one PID file per socket.
- The preview command, printing, log files, git hooks and fixture data.
