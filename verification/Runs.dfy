/** Timed runs of the whole system: ticks of the daemon, failed polls, cache invalidations,
    and interference by everything else that can touch the server. */
module Runs {
  import opened Derive
  import opened Herdr
  import opened HerdrApi
  import opened PassEffect
  import opened Prelude
  import opened Reconciling

  /** One listed workspace of a tick: what it should hold and what becomes of a report call for it. */
  datatype Visit = Visit(id: string, want: Tokens, fate: Fate)

  /** Another plugin sets a key, somebody clears a key by hand, or the server restarts empty. */
  datatype Tamper = Overwrite(id: string, key: string, entry: Entry) | Clear(id: string, key: string) | Restart

  /** A tick takes its snapshot at `snapAt`, reads the clock at `now`, and is over at `done`. */
  datatype Event =
    | Tick(snapAt: int, now: int, visits: seq<Visit>, done: int)
    | Missed
    | Invalidated
    | Tampered(op: Tamper)

  function JobAt(v: Visit, store: Store, snapAt: int): Job {
    Job(v.id, Observe(Held(store, v.id), snapAt), v.want)
  }

  /** The snapshot reports what the server holds at the instant it is taken. */
  function JobsAt(visits: seq<Visit>, store: Store, snapAt: int): (jobs: seq<Job>)
    ensures |jobs| == |visits|
  {
    seq(|visits|, i requires 0 <= i < |visits| => JobAt(visits[i], store, snapAt))
  }

  function FatesOf(visits: seq<Visit>): (fates: seq<Fate>)
    ensures |fates| == |visits|
  {
    seq(|visits|, i requires 0 <= i < |visits| => visits[i].fate)
  }

  function TickPass(p: Policy, e: Event, s: Sys): Tally
    requires e.Tick?
  {
    Pass(p, JobsAt(e.visits, s.store, e.snapAt), e.now, FatesOf(e.visits), s)
  }

  function Disturb(op: Tamper, store: Store): Store {
    match op
    case Overwrite(id, key, entry) => store[id := Held(store, id)[key := entry]]
    case Clear(id, key) => store[id := Held(store, id) - {key}]
    case Restart => map[]
  }

  function Step(p: Policy, e: Event, s: Sys): Sys {
    match e
    case Tick(_, _, _, _) => TickPass(p, e, s).sys
    case Missed => s
    case Invalidated => s.(last := map[])
    case Tampered(op) => s.(store := Disturb(op, s.store))
  }

  function Exec(p: Policy, run: seq<Event>, s: Sys): Sys {
    if run == [] then s
    else Step(p, run[|run| - 1], Exec(p, run[..|run| - 1], s))
  }

  predicate DistinctVisits(visits: seq<Visit>) {
    DistinctBy(visits, (v: Visit) => v.id)
  }

  predicate Lists(e: Event, id: string) {
    e.Tick? && exists v :: v in e.visits && v.id == id
  }

  /** The wanted maps are complete and set exactly one status key, as Derive.DesiredShape proves of
      every map the deriver produces. */
  ghost predicate Complete(e: Event) {
    e.Tick? ==> DistinctVisits(e.visits) && forall v | v in e.visits :: v.want.Keys == OWNED && OneStatusSet(v.want)
  }

  /** Instants do not run backwards within a tick. */
  predicate Ordered(e: Event, from: int) {
    e.Tick? ==>
      && from <= e.snapAt <= e.now <= e.done
      && forall v | v in e.visits :: e.now <= v.fate.at <= e.done
  }

  /** The end of the last tick. */
  function Clock(run: seq<Event>, from: int): int {
    if run == [] then from
    else
      var e := run[|run| - 1];
      if e.Tick? then e.done else Clock(run[..|run| - 1], from)
  }

  /** A run of complete ticks on a clock that never runs backwards. */
  ghost predicate Proper(run: seq<Event>, from: int) {
    run == [] ||
    (var n := |run| - 1;
     Proper(run[..n], from) && Complete(run[n]) && Ordered(run[n], Clock(run[..n], from)))
  }

  /** In state s, tick e attempts a report call for visit v. */
  predicate Calls(p: Policy, s: Sys, e: Event, v: Visit)
    requires e.Tick?
  {
    MustWrite(p, JobAt(v, s.store, e.snapAt), s.last, e.now)
  }

  /** How a tick treats one listed workspace. */
  lemma OnVisit(p: Policy, e: Event, s: Sys, v: Visit)
    requires e.Tick? && DistinctVisits(e.visits) && v in e.visits
    ensures var s' := Step(p, e, s);
            && RecordOf(s'.last, v.id)
               == (if Calls(p, s, e, v) && v.fate.Accepted? then Some(e.now) else RecordOf(s.last, v.id))
            && Held(s'.store, v.id)
               == if Calls(p, s, e, v) && v.fate.Reaches()
                  then Written(Held(s.store, v.id), v.want, ExpiryOf(p.ttlMs, v.fate.at))
                  else Held(s.store, v.id)
  {
    var jobs, fates := JobsAt(e.visits, s.store, e.snapAt), FatesOf(e.visits);
    var i :| 0 <= i < |e.visits| && e.visits[i] == v;
    assert jobs[i] == JobAt(v, s.store, e.snapAt);
    Listed(p, jobs, e.now, fates, s, i);
  }

  /** How a tick treats a workspace it does not list. */
  lemma OffVisit(p: Policy, e: Event, s: Sys, id: string)
    requires e.Tick? && !Lists(e, id)
    ensures var s' := Step(p, e, s);
            id !in s'.last && Held(s'.store, id) == Held(s.store, id)
  {
    var jobs, fates := JobsAt(e.visits, s.store, e.snapAt), FatesOf(e.visits);
    forall i | 0 <= i < |jobs| ensures jobs[i].id != id {
      assert e.visits[i] in e.visits;
    }
    Unlisted(p, jobs, e.now, fates, s, id);
  }

  /** No owned entry that is live at `from` has lapsed by t. */
  predicate Steady(m: Entries, from: int, t: int) {
    from <= t && forall k | k in m && k in OWNED && Live(m[k], from) :: Live(m[k], t)
  }

  function Published(want: Tokens): map<string, string> {
    map k | k in want && want[k].Some? :: want[k].value
  }

  /** What interference does, entry by entry. */
  lemma DisturbEffect(op: Tamper, store: Store, id: string)
    ensures op == Restart ==> Held(Disturb(op, store), id) == map[]
    ensures op.Overwrite? && op.id == id ==>
              var m := Held(Disturb(op, store), id);
              && op.key in m && m[op.key] == op.entry && m.Keys == Held(store, id).Keys + {op.key}
              && forall k | k in Held(store, id) && k != op.key :: m[k] == Held(store, id)[k]
    ensures op.Clear? && op.id == id ==>
              var m := Held(Disturb(op, store), id);
              && m.Keys == Held(store, id).Keys - {op.key} && forall k | k in m :: m[k] == Held(store, id)[k]
    ensures (op.Overwrite? || op.Clear?) && op.id != id ==> Held(Disturb(op, store), id) == Held(store, id)
  {
  }
}
