/** One-tick self-healing, and the irrelevance of the cache for what is published. */
module SelfHeal {
  import opened Derive
  import opened Herdr
  import opened HerdrApi
  import opened PassEffect
  import opened Prelude
  import opened Reconciling
  import opened Runs

  /** No report call of this tick returned an error. */
  predicate ErrorFree(p: Policy, e: Event, s: Sys) {
    e.Tick? && TickPass(p, e, s).firstErr.None?
  }

  lemma AcceptedIfErrorFree(p: Policy, e: Event, s: Sys, v: Visit)
    requires ErrorFree(p, e, s) && DistinctVisits(e.visits) && v in e.visits && Calls(p, s, e, v)
    ensures v.fate.Accepted?
  {
    var jobs, fates := JobsAt(e.visits, s.store, e.snapAt), FatesOf(e.visits);
    var i :| 0 <= i < |e.visits| && e.visits[i] == v;
    assert jobs[i] == JobAt(v, s.store, e.snapAt);
    ReturnedError(p, jobs, e.now, fates, s);
    assert Attempted(p, jobs, e.now, s, i);
    assert !Fails(p, jobs, e.now, fates, s, i);
  }

  /** From any controller state and any server contents, an error-free tick leaves every listed
      workspace reporting exactly the wanted values on the owned keys, for as long as nothing
      owned lapses, and leaves foreign entries (value and expiry) alone. */
  lemma OneTickHeals(p: Policy, e: Event, s: Sys, v: Visit, t: int)
    requires ErrorFree(p, e, s) && Complete(e) && v in e.visits
    requires p.ttlMs > 0 && Ordered(e, e.snapAt)
    requires Steady(Held(Step(p, e, s).store, v.id), e.snapAt, t)
    ensures Only(Observe(Held(Step(p, e, s).store, v.id), t), OWNED) == Published(v.want)
    ensures Except(Held(Step(p, e, s).store, v.id), OWNED) == Except(Held(s.store, v.id), OWNED)
  {
    OnVisit(p, e, s, v);
    var before, after := Held(s.store, v.id), Held(Step(p, e, s).store, v.id);
    if Calls(p, s, e, v) {
      AcceptedIfErrorFree(p, e, s, v);
      var expiry := ExpiryOf(p.ttlMs, v.fate.at);
      WrittenTwice(before, v.want, expiry);
      OwnedAfterWrite(before, v.want, expiry, e.snapAt, t);
    } else {
      OwnedWhenSkipped(before, v.want, e.snapAt, t);
    }
  }

  lemma OwnedWhenSkipped(m: Entries, want: Tokens, from: int, t: int)
    requires want.Keys == OWNED && Overlay(Observe(m, from), want) == Observe(m, from)
    requires Steady(m, from, t)
    ensures Only(Observe(m, t), OWNED) == Published(want)
  {
    OverlayOwned(Observe(m, from), want);
    assert forall k | k in m && k in OWNED :: Live(m[k], from) <==> Live(m[k], t);
    assert Only(Observe(m, t), OWNED) == Only(Observe(m, from), OWNED);
  }

  lemma OwnedAfterWrite(m: Entries, want: Tokens, expiry: Option<int>, from: int, t: int)
    requires want.Keys == OWNED
    requires expiry.Some? && from < expiry.value
    requires Steady(Written(m, want, expiry), from, t)
    ensures Only(Observe(Written(m, want, expiry), t), OWNED) == Published(want)
  {
  }

  /** The same run without its invalidations. */
  function Strip(run: seq<Event>): seq<Event> {
    if run == [] then []
    else
      var n := |run| - 1;
      if run[n].Invalidated? then Strip(run[..n]) else Strip(run[..n]) + [run[n]]
  }

  ghost predicate SameForeign(a: Store, b: Store) {
    forall id :: Except(Held(a, id), OWNED) == Except(Held(b, id), OWNED)
  }

  lemma TickKeepsForeign(p: Policy, e: Event, s: Sys)
    requires e.Tick? && Complete(e)
    ensures SameForeign(Step(p, e, s).store, s.store)
  {
    forall id
      ensures Except(Held(Step(p, e, s).store, id), OWNED) == Except(Held(s.store, id), OWNED)
    {
      if Lists(e, id) {
        var v :| v in e.visits && v.id == id;
        OnVisit(p, e, s, v);
        WrittenTwice(Held(s.store, id), v.want, ExpiryOf(p.ttlMs, v.fate.at));
      } else {
        OffVisit(p, e, s, id);
      }
    }
  }

  lemma TamperKeepsSame(op: Tamper, a: Store, b: Store)
    requires SameForeign(a, b)
    ensures SameForeign(Disturb(op, a), Disturb(op, b))
  {
    forall id
      ensures Except(Held(Disturb(op, a), id), OWNED) == Except(Held(Disturb(op, b), id), OWNED)
    {
      assert Except(Held(a, id), OWNED) == Except(Held(b, id), OWNED);
      if op.Overwrite? && op.id == id {
        SameAfterKey(Held(a, id), Held(b, id), op.key, op.entry);
      } else if op.Clear? && op.id == id {
        SameAfterClear(Held(a, id), Held(b, id), op.key);
      }
    }
  }

  lemma SameAfterKey(a: Entries, b: Entries, key: string, entry: Entry)
    requires Except(a, OWNED) == Except(b, OWNED)
    ensures Except(a[key := entry], OWNED) == Except(b[key := entry], OWNED)
  {
    var x, y := Except(a[key := entry], OWNED), Except(b[key := entry], OWNED);
    assert forall k | k != key :: (k in x <==> k in Except(a, OWNED)) && (k in y <==> k in Except(b, OWNED));
    assert forall k | k != key && k in x :: x[k] == Except(a, OWNED)[k] && y[k] == Except(b, OWNED)[k];
  }

  lemma SameAfterClear(a: Entries, b: Entries, key: string)
    requires Except(a, OWNED) == Except(b, OWNED)
    ensures Except(a - {key}, OWNED) == Except(b - {key}, OWNED)
  {
    assert Except(a - {key}, OWNED) == Except(a, OWNED) - {key};
    assert Except(b - {key}, OWNED) == Except(b, OWNED) - {key};
  }

  /** Whatever the cache held and wherever it is invalidated, foreign tokens evolve the same way. */
  lemma {:induction false} ForeignIndependent(p: Policy, run: seq<Event>, a: Sys, b: Sys, from: int)
    requires Proper(run, from) && SameForeign(a.store, b.store)
    ensures SameForeign(Exec(p, run, a).store, Exec(p, Strip(run), b).store)
  {
    if run != [] {
      var n := |run| - 1;
      ForeignIndependent(p, run[..n], a, b, from);
      var a', b' := Exec(p, run[..n], a), Exec(p, Strip(run[..n]), b);
      if !run[n].Invalidated? {
        assert Strip(run)[..|Strip(run)| - 1] == Strip(run[..n]);
        match run[n] {
          case Tick(_, _, _, _) =>
            TickKeepsForeign(p, run[n], a');
            TickKeepsForeign(p, run[n], b');
          case Tampered(op) =>
            TamperKeepsSame(op, a'.store, b'.store);
          case Missed =>
        }
      }
    }
  }

  /** Inserting invalidations anywhere in a run, and starting from another cache, never changes what is
      published after an error-free tick. */
  lemma InvalidateIrrelevant(p: Policy, run: seq<Event>, e: Event, a: Sys, b: Sys, from: int, v: Visit, t: int)
    requires Proper(run + [e], from) && SameForeign(a.store, b.store) && p.ttlMs > 0
    requires ErrorFree(p, e, Exec(p, run, a)) && ErrorFree(p, e, Exec(p, Strip(run), b))
    requires v in e.visits
    requires Steady(Held(Exec(p, run + [e], a).store, v.id), e.snapAt, t)
    requires Steady(Held(Exec(p, Strip(run + [e]), b).store, v.id), e.snapAt, t)
    ensures Observe(Held(Exec(p, run + [e], a).store, v.id), t)
         == Observe(Held(Exec(p, Strip(run + [e]), b).store, v.id), t)
  {
    assert (run + [e])[..|run|] == run;
    assert Strip(run + [e]) == Strip(run) + [e];
    assert (Strip(run) + [e])[..|Strip(run)|] == Strip(run);
    OneTickHeals(p, e, Exec(p, run, a), v, t);
    OneTickHeals(p, e, Exec(p, Strip(run), b), v, t);
    ForeignIndependent(p, run + [e], a, b, from);
    ByParts(Held(Exec(p, run + [e], a).store, v.id), Held(Exec(p, Strip(run + [e]), b).store, v.id), t);
  }

  lemma ByParts(m: Entries, n: Entries, t: int)
    requires Except(m, OWNED) == Except(n, OWNED)
    requires Only(Observe(m, t), OWNED) == Only(Observe(n, t), OWNED)
    ensures Observe(m, t) == Observe(n, t)
  {
    forall k
      ensures k in Observe(m, t) <==> k in Observe(n, t)
      ensures k in Observe(m, t) ==> Observe(m, t)[k] == Observe(n, t)[k]
    {
      if k in OWNED {
        assert k in Only(Observe(m, t), OWNED) <==> k in Only(Observe(n, t), OWNED);
      } else {
        assert k in Except(m, OWNED) <==> k in Except(n, OWNED);
        assert k in m ==> Except(m, OWNED)[k] == m[k];
      }
    }
  }
}
