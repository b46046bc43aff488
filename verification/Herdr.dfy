/** The Herdr server as this plugin sees it: per workspace a map from token key to a value with
    an expiry instant. It follows the repository's own server model (internal/daemon/run_test.go)
    with lifetimes added. */
module Herdr {
  import opened Config
  import opened HerdrApi
  import opened Prelude

  /** A token without an expiry never lapses. */
  datatype Entry = Entry(value: string, expiry: Option<int>)
  type Entries = map<string, Entry>
  type Store = map<string, Entries>

  predicate Live(e: Entry, t: int) {
    e.expiry.None? || t < e.expiry.value
  }

  function Held(store: Store, id: string): Entries {
    if id in store then store[id] else map[]
  }

  /** What a snapshot taken at instant t reports: expired entries are gone. */
  function Observe(m: Entries, t: int): map<string, string> {
    map k | k in m && Live(m[k], t) :: m[k].value
  }

  /** The entries after a write: named keys are set or cleared, all others stay. */
  function Written(m: Entries, want: Tokens, expiry: Option<int>): Entries {
    map k | k in m.Keys + want.Keys && (k in want ==> want[k].Some?) ::
      if k in want then Entry(want[k].value, expiry) else m[k]
  }

  /** The same effect on reported values. */
  function Overlay(observed: map<string, string>, want: Tokens): map<string, string> {
    map k | k in observed.Keys + want.Keys && (k in want ==> want[k].Some?) ::
      if k in want then want[k].value else observed[k]
  }

  /** The part of a report or of the entries that a plugin does not own. */
  function Except<T>(m: map<string, T>, keys: set<string>): map<string, T> {
    m - keys
  }

  function Only<T>(m: map<string, T>, keys: set<string>): map<string, T> {
    map k | k in m && k in keys :: m[k]
  }

  function ExpiryOf(ttlMs: int, at: int): Option<int> {
    if ttlMs > 0 then Some(at + ttlMs * MILLISECOND) else None
  }

  /** What becomes of one report RPC that reaches the server at instant `at`. An RPC that
      returns an error may still have been applied (a timeout while reading the response). */
  datatype Fate = Accepted(at: int) | Rejected(at: int, error: Error, applied: bool) {
    predicate Reaches() {
      Accepted? || applied
    }
  }

  function Reported(store: Store, id: string, want: Tokens, ttlMs: int, fate: Fate): Store {
    if fate.Reaches() then store[id := Written(Held(store, id), want, ExpiryOf(ttlMs, fate.at))] else store
  }

  class Server {
    var store: Store

    constructor ()
      ensures store == map[]
    {
      store := map[];
    }

    /** Sets and clears keys one at a time, in whatever order the map yields them. */
    method Apply(id: string, want: Tokens, expiry: Option<int>)
      modifies this
      ensures store == old(store)[id := Written(Held(old(store), id), want, expiry)]
    {
      var current := Held(store, id);
      ghost var start := current;
      var pending := want.Keys;
      while pending != {}
        invariant pending <= want.Keys
        invariant forall k :: k in current <==>
                    if k in want && k !in pending then want[k].Some? else k in start
        invariant forall k | k in current ::
                    current[k] == if k in want && k !in pending then Entry(want[k].value, expiry) else start[k]
      {
        var k :| k in pending;
        if want[k].None? {
          current := current - {k};
        } else {
          current := current[k := Entry(want[k].value, expiry)];
        }
        pending := pending - {k};
      }
      assert current == Written(start, want, expiry);
      store := store[id := current];
    }

    method ReportWorkspaceMetadata(id: string, want: Tokens, ttlMs: int, fate: Fate)
      returns (err: Option<Error>)
      modifies this
      ensures store == Reported(old(store), id, want, ttlMs, fate)
      ensures err == if fate.Accepted? then None else Some(fate.error)
    {
      if fate.Reaches() {
        Apply(id, want, ExpiryOf(ttlMs, fate.at));
      }
      err := if fate.Accepted? then None else Some(fate.error);
    }
  }

  /** Writing twice is writing once; keys outside the write keep value and expiry. */
  lemma WrittenTwice(m: Entries, want: Tokens, expiry: Option<int>)
    ensures Written(Written(m, want, expiry), want, expiry) == Written(m, want, expiry)
    ensures Except(Written(m, want, expiry), want.Keys) == Except(m, want.Keys)
  {
  }

  /** While the new lifetime runs, a snapshot after a write reports the old report overlaid. */
  lemma ObserveWritten(m: Entries, want: Tokens, expiry: Option<int>, t: int)
    requires expiry.None? || t < expiry.value
    ensures Observe(Written(m, want, expiry), t) == Overlay(Observe(m, t), want)
  {
  }

  /** An overlay by a complete map fixes the owned part, whatever was there before. */
  lemma OverlayOwned(observed: map<string, string>, want: Tokens)
    ensures Only(Overlay(observed, want), want.Keys) == map k | k in want && want[k].Some? :: want[k].value
    ensures Except(Overlay(observed, want), want.Keys) == Except(observed, want.Keys)
    ensures Overlay(Overlay(observed, want), want) == Overlay(observed, want)
  {
  }

  /** Writing would change nothing exactly if every cleared key is absent and every set key has its value. */
  lemma OverlayFixed(observed: map<string, string>, want: Tokens)
    ensures Overlay(observed, want) == observed
       <==> forall k | k in want ::
              if want[k].None? then k !in observed else k in observed && observed[k] == want[k].value
  {
    var after := Overlay(observed, want);
    if after == observed {
      forall k | k in want
        ensures if want[k].None? then k !in observed else k in observed && observed[k] == want[k].value
      {
        assert k in after <==> want[k].Some?;
      }
    }
  }

  /** One report call, entry by entry: one that is accepted, or fails after it took effect, sets the named keys with a
      fresh expiry, clears those named with a null, and leaves every other key and workspace alone; any other call
      leaves everything alone. A lifetime of zero or less means no expiry. */
  lemma ReportEffect(store: Store, id: string, want: Tokens, ttlMs: int, fate: Fate)
    ensures var after := Reported(store, id, want, ttlMs, fate);
            var at := fate.at;
            if fate == Accepted(at) || (fate.Rejected? && fate == Rejected(at, fate.error, true)) then
              && id in after
              && (forall k | k in want && want[k].None? :: k !in after[id])
              && (forall k | k in want && want[k].Some? ::
                    k in after[id] && after[id][k].value == want[k].value
                    && after[id][k].expiry == if ttlMs > 0 then Some(at + ttlMs * 1_000_000) else None)
              && (forall k | k !in want :: k in after[id] <==> id in store && k in store[id])
              && (forall k | k !in want && k in after[id] :: after[id][k] == store[id][k])
              && (forall other | other != id :: other in after <==> other in store)
              && (forall other | other != id && other in after :: after[other] == store[other])
            else after == store
  {
  }

  /** What a report shows: exactly the entries that never expire or have not yet. */
  lemma ReportShows(m: Entries, t: int, k: string)
    ensures k in Observe(m, t) <==> k in m && (m[k].expiry == None || t < m[k].expiry.value)
    ensures k in Observe(m, t) ==> Observe(m, t)[k] == m[k].value
  {
  }
}
