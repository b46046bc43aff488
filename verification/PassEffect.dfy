/** The exact effect of one reconcile pass under arbitrary per-workspace failures. */
module PassEffect {
  import opened Herdr
  import opened Prelude
  import opened Reconciling

  predicate DistinctJobs(jobs: seq<Job>) {
    DistinctBy(jobs, (job: Job) => job.id)
  }

  function RecordOf(last: map<string, int>, id: string): Option<int> {
    if id in last then Some(last[id]) else None
  }

  /** The report call for job i is made, judged by the state before the pass. */
  predicate Attempted(p: Policy, jobs: seq<Job>, now: int, start: Sys, i: nat)
    requires i < |jobs|
  {
    MustWrite(p, jobs[i], start.last, now)
  }

  predicate Succeeds(p: Policy, jobs: seq<Job>, now: int, fates: seq<Fate>, start: Sys, i: nat)
    requires |fates| == |jobs| && i < |jobs|
  {
    Attempted(p, jobs, now, start, i) && fates[i].Accepted?
  }

  predicate Fails(p: Policy, jobs: seq<Job>, now: int, fates: seq<Fate>, start: Sys, i: nat)
    requires |fates| == |jobs| && i < |jobs|
  {
    Attempted(p, jobs, now, start, i) && fates[i].Rejected?
  }

  lemma IdsMember(jobs: seq<Job>, i: nat)
    requires i < |jobs|
    ensures jobs[i].id in Ids(jobs)
  {
  }

  lemma IdsPrefix(jobs: seq<Job>, n: nat, id: string)
    requires n <= |jobs|
    ensures id in Ids(jobs[..n]) <==> exists i :: 0 <= i < n && jobs[i].id == id
  {
    if i :| 0 <= i < n && jobs[i].id == id {
      assert jobs[..n][i].id == id;
    }
  }

  lemma {:induction false} UntouchedServe(p: Policy, jobs: seq<Job>, now: int, fates: seq<Fate>, start: Sys, id: string)
    requires |fates| == |jobs| && id !in Ids(jobs)
    ensures var t := ServeAll(p, jobs, now, fates, start);
            RecordOf(t.sys.last, id) == RecordOf(start.last, id) && Held(t.sys.store, id) == Held(start.store, id)
  {
    if jobs != [] {
      var n := |jobs| - 1;
      IdsMember(jobs, n);
      IdsPrefix(jobs, n, id);
      IdsPrefix(jobs, n + 1, id);
      assert jobs[..n + 1] == jobs;
      UntouchedServe(p, jobs[..n], now, fates[..n], start, id);
    }
  }

  lemma {:induction false} ServedServe(p: Policy, jobs: seq<Job>, now: int, fates: seq<Fate>, start: Sys, i: nat)
    requires |fates| == |jobs| && i < |jobs| && DistinctJobs(jobs)
    ensures var t, id := ServeAll(p, jobs, now, fates, start), jobs[i].id;
            && RecordOf(t.sys.last, id)
               == (if Succeeds(p, jobs, now, fates, start, i) then Some(now) else RecordOf(start.last, id))
            && Held(t.sys.store, id)
               == if Attempted(p, jobs, now, start, i) && fates[i].Reaches()
                  then Written(Held(start.store, id), jobs[i].want, ExpiryOf(p.ttlMs, fates[i].at))
                  else Held(start.store, id)
  {
    var n := |jobs| - 1;
    if i == n {
      IdsPrefix(jobs, n, jobs[n].id);
      UntouchedServe(p, jobs[..n], now, fates[..n], start, jobs[n].id);
    } else {
      ServedServe(p, jobs[..n], now, fates[..n], start, i);
    }
  }

  /** A workspace that is not in the snapshot: no record afterwards, server side untouched. */
  lemma Unlisted(p: Policy, jobs: seq<Job>, now: int, fates: seq<Fate>, start: Sys, id: string)
    requires |fates| == |jobs| && id !in Ids(jobs)
    ensures var t := Pass(p, jobs, now, fates, start);
            id !in t.sys.last && Held(t.sys.store, id) == Held(start.store, id)
  {
    UntouchedServe(p, jobs, now, fates, start, id);
  }

  /** A listed workspace: the record becomes `now` when a call is made and accepted and stays as it
      was otherwise; the server's entries change exactly when a call reaches it. */
  lemma Listed(p: Policy, jobs: seq<Job>, now: int, fates: seq<Fate>, start: Sys, i: nat)
    requires |fates| == |jobs| && i < |jobs| && DistinctJobs(jobs)
    ensures var t, id := Pass(p, jobs, now, fates, start), jobs[i].id;
            && RecordOf(t.sys.last, id)
               == (if Succeeds(p, jobs, now, fates, start, i) then Some(now) else RecordOf(start.last, id))
            && Held(t.sys.store, id)
               == if Attempted(p, jobs, now, start, i) && fates[i].Reaches()
                  then Written(Held(start.store, id), jobs[i].want, ExpiryOf(p.ttlMs, fates[i].at))
                  else Held(start.store, id)
  {
    IdsMember(jobs, i);
    ServedServe(p, jobs, now, fates, start, i);
  }

  /** Attempts in a prefix are judged alike by the prefix and by the whole list. */
  lemma PrefixJudgement(p: Policy, jobs: seq<Job>, now: int, fates: seq<Fate>, start: Sys, n: nat)
    requires |fates| == |jobs| && n <= |jobs|
    ensures forall i | 0 <= i < n ::
              && Succeeds(p, jobs[..n], now, fates[..n], start, i) == Succeeds(p, jobs, now, fates, start, i)
              && Fails(p, jobs[..n], now, fates[..n], start, i) == Fails(p, jobs, now, fates, start, i)
  {
  }

  lemma LastStep(p: Policy, jobs: seq<Job>, now: int, fates: seq<Fate>, start: Sys)
    requires |fates| == |jobs| > 0 && DistinctJobs(jobs)
    ensures var n := |jobs| - 1;
            var before, t := ServeAll(p, jobs[..n], now, fates[..n], start), ServeAll(p, jobs, now, fates, start);
            && t.written == before.written + (if Succeeds(p, jobs, now, fates, start, n) then 1 else 0)
            && t.firstErr == if before.firstErr.None? && Fails(p, jobs, now, fates, start, n)
                             then Some(fates[n].error) else before.firstErr
  {
    var n := |jobs| - 1;
    IdsPrefix(jobs, n, jobs[n].id);
    UntouchedServe(p, jobs[..n], now, fates[..n], start, jobs[n].id);
  }

  ghost function Successes(p: Policy, jobs: seq<Job>, now: int, fates: seq<Fate>, start: Sys): set<int>
    requires |fates| == |jobs|
  {
    set i | 0 <= i < |jobs| && Succeeds(p, jobs, now, fates, start, i)
  }

  /** Job i is the failure earliest in list order. */
  ghost predicate FirstFailure(p: Policy, jobs: seq<Job>, now: int, fates: seq<Fate>, start: Sys, i: int)
    requires |fates| == |jobs|
  {
    && 0 <= i < |jobs| && Fails(p, jobs, now, fates, start, i)
    && forall j | 0 <= j < i :: !Fails(p, jobs, now, fates, start, j)
  }

  lemma SuccessesSplit(p: Policy, jobs: seq<Job>, now: int, fates: seq<Fate>, start: Sys)
    requires |fates| == |jobs| > 0
    ensures var n := |jobs| - 1;
            && n !in Successes(p, jobs[..n], now, fates[..n], start)
            && Successes(p, jobs, now, fates, start)
               == Successes(p, jobs[..n], now, fates[..n], start)
                  + if Succeeds(p, jobs, now, fates, start, n) then {n} else {}
  {
    var n := |jobs| - 1;
    var all, earlier := Successes(p, jobs, now, fates, start), Successes(p, jobs[..n], now, fates[..n], start);
    PrefixJudgement(p, jobs, now, fates, start, n);
    assert forall i | 0 <= i < n :: i in all <==> i in earlier;
  }

  /** The returned count is the number of workspaces whose call succeeded. */
  lemma {:induction false} ReturnedCount(p: Policy, jobs: seq<Job>, now: int, fates: seq<Fate>, start: Sys)
    requires |fates| == |jobs| && DistinctJobs(jobs)
    ensures Pass(p, jobs, now, fates, start).written == |Successes(p, jobs, now, fates, start)|
  {
    if jobs == [] {
      assert Successes(p, jobs, now, fates, start) == {};
    } else {
      var n := |jobs| - 1;
      ReturnedCount(p, jobs[..n], now, fates[..n], start);
      LastStep(p, jobs, now, fates, start);
      SuccessesSplit(p, jobs, now, fates, start);
    }
  }

  /** The returned error is that of the first failing workspace, and there is none exactly when no call failed. */
  lemma {:induction false} ReturnedError(p: Policy, jobs: seq<Job>, now: int, fates: seq<Fate>, start: Sys)
    requires |fates| == |jobs| && DistinctJobs(jobs)
    ensures var err := Pass(p, jobs, now, fates, start).firstErr;
            && (err.None? <==> forall i | 0 <= i < |jobs| :: !Fails(p, jobs, now, fates, start, i))
            && forall i | FirstFailure(p, jobs, now, fates, start, i) :: err == Some(fates[i].error)
  {
    if jobs != [] {
      var n := |jobs| - 1;
      ReturnedError(p, jobs[..n], now, fates[..n], start);
      LastStep(p, jobs, now, fates, start);
      PrefixJudgement(p, jobs, now, fates, start, n);
      forall i | FirstFailure(p, jobs, now, fates, start, i)
        ensures Pass(p, jobs, now, fates, start).firstErr == Some(fates[i].error)
      {
        if i < n {
          assert FirstFailure(p, jobs[..n], now, fates[..n], start, i);
          assert Fails(p, jobs[..n], now, fates[..n], start, i);
        }
      }
      if j :| 0 <= j < n && Fails(p, jobs, now, fates, start, j) {
        assert Fails(p, jobs[..n], now, fates[..n], start, j);
      }
    }
  }
}
