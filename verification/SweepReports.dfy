/** A recovery sweep replies with copies of the hashes it wrote; the worker turns them into events.
    These lemmas say what the copies contain and that they are what the queue holds when the sweep ends. */
module SweepReports {
  import opened Prelude
  import opened SortedSets
  import opened Retention
  import opened Jobs
  import opened Scripts
  import opened Invariant
  import opened Protocol
  import opened Finishing
  import opened Batching

  /** What a sweep's report of one job says, relative to the hash before. */
  predicate ReportFits(before: Job, e: Recovered, now: nat, reason: string) {
    match e
    case CorruptActive(_) => false
    case Restored(_, job) =>
      && before.stalls + 1 <= before.maxStalls
      && job == Unlocked(before.(stalls := before.stalls + 1, failureKind := Some(StallFailure),
                                 failedReason := Some(reason), lastStalledAt := Some(now), status := Status.Waiting))
    case GaveUp(_, job) =>
      && before.stalls + 1 > before.maxStalls
      && job == Unlocked(before.(stalls := before.stalls + 1, failureKind := Some(StallFailure),
                                 failedReason := Some(reason), lastStalledAt := Some(now),
                                 status := Status.Failed, finishedAt := Some(now)))
  }

  /** One entry against the state the sweep ended in: a restored job is stored as reported, waiting; a job
      given up is stored as reported or was dropped by retention; a corrupt one has no hash. */
  predicate ReportStored(s': State, e: Recovered) {
    match e
    case CorruptActive(id) => id !in s'.jobs
    case Restored(id, job) => id in s'.waiting && Find(s'.jobs, id) == Some(job)
    case GaveUp(id, job) => id in s'.jobs ==> s'.jobs[id] == job
  }

  lemma ReportOfOne(s: State, e: Id, now: nat, reason: string, r: Resolved)
    requires Inv(s) && e in s.active
    ensures var (s1, one) := RecoverOne(s, e, now, reason, r);
            && one.id == e && ReportStored(s1, one)
            && (if e in s.jobs then ReportFits(s.jobs[e], one, now, reason) else one.CorruptActive?)
  {
    hide Finish, Fits;
    if e in s.jobs {
      var job := s.jobs[e].(stalls := s.jobs[e].stalls + 1, failureKind := Some(StallFailure),
                            failedReason := Some(reason), lastStalledAt := Some(now));
      var released := Settle(s, e, job, ByStall);
      var dead := Unlocked(job).(status := Status.Failed, finishedAt := Some(now));
      FinishSpares(released.(jobs := released.jobs[e := dead]), e, FailedIndex, now, r, e);
    }
  }

  /** Recovering `x` writes no other hash, and deletes none that is not in the failed index. */
  lemma OneSpares(s: State, x: Id, now: nat, reason: string, r: Resolved, id: Id)
    requires x in s.active && id != x
    ensures var s1 := RecoverOne(s, x, now, reason, r).0;
            && (id in s1.jobs ==> id in s.jobs && s1.jobs[id] == s.jobs[id])
            && (id !in s.failed ==> Find(s1.jobs, id) == Find(s.jobs, id))
  {
    hide Finish;
    if x in s.jobs {
      var job := s.jobs[x].(stalls := s.jobs[x].stalls + 1, failureKind := Some(StallFailure),
                            failedReason := Some(reason), lastStalledAt := Some(now));
      var released := Settle(s, x, job, ByStall);
      var dead := Unlocked(job).(status := Status.Failed, finishedAt := Some(now));
      FinishSpares(released.(jobs := released.jobs[x := dead]), x, FailedIndex, now, r, id);
    }
  }

  lemma InOnePlace(s: State, id: Id)
    requires Inv(s) && (id in s.waiting || id in s.active)
    ensures id !in s.failed
  {
    assert Fits(id, ViewOf(s, id));
    assert id in s.waiting ==> multiset(s.waiting)[id] > 0;
  }

  /** The rest of the sweep leaves what has been reported as it is. */
  lemma {:induction false} ReportLasts(s: State, n: nat, now: nat, reason: string, r: Resolved, e: Recovered)
    requires Inv(s) && ReportStored(s, e) && e.id !in s.active
    ensures ReportStored(Sweep(s, n, now, reason, r).0, e)
    decreases n
  {
    hide Inv, RecoverOne, Sweep;
    SweepUnfold(s, n, now, reason, r);
    if n > 0 && s.active != map[] && s.active[Lowest(s.active)] <= now {
      var x := Lowest(s.active);
      RecoverOneKeeps(s, x, now, reason, r);
      RecoverOneEffect(s, x, now, reason, r);
      OneSpares(s, x, now, reason, r, e.id);
      if e.Restored? {
        InOnePlace(s, e.id);
      }
      ReportLasts(RecoverOne(s, x, now, reason, r).0, n - 1, now, reason, r, e);
    }
  }

  /** Every entry a sweep replies with names a job whose lease had ended. If its hash was lost the entry is
      corrupt; otherwise it carries the hash with one more stall and without its lock, restored exactly when
      that is within the job's stall budget. And when the sweep ends, the queue agrees with every entry. */
  lemma {:induction false} SweepReportsTheTruth(s: State, n: nat, now: nat, reason: string, r: Resolved, i: nat)
    requires Inv(s) && i < |Sweep(s, n, now, reason, r).1|
    ensures var (s', es) := Sweep(s, n, now, reason, r); var id := es[i].id;
            && id in s.active && s.active[id] <= now
            && (if id in s.jobs then ReportFits(s.jobs[id], es[i], now, reason) else es[i].CorruptActive?)
            && ReportStored(s', es[i])
    decreases n
  {
    hide Inv, RecoverOne, Sweep, ReportFits, ReportStored;
    SweepUnfold(s, n, now, reason, r);
    var x := Lowest(s.active);
    var (s1, one) := RecoverOne(s, x, now, reason, r);
    var rest := Sweep(s1, n - 1, now, reason, r).1;
    RecoverOneKeeps(s, x, now, reason, r);
    RecoverOneEffect(s, x, now, reason, r);
    if i == 0 {
      ReportOfOne(s, x, now, reason, r);
      ReportLasts(s1, n - 1, now, reason, r, one);
    } else {
      SweepReportsTheTruth(s1, n - 1, now, reason, r, i - 1);
      var id := rest[i - 1].id;
      InOnePlace(s, id);
      OneSpares(s, x, now, reason, r, id);
    }
  }

  /** The same of a recovery with its batch. */
  lemma RecoverReportsTheTruth(s: State, batch: int, now: nat, reason: string, r: Resolved, i: nat)
    requires Inv(s) && i < |Recover(s, batch, now, reason, r).1|
    ensures var (s', es) := Recover(s, batch, now, reason, r); var id := es[i].id;
            && id in s.active && s.active[id] <= now
            && (if id in s.jobs then ReportFits(s.jobs[id], es[i], now, reason) else es[i].CorruptActive?)
            && ReportStored(s', es[i])
  {
    hide Sweep, ReportFits, ReportStored, Inv;
    SweepReportsTheTruth(s, SweepBound(s, batch), now, reason, r, i);
  }
}
