/** The worker reports a settled job from its claim-time snapshot. These lemmas say that report is
    what the queue stored. */
module Events {
  import opened Prelude
  import opened SortedSets
  import opened Retention
  import opened Jobs
  import opened Scripts
  import opened Invariant
  import opened Protocol
  import opened Finishing
  import opened Structure
  import opened Tokens

  // ---------------------------------------------------------------- what the worker computes

  /** The snapshot without its lock, carrying the acknowledged status. */
  function SettledSnapshot(job: Job, status: Status): Job {
    Unlocked(job).(status := status)
  }

  datatype ErrorReport = ErrorReport(job: Job, willRetry: bool, retriesLeft: nat)

  function ReportFailure(snapshot: Job, ack: Ack, message: string): ErrorReport {
    var failures := snapshot.failures + 1;
    var job := SettledSnapshot(snapshot, if ack == AckWaiting then Status.Waiting else Status.Failed)
               .(failures := failures, failureKind := Some(HandlerFailure),
                 failedReason := Some(message), lastError := Some(message));
    ErrorReport(job, ack == AckWaiting, Max(0, job.maxRetries - failures))
  }

  // ---------------------------------------------------------------- the snapshot stays current

  /** A claim replies with the hash it has just stored. */
  lemma {:induction false} ReplyIsStored(s: State, n: nat, now: nat, deadline: nat, q: nat)
    requires Inv(s) && q < |ClaimMany(s, n, now, deadline).1| && ClaimMany(s, n, now, deadline).1[q].Job_?
    ensures var (s', es) := ClaimMany(s, n, now, deadline);
            es[q].id in s'.jobs && s'.jobs[es[q].id] == es[q].job
    decreases n
  {
    hide Fits;
    var (s1, first) := ClaimOne(s, now, deadline);
    var rest := ClaimMany(s1, n - 1, now, deadline).1;
    ClaimOneKeeps(s, now, deadline);
    assert ClaimMany(s, n, now, deadline).1 == [first] + rest;
    if q > 0 {
      ReplyIsStored(s1, n - 1, now, deadline, q - 1);
    } else {
      ActiveNotWaiting(s1, first.id);
      ClaimManyOthers(s1, n - 1, now, deadline, first.id);
    }
  }

  /** A job whose token is held at both ends of a run has not changed but for its lease deadline. */
  lemma {:induction false} RunFrozen(s: State, acts: seq<Action>, id: Id, token: Token)
    requires Inv(s) && LegalRun(s, acts) && Holds(s, id, token) && Holds(Run(s, acts), id, token)
    ensures Frozen(Run(s, acts).jobs[id]) == Frozen(s.jobs[id])
    decreases |acts|
  {
    hide Fits, Step, Evolves;
    if acts != [] {
      var s1 := Step(s, acts[0]);
      StepKeeps(s, acts[0]);
      HeldIsLatest(s, id, token);
      IssuedStays(s, s1, id, token);
      if !Holds(s1, id, token) {
        DeadForever(s1, acts[1..], id, token);
      }
      HeldFrozen(s, acts[0], id, token);
      RunFrozen(s1, acts[1..], id, token);
    }
  }

  /** From the claim that returned a job until its run ends, the worker's snapshot is the stored hash. */
  lemma SnapshotCurrent(acts: seq<Action>, i: nat, q: nat, k: nat)
    requires LegalRun(EMPTY, acts) && i < k <= |acts|
    requires q < |ClaimReply(StateAt(acts, i), acts[i])| && ClaimReply(StateAt(acts, i), acts[i])[q].Job_?
    ensures var e := ClaimReply(StateAt(acts, i), acts[i])[q];
            && e.job.lockToken.Some?
            && (Holds(StateAt(acts, k), e.id, e.job.lockToken.value) ==>
                  Frozen(StateAt(acts, k).jobs[e.id]) == Frozen(e.job))
  {
    hide Fits, ClaimMany, StateAt, LegalRun;
    var s, a := StateAt(acts, i), acts[i];
    var e := ClaimReply(s, a)[q];
    StateAtKeeps(acts, i);
    ReplyTokens(s, Allowance(s, a.count), a.now, a.now + a.leaseMs, q);
    ReplyIsStored(s, Allowance(s, a.count), a.now, a.now + a.leaseMs, q);
    StateAtNext(acts, i);
    StateAtKeeps(acts, i + 1);
    StateAtLater(acts, i + 1, k);
    if Holds(StateAt(acts, k), e.id, e.job.lockToken.value) {
      RunFrozen(StateAt(acts, i + 1), acts[i + 1..k], e.id, e.job.lockToken.value);
    }
  }

  /** The hash after the fail script's own writes, before it branches on the retry budget. */
  function HashAfterFailure(j: Job, error: string, now: nat): Job {
    Unlocked(j.(failures := j.failures + 1, failureKind := Some(HandlerFailure),
                failedReason := Some(error), lastError := Some(error), lastFailedAt := Some(now)))
  }

  /** After an acknowledgement that was not refused, everything the worker reports is what the script wrote.
      For a failure: counters, budgets, reason, payload, status, willRetry and retriesLeft, all but the two
      times the worker does not know, lastFailedAt and finishedAt. For a completion: all but finishedAt. */
  lemma AckReportsAreStored(s: State, id: Id, token: Token, error: string, now: nat, r: Resolved, snapshot: Job)
    requires Inv(s) && Holds(s, id, token) && Frozen(s.jobs[id]) == Frozen(snapshot)
    ensures var (s', ack) := Fail(s, id, token, error, now, r);
            var report := ReportFailure(snapshot, ack, error);
            var written := HashAfterFailure(s.jobs[id], error, now);
            && report.job == written.(status := report.job.status, lastFailedAt := snapshot.lastFailedAt)
            && (report.willRetry <==> written.failures <= written.maxRetries)
            && report.retriesLeft == Max(0, written.maxRetries - written.failures)
            && (report.willRetry ==> id in s'.jobs && id in s'.waiting)
            && (id in s'.jobs ==>
                  s'.jobs[id] == report.job.(lastFailedAt := Some(now), finishedAt := s'.jobs[id].finishedAt))
    ensures var (s', ack) := Complete(s, id, token, now, r);
            && ack == AckCompleted
            && (id in s'.jobs ==> s'.jobs[id] == SettledSnapshot(snapshot, Status.Completed).(finishedAt := Some(now)))
  {
    hide Finish;
    assert snapshot == Frozen(snapshot).(leaseDeadline := snapshot.leaseDeadline);
    assert s.jobs[id] == Frozen(s.jobs[id]).(leaseDeadline := s.jobs[id].leaseDeadline);
    var job := s.jobs[id].(failures := s.jobs[id].failures + 1, failureKind := Some(HandlerFailure),
                           failedReason := Some(error), lastError := Some(error), lastFailedAt := Some(now));
    FinishSpares(Settle(s, id, job, ByFail), id, FailedIndex, now, r, id);
    FinishSpares(Settle(s, id, s.jobs[id], ByComplete), id, CompletedIndex, now, r, id);
  }

  // ---------------------------------------------------------------- retention spares live jobs

  lemma {:induction false} ClaimManyKeepsHashes(s: State, n: nat, now: nat, deadline: nat, id: Id)
    requires id in s.jobs
    ensures id in ClaimMany(s, n, now, deadline).0.jobs
    decreases n
  {
    if n > 0 && s.waiting != [] {
      ClaimManyKeepsHashes(ClaimOne(s, now, deadline).0, n - 1, now, deadline, id);
    }
  }

  lemma {:induction false} SweepSparesWaiting(s: State, n: nat, now: nat, reason: string, r: Resolved, id: Id)
    requires Inv(s) && id in s.jobs && s.jobs[id].status.Waiting?
    ensures Find(Sweep(s, n, now, reason, r).0.jobs, id) == Find(s.jobs, id)
    decreases n
  {
    hide Fits, RecoverOne;
    if n > 0 && s.active != map[] && s.active[Lowest(s.active)] <= now {
      var e := Lowest(s.active);
      RecoverOneKeeps(s, e, now, reason, r);
      LiveUnindexed(s, id);
      RecoverOneOthers(s, e, now, reason, r, id);
      SweepSparesWaiting(RecoverOne(s, e, now, reason, r).0, n - 1, now, reason, r, id);
    }
  }

  lemma CompleteSpares(s: State, e: Id, token: Token, now: nat, r: Resolved, id: Id)
    requires Inv(s) && Live(s, id)
    ensures var s' := Complete(s, e, token, now, r).0;
            id in s'.jobs || SettledMore(s, s', id)
  {
    hide Fits, Finish, Inv;
    LiveUnindexed(s, id);
    if Holds(s, e, token) {
      FinishSpares(Settle(s, e, s.jobs[e], ByComplete), e, CompletedIndex, now, r, id);
    }
  }

  lemma FailSpares(s: State, e: Id, token: Token, error: string, now: nat, r: Resolved, id: Id)
    requires Inv(s) && Live(s, id)
    ensures var s' := Fail(s, e, token, error, now, r).0;
            id in s'.jobs || SettledMore(s, s', id)
  {
    hide Fits, Finish, Inv;
    LiveUnindexed(s, id);
    if Holds(s, e, token) {
      var job := s.jobs[e].(failures := s.jobs[e].failures + 1, failureKind := Some(HandlerFailure),
                            failedReason := Some(error), lastError := Some(error), lastFailedAt := Some(now));
      FinishSpares(Settle(s, e, job, ByFail), e, FailedIndex, now, r, id);
    }
  }

  /** Retention never deletes a live job's hash: whatever script runs, a waiting or active job keeps
      its hash unless the script itself settles that very job's run, as its history then records. */
  lemma LiveHashSurvives(s: State, a: Action, id: Id)
    requires Inv(s) && Legal(s, a) && Live(s, id) && a != LoseHash(id)
    ensures id in Step(s, a).jobs || SettledMore(s, Step(s, a), id)
  {
    hide Fits, Finish, ClaimMany, Sweep, Inv;
    LiveUnindexed(s, id);
    match a
    case DoClaim(count, now, leaseMs) =>
      ClaimManyKeepsHashes(s, Allowance(s, count), now, now + leaseMs, id);
    case DoRecover(batch, now, reason, r) =>
      if s.jobs[id].status.Waiting? {
        SweepSparesWaiting(s, SweepBound(s, batch), now, reason, r, id);
      } else {
        ActiveHolds(s, id);
        SweepOthers(s, SweepBound(s, batch), now, reason, r, id, s.jobs[id].lockToken.value);
      }
    case DoComplete(e, t, now, r) => CompleteSpares(s, e, t, now, r, id);
    case DoFail(e, t, error, now, r) => FailSpares(s, e, t, error, now, r, id);
    case _ =>
  }

  lemma ActiveHolds(s: State, id: Id)
    requires Inv(s) && id in s.jobs && s.jobs[id].status.Active?
    ensures s.jobs[id].lockToken.Some?
  {
    assert Fits(id, ViewOf(s, id));
  }
}
