/** What finishing a job, with its evictions, does to everybody else. */
module Finishing {
  import opened Prelude
  import opened SortedSets
  import opened Retention
  import opened Jobs
  import opened Scripts

  /** The parts of the state that retention never touches. */
  predicate SameFrame(s: State, s': State) {
    s'.waiting == s.waiting && s'.active == s.active && s'.concurrency == s.concurrency
    && s'.published == s.published && s'.audit.Keys == s.audit.Keys
  }

  predicate SameRuns(s: State, s': State, id: Id) {
    id in s.audit && id in s'.audit
    && s'.audit[id].settled == s.audit[id].settled && s'.audit[id].issued == s.audit[id].issued
    && s'.audit[id].corrupt == s.audit[id].corrupt
  }

  /** Only members of the index lose their hash, and no hash is rewritten. */
  predicate Spares(s: State, s': State, which: Which, id: Id) {
    && SameFrame(s, s')
    && (id in s.audit ==> SameRuns(s, s', id))
    && (id in s'.jobs ==> id in s.jobs && s'.jobs[id] == s.jobs[id])
    && (id !in Index(s, which) ==> Find(s'.jobs, id) == Find(s.jobs, id) && id !in Index(s', which))
  }

  lemma EvictSpares(s: State, which: Which, k: nat, id: Id)
    requires k <= |Index(s, which)|
    ensures Spares(s, EvictLowest(s, which, k), which, id)
  {
    hide Ranked, DropLowest;
    DropLowestWithin(Index(s, which), k, id);
  }

  lemma TrimmedSpares(s: State, which: Which, now: nat, r: Resolved, id: Id)
    ensures Spares(s, Trimmed(s, which, now, r), which, id)
  {
    hide EvictLowest, Index;
    var aged := if r.ttl >= 0 then TrimByAge(s, which, now - r.ttl) else s;
    if r.ttl >= 0 {
      EvictSpares(s, which, CountUpTo(Index(s, which), now - r.ttl), id);
    }
    if r.count >= 0 && |Index(aged, which)| > r.count {
      EvictSpares(aged, which, |Index(aged, which)| - r.count, id);
    }
  }

  /** Finishing `e`: queue, leases and run histories are untouched; other hashes are left as they are
      or, if already in the index, deleted; the job's own hash, if kept, only gains its final status. */
  lemma FinishSpares(s: State, e: Id, which: Which, now: nat, r: Resolved, id: Id)
    requires e in s.jobs
    ensures var s' := Finish(s, e, which, now, r);
            && SameFrame(s, s')
            && (id in s.audit ==> SameRuns(s, s', id))
            && (id in s'.jobs ==> id in s.jobs && (id != e ==> s'.jobs[id] == s.jobs[id]))
            && (id != e && id !in Index(s, which) ==> Find(s'.jobs, id) == Find(s.jobs, id))
            && (e in s'.jobs && id == e ==>
                  s'.jobs[e] == s.jobs[e].(status := FinalStatus(which), finishedAt := Some(now)))
  {
    hide Trimmed;
    if r.mode == Trim {
      TrimmedSpares(Indexed(s, e, which, now), which, now, r, id);
    }
  }

  // ---------------------------------------------------------------- queue-level effects

  function Notice(s: State, id: Id): seq<Id> {
    if s.concurrency.limit.Some? && s.waiting != [] then [id] else []
  }

  /** The job left `active` for good, and blocked claimers were told if there is work for them. */
  predicate LeftActive(s: State, s': State, id: Id) {
    s'.active == s.active - {id} && s'.waiting == s.waiting && s'.concurrency == s.concurrency
    && s'.published == s.published + Notice(s, id)
  }

  /** The job went back to waiting, and everybody was told. */
  predicate WentBack(s: State, s': State, id: Id) {
    s'.active == s.active - {id} && s'.waiting == [id] + s.waiting && s'.concurrency == s.concurrency
    && s'.published == s.published + [id]
  }

  lemma CompleteEffect(s: State, id: Id, token: Token, now: nat, r: Resolved)
    requires Holds(s, id, token)
    ensures LeftActive(s, Complete(s, id, token, now, r).0, id)
  {
    hide Finish;
    FinishSpares(Settle(s, id, s.jobs[id], ByComplete), id, CompletedIndex, now, r, id);
  }

  lemma FailEffect(s: State, id: Id, token: Token, error: string, now: nat, r: Resolved)
    requires Holds(s, id, token)
    ensures var (s', ack) := Fail(s, id, token, error, now, r);
            if ack == AckWaiting then WentBack(s, s', id) else LeftActive(s, s', id)
  {
    hide Finish;
    var job := s.jobs[id].(failures := s.jobs[id].failures + 1, failureKind := Some(HandlerFailure),
                           failedReason := Some(error), lastError := Some(error), lastFailedAt := Some(now));
    FinishSpares(Settle(s, id, job, ByFail), id, FailedIndex, now, r, id);
  }

  lemma RequeueEffect(s: State, id: Id, token: Token, reason: string, now: nat)
    requires Holds(s, id, token)
    ensures WentBack(s, Requeue(s, id, token, reason, now).0, id)
  {
  }

  /** A call presenting a token that is not held changes nothing and says "missing" when the hash is gone,
      "stale" when it is there; so does an extension of a job that is not active. */
  lemma DeadCallsChangeNothing(s: State, id: Id, token: Token, error: string, now: nat, leaseMs: nat, r: Resolved)
    requires !Holds(s, id, token)
    ensures var no := if id in s.jobs then AckStale else AckMissing;
            && Complete(s, id, token, now, r) == (s, no)
            && Fail(s, id, token, error, now, r) == (s, no)
            && Requeue(s, id, token, error, now) == (s, no)
            && Extend(s, id, token, now, leaseMs) == (s, no)
  {
  }

  lemma RecoverOneEffect(s: State, e: Id, now: nat, reason: string, r: Resolved)
    requires e in s.active
    ensures var (s', entry) := RecoverOne(s, e, now, reason, r);
            entry.id == e && if entry.Restored? then WentBack(s, s', e) else LeftActive(s, s', e)
  {
    hide Finish;
    if e in s.jobs {
      var job := s.jobs[e].(stalls := s.jobs[e].stalls + 1, failureKind := Some(StallFailure),
                            failedReason := Some(reason), lastStalledAt := Some(now));
      var released := Settle(s, e, job, ByStall);
      if job.stalls > job.maxStalls {
        var dead := Unlocked(job).(status := Status.Failed, finishedAt := Some(now));
        FinishSpares(released.(jobs := released.jobs[e := dead]), e, FailedIndex, now, r, e);
      }
    }
  }
}
