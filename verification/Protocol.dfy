/** The queue as a transition system: every script, in any order, by any number of workers,
    together with an environment step that loses a job hash. */
module Protocol {
  import opened Prelude
  import opened SortedSets
  import opened Retention
  import opened Jobs
  import opened Scripts
  import opened Invariant

  datatype Action =
    | DoEnqueue(id: Id, payload: string, maxRetries: int, maxStalls: int, now: nat)
    | DoClaim(count: int, now: nat, leaseMs: nat)
    | DoExtend(id: Id, token: Token, now: nat, leaseMs: nat)
    | DoComplete(id: Id, token: Token, now: nat, retention: Resolved)
    | DoFail(id: Id, token: Token, error: string, now: nat, retention: Resolved)
    | DoRequeue(id: Id, token: Token, reason: string, now: nat)
    | DoRecover(batch: int, now: nat, reason: string, retention: Resolved)
    | DoDeclare(limit: int, version: int)
    | LoseHash(id: Id)

  function Step(s: State, a: Action): State {
    match a
    case DoEnqueue(id, payload, maxRetries, maxStalls, now) => Enqueue(s, id, payload, maxRetries, maxStalls, now).0
    case DoClaim(count, now, leaseMs) => Claim(s, count, now, leaseMs).0
    case DoExtend(id, token, now, leaseMs) => Extend(s, id, token, now, leaseMs).0
    case DoComplete(id, token, now, r) => Complete(s, id, token, now, r).0
    case DoFail(id, token, error, now, r) => Fail(s, id, token, error, now, r).0
    case DoRequeue(id, token, reason, now) => Requeue(s, id, token, reason, now).0
    case DoRecover(batch, now, reason, r) => Recover(s, batch, now, reason, r).0
    case DoDeclare(limit, version) => s.(concurrency := Declare(s.concurrency, limit, version).0)
    case LoseHash(id) => s.(jobs := s.jobs - {id})
  }

  /** Ids are random UUIDs: an id is not enqueued again once used (a live collision is refused by the script). */
  predicate Legal(s: State, a: Action) {
    a.DoEnqueue? ==> a.id !in s.audit || a.id in s.jobs
  }

  function Run(s: State, acts: seq<Action>): State
    decreases |acts|
  {
    if acts == [] then s else Run(Step(s, acts[0]), acts[1..])
  }

  predicate LegalRun(s: State, acts: seq<Action>)
    decreases |acts|
  {
    acts == [] || (Legal(s, acts[0]) && LegalRun(Step(s, acts[0]), acts[1..]))
  }

  // ---------------------------------------------------------------- the fenced scripts

  lemma CompleteKeeps(s: State, id: Id, token: Token, now: nat, r: Resolved)
    requires Inv(s)
    ensures Inv(Complete(s, id, token, now, r).0) && Evolves(s, Complete(s, id, token, now, r).0)
  {
    hide Fits, Finish;
    if Holds(s, id, token) {
      FinishKeeps(s, id, s.jobs[id], ByComplete, CompletedIndex, now, r);
      var finished := Finish(Settle(s, id, s.jobs[id], ByComplete), id, CompletedIndex, now, r);
      QuietKeeps(finished, PublishIfFreed(finished, id));
      EvolvesTransitive(s, finished, PublishIfFreed(finished, id));
    }
  }

  /** A leased job is within its budgets. */
  lemma WithinBudget(s: State, id: Id)
    requires Inv(s) && id in s.jobs && s.jobs[id].lockToken.Some?
    ensures s.jobs[id].failures <= Budget(s.jobs[id].maxRetries)
    ensures s.jobs[id].stalls <= Budget(s.jobs[id].maxStalls)
  {
    assert Fits(id, ViewOf(s, id));
  }

  lemma FailKeeps(s: State, id: Id, token: Token, error: string, now: nat, r: Resolved)
    requires Inv(s)
    ensures Inv(Fail(s, id, token, error, now, r).0) && Evolves(s, Fail(s, id, token, error, now, r).0)
  {
    hide Fits, Finish;
    if Holds(s, id, token) {
      var job := s.jobs[id].(failures := s.jobs[id].failures + 1, failureKind := Some(HandlerFailure),
                             failedReason := Some(error), lastError := Some(error), lastFailedAt := Some(now));
      if job.failures <= job.maxRetries {
        WithinBudget(s, id);
        ToWaitingKeeps(s, id, job, ByFail);
      } else {
        FinishKeeps(s, id, job, ByFail, FailedIndex, now, r);
        var finished := Finish(Settle(s, id, job, ByFail), id, FailedIndex, now, r);
        QuietKeeps(finished, PublishIfFreed(finished, id));
        EvolvesTransitive(s, finished, PublishIfFreed(finished, id));
      }
    }
  }

  lemma RequeueKeeps(s: State, id: Id, token: Token, reason: string, now: nat)
    requires Inv(s)
    ensures Inv(Requeue(s, id, token, reason, now).0) && Evolves(s, Requeue(s, id, token, reason, now).0)
  {
    hide Fits;
    if Holds(s, id, token) {
      WithinBudget(s, id);
      var job := s.jobs[id].(lastRequeuedAt := Some(now), lastRequeueReason := Some(reason));
      ToWaitingKeeps(s, id, job, ByRequeue);
    }
  }

  // ---------------------------------------------------------------- the loops

  lemma {:induction false} ClaimManyKeeps(s: State, n: nat, now: nat, deadline: nat)
    requires Inv(s)
    ensures Inv(ClaimMany(s, n, now, deadline).0) && Evolves(s, ClaimMany(s, n, now, deadline).0)
    decreases n
  {
    hide Fits, ClaimOne;
    if n > 0 && s.waiting != [] {
      ClaimOneKeeps(s, now, deadline);
      var s1 := ClaimOne(s, now, deadline).0;
      ClaimManyKeeps(s1, n - 1, now, deadline);
      EvolvesTransitive(s, s1, ClaimMany(s1, n - 1, now, deadline).0);
    }
  }

  /** An entry of `active` whose hash survives is leased. */
  lemma ActiveIsLeased(s: State, id: Id)
    requires Inv(s) && id in s.active && id in s.jobs
    ensures s.jobs[id].lockToken.Some? && s.jobs[id].finishedAt.None?
  {
    assert Fits(id, ViewOf(s, id));
  }

  lemma CorruptSweepKeeps(s: State, id: Id)
    requires Inv(s) && id in s.active && id !in s.jobs
    ensures var s' := s.(active := s.active - {id}, audit := Surfaced(s.audit, id));
            Inv(s') && Evolves(s, s')
  {
    var s' := s.(active := s.active - {id}, audit := Surfaced(s.audit, id));
    assert Fits(id, ViewOf(s, id));
    TouchOne(s, s', id);
  }

  lemma RecoverOneKeeps(s: State, id: Id, now: nat, reason: string, r: Resolved)
    requires Inv(s) && id in s.active
    ensures Inv(RecoverOne(s, id, now, reason, r).0) && Evolves(s, RecoverOne(s, id, now, reason, r).0)
  {
    hide Fits, Finish;
    var s' := RecoverOne(s, id, now, reason, r).0;
    if id !in s.jobs {
      CorruptSweepKeeps(s, id);
      var popped := s.(active := s.active - {id}, audit := Surfaced(s.audit, id));
      QuietKeeps(popped, s');
      EvolvesTransitive(s, popped, s');
    } else {
      ActiveIsLeased(s, id);
      WithinBudget(s, id);
      var job := s.jobs[id].(stalls := s.jobs[id].stalls + 1, failureKind := Some(StallFailure),
                             failedReason := Some(reason), lastStalledAt := Some(now));
      if job.stalls <= job.maxStalls {
        ToWaitingKeeps(s, id, job, ByStall);
      } else {
        var dead := job.(status := Status.Failed, finishedAt := Some(now));
        FinishKeeps(s, id, dead, ByStall, FailedIndex, now, r);
        var finished := Finish(Settle(s, id, dead, ByStall), id, FailedIndex, now, r);
        var released := Settle(s, id, job, ByStall);
        assert Settle(s, id, dead, ByStall) == released.(jobs := released.jobs[id := Unlocked(dead)]);
        QuietKeeps(finished, s');
        EvolvesTransitive(s, finished, s');
      }
    }
  }

  lemma {:induction false} SweepKeeps(s: State, n: nat, now: nat, reason: string, r: Resolved)
    requires Inv(s)
    ensures Inv(Sweep(s, n, now, reason, r).0) && Evolves(s, Sweep(s, n, now, reason, r).0)
    decreases n
  {
    hide Fits, RecoverOne;
    if n > 0 && s.active != map[] && s.active[Lowest(s.active)] <= now {
      RecoverOneKeeps(s, Lowest(s.active), now, reason, r);
      var s1 := RecoverOne(s, Lowest(s.active), now, reason, r).0;
      SweepKeeps(s1, n - 1, now, reason, r);
      EvolvesTransitive(s, s1, Sweep(s1, n - 1, now, reason, r).0);
    }
  }

  lemma LoseHashKeeps(s: State, id: Id)
    requires Inv(s)
    ensures Inv(s.(jobs := s.jobs - {id})) && Evolves(s, s.(jobs := s.jobs - {id}))
  {
    assert Fits(id, ViewOf(s, id));
    TouchOne(s, s.(jobs := s.jobs - {id}), id);
  }

  // ---------------------------------------------------------------- whole runs

  /** Every script, and the loss of a hash, keeps the invariant and only extends history. */
  lemma StepKeeps(s: State, a: Action)
    requires Inv(s) && Legal(s, a)
    ensures Inv(Step(s, a)) && Evolves(s, Step(s, a))
  {
    hide Fits, Enqueue, ClaimMany, Extend, Complete, Fail, Requeue, Sweep, Declare;
    match a
    case DoEnqueue(id, payload, maxRetries, maxStalls, now) => EnqueueKeeps(s, id, payload, maxRetries, maxStalls, now);
    case DoClaim(count, now, leaseMs) => ClaimManyKeeps(s, Allowance(s, count), now, now + leaseMs);
    case DoExtend(id, token, now, leaseMs) => ExtendKeeps(s, id, token, now, leaseMs);
    case DoComplete(id, token, now, r) => CompleteKeeps(s, id, token, now, r);
    case DoFail(id, token, error, now, r) => FailKeeps(s, id, token, error, now, r);
    case DoRequeue(id, token, reason, now) => RequeueKeeps(s, id, token, reason, now);
    case DoRecover(batch, now, reason, r) => SweepKeeps(s, SweepBound(s, batch), now, reason, r);
    case DoDeclare(limit, version) => QuietKeeps(s, Step(s, a));
    case LoseHash(id) => LoseHashKeeps(s, id);
  }

  lemma {:induction false} RunKeeps(s: State, acts: seq<Action>)
    requires Inv(s) && LegalRun(s, acts)
    ensures Inv(Run(s, acts)) && Evolves(s, Run(s, acts))
    decreases |acts|
  {
    hide Fits, Step;
    if acts != [] {
      StepKeeps(s, acts[0]);
      RunKeeps(Step(s, acts[0]), acts[1..]);
      EvolvesTransitive(s, Step(s, acts[0]), Run(s, acts));
    }
  }

  lemma {:induction false} RunSplit(s: State, acts: seq<Action>, k: nat)
    requires k <= |acts|
    ensures Run(s, acts) == Run(Run(s, acts[..k]), acts[k..])
    ensures LegalRun(s, acts) ==> LegalRun(s, acts[..k]) && LegalRun(Run(s, acts[..k]), acts[k..])
    decreases k
  {
    if k == 0 {
      assert acts[0..] == acts;
    } else {
      RunSplit(Step(s, acts[0]), acts[1..], k - 1);
      assert acts[1..][..k - 1] == acts[..k][1..];
      assert acts[1..][k - 1..] == acts[k..];
    }
  }

  lemma RunCons(s: State, a: Action, acts: seq<Action>)
    ensures Run(s, [a] + acts) == Run(Step(s, a), acts)
    ensures LegalRun(s, [a] + acts) <==> Legal(s, a) && LegalRun(Step(s, a), acts)
    ensures Run(Step(s, a), []) == Step(s, a) && LegalRun(Step(s, a), [])
  {
    hide Step, Legal;
    assert ([a] + acts)[1..] == acts;
  }
}
