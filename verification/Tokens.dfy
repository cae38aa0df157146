/** Lock tokens over whole runs: issued once, settled once, dead forever; and the job a token
    protects stands still while it is held. */
module Tokens {
  import opened Prelude
  import opened SortedSets
  import opened Retention
  import opened Jobs
  import opened Scripts
  import opened Invariant
  import opened Protocol
  import opened Finishing
  import opened Structure

  // ---------------------------------------------------------------- what history says about a token

  /** A held token is the latest issued for its job and its run has not been settled. */
  lemma HeldIsLatest(s: State, id: Id, token: Token)
    requires Inv(s) && Holds(s, id, token)
    ensures token.id == id && id in s.audit && s.jobs[id].status.Active?
    ensures var r := s.audit[id]; |r.issued| == |r.settled| + 1 && token == r.issued[|r.settled|]
  {
    assert Fits(id, ViewOf(s, id));
  }

  /** A token that was issued and is not held now is never held again. */
  lemma DeadForever(s: State, acts: seq<Action>, id: Id, token: Token)
    requires Inv(s) && LegalRun(s, acts)
    requires id in s.audit && token in s.audit[id].issued && !Holds(s, id, token)
    ensures !Holds(Run(s, acts), id, token)
  {
    var s' := Run(s, acts);
    RunKeeps(s, acts);
    assert Fits(id, ViewOf(s, id));
    assert Fits(id, ViewOf(s', id));
    if Holds(s', id, token) {
      HeldIsLatest(s', id, token);
    }
  }

  /** A step settles a token when it was held before and is not held after. */
  predicate Settles(s: State, a: Action, id: Id, token: Token) {
    Holds(s, id, token) && !Holds(Step(s, a), id, token)
  }

  function StateAt(acts: seq<Action>, k: nat): State
    requires k <= |acts|
  {
    Run(EMPTY, acts[..k])
  }

  lemma StateAtKeeps(acts: seq<Action>, k: nat)
    requires LegalRun(EMPTY, acts) && k <= |acts|
    ensures Inv(StateAt(acts, k)) && LegalRun(StateAt(acts, k), acts[k..])
  {
    EmptyHolds();
    RunSplit(EMPTY, acts, k);
    RunKeeps(EMPTY, acts[..k]);
  }

  lemma StateAtNext(acts: seq<Action>, k: nat)
    requires k < |acts|
    ensures StateAt(acts, k + 1) == Step(StateAt(acts, k), acts[k])
    ensures LegalRun(EMPTY, acts) ==> Legal(StateAt(acts, k), acts[k])
  {
    RunSplit(EMPTY, acts[..k + 1], k);
    assert acts[..k + 1][..k] == acts[..k];
    assert acts[..k + 1][k..] == [acts[k]];
    RunSplit(EMPTY, acts, k);
  }

  lemma StateAtLater(acts: seq<Action>, j: nat, k: nat)
    requires LegalRun(EMPTY, acts) && j <= k <= |acts|
    ensures StateAt(acts, k) == Run(StateAt(acts, j), acts[j..k])
    ensures LegalRun(StateAt(acts, j), acts[j..k])
    ensures Evolves(StateAt(acts, j), StateAt(acts, k))
  {
    StateAtKeeps(acts, j);
    RunSplit(EMPTY, acts, k);
    RunSplit(EMPTY, acts[..k], j);
    assert acts[..k][..j] == acts[..j];
    assert acts[..k][j..] == acts[j..k];
    RunKeeps(StateAt(acts, j), acts[j..k]);
  }

  /** Over a whole run, a token is settled by at most one step, whichever script it is. */
  lemma SettledOnce(acts: seq<Action>, i: nat, j: nat, id: Id, token: Token)
    requires LegalRun(EMPTY, acts) && i < |acts| && j < |acts|
    requires Settles(StateAt(acts, i), acts[i], id, token) && Settles(StateAt(acts, j), acts[j], id, token)
    ensures i == j
  {
    if i < j {
      SettledThenDead(acts, i, j, id, token);
    } else if j < i {
      SettledThenDead(acts, j, i, id, token);
    }
  }

  lemma SettledThenDead(acts: seq<Action>, i: nat, j: nat, id: Id, token: Token)
    requires LegalRun(EMPTY, acts) && i < j <= |acts|
    requires Settles(StateAt(acts, i), acts[i], id, token)
    ensures !Holds(StateAt(acts, j), id, token)
  {
    hide Step, Run, LegalRun, Inv, Evolves, Fits;
    StateAtKeeps(acts, i);
    StateAtNext(acts, i);
    HeldIsLatest(StateAt(acts, i), id, token);
    StateAtKeeps(acts, i + 1);
    StateAtLater(acts, i, i + 1);
    IssuedStays(StateAt(acts, i), StateAt(acts, i + 1), id, token);
    StateAtLater(acts, i + 1, j);
    DeadForever(StateAt(acts, i + 1), acts[i + 1..j], id, token);
  }

  lemma IssuedStays(s: State, s': State, id: Id, token: Token)
    requires Evolves(s, s') && id in s.audit && token in s.audit[id].issued
    ensures id in s'.audit && token in s'.audit[id].issued
  {
  }

  // ---------------------------------------------------------------- issuing

  function ClaimReply(s: State, a: Action): seq<Claimed> {
    if a.DoClaim? then Claim(s, a.count, a.now, a.leaseMs).1 else []
  }

  function IssuedSoFar(s: State, id: Id): nat {
    if id in s.audit then |s.audit[id].issued| else 0
  }

  /** Each leased entry of a reply carries the next token of its job, and history records it. */
  lemma {:induction false} ReplyTokens(s: State, n: nat, now: nat, deadline: nat, q: nat)
    requires Inv(s) && q < |ClaimMany(s, n, now, deadline).1| && ClaimMany(s, n, now, deadline).1[q].Job_?
    ensures var e := ClaimMany(s, n, now, deadline).1[q];
            && e.job.lockToken == Some(Token(e.id, now, e.job.runs))
            && IssuedSoFar(s, e.id) < e.job.runs <= IssuedSoFar(ClaimMany(s, n, now, deadline).0, e.id)
            && e.id in s.audit
    decreases n
  {
    hide Fits;
    var (s1, first) := ClaimOne(s, now, deadline);
    ClaimOneKeeps(s, now, deadline);
    ClaimManyKeeps(s1, n - 1, now, deadline);
    var id := s.waiting[|s.waiting| - 1];
    if q > 0 {
      var e := ClaimMany(s, n, now, deadline).1[q];
      assert e == ClaimMany(s1, n - 1, now, deadline).1[q - 1];
      ReplyTokens(s1, n - 1, now, deadline, q - 1);
      assert s1.audit.Keys == s.audit.Keys;
    } else if id in s.jobs {
      RunsAreIssued(s, id);
    }
  }

  lemma RunsAreIssued(s: State, id: Id)
    requires Inv(s) && id in s.jobs
    ensures id in s.audit && s.jobs[id].runs == |s.audit[id].issued|
  {
    assert Fits(id, ViewOf(s, id));
  }

  lemma {:induction false} ReplyTokensDiffer(s: State, n: nat, now: nat, deadline: nat, p: nat, q: nat)
    requires Inv(s) && p < q < |ClaimMany(s, n, now, deadline).1|
    requires ClaimMany(s, n, now, deadline).1[p].Job_? && ClaimMany(s, n, now, deadline).1[q].Job_?
    ensures ClaimMany(s, n, now, deadline).1[p].job.lockToken != ClaimMany(s, n, now, deadline).1[q].job.lockToken
    decreases n
  {
    hide Fits;
    var (s1, first) := ClaimOne(s, now, deadline);
    var rest := ClaimMany(s1, n - 1, now, deadline).1;
    ClaimOneKeeps(s, now, deadline);
    assert ClaimMany(s, n, now, deadline).1 == [first] + rest;
    ReplyTokens(s1, n - 1, now, deadline, q - 1);
    if p > 0 {
      ReplyTokensDiffer(s1, n - 1, now, deadline, p - 1, q - 1);
    } else {
      RunsAreIssued(s, first.id);
    }
  }

  /** No two leased entries, of one claim or of two claims anywhere in a run, carry the same token. */
  lemma IssuedOnce(acts: seq<Action>, i: nat, j: nat, p: nat, q: nat)
    requires LegalRun(EMPTY, acts) && i <= j < |acts| && (i, p) != (j, q)
    requires p < |ClaimReply(StateAt(acts, i), acts[i])| && ClaimReply(StateAt(acts, i), acts[i])[p].Job_?
    requires q < |ClaimReply(StateAt(acts, j), acts[j])| && ClaimReply(StateAt(acts, j), acts[j])[q].Job_?
    ensures ClaimReply(StateAt(acts, i), acts[i])[p].job.lockToken.Some?
    ensures ClaimReply(StateAt(acts, i), acts[i])[p].job.lockToken
         != ClaimReply(StateAt(acts, j), acts[j])[q].job.lockToken
  {
    hide Fits, ClaimMany, StateAt, LegalRun;
    var s, t := StateAt(acts, i), StateAt(acts, j);
    StateAtKeeps(acts, i);
    StateAtKeeps(acts, j);
    var a, b := acts[i], acts[j];
    ReplyTokens(s, Allowance(s, a.count), a.now, a.now + a.leaseMs, p);
    ReplyTokens(t, Allowance(t, b.count), b.now, b.now + b.leaseMs, q);
    if i < j {
      StateAtNext(acts, i);
      StateAtLater(acts, i + 1, j);
    } else if p < q {
      ReplyTokensDiffer(s, Allowance(s, a.count), a.now, a.now + a.leaseMs, p, q);
    } else {
      ReplyTokensDiffer(s, Allowance(s, a.count), a.now, a.now + a.leaseMs, q, p);
    }
  }

  // ---------------------------------------------------------------- a held job stands still

  lemma {:induction false} ClaimManyOthers(s: State, n: nat, now: nat, deadline: nat, id: Id)
    requires id !in s.waiting
    ensures Find(ClaimMany(s, n, now, deadline).0.jobs, id) == Find(s.jobs, id)
    decreases n
  {
    if n > 0 && s.waiting != [] {
      var s1 := ClaimOne(s, now, deadline).0;
      assert s1.waiting == s.waiting[..|s.waiting| - 1];
      assert s.waiting[|s.waiting| - 1] != id;
      assert Find(s1.jobs, id) == Find(s.jobs, id);
      ClaimManyOthers(s1, n - 1, now, deadline, id);
    }
  }

  predicate SettledMore(s: State, s': State, id: Id) {
    id in s.audit && id in s'.audit && |s'.audit[id].settled| > |s.audit[id].settled|
  }

  /** A sweep either leaves a leased job alone or settles its run. */
  lemma {:induction false} SweepOthers(s: State, n: nat, now: nat, reason: string, r: Resolved, id: Id, token: Token)
    requires Inv(s) && Holds(s, id, token)
    ensures var s' := Sweep(s, n, now, reason, r).0;
            Find(s'.jobs, id) == Find(s.jobs, id) || SettledMore(s, s', id)
    decreases n
  {
    hide Fits, RecoverOne;
    if n > 0 && s.active != map[] && s.active[Lowest(s.active)] <= now {
      var e := Lowest(s.active);
      var s1 := RecoverOne(s, e, now, reason, r).0;
      RecoverOneKeeps(s, e, now, reason, r);
      HeldIsLatest(s, id, token);
      if e == id {
        RecoverSettles(s, e, now, reason, r);
        SweepKeeps(s1, n - 1, now, reason, r);
      } else {
        LiveUnindexed(s, id);
        RecoverOneOthers(s, e, now, reason, r, id);
        SweepOthers(s1, n - 1, now, reason, r, id, token);
      }
    }
  }

  lemma RecoverSettles(s: State, e: Id, now: nat, reason: string, r: Resolved)
    requires e in s.active && e in s.jobs && s.jobs[e].lockToken.Some? && e in s.audit
    ensures SettledMore(s, RecoverOne(s, e, now, reason, r).0, e)
  {
    hide Finish;
    var job := s.jobs[e].(stalls := s.jobs[e].stalls + 1, failureKind := Some(StallFailure),
                          failedReason := Some(reason), lastStalledAt := Some(now));
    var released := Settle(s, e, job, ByStall);
    if job.stalls > job.maxStalls {
      var dead := Unlocked(job).(status := Status.Failed, finishedAt := Some(now));
      FinishSpares(released.(jobs := released.jobs[e := dead]), e, FailedIndex, now, r, e);
    }
  }

  /** A settled run's token is not held. */
  lemma SettledNotHeld(s: State, s': State, id: Id, token: Token)
    requires Inv(s) && Inv(s') && Evolves(s, s') && Holds(s, id, token) && SettledMore(s, s', id)
    ensures !Holds(s', id, token)
  {
    HeldIsLatest(s, id, token);
    assert Fits(id, ViewOf(s', id));
    if Holds(s', id, token) {
      HeldIsLatest(s', id, token);
    }
  }

  /** The stored hash but for the lease deadline. */
  function Frozen(j: Job): Job {
    j.(leaseDeadline := None)
  }

  /** While a token stays held, no step of anyone changes anything in the job's hash but its lease deadline. */
  lemma HeldFrozen(s: State, a: Action, id: Id, token: Token)
    requires Inv(s) && Legal(s, a) && Holds(s, id, token) && Holds(Step(s, a), id, token)
    ensures Frozen(Step(s, a).jobs[id]) == Frozen(s.jobs[id])
  {
    hide Fits, Finish, ClaimMany, Sweep;
    var s' := Step(s, a);
    HeldIsLatest(s, id, token);
    match a
    case DoClaim(count, now, leaseMs) =>
      ActiveNotWaiting(s, id);
      ClaimManyOthers(s, Allowance(s, count), now, now + leaseMs, id);
    case DoRecover(batch, now, reason, r) =>
      StepKeeps(s, a);
      SweepOthers(s, SweepBound(s, batch), now, reason, r, id, token);
      if SettledMore(s, s', id) {
        SettledNotHeld(s, s', id, token);
      }
    case DoComplete(e, t, now, r) =>
      LiveUnindexed(s, id);
      HeldFrozenFinish(s, a, id, token);
    case DoFail(e, t, error, now, r) =>
      LiveUnindexed(s, id);
      HeldFrozenFinish(s, a, id, token);
    case DoRequeue(e, t, reason, now) =>
    case _ =>
  }

  lemma ActiveNotWaiting(s: State, id: Id)
    requires Inv(s) && id in s.jobs && s.jobs[id].status.Active?
    ensures id !in s.waiting
  {
    assert Fits(id, ViewOf(s, id));
    assert id in s.waiting <==> multiset(s.waiting)[id] > 0;
  }

  lemma HeldFrozenFinish(s: State, a: Action, id: Id, token: Token)
    requires a.DoComplete? || a.DoFail?
    requires id !in s.completed && id !in s.failed && Holds(s, id, token) && Holds(Step(s, a), id, token)
    ensures Step(s, a).jobs[id] == s.jobs[id]
  {
    hide Finish, Trimmed;
    match a
    case DoComplete(e, t, now, r) =>
      if Holds(s, e, t) {
        var released := Settle(s, e, s.jobs[e], ByComplete);
        if e == id { FinishSpares(released, e, CompletedIndex, now, r, e); }
        else { FinishSpares(released, e, CompletedIndex, now, r, id); }
      }
    case DoFail(e, t, error, now, r) =>
      if Holds(s, e, t) {
        var job := s.jobs[e].(failures := s.jobs[e].failures + 1, failureKind := Some(HandlerFailure),
                              failedReason := Some(error), lastError := Some(error), lastFailedAt := Some(now));
        var released := Settle(s, e, job, ByFail);
        if job.failures > job.maxRetries {
          if e == id { FinishSpares(released, e, FailedIndex, now, r, e); }
          else { FinishSpares(released, e, FailedIndex, now, r, id); }
        }
      }
  }

  /** An acknowledgement that is not a refusal ends the run its token stands for. */
  lemma AckSettles(s: State, id: Id, token: Token, error: string, now: nat, r: Resolved)
    requires Holds(s, id, token)
    ensures Complete(s, id, token, now, r).1 == AckCompleted && !Holds(Complete(s, id, token, now, r).0, id, token)
    ensures Fail(s, id, token, error, now, r).1 in {AckWaiting, AckFailed}
            && !Holds(Fail(s, id, token, error, now, r).0, id, token)
    ensures Requeue(s, id, token, error, now).1 == AckWaiting && !Holds(Requeue(s, id, token, error, now).0, id, token)
  {
    hide Finish;
    FinishSpares(Settle(s, id, s.jobs[id], ByComplete), id, CompletedIndex, now, r, id);
    var job := s.jobs[id].(failures := s.jobs[id].failures + 1, failureKind := Some(HandlerFailure),
                           failedReason := Some(error), lastError := Some(error), lastFailedAt := Some(now));
    FinishSpares(Settle(s, id, job, ByFail), id, FailedIndex, now, r, id);
  }
}
