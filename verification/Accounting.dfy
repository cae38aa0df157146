/** Runs, retries and stalls add up, and the work a queue can still do is bounded. */
module Accounting {
  import opened Prelude
  import opened SortedSets
  import opened Retention
  import opened Jobs
  import opened Scripts
  import opened Invariant
  import opened Protocol
  import opened Finishing
  import opened Structure

  /** For every stored job: runs = failures + stalls + requeues, plus the run that is under way or
      succeeded; and a job that can still run is within its budgets. */
  lemma RunsAddUp(s: State, id: Id)
    requires Reachable(s) && id in s.jobs
    ensures id in s.audit
    ensures var j, r := s.jobs[id], s.audit[id];
            && j.runs == |r.issued|
            && j.runs == j.failures + j.stalls + Tally(r.settled, ByRequeue)
                         + (if j.status.Active? || j.status.Completed? then 1 else 0)
            && (j.status.Waiting? || j.status.Active? ==>
                  j.failures <= Budget(j.maxRetries) && j.stalls <= Budget(j.maxStalls))
  {
    ReachableFits(s);
    assert Fits(id, ViewOf(s, id));
    TallyTotal(s.audit[id].settled);
  }

  /** No job, finished or not, is ever claimed more than retries + stalls + 1 + requeues times. */
  lemma ClaimsAreBounded(s: State, id: Id)
    requires Reachable(s) && id in s.audit
    ensures var r := s.audit[id];
            |r.issued| <= Budget(r.maxRetries) + Budget(r.maxStalls) + 1 + Tally(r.settled, ByRequeue)
  {
    ReachableFits(s);
    assert Fits(id, ViewOf(s, id));
  }

  // ---------------------------------------------------------------- replies and history agree

  function TokensFor(es: seq<Claimed>, id: Id): seq<Token> {
    if es == [] then []
    else (if es[0].Job_? && es[0].id == id && es[0].job.lockToken.Some? then [es[0].job.lockToken.value] else [])
         + TokensFor(es[1..], id)
  }

  function CorruptFor(es: seq<Claimed>, id: Id): nat {
    if es == [] then 0
    else (if es[0] == Corrupt(id) then 1 else 0) + CorruptFor(es[1..], id)
  }

  /** The tokens and corrupt ids a claim replies with are exactly what it adds to each job's history. */
  lemma {:induction false} ClaimReplyIsHistory(s: State, n: nat, now: nat, deadline: nat, id: Id)
    requires id in s.audit
    ensures var (s', es) := ClaimMany(s, n, now, deadline);
            && id in s'.audit
            && s'.audit[id].issued == s.audit[id].issued + TokensFor(es, id)
            && s'.audit[id].corrupt == s.audit[id].corrupt + CorruptFor(es, id)
            && s'.audit[id].settled == s.audit[id].settled
    decreases n
  {
    if n > 0 && s.waiting != [] {
      var (s1, first) := ClaimOne(s, now, deadline);
      var (s2, rest) := ClaimMany(s1, n - 1, now, deadline);
      ClaimReplyIsHistory(s1, n - 1, now, deadline, id);
      assert ([first] + rest)[1..] == rest;
    }
  }

  function StallsFor(es: seq<Recovered>, id: Id): nat {
    if es == [] then 0
    else (if !es[0].CorruptActive? && es[0].id == id then 1 else 0) + StallsFor(es[1..], id)
  }

  function CorruptSwept(es: seq<Recovered>, id: Id): nat {
    if es == [] then 0
    else (if es[0] == CorruptActive(id) then 1 else 0) + CorruptSwept(es[1..], id)
  }

  lemma RecoverOneHistory(s: State, e: Id, now: nat, reason: string, r: Resolved, id: Id)
    requires e in s.active && (e in s.jobs ==> s.jobs[e].lockToken.Some?) && id in s.audit
    ensures var (s', entry) := RecoverOne(s, e, now, reason, r);
            && entry.id == e && (entry.CorruptActive? <==> e !in s.jobs)
            && id in s'.audit
            && s'.audit[id].corrupt == s.audit[id].corrupt + (if entry == CorruptActive(id) then 1 else 0)
            && s'.audit[id].settled
               == s.audit[id].settled
                  + (if e in s.jobs && id == e then [Settlement(s.jobs[e].lockToken.value, ByStall)] else [])
  {
    hide Finish;
    if e in s.jobs {
      var job := s.jobs[e].(stalls := s.jobs[e].stalls + 1, failureKind := Some(StallFailure),
                            failedReason := Some(reason), lastStalledAt := Some(now));
      var released := Settle(s, e, job, ByStall);
      if job.stalls > job.maxStalls {
        var dead := Unlocked(job).(status := Status.Failed, finishedAt := Some(now));
        FinishSpares(released.(jobs := released.jobs[e := dead]), e, FailedIndex, now, r, id);
      }
    }
  }

  /** Each entry a sweep reports counts one stall, or surfaces one corrupt id, and nothing else does. */
  lemma {:induction false} SweepReplyIsHistory(s: State, n: nat, now: nat, reason: string, r: Resolved, id: Id)
    requires Inv(s) && id in s.audit
    ensures var (s', es) := Sweep(s, n, now, reason, r);
            && id in s'.audit
            && s'.audit[id].corrupt == s.audit[id].corrupt + CorruptSwept(es, id)
            && Tally(s'.audit[id].settled, ByStall) == Tally(s.audit[id].settled, ByStall) + StallsFor(es, id)
    decreases n
  {
    hide Fits, RecoverOne;
    if n > 0 && s.active != map[] && s.active[Lowest(s.active)] <= now {
      var e := Lowest(s.active);
      var (s1, first) := RecoverOne(s, e, now, reason, r);
      var (s2, rest) := Sweep(s1, n - 1, now, reason, r);
      RecoverOneKeeps(s, e, now, reason, r);
      if e in s.jobs {
        ActiveIsLeased(s, e);
        TallyAppend(s.audit[id].settled, Settlement(s.jobs[e].lockToken.value, ByStall), ByStall);
      }
      RecoverOneHistory(s, e, now, reason, r, id);
      assert s.audit[id].settled + [] == s.audit[id].settled;
      SweepReplyIsHistory(s1, n - 1, now, reason, r, id);
      assert ([first] + rest)[1..] == rest;
    }
  }

  // ---------------------------------------------------------------- the work left in a queue

  function Remaining(j: Job): nat {
    Max(0, Budget(j.maxRetries) - j.failures + Budget(j.maxStalls) - j.stalls)
  }

  /** How many more claims and settlements one id can take part in without being requeued. */
  function Weight(v: View): nat {
    if v.waits > 0 then (if v.job.Some? then 2 * Remaining(v.job.value) + 2 else 1)
    else if v.active.Some? then (if v.job.Some? then 2 * Remaining(v.job.value) + 1 else 1)
    else 0
  }

  ghost function WorkOf(s: State, ids: set<Id>): nat {
    if ids == {} then 0
    else
      var x :| x in ids;
      Weight(ViewOf(s, x)) + WorkOf(s, ids - {x})
  }

  ghost function Work(s: State): nat {
    WorkOf(s, s.audit.Keys)
  }

  lemma {:induction false} PullOut(s: State, ids: set<Id>, x: Id)
    requires x in ids
    ensures WorkOf(s, ids) == Weight(ViewOf(s, x)) + WorkOf(s, ids - {x})
    decreases ids
  {
    var y :| y in ids && WorkOf(s, ids) == Weight(ViewOf(s, y)) + WorkOf(s, ids - {y});
    if y != x {
      PullOut(s, ids - {y}, x);
      PullOut(s, ids - {x}, y);
      assert ids - {y} - {x} == ids - {x} - {y};
    }
  }

  /** Nobody's weight grew. */
  ghost predicate NoHeavier(s: State, s': State) {
    forall x: Id :: Weight(ViewOf(s', x)) <= Weight(ViewOf(s, x))
  }

  /** Less weight everywhere is less work. */
  lemma {:induction false} NoMoreWork(s: State, s': State, ids: set<Id>)
    requires forall x :: x in ids ==> Weight(ViewOf(s', x)) <= Weight(ViewOf(s, x))
    ensures WorkOf(s', ids) <= WorkOf(s, ids)
    decreases ids
  {
    if ids != {} {
      var x :| x in ids;
      PullOut(s, ids, x);
      PullOut(s', ids, x);
      NoMoreWork(s, s', ids - {x});
    }
  }

  lemma WorkShrinksStrictly(s: State, s': State, x: Id)
    requires NoHeavier(s, s') && s'.audit.Keys == s.audit.Keys && x in s.audit
    requires Weight(ViewOf(s', x)) < Weight(ViewOf(s, x))
    ensures Work(s') + 1 <= Work(s)
  {
    PullOut(s, s.audit.Keys, x);
    PullOut(s', s.audit.Keys, x);
    NoMoreWork(s, s', s.audit.Keys - {x});
  }

  /** `s'` weighs at least `much` less than `s`. */
  ghost predicate Lightens(s: State, s': State, much: nat) {
    NoHeavier(s, s') && s'.audit.Keys == s.audit.Keys && Work(s') + much <= Work(s)
  }

  lemma ClaimOneLightens(s: State, now: nat, deadline: nat)
    requires Inv(s) && s.waiting != []
    ensures Lightens(s, ClaimOne(s, now, deadline).0, 1)
  {
    var s' := ClaimOne(s, now, deadline).0;
    var id := s.waiting[|s.waiting| - 1];
    ClaimOneTouches(s, now, deadline);
    assert Fits(id, ViewOf(s, id));
    assert multiset(s.waiting)[id] > 0;
    forall x: Id
      ensures Weight(ViewOf(s', x)) <= Weight(ViewOf(s, x))
    {
      assert x != id ==> ViewOf(s', x) == ViewOf(s, x);
    }
    WorkShrinksStrictly(s, s', id);
  }

  lemma {:induction false} ClaimManyLightens(s: State, n: nat, now: nat, deadline: nat)
    requires Inv(s)
    ensures Lightens(s, ClaimMany(s, n, now, deadline).0, |ClaimMany(s, n, now, deadline).1|)
    decreases n
  {
    hide Fits, ClaimOne, Weight;
    if n > 0 && s.waiting != [] {
      ClaimOneKeeps(s, now, deadline);
      ClaimOneLightens(s, now, deadline);
      ClaimManyLightens(ClaimOne(s, now, deadline).0, n - 1, now, deadline);
    } else {
      NoMoreWork(s, s, s.audit.Keys);
    }
  }

  lemma FinishLightens(s: State, id: Id, job: Job, how: How, which: Which, now: nat, r: Resolved)
    requires Inv(s) && id in s.jobs && s.jobs[id].lockToken.Some?
    ensures Lightens(s, Finish(Settle(s, id, job, how), id, which, now, r), 1)
  {
    hide Finish;
    var settled := Settle(s, id, job, how);
    var s' := Finish(settled, id, which, now, r);
    FinishSpares(settled, id, which, now, r, id);
    assert Fits(id, ViewOf(s, id));
    forall x: Id
      ensures Weight(ViewOf(s', x)) <= Weight(ViewOf(s, x))
    {
      FinishSpares(settled, id, which, now, r, x);
    }
    WorkShrinksStrictly(s, s', id);
  }

  lemma BackLightens(s: State, id: Id, job: Job, how: How)
    requires Inv(s) && id in s.jobs && s.jobs[id].lockToken.Some?
    requires EndsRun(s.jobs[id], job, how) && (how.ByFail? || how.ByStall?)
    requires job.failures <= Budget(job.maxRetries) && job.stalls <= Budget(job.maxStalls)
    ensures Lightens(s, BackToWaiting(Settle(s, id, job, how), id), 1)
  {
    var s' := BackToWaiting(Settle(s, id, job, how), id);
    Pushed(id, s.waiting);
    assert Fits(id, ViewOf(s, id));
    forall x: Id
      ensures Weight(ViewOf(s', x)) <= Weight(ViewOf(s, x))
    {
      assert x != id ==> ViewOf(s', x) == ViewOf(s, x);
    }
    WorkShrinksStrictly(s, s', id);
  }

  /** Publishing weighs nothing. */
  lemma QuietWeighs(s: State, s1: State, s2: State, much: nat)
    requires Lightens(s, s1, much) && s2 == s1.(published := s2.published)
    ensures Lightens(s, s2, much)
  {
    forall x: Id
      ensures ViewOf(s2, x) == ViewOf(s1, x)
    {
    }
    NoMoreWork(s1, s2, s1.audit.Keys);
  }

  lemma RecoverOneLightens(s: State, e: Id, now: nat, reason: string, r: Resolved)
    requires Inv(s) && e in s.active
    ensures Lightens(s, RecoverOne(s, e, now, reason, r).0, 1)
  {
    hide Fits, Finish, Weight, Work;
    var s' := RecoverOne(s, e, now, reason, r).0;
    if e !in s.jobs {
      CorruptLightens(s, e);
      QuietWeighs(s, s.(active := s.active - {e}, audit := Surfaced(s.audit, e)), s', 1);
    } else {
      ActiveIsLeased(s, e);
      WithinBudget(s, e);
      var job := s.jobs[e].(stalls := s.jobs[e].stalls + 1, failureKind := Some(StallFailure),
                            failedReason := Some(reason), lastStalledAt := Some(now));
      if job.stalls <= job.maxStalls {
        BackLightens(s, e, job, ByStall);
      } else {
        var dead := job.(status := Status.Failed, finishedAt := Some(now));
        var released := Settle(s, e, job, ByStall);
        assert Settle(s, e, dead, ByStall) == released.(jobs := released.jobs[e := Unlocked(dead)]);
        FinishLightens(s, e, dead, ByStall, FailedIndex, now, r);
        QuietWeighs(s, Finish(Settle(s, e, dead, ByStall), e, FailedIndex, now, r), s', 1);
      }
    }
  }

  lemma CorruptLightens(s: State, e: Id)
    requires Inv(s) && e in s.active && e !in s.jobs
    ensures Lightens(s, s.(active := s.active - {e}, audit := Surfaced(s.audit, e)), 1)
  {
    var s' := s.(active := s.active - {e}, audit := Surfaced(s.audit, e));
    assert Fits(e, ViewOf(s, e));
    forall x: Id
      ensures Weight(ViewOf(s', x)) <= Weight(ViewOf(s, x))
    {
      assert x != e ==> ViewOf(s', x).active == ViewOf(s, x).active;
    }
    WorkShrinksStrictly(s, s', e);
  }

  lemma {:induction false} SweepLightens(s: State, n: nat, now: nat, reason: string, r: Resolved)
    requires Inv(s)
    ensures Lightens(s, Sweep(s, n, now, reason, r).0, |Sweep(s, n, now, reason, r).1|)
    decreases n
  {
    hide Fits, RecoverOne, Weight;
    if n > 0 && s.active != map[] && s.active[Lowest(s.active)] <= now {
      var e := Lowest(s.active);
      RecoverOneKeeps(s, e, now, reason, r);
      RecoverOneLightens(s, e, now, reason, r);
      SweepLightens(RecoverOne(s, e, now, reason, r).0, n - 1, now, reason, r);
    } else {
      NoMoreWork(s, s, s.audit.Keys);
    }
  }

  /** Claims, recoveries, completions and failures that the step performs. */
  function Progress(s: State, a: Action): nat {
    match a
    case DoClaim(count, now, leaseMs) => |Claim(s, count, now, leaseMs).1|
    case DoRecover(batch, now, reason, r) => |Recover(s, batch, now, reason, r).1|
    case DoComplete(id, token, _, _) => if Holds(s, id, token) then 1 else 0
    case DoFail(id, token, _, _, _) => if Holds(s, id, token) then 1 else 0
    case _ => 0
  }

  /** Work that the step brings in: a new job with its budgets, or one more run by a requeue. */
  function Income(a: Action): nat {
    match a
    case DoEnqueue(_, _, maxRetries, maxStalls, _) => 2 * (Budget(maxRetries) + Budget(maxStalls)) + 2
    case DoRequeue(_, _, _, _) => 1
    case _ => 0
  }

  lemma EnqueueWork(s: State, id: Id, payload: string, maxRetries: int, maxStalls: int, now: nat)
    requires Inv(s) && (id !in s.audit || id in s.jobs)
    ensures Work(Enqueue(s, id, payload, maxRetries, maxStalls, now).0)
         <= Work(s) + 2 * (Budget(maxRetries) + Budget(maxStalls)) + 2
  {
    if id !in s.jobs {
      var s' := Enqueue(s, id, payload, maxRetries, maxStalls, now).0;
      Pushed(id, s.waiting);
      assert Fits(id, ViewOf(s, id));
      PullOut(s', s'.audit.Keys, id);
      assert s'.audit.Keys - {id} == s.audit.Keys;
      NoMoreWork(s, s', s.audit.Keys);
    }
  }

  lemma RequeueWork(s: State, id: Id, token: Token, reason: string, now: nat)
    requires Inv(s)
    ensures Work(Requeue(s, id, token, reason, now).0) <= Work(s) + 1
  {
    if Holds(s, id, token) {
      var s' := Requeue(s, id, token, reason, now).0;
      Pushed(id, s.waiting);
      assert Fits(id, ViewOf(s, id));
      PullOut(s', s.audit.Keys, id);
      PullOut(s, s.audit.Keys, id);
      assert s'.audit.Keys == s.audit.Keys;
      NoMoreWork(s, s', s.audit.Keys - {id});
    }
  }

  lemma CompleteWork(s: State, id: Id, token: Token, now: nat, r: Resolved)
    requires Inv(s)
    ensures Work(Complete(s, id, token, now, r).0) + (if Holds(s, id, token) then 1 else 0) <= Work(s)
  {
    hide Fits, Finish, Weight, Work;
    if Holds(s, id, token) {
      var finished := Finish(Settle(s, id, s.jobs[id], ByComplete), id, CompletedIndex, now, r);
      FinishLightens(s, id, s.jobs[id], ByComplete, CompletedIndex, now, r);
      QuietWeighs(s, finished, PublishIfFreed(finished, id), 1);
    }
  }

  lemma FailWork(s: State, id: Id, token: Token, error: string, now: nat, r: Resolved)
    requires Inv(s)
    ensures Work(Fail(s, id, token, error, now, r).0) + (if Holds(s, id, token) then 1 else 0) <= Work(s)
  {
    hide Fits, Finish, Weight, Work;
    if Holds(s, id, token) {
      WithinBudget(s, id);
      var job := s.jobs[id].(failures := s.jobs[id].failures + 1, failureKind := Some(HandlerFailure),
                             failedReason := Some(error), lastError := Some(error), lastFailedAt := Some(now));
      if job.failures <= job.maxRetries {
        BackLightens(s, id, job, ByFail);
      } else {
        var finished := Finish(Settle(s, id, job, ByFail), id, FailedIndex, now, r);
        FinishLightens(s, id, job, ByFail, FailedIndex, now, r);
        QuietWeighs(s, finished, PublishIfFreed(finished, id), 1);
      }
    }
  }

  /** One step's progress is paid for out of the work that was left or came in. */
  lemma StepWork(s: State, a: Action)
    requires Inv(s) && Legal(s, a)
    ensures Work(Step(s, a)) + Progress(s, a) <= Work(s) + Income(a)
  {
    hide Fits, Finish, Weight, Work, ClaimMany, Sweep, Enqueue, Requeue, Complete, Fail;
    match a
    case DoEnqueue(id, payload, maxRetries, maxStalls, now) => EnqueueWork(s, id, payload, maxRetries, maxStalls, now);
    case DoRequeue(id, token, reason, now) => RequeueWork(s, id, token, reason, now);
    case DoClaim(count, now, leaseMs) => ClaimManyLightens(s, Allowance(s, count), now, now + leaseMs);
    case DoRecover(batch, now, reason, r) => SweepLightens(s, SweepBound(s, batch), now, reason, r);
    case DoComplete(id, token, now, r) => CompleteWork(s, id, token, now, r);
    case DoFail(id, token, error, now, r) => FailWork(s, id, token, error, now, r);
    case _ =>
      OtherWork(s, a);
  }

  lemma OtherWork(s: State, a: Action)
    requires Inv(s) && (a.DoExtend? || a.DoDeclare? || a.LoseHash?)
    ensures Work(Step(s, a)) <= Work(s)
  {
    var s' := Step(s, a);
    forall x: Id
      ensures Weight(ViewOf(s', x)) <= Weight(ViewOf(s, x))
    {
      assert Fits(x, ViewOf(s, x));
    }
    NoMoreWork(s, s', s.audit.Keys);
  }

  function TotalProgress(s: State, acts: seq<Action>): nat
    decreases |acts|
  {
    if acts == [] then 0 else Progress(s, acts[0]) + TotalProgress(Step(s, acts[0]), acts[1..])
  }

  function TotalIncome(acts: seq<Action>): nat {
    if acts == [] then 0 else Income(acts[0]) + TotalIncome(acts[1..])
  }

  /** Over any run, claims + recoveries + completions + failures never exceed the work there was to
      begin with plus what enqueues and requeues brought in; without those two, every run makes
      only finitely much progress. */
  lemma {:induction false} ProgressIsBounded(s: State, acts: seq<Action>)
    requires Inv(s) && LegalRun(s, acts)
    ensures Work(Run(s, acts)) + TotalProgress(s, acts) <= Work(s) + TotalIncome(acts)
    decreases |acts|
  {
    hide Fits, Step, Work, Progress, Income;
    if acts != [] {
      StepKeeps(s, acts[0]);
      StepWork(s, acts[0]);
      ProgressIsBounded(Step(s, acts[0]), acts[1..]);
    }
  }
}
