/** Plain statements about every reachable state: pointers, hashes, budgets and conservation. */
module Structure {
  import opened Prelude
  import opened SortedSets
  import opened Retention
  import opened Jobs
  import opened Scripts
  import opened Invariant
  import opened Protocol
  import opened Finishing
  import opened Batching

  ghost predicate Reachable(s: State) {
    exists acts :: LegalRun(EMPTY, acts) && Run(EMPTY, acts) == s
  }

  lemma ReachableFits(s: State)
    requires Reachable(s)
    ensures Inv(s)
  {
    var acts :| LegalRun(EMPTY, acts) && Run(EMPTY, acts) == s;
    EmptyHolds();
    RunKeeps(EMPTY, acts);
  }

  /** In how many of the four live collections and three final fates an id is found. */
  function Found(s: State, id: Id, r: Record): nat {
    multiset(s.waiting)[id]
    + (if id in s.active then 1 else 0) + (if id in s.completed then 1 else 0) + (if id in s.failed then 1 else 0)
    + r.deleted + r.evicted + r.corrupt
  }

  /** Every id ever enqueued is in exactly one of waiting, active, completed, failed, deleted on
      finish, evicted by retention, or surfaced as corrupt; ids never enqueued are nowhere.
      Hashes may vanish at any moment of the run. */
  lemma Conservation(s: State, id: Id)
    requires Reachable(s)
    ensures id in s.audit ==> Found(s, id, s.audit[id]) == 1 && s.audit[id].corrupt <= 1
    ensures id !in s.audit ==> id !in s.waiting && id !in s.active && id !in s.completed && id !in s.failed
                               && id !in s.jobs
  {
    ReachableFits(s);
    assert Fits(id, ViewOf(s, id));
  }

  lemma {:induction false} CountedTwice(w: seq<Id>, i: nat, j: nat)
    requires i < j < |w| && w[i] == w[j]
    ensures multiset(w)[w[i]] >= 2
  {
    assert w == w[..j] + [w[j]] + w[j + 1..];
    assert w[..j][i] in multiset(w[..j]);
  }

  /** The waiting list never names a job twice. */
  lemma WaitingDistinct(s: State, i: nat, j: nat)
    requires Reachable(s) && i < j < |s.waiting|
    ensures s.waiting[i] != s.waiting[j]
  {
    ReachableFits(s);
    assert Fits(s.waiting[i], ViewOf(s, s.waiting[i]));
    if s.waiting[i] == s.waiting[j] {
      CountedTwice(s.waiting, i, j);
    }
  }

  /** In every reachable state, claiming m and then n at one instant is claiming m + n exactly when the
      split is harmless (see Batching.SplitIsHarmless). */
  lemma ClaimBatchingIsTransparent(s: State, m: nat, n: nat, now: nat, leaseMs: nat)
    requires Reachable(s)
    ensures var (s1, first) := Claim(s, m, now, leaseMs);
            var (s2, second) := Claim(s1, n, now, leaseMs);
            Claim(s, m + n, now, leaseMs) == (s2, first + second) <==> SplitIsHarmless(s, m, n)
  {
    hide Claim, SplitIsHarmless;
    forall i, j | 0 <= i < j < |s.waiting|
      ensures s.waiting[i] != s.waiting[j]
    {
      WaitingDistinct(s, i, j);
    }
    forall i | 0 <= i < |s.waiting|
      ensures s.waiting[i] !in s.active
    {
      WaitingNotActive(s, s.waiting[i]);
    }
    ClaimsCompose(s, m, n, now, leaseMs);
  }

  /** The difference is reachable: with one free slot, a lost hash at the head of the queue leaves claim(2)
      with nothing leased, while claim(1) twice leases the job behind it. */
  lemma LostHashShowsTheBatch() returns (acts: seq<Action>)
    ensures LegalRun(EMPTY, acts)
    ensures var s := Run(EMPTY, acts);
            && !SplitIsHarmless(s, 1, 1)
            && Claim(s, 2, 0, 5).0.active == map[]
            && Claim(Claim(s, 1, 0, 5).0, 1, 0, 5).0.active == map[2 := 5]
  {
    hide LegalRun, Run, Step, Legal, Claim, SplitIsHarmless;
    var a, b, c, d := DoEnqueue(1, "", 0, 0, 0), DoEnqueue(2, "", 0, 0, 0), DoDeclare(1, 1), LoseHash(1);
    acts := [a, b, c, d];
    var s2 := Step(Step(EMPTY, a), b);
    RunCons(Step(s2, c), d, []);
    RunCons(s2, c, [d]);
    RunCons(Step(EMPTY, a), b, [c, d]);
    RunCons(EMPTY, a, [b, c, d]);
    assert [d] + [] == [d] && [c] + [d] == [c, d] && [b] + [c, d] == [b, c, d] && [a] + [b, c, d] == acts;
    HeadLost(a, b, c, d);
  }

  lemma HeadLost(a: Action, b: Action, c: Action, d: Action)
    requires a == DoEnqueue(1, "", 0, 0, 0) && b == DoEnqueue(2, "", 0, 0, 0) && c == DoDeclare(1, 1) && d == LoseHash(1)
    ensures var s1 := Step(EMPTY, a); var s2 := Step(s1, b); var s3 := Step(s2, c); var s := Step(s3, d);
            && Legal(EMPTY, a) && Legal(s1, b) && Legal(s2, c) && Legal(s3, d)
            && !SplitIsHarmless(s, 1, 1)
            && Claim(s, 2, 0, 5).0.active == map[]
            && Claim(Claim(s, 1, 0, 5).0, 1, 0, 5).0.active == map[2 := 5]
  {
    hide ClaimMany;
    var s := Step(Step(Step(Step(EMPTY, a), b), c), d);
    assert s.waiting == [2, 1] && s.active == map[] && 1 !in s.jobs && 2 in s.jobs;
    var popped := ClaimOne(s, 0, 5).0;
    assert popped.waiting == [2] && popped.active == map[];
    ClaimUnfold(s, 1, 0, 5);
    ClaimUnfold(popped, 0, 0, 5);
    ClaimUnfold(popped, 1, 0, 5);
    ClaimUnfold(ClaimOne(popped, 0, 5).0, 0, 0, 5);
    assert MissingAmong(s, 1) == MissingAmong(s, 0) + 1;
  }

  lemma WaitingNotActive(s: State, id: Id)
    requires Reachable(s) && id in s.waiting
    ensures id !in s.active
  {
    ReachableFits(s);
    assert Fits(id, ViewOf(s, id));
    assert multiset(s.waiting)[id] > 0;
  }

  /** A stored hash names the one collection its id is in; it holds a lock exactly when active,
      issued at its last start, and its lease deadline is its score. */
  lemma HashesAgree(s: State, id: Id)
    requires Reachable(s) && id in s.jobs
    ensures var j := s.jobs[id];
            && (j.status.Waiting? <==> id in s.waiting)
            && (j.status.Active? <==> id in s.active)
            && (j.status.Completed? <==> id in s.completed)
            && (j.status.Failed? <==> id in s.failed)
            && (j.lockToken.Some? <==> j.status.Active?)
            && (j.status.Active? ==> j.lastStartedAt == Some(j.lockToken.value.now))
            && j.leaseDeadline == Find(s.active, id)
            && j.finishedAt == (if id in s.completed then Some(s.completed[id]) else Find(s.failed, id))
  {
    ReachableFits(s);
    assert Fits(id, ViewOf(s, id));
    assert id in s.waiting <==> multiset(s.waiting)[id] > 0;
  }

  /** The holder of the current token can always extend, and the lease moves in hash and index alike. */
  lemma ExtendSucceeds(s: State, id: Id, token: Token, now: nat, leaseMs: nat)
    requires Reachable(s) && Holds(s, id, token)
    ensures var (s', ack) := Extend(s, id, token, now, leaseMs);
            && ack == AckExtended
            && Holds(s', id, token)
            && id in s'.active && s'.active[id] == now + leaseMs
            && s'.jobs[id].leaseDeadline == Some(now + leaseMs)
  {
    HashesAgree(s, id);
  }

  // ---------------------------------------------------------------- retention and live jobs

  predicate Live(s: State, id: Id) {
    id in s.jobs && (s.jobs[id].status.Waiting? || s.jobs[id].status.Active?)
  }

  lemma LiveUnindexed(s: State, id: Id)
    requires Inv(s) && Live(s, id)
    ensures id !in s.completed && id !in s.failed && id in s.audit
    ensures s.jobs[id].status.Waiting? ==> id !in s.active
  {
    assert Fits(id, ViewOf(s, id));
  }

  lemma RecoverOneOthers(s: State, e: Id, now: nat, reason: string, r: Resolved, id: Id)
    requires e in s.active && id != e && id !in s.failed
    ensures Find(RecoverOne(s, e, now, reason, r).0.jobs, id) == Find(s.jobs, id)
  {
    hide Finish;
    if e in s.jobs {
      var job := s.jobs[e].(stalls := s.jobs[e].stalls + 1, failureKind := Some(StallFailure),
                            failedReason := Some(reason), lastStalledAt := Some(now));
      var released := Settle(s, e, job, ByStall);
      if job.stalls > job.maxStalls {
        var dead := Unlocked(job).(status := Status.Failed, finishedAt := Some(now));
        FinishSpares(released.(jobs := released.jobs[e := dead]), e, FailedIndex, now, r, id);
      }
    }
  }
}
