/** What every reachable state keeps, stated one job at a time. */
module Invariant {
  import opened Prelude
  import opened SortedSets
  import opened Retention
  import opened Jobs
  import opened Scripts

  /** Everything the stored state says about one id. */
  datatype View = View(
    waits: nat,
    active: Option<nat>,
    completed: Option<nat>,
    failed: Option<nat>,
    job: Option<Job>,
    record: Option<Record>)

  function ViewOf(s: State, id: Id): View {
    View(multiset(s.waiting)[id], Find(s.active, id), Find(s.completed, id), Find(s.failed, id),
         Find(s.jobs, id), Find(s.audit, id))
  }

  function One(o: Option<nat>): nat {
    if o.Some? then 1 else 0
  }

  /** In how many places the id is accounted for. */
  function Places(v: View, r: Record): nat {
    v.waits + One(v.active) + One(v.completed) + One(v.failed) + r.deleted + r.evicted + r.corrupt
  }

  function Budget(n: int): nat {
    Max(0, n)
  }

  /** Tokens count up from 1, and all but possibly the last have been settled, in order. */
  predicate TokensInOrder(id: Id, r: Record) {
    && (forall i :: 0 <= i < |r.issued| ==> r.issued[i].id == id && r.issued[i].runs == i + 1)
    && |r.settled| <= |r.issued| <= |r.settled| + 1
    && (forall i :: 0 <= i < |r.settled| ==> r.settled[i].token == r.issued[i])
  }

  /** The status names the one collection that holds the id; the lock is held exactly while active. */
  predicate StatusAgrees(v: View, j: Job, r: Record) {
    && (j.status.Waiting? ==> v.waits == 1)
    && (j.status.Active? ==>
          && v.active.Some? && j.leaseDeadline == v.active
          && |r.issued| == |r.settled| + 1 && j.lockToken == Some(r.issued[|r.settled|])
          && j.lastStartedAt == Some(r.issued[|r.settled|].now))
    && (j.status.Completed? ==> v.completed.Some? && j.finishedAt == v.completed)
    && (j.status.Failed? ==> v.failed.Some? && j.finishedAt == v.failed)
    && (!j.status.Active? ==> j.lockToken.None? && j.leaseDeadline.None? && |r.issued| == |r.settled|)
    && (j.status.Waiting? || j.status.Active? ==> j.finishedAt.None?)
  }

  /** The counters in the hash are what the history says they are. */
  predicate CountersAgree(j: Job, r: Record) {
    && j.runs == |r.issued|
    && j.failures == Tally(r.settled, ByFail)
    && j.stalls == Tally(r.settled, ByStall)
    && Tally(r.settled, ByComplete) == (if j.status.Completed? then 1 else 0)
    && j.maxRetries == r.maxRetries && j.maxStalls == r.maxStalls
    && (j.status.Waiting? || j.status.Active? ==>
          j.failures <= Budget(j.maxRetries) && j.stalls <= Budget(j.maxStalls))
  }

  predicate ClaimsBounded(r: Record) {
    |r.issued| <= Budget(r.maxRetries) + Budget(r.maxStalls) + 1 + Tally(r.settled, ByRequeue)
  }

  predicate Fits(id: Id, v: View) {
    match v.record
    case None => v.waits == 0 && v.active.None? && v.completed.None? && v.failed.None? && v.job.None?
    case Some(r) =>
      && Places(v, r) == 1
      && TokensInOrder(id, r)
      && ClaimsBounded(r)
      && (v.job.Some? ==> StatusAgrees(v, v.job.value, r) && CountersAgree(v.job.value, r))
  }

  ghost predicate Inv(s: State) {
    forall id: Id :: Fits(id, ViewOf(s, id))
  }

  /** One step's effect on history: it only grows, and a lost hash never comes back. */
  predicate RecordGrows(r: Record, r': Record) {
    r.issued <= r'.issued && r.settled <= r'.settled
    && r.maxRetries == r'.maxRetries && r.maxStalls == r'.maxStalls
  }

  ghost predicate Evolves(s: State, s': State) {
    forall id: Id :: id in s.audit ==>
      && id in s'.audit
      && RecordGrows(s.audit[id], s'.audit[id])
      && (id !in s.jobs ==> id !in s'.jobs)
  }

  lemma EvolvesTransitive(a: State, b: State, c: State)
    requires Evolves(a, b) && Evolves(b, c)
    ensures Evolves(a, c)
  {
  }

  lemma EmptyHolds()
    ensures Inv(EMPTY)
  {
  }

  // ---------------------------------------------------------------- list lemmas

  lemma Pushed(id: Id, w: seq<Id>)
    ensures multiset([id] + w) == multiset(w)[id := multiset(w)[id] + 1]
  {
  }

  lemma Popped(w: seq<Id>)
    requires w != []
    ensures var id := w[|w| - 1];
            id in multiset(w) && multiset(w[..|w| - 1]) == multiset(w)[id := multiset(w)[id] - 1]
  {
    assert w == w[..|w| - 1] + [w[|w| - 1]];
  }

  // ---------------------------------------------------------------- one lemma a step

  /** `s'` differs from `s` only in what it says about `id`. */
  ghost predicate OnlyTouches(s: State, s': State, id: Id) {
    forall x: Id :: x != id ==> ViewOf(s', x) == ViewOf(s, x)
  }

  /** A step that touches one id keeps the invariant if the new view of that id fits. */
  lemma TouchOne(s: State, s': State, id: Id)
    requires Inv(s) && OnlyTouches(s, s', id)
    requires Fits(id, ViewOf(s', id))
    ensures Inv(s')
  {
  }

  lemma EnqueueKeeps(s: State, id: Id, payload: string, maxRetries: int, maxStalls: int, now: nat)
    requires Inv(s)
    requires id !in s.audit || id in s.jobs
    ensures Inv(Enqueue(s, id, payload, maxRetries, maxStalls, now).0)
    ensures Evolves(s, Enqueue(s, id, payload, maxRetries, maxStalls, now).0)
  {
    if id !in s.jobs {
      var s' := Enqueue(s, id, payload, maxRetries, maxStalls, now).0;
      Pushed(id, s.waiting);
      assert Fits(id, ViewOf(s, id));
      TouchOne(s, s', id);
    }
  }

  /** A popped waiting job, leased under a new token. */
  lemma ViewClaimed(id: Id, v: View, v': View, token: Token, deadline: nat)
    requires Fits(id, v) && v.waits > 0 && v.job.Some? && v.record.Some?
    requires token.id == id && token.runs == v.job.value.runs + 1
    requires v'.job.Some? && v'.job.value == v.job.value.(
                 runs := token.runs, status := Status.Active, lastStartedAt := Some(token.now),
                 lockToken := Some(token), leaseDeadline := Some(deadline))
    requires v' == v.(waits := v.waits - 1, active := Some(deadline), job := v'.job,
                      record := Some(v.record.value.(issued := v.record.value.issued + [token])))
    ensures Fits(id, v')
  {
    TallyTotal(v.record.value.settled);
  }

  lemma ClaimOneTouches(s: State, now: nat, deadline: nat)
    requires s.waiting != []
    ensures OnlyTouches(s, ClaimOne(s, now, deadline).0, s.waiting[|s.waiting| - 1])
    ensures multiset(ClaimOne(s, now, deadline).0.waiting)[s.waiting[|s.waiting| - 1]]
         == multiset(s.waiting)[s.waiting[|s.waiting| - 1]] - 1
  {
    hide ClaimOne;
    Popped(s.waiting);
    ClaimOneFrame(s, now, deadline);
  }

  lemma ClaimOneFrame(s: State, now: nat, deadline: nat)
    requires s.waiting != []
    ensures var s', id := ClaimOne(s, now, deadline).0, s.waiting[|s.waiting| - 1];
            && s'.waiting == s.waiting[..|s.waiting| - 1] && s'.completed == s.completed && s'.failed == s.failed
            && (forall x: Id :: x != id ==>
                  Find(s'.active, x) == Find(s.active, x) && Find(s'.jobs, x) == Find(s.jobs, x)
                  && Find(s'.audit, x) == Find(s.audit, x))
  {
  }

  lemma ClaimOneKeeps(s: State, now: nat, deadline: nat)
    requires Inv(s) && s.waiting != []
    ensures Inv(ClaimOne(s, now, deadline).0) && Evolves(s, ClaimOne(s, now, deadline).0)
  {
    var s' := ClaimOne(s, now, deadline).0;
    var id := s.waiting[|s.waiting| - 1];
    ClaimOneTouches(s, now, deadline);
    assert Fits(id, ViewOf(s, id));
    assert multiset(s.waiting)[id] > 0;
    if id in s.jobs {
      ViewClaimed(id, ViewOf(s, id), ViewOf(s', id), Token(id, now, s.jobs[id].runs + 1), deadline);
    }
    TouchOne(s, s', id);
  }

  lemma ExtendKeeps(s: State, id: Id, token: Token, now: nat, leaseMs: nat)
    requires Inv(s)
    ensures Inv(Extend(s, id, token, now, leaseMs).0) && Evolves(s, Extend(s, id, token, now, leaseMs).0)
  {
    var s' := Extend(s, id, token, now, leaseMs).0;
    assert Fits(id, ViewOf(s, id));
    TouchOne(s, s', id);
  }

  // ---------------------------------------------------------------- settling a run

  /** `j'` is `j` at the end of a run: metadata is free, one counter may have grown. */
  predicate EndsRun(j: Job, j': Job, how: How) {
    && j'.runs == j.runs && j'.maxRetries == j.maxRetries && j'.maxStalls == j.maxStalls
    && j'.failures == j.failures + (if how.ByFail? then 1 else 0)
    && j'.stalls == j.stalls + (if how.ByStall? then 1 else 0)
  }

  function SettledRecord(v: View, how: How): Record
    requires v.job.Some? && v.job.value.lockToken.Some? && v.record.Some?
  {
    v.record.value.(settled := v.record.value.settled + [Settlement(v.job.value.lockToken.value, how)])
  }

  /** Facts about the history after one more settlement. */
  lemma SettledRecordFits(id: Id, v: View, how: How)
    requires Fits(id, v) && v.job.Some? && v.job.value.lockToken.Some?
    ensures v.record.Some? && v.active.Some? && v.job.value.status.Active? && v.waits == 0
    ensures var r := SettledRecord(v, how);
            && TokensInOrder(id, r) && ClaimsBounded(r) && |r.issued| == |r.settled|
            && (forall h :: Tally(r.settled, h) == Tally(v.record.value.settled, h) + (if h == how then 1 else 0))
  {
  }

  lemma ViewToWaiting(id: Id, v: View, v': View, how: How)
    requires Fits(id, v) && v.job.Some? && v.job.value.lockToken.Some? && v.record.Some?
    requires v'.job.Some? && EndsRun(v.job.value, v'.job.value, how) && !how.ByComplete?
    requires v'.job.value == Unlocked(v'.job.value) && v'.job.value.status.Waiting?
    requires v'.job.value.finishedAt == v.job.value.finishedAt
    requires v'.job.value.failures <= Budget(v'.job.value.maxRetries)
    requires v'.job.value.stalls <= Budget(v'.job.value.maxStalls)
    requires v' == v.(waits := v.waits + 1, active := None, job := v'.job,
                      record := Some(SettledRecord(v, how)))
    ensures Fits(id, v')
  {
  }

  lemma ViewToIndex(id: Id, v: View, v': View, which: Which, how: How, now: nat)
    requires Fits(id, v) && v.job.Some? && v.job.value.lockToken.Some? && v.record.Some?
    requires v'.job.Some? && EndsRun(v.job.value, v'.job.value, how)
    requires how.ByComplete? <==> which.CompletedIndex?
    requires v'.job.value == Unlocked(v'.job.value)
    requires v'.job.value.status == FinalStatus(which) && v'.job.value.finishedAt == Some(now)
    requires v' == v.(active := None, job := v'.job, record := Some(SettledRecord(v, how)),
                      completed := if which.CompletedIndex? then Some(now) else v.completed,
                      failed := if which.FailedIndex? then Some(now) else v.failed)
    ensures Fits(id, v')
  {
  }

  lemma ViewDropped(id: Id, v: View, v': View, how: How)
    requires Fits(id, v) && v.job.Some? && v.job.value.lockToken.Some? && v.record.Some?
    requires v' == v.(active := None, job := None,
                      record := Some(SettledRecord(v, how).(deleted := v.record.value.deleted + 1)))
    ensures Fits(id, v')
  {
  }

  /** Fail, requeue and recovery handing a job back. */
  lemma ToWaitingKeeps(s: State, id: Id, job: Job, how: How)
    requires Inv(s) && id in s.jobs && s.jobs[id].lockToken.Some?
    requires EndsRun(s.jobs[id], job, how) && !how.ByComplete? && job.finishedAt == s.jobs[id].finishedAt
    requires job.failures <= Budget(job.maxRetries) && job.stalls <= Budget(job.maxStalls)
    ensures Inv(BackToWaiting(Settle(s, id, job, how), id))
    ensures Evolves(s, BackToWaiting(Settle(s, id, job, how), id))
  {
    var s' := BackToWaiting(Settle(s, id, job, how), id);
    Pushed(id, s.waiting);
    assert Fits(id, ViewOf(s, id));
    ViewToWaiting(id, ViewOf(s, id), ViewOf(s', id), how);
    TouchOne(s, s', id);
  }

  lemma ViewEvicted(id: Id, v: View, v': View, which: Which)
    requires Fits(id, v) && v.record.Some?
    requires if which.CompletedIndex? then v.completed.Some? else v.failed.Some?
    requires v' == v.(job := None, record := Some(v.record.value.(evicted := v.record.value.evicted + 1)),
                      completed := if which.CompletedIndex? then None else v.completed,
                      failed := if which.FailedIndex? then None else v.failed)
    ensures Fits(id, v')
  {
  }

  lemma EvictTouches(s: State, which: Which, k: nat, x: Id)
    requires k <= |Index(s, which)|
    ensures x !in SetOf(Ranked(Index(s, which))[..k]) ==> ViewOf(EvictLowest(s, which, k), x) == ViewOf(s, x)
    ensures x in SetOf(Ranked(Index(s, which))[..k]) ==> x in Index(s, which)
  {
    var z := Index(s, which);
    DropLowestKeeps(z, k);
    if x in SetOf(Ranked(z)[..k]) {
      var i :| 0 <= i < k && Ranked(z)[i] == x;
      RankedAt(z, i);
    }
  }

  /** The view of an evicted member. */
  lemma EvictedView(s: State, which: Which, k: nat, x: Id)
    requires k <= |Index(s, which)| && x in SetOf(Ranked(Index(s, which))[..k]) && x in s.audit
    ensures x in Index(s, which)
    ensures var v := ViewOf(s, x);
            ViewOf(EvictLowest(s, which, k), x)
              == v.(job := None, record := Some(v.record.value.(evicted := v.record.value.evicted + 1)),
                    completed := if which.CompletedIndex? then None else v.completed,
                    failed := if which.FailedIndex? then None else v.failed)
  {
    hide Ranked, DropLowest;
    DropLowestKeeps(Index(s, which), k);
    EvictTouches(s, which, k, x);
  }

  lemma IndexedIsKnown(s: State, which: Which, x: Id)
    requires Fits(x, ViewOf(s, x)) && x in Index(s, which)
    ensures x in s.audit
  {
  }

  lemma EvictFits(s: State, which: Which, k: nat, x: Id)
    requires k <= |Index(s, which)| && Fits(x, ViewOf(s, x))
    ensures Fits(x, ViewOf(EvictLowest(s, which, k), x))
  {
    hide Fits, EvictLowest, Ranked;
    EvictTouches(s, which, k, x);
    if x in SetOf(Ranked(Index(s, which))[..k]) {
      IndexedIsKnown(s, which, x);
      EvictedView(s, which, k, x);
      ViewEvicted(x, ViewOf(s, x), ViewOf(EvictLowest(s, which, k), x), which);
    }
  }

  /** Evicting the lowest members of an index removes their pointers and hashes together. */
  lemma EvictKeeps(s: State, which: Which, k: nat)
    requires Inv(s) && k <= |Index(s, which)|
    ensures Inv(EvictLowest(s, which, k)) && Evolves(s, EvictLowest(s, which, k))
  {
    hide Fits;
    forall x: Id
      ensures Fits(x, ViewOf(EvictLowest(s, which, k), x))
    {
      EvictFits(s, which, k, x);
    }
  }

  lemma TrimsKeep(s: State, which: Which, cutoff: int, count: nat)
    requires Inv(s)
    ensures Inv(TrimByAge(s, which, cutoff)) && Evolves(s, TrimByAge(s, which, cutoff))
    ensures Inv(TrimByCount(s, which, count)) && Evolves(s, TrimByCount(s, which, count))
  {
    hide Inv, EvictLowest, Index;
    EvictKeeps(s, which, CountUpTo(Index(s, which), cutoff));
    if |Index(s, which)| > count {
      EvictKeeps(s, which, |Index(s, which)| - count);
    }
  }

  lemma TrimmedKeeps(s: State, which: Which, now: nat, r: Resolved)
    requires Inv(s)
    ensures Inv(Trimmed(s, which, now, r)) && Evolves(s, Trimmed(s, which, now, r))
  {
    hide Inv, Evolves, TrimByAge, TrimByCount;
    var aged := if r.ttl >= 0 then TrimByAge(s, which, now - r.ttl) else s;
    TrimsKeep(s, which, now - r.ttl, Max(0, r.count));
    EvolvesFromItself(s);
    TrimsKeep(aged, which, 0, Max(0, r.count));
    EvolvesTransitive(s, aged, TrimByCount(aged, which, Max(0, r.count)));
  }

  lemma EvolvesFromItself(s: State)
    ensures Evolves(s, s)
  {
  }

  lemma ToIndexKeeps(s: State, id: Id, job: Job, how: How, which: Which, now: nat)
    requires Inv(s) && id in s.jobs && s.jobs[id].lockToken.Some?
    requires EndsRun(s.jobs[id], job, how) && (how.ByComplete? <==> which.CompletedIndex?)
    ensures Inv(Indexed(Settle(s, id, job, how), id, which, now))
    ensures Evolves(s, Indexed(Settle(s, id, job, how), id, which, now))
  {
    hide Fits;
    var s' := Indexed(Settle(s, id, job, how), id, which, now);
    assert Fits(id, ViewOf(s, id));
    SettledRecordFits(id, ViewOf(s, id), how);
    ViewToIndex(id, ViewOf(s, id), ViewOf(s', id), which, how, now);
    TouchOne(s, s', id);
  }

  lemma DropKeeps(s: State, id: Id, job: Job, how: How)
    requires Inv(s) && id in s.jobs && s.jobs[id].lockToken.Some?
    ensures var settled := Settle(s, id, job, how);
            var s' := settled.(jobs := settled.jobs - {id}, audit := Jobs.Deleted(settled.audit, id));
            Inv(s') && Evolves(s, s')
  {
    var settled := Settle(s, id, job, how);
    var s' := settled.(jobs := settled.jobs - {id}, audit := Jobs.Deleted(settled.audit, id));
    assert Fits(id, ViewOf(s, id));
    ViewDropped(id, ViewOf(s, id), ViewOf(s', id), how);
    TouchOne(s, s', id);
  }

  /** Complete, exhausted fail and exhausted recovery, under every retention mode. */
  lemma FinishKeeps(s: State, id: Id, job: Job, how: How, which: Which, now: nat, r: Resolved)
    requires Inv(s) && id in s.jobs && s.jobs[id].lockToken.Some?
    requires EndsRun(s.jobs[id], job, how) && (how.ByComplete? <==> which.CompletedIndex?)
    ensures Inv(Finish(Settle(s, id, job, how), id, which, now, r))
    ensures Evolves(s, Finish(Settle(s, id, job, how), id, which, now, r))
  {
    hide Fits, Trimmed;
    var settled := Settle(s, id, job, how);
    if r.mode == Delete {
      DropKeeps(s, id, job, how);
    } else {
      ToIndexKeeps(s, id, job, how, which, now);
      var kept := Indexed(settled, id, which, now);
      TrimmedKeeps(kept, which, now, r);
      EvolvesTransitive(s, kept, Trimmed(kept, which, now, r));
    }
  }

  /** Notifications and the concurrency record are not part of any view. */
  lemma QuietKeeps(s: State, s': State)
    requires Inv(s) && s' == s.(published := s'.published, concurrency := s'.concurrency)
    ensures Inv(s') && Evolves(s, s')
  {
    forall x: Id
      ensures Fits(x, ViewOf(s', x))
    {
      assert Fits(x, ViewOf(s, x)) && ViewOf(s', x) == ViewOf(s, x);
    }
  }
}
