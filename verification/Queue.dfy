/** One queue's keys in Redis, with one method per Lua script, written as the scripts are. Each
    method is proved to do what the function of the same name in Scripts says. */
module QueueScripts {
  import opened Prelude
  import opened SortedSets
  import opened Retention
  import opened Jobs
  import S = Scripts
  import opened Finishing
  import opened Batching

  /** ZRANGEBYSCORE active 0 now LIMIT 0 batch. */
  function Candidates(z: ZSet, batch: int, now: nat): seq<Id> {
    var expired := RangeByScore(z, now);
    if 0 <= batch < |expired| then expired[..batch] else expired
  }

  /** The loop of a sweep that began in `start`: `done` has been reported, the queue is in `s`, and
      `ids` are the remaining candidates, which are the lowest entries still expired. */
  ghost predicate Sweeping(start: S.State, batch: int, s: S.State, left: nat, ids: seq<Id>, done: seq<S.Recovered>,
                           now: nat, reason: string, r: Resolved)
  {
    var (after, rest) := S.Sweep(s, left, now, reason, r);
    && S.Recover(start, batch, now, reason, r) == (after, done + rest)
    && ids == Ranked(s.active)[..Min(left, CountUpTo(s.active, now))]
    && s.concurrency == start.concurrency
  }

  lemma SweepStarts(s: S.State, batch: int, now: nat, reason: string, r: Resolved)
    ensures Sweeping(s, batch, s, S.SweepBound(s, batch), Candidates(s.active, batch, now), [], now, reason, r)
  {
    hide S.Sweep, Ranked, CountUpTo;
    var rest := S.Recover(s, batch, now, reason, r).1;
    assert [] + rest == rest;
  }

  lemma SweepGoesOn(start: S.State, batch: int, s: S.State, left: nat, ids: seq<Id>, done: seq<S.Recovered>,
                    now: nat, reason: string, r: Resolved)
    requires Sweeping(start, batch, s, left, ids, done, now, reason, r) && ids != []
    ensures left > 0 && ids[0] in s.active && s.active[ids[0]] <= now
    ensures var (s1, one) := S.RecoverOne(s, ids[0], now, reason, r);
            && s1.concurrency == s.concurrency
            && Sweeping(start, batch, s1, left - 1, ids[1..], done + [one], now, reason, r)
  {
    hide S.RecoverOne, S.Sweep, S.Recover;
    TakeOneMore(s.active, left, now);
    var (s1, one) := S.RecoverOne(s, ids[0], now, reason, r);
    RecoverOneEffect(s, ids[0], now, reason, r);
    SweepUnfold(s, left, now, reason, r);
    var rest := S.Sweep(s1, left - 1, now, reason, r).1;
    assert done + ([one] + rest) == done + [one] + rest;
  }

  lemma SweepEnds(start: S.State, batch: int, s: S.State, left: nat, done: seq<S.Recovered>,
                  now: nat, reason: string, r: Resolved)
    requires Sweeping(start, batch, s, left, [], done, now, reason, r)
    ensures S.Recover(start, batch, now, reason, r) == (s, done)
  {
    hide S.RecoverOne, S.Sweep, S.Recover;
    SweepUnfold(s, left, now, reason, r);
    assert done + [] == done;
  }

  class Queue {
    var waiting: seq<Id>
    var active: ZSet
    var completed: ZSet
    var failed: ZSet
    var jobs: map<Id, Job>
    var concurrency: S.Concurrency
    var published: seq<Id>
    ghost var audit: Audit

    ghost function Contents(): S.State
      reads this
    {
      S.State(waiting, active, completed, failed, jobs, concurrency, published, audit)
    }

    constructor ()
      ensures Contents() == S.EMPTY
    {
      waiting, active, completed, failed, jobs := [], map[], map[], map[], map[];
      concurrency, published, audit := S.UNSET, [], map[];
    }

    // -------------------------------------------------------------- redis commands used by several scripts

    method Lpush(id: Id)
      modifies this`waiting
      ensures waiting == [id] + old(waiting)
    {
      waiting := [id] + waiting;
    }

    method Publish(id: Id)
      modifies this`published
      ensures published == old(published) + [id]
    {
      published := published + [id];
    }

    method PublishIfFreed(id: Id)
      modifies this`published
      ensures Contents() == S.PublishIfFreed(old(Contents()), id)
    {
      if concurrency.limit.Some? && |waiting| > 0 {
        Publish(id);
      }
    }

    function IndexOf(which: S.Which): ZSet
      reads this
    {
      match which
      case CompletedIndex => completed
      case FailedIndex => failed
    }

    method StoreIndex(which: S.Which, z: ZSet)
      modifies this`completed, this`failed
      ensures Contents() == S.WithIndex(old(Contents()), which, z)
    {
      match which
      case CompletedIndex => completed := z;
      case FailedIndex => failed := z;
    }

    /** DEL each job's hash in turn. */
    method DeleteHashes(ids: seq<Id>)
      modifies this`jobs
      ensures jobs == old(jobs) - SetOf(ids)
    {
      for i := 0 to |ids|
        invariant jobs == old(jobs) - SetOf(ids[..i])
      {
        jobs := jobs - {ids[i]};
        assert ids[..i + 1] == ids[..i] + [ids[i]];
        assert SetOf(ids[..i + 1]) == SetOf(ids[..i]) + {ids[i]};
      }
      assert ids[..|ids|] == ids;
    }

    // -------------------------------------------------------------- the shared retention fragment

    /** DEL the hashes of `gone`, then shrink the index to `rest`. */
    method Evict(which: S.Which, gone: seq<Id>, rest: ZSet)
      modifies this`jobs, this`completed, this`failed, this`audit
      ensures Contents() == S.WithIndex(old(Contents()), which, rest)
                .(jobs := old(jobs) - SetOf(gone), audit := Evicted(old(audit), SetOf(gone)))
    {
      hide Evicted, SetOf;
      DeleteHashes(gone);
      StoreIndex(which, rest);
      audit := Evicted(audit, SetOf(gone));
    }

    method TrimByAge(which: S.Which, cutoff: int)
      modifies this`jobs, this`completed, this`failed, this`audit
      ensures Contents() == S.TrimByAge(old(Contents()), which, cutoff)
    {
      hide Ranked, DropLowest, CountUpTo, Evicted, SetOf;
      var expired := RangeByScore(IndexOf(which), cutoff);
      RemoveUpToIsDrop(IndexOf(which), cutoff);
      Evict(which, expired, RemoveUpTo(IndexOf(which), cutoff));
    }

    method TrimByCount(which: S.Which, count: nat)
      modifies this`jobs, this`completed, this`failed, this`audit
      ensures Contents() == S.TrimByCount(old(Contents()), which, count)
    {
      hide Ranked, DropLowest, Evicted, SetOf;
      var overflow := |IndexOf(which)| - count;
      if overflow > 0 {
        var oldest := Ranked(IndexOf(which))[..overflow];
        Evict(which, oldest, DropLowest(IndexOf(which), overflow));
      }
    }

    method Trim(which: S.Which, now: nat, r: Resolved)
      modifies this`jobs, this`completed, this`failed, this`audit
      ensures Contents() == S.Trimmed(old(Contents()), which, now, r)
    {
      hide S.TrimByAge, S.TrimByCount;
      if r.ttl >= 0 {
        TrimByAge(which, now - r.ttl);
      }
      if r.count >= 0 {
        TrimByCount(which, r.count);
      }
    }

    method Finish(id: Id, which: S.Which, now: nat, r: Resolved)
      requires id in jobs
      modifies this`jobs, this`completed, this`failed, this`audit
      ensures Contents() == S.Finish(old(Contents()), id, which, now, r)
    {
      hide S.Trimmed;
      if r.mode == Mode.Delete {
        jobs := jobs - {id};
        audit := Jobs.Deleted(audit, id);
      } else {
        jobs := jobs[id := jobs[id].(status := S.FinalStatus(which), finishedAt := Some(now))];
        StoreIndex(which, IndexOf(which)[id := now]);
        if r.mode == Mode.Trim {
          Trim(which, now, r);
        }
      }
    }

    // -------------------------------------------------------------- enqueue

    method Enqueue(id: Id, payload: string, maxRetries: int, maxStalls: int, now: nat) returns (accepted: bool)
      modifies this
      ensures (Contents(), accepted) == S.Enqueue(old(Contents()), id, payload, maxRetries, maxStalls, now)
    {
      if id in jobs {
        return false;
      }
      jobs := jobs[id := S.Fresh(payload, maxRetries, maxStalls, now)];
      Lpush(id);
      Publish(id);
      audit := audit[id := Record(maxRetries, maxStalls, [], [], 0, 0, 0)];
      return true;
    }

    // -------------------------------------------------------------- claim

    /** RPOP one pointer; lease its job, or surface it when the hash is gone. */
    method ClaimNext(now: nat, deadline: nat) returns (entry: S.Claimed)
      requires waiting != []
      modifies this`waiting, this`jobs, this`active, this`audit
      ensures (Contents(), entry) == S.ClaimOne(old(Contents()), now, deadline)
    {
      var id := waiting[|waiting| - 1];
      waiting := waiting[..|waiting| - 1];
      if id !in jobs {
        audit := Surfaced(audit, id);
        return S.Corrupt(id);
      }
      var runs := jobs[id].runs + 1;
      var token := Token(id, now, runs);
      jobs := jobs[id := jobs[id].(runs := runs, status := Status.Active, lastStartedAt := Some(now),
                                   lockToken := Some(token), leaseDeadline := Some(deadline))];
      active := active[id := deadline];
      audit := Issue(audit, id, token);
      return S.Job_(id, jobs[id]);
    }

    method ClaimGlobalBatch(leaseMs: nat, requested: int, now: nat) returns (claimed: seq<S.Claimed>)
      modifies this
      ensures (Contents(), claimed) == S.Claim(old(Contents()), requested, now, leaseMs)
    {
      hide S.ClaimOne, S.ClaimMany;
      claimed := [];
      var count := requested;
      ClaimUnfold(Contents(), 0, now, now + leaseMs);
      if concurrency.limit.Some? {
        var free := concurrency.limit.value - |active|;
        if free < 1 {
          return;
        }
        if free < count {
          count := free;
        }
      }
      var deadline := now + leaseMs;
      var i := 0;
      assert forall rest: seq<S.Claimed> :: [] + rest == rest;
      while i < count
        invariant i == 0 || i <= count
        invariant var (after, rest) := S.ClaimMany(Contents(), Max(0, count - i), now, deadline);
                  S.ClaimMany(old(Contents()), Max(0, count), now, deadline) == (after, claimed + rest)
      {
        if waiting == [] {
          break;
        }
        ghost var before, done := Contents(), claimed;
        var entry := ClaimNext(now, deadline);
        claimed := claimed + [entry];
        ClaimUnfold(before, count - i, now, deadline);
        i := i + 1;
        ghost var rest := S.ClaimMany(Contents(), count - i, now, deadline).1;
        assert done + ([entry] + rest) == claimed + rest;
      }
      ClaimUnfold(Contents(), Max(0, count - i), now, deadline);
      assert claimed + [] == claimed;
    }

    // -------------------------------------------------------------- fenced scripts

    method ExtendLock(id: Id, token: Token, leaseMs: nat, now: nat) returns (ack: S.Ack)
      modifies this
      ensures (Contents(), ack) == S.Extend(old(Contents()), id, token, now, leaseMs)
    {
      if id !in jobs {
        return S.AckMissing;
      }
      if jobs[id].lockToken != Some(token) {
        return S.AckStale;
      }
      var newDeadline := now + leaseMs;
      if id in active {
        active := active[id := newDeadline];
      }
      if id !in active {
        return S.AckStale;
      }
      jobs := jobs[id := jobs[id].(leaseDeadline := Some(newDeadline))];
      return S.AckExtended;
    }

    method Complete(id: Id, token: Token, now: nat, r: Resolved) returns (ack: S.Ack)
      modifies this
      ensures (Contents(), ack) == S.Complete(old(Contents()), id, token, now, r)
    {
      if id !in jobs {
        return S.AckMissing;
      }
      if jobs[id].lockToken != Some(token) {
        return S.AckStale;
      }
      audit := Settled(audit, id, jobs[id].lockToken, ByComplete);
      active := active - {id};
      jobs := jobs[id := Unlocked(jobs[id])];
      Finish(id, S.CompletedIndex, now, r);
      PublishIfFreed(id);
      return S.AckCompleted;
    }

    /** HINCRBY failures and the metadata of a handler failure; the lock is released. */
    method RecordFailure(id: Id, error: string, now: nat) returns (failures: nat)
      requires id in jobs
      modifies this`active, this`jobs, this`audit
      ensures failures == old(jobs)[id].failures + 1
      ensures Contents() == S.Settle(old(Contents()), id,
                              old(jobs)[id].(failures := failures, failureKind := Some(HandlerFailure),
                                             failedReason := Some(error), lastError := Some(error),
                                             lastFailedAt := Some(now)), ByFail)
    {
      audit := Settled(audit, id, jobs[id].lockToken, ByFail);
      active := active - {id};
      failures := jobs[id].failures + 1;
      jobs := jobs[id := jobs[id].(failures := failures)];
      jobs := jobs[id := jobs[id].(failureKind := Some(HandlerFailure), failedReason := Some(error),
                                   lastError := Some(error), lastFailedAt := Some(now))];
      jobs := jobs[id := Unlocked(jobs[id])];
    }

    method Fail(id: Id, token: Token, error: string, now: nat, r: Resolved) returns (ack: S.Ack)
      modifies this
      ensures (Contents(), ack) == S.Fail(old(Contents()), id, token, error, now, r)
    {
      hide S.Finish;
      if id !in jobs {
        return S.AckMissing;
      }
      if jobs[id].lockToken != Some(token) {
        return S.AckStale;
      }
      var failures := RecordFailure(id, error, now);
      if failures <= jobs[id].maxRetries {
        jobs := jobs[id := jobs[id].(status := Status.Waiting)];
        Lpush(id);
        Publish(id);
        return S.AckWaiting;
      }
      Finish(id, S.FailedIndex, now, r);
      PublishIfFreed(id);
      return S.AckFailed;
    }

    method RequeueActive(id: Id, token: Token, reason: string, now: nat) returns (ack: S.Ack)
      modifies this
      ensures (Contents(), ack) == S.Requeue(old(Contents()), id, token, reason, now)
    {
      if id !in jobs {
        return S.AckMissing;
      }
      if jobs[id].lockToken != Some(token) {
        return S.AckStale;
      }
      audit := Settled(audit, id, jobs[id].lockToken, ByRequeue);
      active := active - {id};
      jobs := jobs[id := jobs[id].(lastRequeuedAt := Some(now), lastRequeueReason := Some(reason),
                                   status := Status.Waiting)];
      jobs := jobs[id := Unlocked(jobs[id])];
      ghost var job := old(jobs)[id].(lastRequeuedAt := Some(now), lastRequeueReason := Some(reason));
      ghost var released := S.Settle(old(Contents()), id, job, ByRequeue);
      assert jobs == released.jobs[id := released.jobs[id].(status := Status.Waiting)];
      Lpush(id);
      Publish(id);
      return S.AckWaiting;
    }

    // -------------------------------------------------------------- recovery sweep

    /** HINCRBY stalls and the metadata of a stall; the lock is released. */
    method RecordStall(id: Id, reason: string, now: nat) returns (stalls: nat)
      requires id in jobs
      modifies this`active, this`jobs, this`audit
      ensures stalls == old(jobs)[id].stalls + 1
      ensures Contents() == S.Settle(old(Contents()), id,
                              old(jobs)[id].(stalls := stalls, failureKind := Some(StallFailure),
                                             failedReason := Some(reason), lastStalledAt := Some(now)), ByStall)
    {
      audit := Settled(audit, id, jobs[id].lockToken, ByStall);
      active := active - {id};
      stalls := jobs[id].stalls + 1;
      jobs := jobs[id := jobs[id].(stalls := stalls)];
      jobs := jobs[id := jobs[id].(failureKind := Some(StallFailure), failedReason := Some(reason),
                                   lastStalledAt := Some(now))];
      jobs := jobs[id := Unlocked(jobs[id])];
    }

    /** The body of the sweep's loop, for an entry known to be expired. */
    method RecoverEntry(id: Id, now: nat, reason: string, r: Resolved, limited: bool) returns (entry: S.Recovered)
      requires id in active && limited == concurrency.limit.Some?
      modifies this
      ensures (Contents(), entry) == S.RecoverOne(old(Contents()), id, now, reason, r)
    {
      hide S.Finish;
      if id in jobs {
        var stalls := RecordStall(id, reason, now);
        if stalls <= jobs[id].maxStalls {
          jobs := jobs[id := jobs[id].(status := Status.Waiting)];
          Lpush(id);
          Publish(id);
          entry := S.Restored(id, jobs[id]);
        } else {
          jobs := jobs[id := jobs[id].(status := Status.Failed, finishedAt := Some(now))];
          entry := S.GaveUp(id, jobs[id]);
          ghost var before := Contents();
          Finish(id, S.FailedIndex, now, r);
          FinishSpares(before, id, S.FailedIndex, now, r, id);
          if limited && |waiting| > 0 {
            Publish(id);
          }
        }
      } else {
        active := active - {id};
        audit := Surfaced(audit, id);
        entry := S.CorruptActive(id);
        if limited && |waiting| > 0 {
          Publish(id);
        }
      }
    }

    method Recover(batch: int, now: nat, reason: string, r: Resolved) returns (recovered: seq<S.Recovered>)
      modifies this
      ensures (Contents(), recovered) == S.Recover(old(Contents()), batch, now, reason, r)
    {
      hide Candidates, Sweeping, S.RecoverOne, S.Recover, S.Sweep, S.SweepBound;
      var limited := concurrency.limit.Some?;
      var candidates := Candidates(active, batch, now);
      recovered := [];
      ghost var start := Contents();
      ghost var left := S.SweepBound(start, batch);
      SweepStarts(start, batch, now, reason, r);
      assert candidates[0..] == candidates;
      for i := 0 to |candidates|
        invariant limited == concurrency.limit.Some?
        invariant Sweeping(start, batch, Contents(), left, candidates[i..], recovered, now, reason, r)
      {
        var id := candidates[i];
        assert candidates[i..][0] == id && candidates[i..][1..] == candidates[i + 1..];
        SweepGoesOn(start, batch, Contents(), left, candidates[i..], recovered, now, reason, r);
        if id in active && active[id] <= now {
          var entry := RecoverEntry(id, now, reason, r, limited);
          recovered := recovered + [entry];
          left := left - 1;
        }
      }
      assert candidates[|candidates|..] == [];
      SweepEnds(start, batch, Contents(), left, recovered, now, reason, r);
    }

    // -------------------------------------------------------------- concurrency limit

    method DeclareConcurrencyLimit(limit: int, version: int) returns (status: S.Declared, storedLimit: Option<int>)
      modifies this`concurrency
      ensures (concurrency, status) == S.Declare(old(concurrency), limit, version)
      ensures storedLimit == concurrency.limit
    {
      var stored := concurrency;
      if stored.version.None? {
        concurrency := S.Concurrency.Concurrency(Some(limit), Some(version));
        return S.Written, Some(limit);
      }
      if version > stored.version.value {
        concurrency := S.Concurrency.Concurrency(Some(limit), Some(version));
        return S.Written, Some(limit);
      }
      if version < stored.version.value {
        return S.Ignored, stored.limit;
      }
      if Some(limit) == stored.limit {
        return S.Unchanged, stored.limit;
      }
      return S.Conflict, stored.limit;
    }
  }
}
