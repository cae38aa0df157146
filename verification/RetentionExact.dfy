/** What the retention fragment keeps, exactly. */
module RetentionExact {
  import opened Prelude
  import opened SortedSets
  import opened Retention
  import opened Jobs
  import opened Scripts
  import opened Batching

  lemma FirstRanksDisjoint(z: ZSet, j: nat, k: nat, id: Id)
    requires j + k <= |z|
    ensures id in SetOf(Ranked(z)[..j]) ==> id !in SetOf(Ranked(z)[j..j + k])
    ensures id in SetOf(Ranked(z)[..j + k]) <==> id in SetOf(Ranked(z)[..j]) || id in SetOf(Ranked(z)[j..j + k])
  {
    var all := Ranked(z);
    assert all[..j + k] == all[..j] + all[j..j + k];
    if id in all[..j] && id in all[j..j + k] {
      var p :| 0 <= p < j && all[p] == id;
      var q :| j <= q < j + k && all[q] == id;
      RankedIncreasing(z, p, q);
    }
  }

  /** Evicting twice is evicting once. */
  lemma EvictTwice(s: State, which: Which, j: nat, k: nat)
    requires j + k <= |Index(s, which)|
    ensures EvictLowest(EvictLowest(s, which, j), which, k) == EvictLowest(s, which, j + k)
  {
    hide Ranked, DropLowest;
    var z := Index(s, which);
    var once := EvictLowest(s, which, j);
    DropLowestTwice(z, j, k);
    RankedAfterDrop(z, j);
    assert Ranked(z)[j..][..k] == Ranked(z)[j..j + k];
    assert Index(once, which) == DropLowest(z, j);
    forall id
      ensures id in SetOf(Ranked(z)[..j]) ==> id !in SetOf(Ranked(z)[j..j + k])
      ensures id in SetOf(Ranked(z)[..j + k]) <==> id in SetOf(Ranked(z)[..j]) || id in SetOf(Ranked(z)[j..j + k])
    {
      FirstRanksDisjoint(z, j, k, id);
    }
    EvictedTwice(s.audit, SetOf(Ranked(z)[..j]), SetOf(Ranked(z)[j..j + k]), SetOf(Ranked(z)[..j + k]));
    assert s.jobs - SetOf(Ranked(z)[..j]) - SetOf(Ranked(z)[j..j + k]) == s.jobs - SetOf(Ranked(z)[..j + k]);
  }

  lemma EvictedTwice(a: Audit, first: set<Id>, second: set<Id>, both: set<Id>)
    requires first !! second && both == first + second
    ensures Evicted(Evicted(a, first), second) == Evicted(a, both)
  {
  }

  lemma EvictNothing(s: State, which: Which)
    ensures EvictLowest(s, which, 0) == s
  {
    assert SetOf(Ranked(Index(s, which))[..0]) == {};
    assert s.jobs - {} == s.jobs;
    assert Evicted(s.audit, {}) == s.audit;
  }

  lemma EvictIndex(s: State, which: Which, k: nat)
    requires k <= |Index(s, which)|
    ensures Index(EvictLowest(s, which, k), which) == DropLowest(Index(s, which), k)
    ensures EvictLowest(s, which, k).jobs == s.jobs - SetOf(Ranked(Index(s, which))[..k])
  {
  }

  /** How many of the lowest members the two bounds condemn between them. */
  function Condemned(z: ZSet, now: nat, r: Resolved): (k: nat)
    ensures k <= |z|
  {
    Max(if r.ttl >= 0 then CountUpTo(z, now - r.ttl) else 0,
        if r.count >= 0 then Max(0, |z| - r.count) else 0)
  }

  /** The two trims in sequence evict, in one go, exactly the condemned lowest members: the index that
      is left is the suffix of length min(count, entries newer than now - ttl). */
  lemma TrimmedIsOneEviction(s: State, which: Which, now: nat, r: Resolved)
    ensures var z := Index(s, which); var k := Condemned(z, now, r);
            && Trimmed(s, which, now, r) == EvictLowest(s, which, k)
            && Ranked(Index(Trimmed(s, which, now, r), which)) == Ranked(z)[k..]
            && |z| - k == Min(if r.count >= 0 then r.count else |z|,
                              |z| - (if r.ttl >= 0 then CountUpTo(z, now - r.ttl) else 0))
  {
    hide Ranked, DropLowest, CountUpTo, EvictLowest, Index;
    var z := Index(s, which);
    var e := if r.ttl >= 0 then CountUpTo(z, now - r.ttl) else 0;
    var aged := EvictLowest(s, which, e);
    EvictNothing(s, which);
    assert aged == (if r.ttl >= 0 then TrimByAge(s, which, now - r.ttl) else s);
    EvictIndex(s, which, e);
    if r.count >= 0 && |z| - e > r.count {
      EvictTwice(s, which, e, |z| - e - r.count);
    }
    EvictIndex(s, which, Condemned(z, now, r));
    RankedAfterDrop(z, Condemned(z, now, r));
  }

  /** Trimming by count first and age second gives the same state. */
  lemma TrimsCommute(s: State, which: Which, cutoff: int, count: nat)
    ensures TrimByCount(TrimByAge(s, which, cutoff), which, count)
         == TrimByAge(TrimByCount(s, which, count), which, cutoff)
  {
    hide Ranked, DropLowest, CountUpTo, EvictLowest, Index;
    var z := Index(s, which);
    var e := CountUpTo(z, cutoff);
    var o := Max(0, |z| - count);
    EvictNothing(s, which);
    assert TrimByCount(s, which, count) == EvictLowest(s, which, o);
    CountAfterDrop(z, o, cutoff);
    EvictTwice(s, which, o, Max(0, e - o));
    if o > e {
      EvictTwice(s, which, e, o - e);
    }
    EvictIndex(s, which, e);
    EvictIndex(s, which, o);
  }

  /** The fate of every member: after a job is finished under rule `r`, the member at rank i of the index is
      still there, with its score and (if it had one) its hash, exactly when the rule keeps a job of
      its age with that many finished after it; otherwise pointer and hash go together. Under the delete
      mode the finished job never enters the index, its own hash goes, and nothing else changes. */
  lemma RetentionIsExact(s: State, id: Id, which: Which, now: nat, r: Resolved, i: nat)
    requires id in s.jobs && (r.mode == Trim <==> r.ttl >= 0 || r.count >= 0)
    requires i < |Index(s, which)[id := now]|
    ensures var z := Index(s, which)[id := now];
            var m := Ranked(z)[i];
            var s' := Finish(s, id, which, now, r);
            && m in z
            && (if r.mode == Delete then
                  s'.completed == s.completed && s'.failed == s.failed && s'.jobs == s.jobs - {id}
                else
                  && (Keeps(r, now - z[m], |z| - 1 - i) <==> m in Index(s', which))
                  && (m in Index(s', which) ==> Index(s', which)[m] == z[m] && (m in s'.jobs <==> m in s.jobs))
                  && (m !in Index(s', which) ==> m !in s'.jobs))
  {
    hide Ranked, CountUpTo, Trimmed;
    var kept := Indexed(s, id, which, now);
    var z := Index(kept, which);
    RankedAt(z, i);
    if r.mode == Trim {
      TrimIsExact(kept, which, now, r, i);
    }
  }

  lemma TrimIsExact(s: State, which: Which, now: nat, r: Resolved, i: nat)
    requires r.mode == Trim && i < |Index(s, which)|
    ensures var z := Index(s, which);
            var m := Ranked(z)[i];
            var s' := Trimmed(s, which, now, r);
            && m in z
            && (Keeps(r, now - z[m], |z| - 1 - i) <==> m in Index(s', which))
            && (m in Index(s', which) ==> Index(s', which)[m] == z[m] && (m in s'.jobs <==> m in s.jobs))
            && (m !in Index(s', which) ==> m !in s'.jobs)
  {
    hide Ranked, CountUpTo, Trimmed, EvictLowest, Index, DropLowest;
    var z := Index(s, which);
    var k := Condemned(z, now, r);
    RankedAt(z, i);
    TrimmedIsOneEviction(s, which, now, r);
    if r.ttl >= 0 {
      CutAt(z, now - r.ttl, i);
    }
    RankWithin(z, k, i);
    DropLowestWithin(z, k, Ranked(z)[i]);
    DropLowestKeeps(z, k);
    EvictIndex(s, which, k);
  }

  lemma RankWithin(z: ZSet, k: nat, i: nat)
    requires k <= |z| && i < |z|
    ensures Ranked(z)[i] in SetOf(Ranked(z)[..k]) <==> i < k
  {
    if i < k {
      assert Ranked(z)[..k][i] == Ranked(z)[i];
    } else if Ranked(z)[i] in SetOf(Ranked(z)[..k]) {
      var p :| 0 <= p < k && Ranked(z)[p] == Ranked(z)[i];
      RankedIncreasing(z, p, i);
    }
  }

  // ---------------------------------------------------------------- which rule the scripts apply

  /** From `s` to `s'`, job `id` was finished now into the index `which` under rule `r`, read off the state: in
      delete mode its hash goes; otherwise it enters the index with score now, and of all members exactly
      those stay, with their hashes, that the rule keeps at their age and with that many newer ones. */
  ghost predicate Retained(s: State, s': State, id: Id, which: Which, now: nat, r: Resolved) {
    var other := if which.CompletedIndex? then FailedIndex else CompletedIndex;
    var z := Index(s, which)[id := now];
    && Index(s', other) == Index(s, other)
    && (if r.mode == Delete then
          && Index(s', which) == Index(s, which)
          && (forall x: Id :: x in s'.jobs <==> x in s.jobs && x != id)
        else
          && (forall x: Id :: x in Index(s', which) <==> x in z && Keeps(r, now - z[x], |Newer(z, x)|))
          && (forall x: Id :: x in Index(s', which) ==> Index(s', which)[x] == z[x])
          && (forall x: Id :: x in s'.jobs <==> x in s.jobs && (x in z ==> x in Index(s', which))))
  }

  predicate Valid(r: Resolved) {
    r.mode == Trim <==> r.ttl >= 0 || r.count >= 0
  }

  lemma MemberRetained(s: State, id: Id, which: Which, now: nat, r: Resolved, x: Id)
    requires id in s.jobs && Valid(r) && r.mode != Delete && x in Index(s, which)[id := now]
    ensures var z := Index(s, which)[id := now]; var s' := Finish(s, id, which, now, r);
            && (x in Index(s', which) <==> Keeps(r, now - z[x], |Newer(z, x)|))
            && (x in Index(s', which) ==> Index(s', which)[x] == z[x] && (x in s'.jobs <==> x in s.jobs))
            && (x !in Index(s', which) ==> x !in s'.jobs)
  {
    hide Ranked, Keeps, Finish, Index, Newer;
    var z := Index(s, which)[id := now];
    RankedMembers(z);
    var i :| 0 <= i < |Ranked(z)| && Ranked(z)[i] == x;
    RankCountsNewer(z, i);
    RetentionIsExact(s, id, which, now, r, i);
  }

  lemma FinishRetains(s: State, id: Id, which: Which, now: nat, r: Resolved)
    requires id in s.jobs && Valid(r)
    ensures Retained(s, Finish(s, id, which, now, r), id, which, now, r)
  {
    hide Keeps, Finish, Index, Newer;
    var z := Index(s, which)[id := now];
    var s' := Finish(s, id, which, now, r);
    FinishFrame(s, id, which, now, r);
    if r.mode != Delete {
      forall x | x in z
        ensures x in Index(s', which) <==> Keeps(r, now - z[x], |Newer(z, x)|)
        ensures x in Index(s', which) ==> Index(s', which)[x] == z[x] && (x in s'.jobs <==> x in s.jobs)
        ensures x !in Index(s', which) ==> x !in s'.jobs
      {
        MemberRetained(s, id, which, now, r, x);
      }
    }
  }

  /** Finishing neither touches the other index nor anything outside the one it works on. */
  lemma FinishFrame(s: State, id: Id, which: Which, now: nat, r: Resolved)
    requires id in s.jobs
    ensures var s' := Finish(s, id, which, now, r);
            var other := if which.CompletedIndex? then FailedIndex else CompletedIndex;
            var z := Index(s, which)[id := now];
            && Index(s', other) == Index(s, other)
            && (r.mode == Delete ==> Index(s', which) == Index(s, which) && s'.jobs == s.jobs - {id})
            && (r.mode != Delete ==> forall x :: x in Index(s', which) ==> x in z)
            && (r.mode != Delete ==> forall x :: x !in z ==> (x in s'.jobs <==> x in s.jobs))
  {
    hide Ranked, DropLowest, CountUpTo, EvictLowest;
    if r.mode == Trim {
      TrimmedFrame(Indexed(s, id, which, now), which, now, r);
    }
  }

  lemma TrimmedFrame(s: State, which: Which, now: nat, r: Resolved)
    ensures var s' := Trimmed(s, which, now, r);
            var other := if which.CompletedIndex? then FailedIndex else CompletedIndex;
            && Index(s', other) == Index(s, other)
            && (forall x :: x in Index(s', which) ==> x in Index(s, which))
            && (forall x :: x !in Index(s, which) ==> (x in s'.jobs <==> x in s.jobs))
  {
    hide Ranked, DropLowest, CountUpTo, Trimmed;
    var k := Condemned(Index(s, which), now, r);
    TrimmedIsOneEviction(s, which, now, r);
    forall x
      ensures x in SetOf(Ranked(Index(s, which))[..k]) ==> x in Index(s, which)
      ensures x in DropLowest(Index(s, which), k) ==> x in Index(s, which)
    {
      DropLowestWithin(Index(s, which), k, x);
    }
  }

  /** The scripts apply the rule they are given, to the index they should: complete to the completed index, an
      exhausted fail to the failed one; a retry touches neither. */
  lemma AcksRetain(s: State, id: Id, token: Token, error: string, now: nat, r: Resolved)
    requires Holds(s, id, token) && Valid(r)
    ensures Retained(s, Complete(s, id, token, now, r).0, id, CompletedIndex, now, r)
    ensures var (s', ack) := Fail(s, id, token, error, now, r);
            if ack == AckFailed then Retained(s, s', id, FailedIndex, now, r)
            else s'.completed == s.completed && s'.failed == s.failed && s'.jobs.Keys == s.jobs.Keys
  {
    hide Finish, Retained, Index;
    var done := Settle(s, id, s.jobs[id], ByComplete);
    FinishRetains(done, id, CompletedIndex, now, r);
    RetainedFrom(s, done, Finish(done, id, CompletedIndex, now, r), Complete(s, id, token, now, r).0,
                 id, CompletedIndex, now, r);
    var job := s.jobs[id].(failures := s.jobs[id].failures + 1, failureKind := Some(HandlerFailure),
                           failedReason := Some(error), lastError := Some(error), lastFailedAt := Some(now));
    var dead := Settle(s, id, job, ByFail);
    if job.failures > job.maxRetries {
      FinishRetains(dead, id, FailedIndex, now, r);
      RetainedFrom(s, dead, Finish(dead, id, FailedIndex, now, r), Fail(s, id, token, error, now, r).0,
                   id, FailedIndex, now, r);
    }
  }

  /** A job's own rewritten hash and the notifications do not matter to retention. */
  lemma RetainedFrom(s: State, t: State, t': State, s': State, id: Id, which: Which, now: nat, r: Resolved)
    requires Retained(t, t', id, which, now, r)
    requires t.completed == s.completed && t.failed == s.failed && t.jobs.Keys == s.jobs.Keys
    requires t'.completed == s'.completed && t'.failed == s'.failed && t'.jobs == s'.jobs
    ensures Retained(s, s', id, which, now, r)
  {
    hide Keeps, Newer;
    assert Index(t, which) == Index(s, which) && Index(t', which) == Index(s', which);
    assert forall x :: x in t.jobs <==> x in s.jobs;
  }

  /** A recovery of one entry: a job given up is finished into the failed index under the rule of the call;
      otherwise no index changes. With RecoversCompose this says it for every batch. */
  lemma RecoverRetains(s: State, now: nat, reason: string, r: Resolved)
    requires Valid(r)
    ensures var (s', reply) := Recover(s, 1, now, reason, r);
            && |reply| <= 1
            && (if reply != [] && reply[0].GaveUp? then Retained(s, s', reply[0].id, FailedIndex, now, r)
                else s'.completed == s.completed && s'.failed == s.failed && s'.jobs.Keys == s.jobs.Keys)
  {
    hide RecoverOne, Sweep, Retained, Valid;
    SweepUnfold(s, 1, now, reason, r);
    if s.active != map[] && s.active[Lowest(s.active)] <= now {
      var x := Lowest(s.active);
      SweepUnfold(RecoverOne(s, x, now, reason, r).0, 0, now, reason, r);
      OneRetains(s, x, now, reason, r);
    }
  }

  lemma OneRetains(s: State, x: Id, now: nat, reason: string, r: Resolved)
    requires x in s.active && Valid(r)
    ensures var (s', one) := RecoverOne(s, x, now, reason, r);
            if one.GaveUp? then one.id == x && Retained(s, s', x, FailedIndex, now, r)
            else s'.completed == s.completed && s'.failed == s.failed && s'.jobs.Keys == s.jobs.Keys
  {
    hide Finish, Retained, Valid;
    if x in s.jobs {
      var job := s.jobs[x].(stalls := s.jobs[x].stalls + 1, failureKind := Some(StallFailure),
                            failedReason := Some(reason), lastStalledAt := Some(now));
      if job.stalls > job.maxStalls {
        var released := Settle(s, x, job, ByStall);
        var last := Unlocked(job).(status := Status.Failed, finishedAt := Some(now));
        var dead := released.(jobs := released.jobs[x := last]);
        FinishRetains(dead, x, FailedIndex, now, r);
        RetainedFrom(s, dead, Finish(dead, x, FailedIndex, now, r), RecoverOne(s, x, now, reason, r).0,
                     x, FailedIndex, now, r);
      }
    }
  }
}
