/** What a claim hands out, exactly: which jobs, under which leases, and what it leaves alone. */
module Leasing {
  import opened Prelude
  import opened SortedSets
  import opened Retention
  import opened Jobs
  import opened Scripts
  import opened Invariant
  import opened Batching
  import opened Structure

  /** The hash of a job that was claimed. */
  function LeasedHash(id: Id, j: Job, now: nat, deadline: nat): Job {
    j.(runs := j.runs + 1, status := Status.Active, lastStartedAt := Some(now),
       lockToken := Some(Token(id, now, j.runs + 1)), leaseDeadline := Some(deadline))
  }

  /** The i-th id from the end that RPOP takes from. */
  function FromRight(w: seq<Id>, i: nat): Id
    requires i < |w|
  {
    w[|w| - 1 - i]
  }

  /** What one entry of the reply says about the id it popped, and what the queue then holds. */
  predicate LeasedThis(s: State, s': State, id: Id, e: Claimed, now: nat, deadline: nat) {
    if id in s.jobs then
      && e == Job_(id, LeasedHash(id, s.jobs[id], now, deadline))
      && Find(s'.jobs, id) == Some(e.job) && Find(s'.active, id) == Some(deadline)
    else e == Corrupt(id) && id !in s'.jobs && id !in s'.active
  }

  predicate Untouched(s: State, s': State, id: Id) {
    Find(s'.jobs, id) == Find(s.jobs, id) && Find(s'.active, id) == Find(s.active, id)
  }

  /** From `s` to `s'`, the claim popped the ids of the reply; those with a hash are leased until `deadline`, the
      others are corrupt, and no other hash or lease changed. */
  ghost predicate LeasedThese(s: State, s': State, reply: seq<Claimed>, now: nat, deadline: nat) {
    && |reply| <= |s.waiting| && s'.waiting == s.waiting[..|s.waiting| - |reply|]
    && (forall i :: 0 <= i < |reply| ==> LeasedThis(s, s', FromRight(s.waiting, i), reply[i], now, deadline))
    && (forall x: Id :: x !in s.waiting[|s.waiting| - |reply|..] ==> Untouched(s, s', x))
  }

  lemma NothingLeased(s: State, now: nat, deadline: nat)
    ensures LeasedThese(s, s, [], now, deadline)
  {
  }

  lemma OneIsLeased(s: State, now: nat, deadline: nat)
    requires CleanQueue(s) && s.waiting != []
    ensures var (s1, one) := ClaimOne(s, now, deadline); var last := FromRight(s.waiting, 0);
            && s1.waiting == s.waiting[..|s.waiting| - 1] && last !in s1.waiting
            && LeasedThis(s, s1, last, one, now, deadline)
            && (forall x: Id :: x != last ==> Untouched(s, s1, x))
  {
    assert s.waiting[|s.waiting| - 1] !in s.active;
  }

  lemma OneMoreLeased(s: State, s1: State, s': State, one: Claimed, rest: seq<Claimed>, now: nat, deadline: nat)
    requires s.waiting != [] && s1.waiting == s.waiting[..|s.waiting| - 1] && FromRight(s.waiting, 0) !in s1.waiting
    requires LeasedThis(s, s1, FromRight(s.waiting, 0), one, now, deadline)
    requires forall x: Id :: x != FromRight(s.waiting, 0) ==> Untouched(s, s1, x)
    requires LeasedThese(s1, s', rest, now, deadline)
    ensures LeasedThese(s, s', [one] + rest, now, deadline)
  {
    hide LeasedThis, Untouched;
    var w, last, reply := s.waiting, FromRight(s.waiting, 0), [one] + rest;
    var k := |w| - |reply|;
    SuffixSplit(w, k);
    assert last !in s1.waiting[k..];
    TwoSteps(s, s1, s', last, one, now, deadline);
    forall i | 0 < i < |reply|
      ensures LeasedThis(s, s', FromRight(w, i), reply[i], now, deadline)
    {
      assert FromRight(w, i) == FromRight(s1.waiting, i - 1) && FromRight(w, i) != last;
      TwoSteps(s, s1, s', FromRight(w, i), reply[i], now, deadline);
    }
    forall x: Id | x !in w[k..]
      ensures Untouched(s, s', x)
    {
      assert last in w[k..];
      TwoSteps(s, s1, s', x, one, now, deadline);
    }
  }

  /** A suffix is the suffix without the last element, and the last element. */
  lemma SuffixSplit(w: seq<Id>, k: nat)
    requires k < |w|
    ensures w[k..] == w[..|w| - 1][k..] + [FromRight(w, 0)]
  {
  }

  lemma TwoSteps(s: State, s1: State, s': State, id: Id, e: Claimed, now: nat, deadline: nat)
    ensures Untouched(s, s1, id) && LeasedThis(s1, s', id, e, now, deadline) ==> LeasedThis(s, s', id, e, now, deadline)
    ensures LeasedThis(s, s1, id, e, now, deadline) && Untouched(s1, s', id) ==> LeasedThis(s, s', id, e, now, deadline)
    ensures Untouched(s, s1, id) && Untouched(s1, s', id) ==> Untouched(s, s', id)
  {
  }

  lemma {:induction false} ManyLeased(s: State, n: nat, now: nat, deadline: nat)
    requires CleanQueue(s)
    ensures LeasedThese(s, ClaimMany(s, n, now, deadline).0, ClaimMany(s, n, now, deadline).1, now, deadline)
    decreases n
  {
    hide ClaimOne, ClaimMany, CleanQueue, LeasedThese;
    ClaimUnfold(s, n, now, deadline);
    if n > 0 && s.waiting != [] {
      var (s1, one) := ClaimOne(s, now, deadline);
      var (s', rest) := ClaimMany(s1, n - 1, now, deadline);
      ClaimOneClean(s, now, deadline);
      OneIsLeased(s, now, deadline);
      ManyLeased(s1, n - 1, now, deadline);
      OneMoreLeased(s, s1, s', one, rest, now, deadline);
    } else {
      NothingLeased(s, now, deadline);
    }
  }

  /** How many pointers a claim pops: what was asked for, what waits and what the limit leaves, whichever is least. */
  function Taking(s: State, count: int): int {
    var wanted := Max(0, Min(count, |s.waiting|));
    if s.concurrency.limit.None? then wanted else Max(0, Min(wanted, s.concurrency.limit.value - |s.active|))
  }

  /** In every sound state a claim pops exactly that many, oldest first, and leases each one that has a hash
      from now for `leaseMs`, under the token of its next run; leases that were there stand. */
  lemma ClaimIsExact(s: State, count: int, now: nat, leaseMs: nat)
    requires Inv(s)
    ensures var (s', reply) := Claim(s, count, now, leaseMs);
            |reply| == Taking(s, count) && LeasedThese(s, s', reply, now, now + leaseMs)
    ensures forall id :: id in s.active ==> Find(Claim(s, count, now, leaseMs).0.active, id) == Some(s.active[id])
  {
    hide ClaimMany, LeasedThese, CleanQueue, Inv;
    SoundIsClean(s);
    ManyLeased(s, Allowance(s, count), now, now + leaseMs);
    ClaimManyPops(s, Allowance(s, count), now, now + leaseMs);
    LeasesStand(s, Claim(s, count, now, leaseMs).0, Claim(s, count, now, leaseMs).1, now, now + leaseMs);
  }

  lemma SoundIsClean(s: State)
    requires Inv(s)
    ensures CleanQueue(s)
  {
    forall i, j | 0 <= i < j < |s.waiting|
      ensures s.waiting[i] != s.waiting[j]
    {
      assert Fits(s.waiting[i], ViewOf(s, s.waiting[i]));
      if s.waiting[i] == s.waiting[j] {
        CountedTwice(s.waiting, i, j);
      }
    }
    forall i | 0 <= i < |s.waiting|
      ensures s.waiting[i] !in s.active
    {
      assert Fits(s.waiting[i], ViewOf(s, s.waiting[i]));
      assert multiset(s.waiting)[s.waiting[i]] > 0;
    }
  }

  lemma LeasesStand(s: State, s': State, reply: seq<Claimed>, now: nat, deadline: nat)
    requires CleanQueue(s) && LeasedThese(s, s', reply, now, deadline)
    ensures forall id :: id in s.active ==> Find(s'.active, id) == Some(s.active[id])
  {
    forall id | id in s.active
      ensures Untouched(s, s', id)
    {
      assert id !in s.waiting;
      assert id in s.waiting[|s.waiting| - |reply|..] ==> id in s.waiting;
    }
  }

  /** So no recovery before now + leaseMs, of whatever batch, takes a job that was just claimed. */
  lemma NoEarlyRecovery(s: State, count: int, now: nat, leaseMs: nat, i: nat,
                        batch: int, at: nat, reason: string, r: Resolved)
    requires Inv(s) && i < |Claim(s, count, now, leaseMs).1| && Claim(s, count, now, leaseMs).1[i].Job_?
    requires at < now + leaseMs
    ensures var (s', reply) := Claim(s, count, now, leaseMs);
            reply[i].id !in RecoveredIds(Recover(s', batch, at, reason, r).1)
  {
    hide Claim, Recover, Inv;
    var (s', reply) := Claim(s, count, now, leaseMs);
    ClaimIsExact(s, count, now, leaseMs);
    RecoverSparesTheUnexpired(s', batch, at, reason, r, reply[i].id);
  }
}
