/** Batch sizes do not matter: sweeps compose, claims compose exactly when no corrupt pointer eats
    free capacity, and a sweep takes exactly the entries whose leases ended first. */
module Batching {
  import opened Prelude
  import opened SortedSets
  import opened Retention
  import opened Scripts
  import opened Finishing

  // ---------------------------------------------------------------- sweeps

  /** Two sweeps at one instant are one sweep of the added batch sizes: same state, same
      notifications, same replies in the same order. */
  lemma {:induction false} SweepsCompose(s: State, m: nat, n: nat, now: nat, reason: string, r: Resolved)
    ensures var (s1, first) := Sweep(s, m, now, reason, r);
            var (s2, second) := Sweep(s1, n, now, reason, r);
            Sweep(s, m + n, now, reason, r) == (s2, first + second)
    decreases m
  {
    hide RecoverOne;
    if m > 0 && s.active != map[] && s.active[Lowest(s.active)] <= now {
      var (s1, one) := RecoverOne(s, Lowest(s.active), now, reason, r);
      SweepsCompose(s1, m - 1, n, now, reason, r);
      var (t1, rest) := Sweep(s1, m - 1, now, reason, r);
      var second := Sweep(t1, n, now, reason, r).1;
      assert [one] + (rest + second) == ([one] + rest) + second;
    } else {
      var second := Sweep(s, n, now, reason, r).1;
      assert [] + second == second;
      if m > 0 {
        assert Sweep(s, n, now, reason, r) == (s, []);
      }
    }
  }

  function RecoveredIds(es: seq<Recovered>): seq<Id> {
    seq(|es|, i requires 0 <= i < |es| => es[i].id)
  }

  lemma TakeOneMore(z: ZSet, n: nat, cutoff: int)
    requires n > 0 && z != map[] && z[Lowest(z)] <= cutoff
    ensures var e := Lowest(z); var k := Min(n, CountUpTo(z, cutoff));
            && k > 0 && k - 1 == Min(n - 1, CountUpTo(z - {e}, cutoff))
            && Ranked(z)[..k] == [e] + Ranked(z - {e})[..k - 1]
            && DropLowest(z, k) == DropLowest(z - {e}, k - 1)
  {
    RemoveShrinks(z, Lowest(z));
  }

  lemma NothingExpired(s: State, n: nat, now: nat)
    requires n == 0 || s.active == map[] || s.active[Lowest(s.active)] > now
    ensures TookLowest(s.active, Min(n, CountUpTo(s.active, now)), s, [])
  {
  }

  lemma RecoveredIdsCons(e: Recovered, es: seq<Recovered>)
    ensures RecoveredIds([e] + es) == [e.id] + RecoveredIds(es)
  {
  }

  lemma SweepUnfold(s: State, n: nat, now: nat, reason: string, r: Resolved)
    ensures if n > 0 && s.active != map[] && s.active[Lowest(s.active)] <= now
            then var (s1, one) := RecoverOne(s, Lowest(s.active), now, reason, r);
                 var (s2, rest) := Sweep(s1, n - 1, now, reason, r);
                 Sweep(s, n, now, reason, r) == (s2, [one] + rest)
            else Sweep(s, n, now, reason, r) == (s, [])
  {
  }

  /** The result of a sweep that took the `k` lowest entries of `z`, in order, and no others. */
  predicate TookLowest(z: ZSet, k: nat, s': State, es: seq<Recovered>) {
    k <= |z| && RecoveredIds(es) == Ranked(z)[..k] && s'.active == DropLowest(z, k)
  }

  lemma TookOneMore(z: ZSet, n: nat, now: nat, s': State, one: Recovered, rest: seq<Recovered>)
    requires n > 0 && z != map[] && z[Lowest(z)] <= now && one.id == Lowest(z)
    requires TookLowest(z - {Lowest(z)}, Min(n - 1, CountUpTo(z - {Lowest(z)}, now)), s', rest)
    ensures TookLowest(z, Min(n, CountUpTo(z, now)), s', [one] + rest)
  {
    TakeOneMore(z, n, now);
    RecoveredIdsCons(one, rest);
  }

  /** A sweep takes exactly the min(n, expired) entries lowest by (deadline, id), in that order, never
      one whose deadline is still ahead, and leaves every other lease as it was. */
  lemma {:induction false} SweepTakesTheExpired(s: State, n: nat, now: nat, reason: string, r: Resolved)
    ensures TookLowest(s.active, Min(n, CountUpTo(s.active, now)),
                       Sweep(s, n, now, reason, r).0, Sweep(s, n, now, reason, r).1)
    decreases n
  {
    hide RecoverOne, TookLowest, CountUpTo, IsLowest, Sweep;
    SweepUnfold(s, n, now, reason, r);
    if n > 0 && s.active != map[] && s.active[Lowest(s.active)] <= now {
      var e := Lowest(s.active);
      var (s1, one) := RecoverOne(s, e, now, reason, r);
      var (s2, rest) := Sweep(s1, n - 1, now, reason, r);
      RecoverOneEffect(s, e, now, reason, r);
      SweepTakesTheExpired(s1, n - 1, now, reason, r);
      TookOneMore(s.active, n, now, s2, one, rest);
    } else {
      NothingExpired(s, n, now);
    }
  }

  /** The batch as the script's caller understands it: at most `batch` of the expired entries, or all of them
      if it is negative. */
  function Share(batch: int, expired: nat): nat {
    if 0 <= batch < expired then batch else expired
  }

  /** A recovery takes the entries whose leases ended first, in order, exactly as many as its batch allows,
      and leaves every other lease as it was. */
  lemma RecoverTakesTheBatch(s: State, batch: int, now: nat, reason: string, r: Resolved)
    ensures TookLowest(s.active, Share(batch, |UpTo(s.active, now)|),
                       Recover(s, batch, now, reason, r).0, Recover(s, batch, now, reason, r).1)
  {
    hide Sweep, TookLowest, CountUpTo, UpTo;
    CountUpToCounts(s.active, now);
    SweepTakesTheExpired(s, SweepBound(s, batch), now, reason, r);
  }

  /** Bounds that cover everything expired make no difference. */
  lemma {:induction false} SweepSaturates(s: State, m: nat, n: nat, now: nat, reason: string, r: Resolved)
    requires CountUpTo(s.active, now) <= m && CountUpTo(s.active, now) <= n
    ensures Sweep(s, m, now, reason, r) == Sweep(s, n, now, reason, r)
    decreases m
  {
    hide RecoverOne, Sweep, CountUpTo;
    SweepUnfold(s, m, now, reason, r);
    SweepUnfold(s, n, now, reason, r);
    if s.active != map[] {
      CountUnfold(s.active, now);
      if s.active[Lowest(s.active)] <= now {
        RecoverOneEffect(s, Lowest(s.active), now, reason, r);
        SweepSaturates(RecoverOne(s, Lowest(s.active), now, reason, r).0, m - 1, n - 1, now, reason, r);
      }
    }
  }

  /** The batch of two recoveries together; a negative one is unbounded. */
  function Both(b: int, c: int): int {
    if b < 0 || c < 0 then -1 else b + c
  }

  /** Two recoveries at one instant are one of both batches: same state, same notifications, same replies. */
  lemma RecoversCompose(s: State, b: int, c: int, now: nat, reason: string, r: Resolved)
    ensures var (s1, first) := Recover(s, b, now, reason, r);
            var (s2, second) := Recover(s1, c, now, reason, r);
            Recover(s, Both(b, c), now, reason, r) == (s2, first + second)
  {
    hide Sweep, CountUpTo, DropLowest;
    var m := SweepBound(s, b);
    var s1 := Sweep(s, m, now, reason, r).0;
    var n := SweepBound(s1, c);
    SweepsCompose(s, m, n, now, reason, r);
    if b < 0 || c < 0 {
      SweepTakesTheExpired(s, m, now, reason, r);
      SweepSaturates(s, m + n, |s.active|, now, reason, r);
    }
  }

  /** Two recoveries at one instant, whatever their batches, never report the same expiry twice. */
  lemma ConcurrentSweepsAreDisjoint(s: State, b: int, c: int, now: nat, reason: string, r: Resolved, id: Id)
    requires id in RecoveredIds(Recover(s, b, now, reason, r).1)
    ensures id !in RecoveredIds(Recover(Recover(s, b, now, reason, r).0, c, now, reason, r).1)
  {
    hide Recover, Ranked, UpTo;
    var s1 := Recover(s, b, now, reason, r).0;
    RecoverTakesTheBatch(s, b, now, reason, r);
    RecoverTakesTheBatch(s1, c, now, reason, r);
    var k := Share(b, |UpTo(s.active, now)|);
    DropLowestKeeps(s.active, k);
    RankedMembers(s1.active);
    assert id in SetOf(Ranked(s.active)[..k]);
    var taken := Ranked(s1.active)[..Share(c, |UpTo(s1.active, now)|)];
    assert id in taken ==> id in Ranked(s1.active);
  }

  /** A recovery neither reports nor touches a lease that has not ended. */
  lemma RecoverSparesTheUnexpired(s: State, batch: int, now: nat, reason: string, r: Resolved, id: Id)
    requires id in s.active && s.active[id] > now
    ensures var (s', reply) := Recover(s, batch, now, reason, r);
            id !in RecoveredIds(reply) && Find(s'.active, id) == Some(s.active[id])
  {
    hide Recover, Ranked, UpTo, CountUpTo, DropLowest;
    RecoverTakesTheBatch(s, batch, now, reason, r);
    CountUpToCounts(s.active, now);
    var k := Share(batch, |UpTo(s.active, now)|);
    RangeByScoreExact(s.active, now);
    DropLowestKeeps(s.active, k);
    assert id in Ranked(s.active)[..k] ==> id in RangeByScore(s.active, now);
  }

  // ---------------------------------------------------------------- claims

  lemma {:induction false} ClaimManyComposes(s: State, m: nat, n: nat, now: nat, deadline: nat)
    ensures var (s1, first) := ClaimMany(s, m, now, deadline);
            var (s2, second) := ClaimMany(s1, n, now, deadline);
            ClaimMany(s, m + n, now, deadline) == (s2, first + second)
    decreases m
  {
    hide ClaimOne;
    if m > 0 && s.waiting != [] {
      var (s1, one) := ClaimOne(s, now, deadline);
      ClaimManyComposes(s1, m - 1, n, now, deadline);
      var (t1, rest) := ClaimMany(s1, m - 1, now, deadline);
      var second := ClaimMany(t1, n, now, deadline).1;
      assert [one] + (rest + second) == ([one] + rest) + second;
    } else {
      var second := ClaimMany(s, n, now, deadline).1;
      assert [] + second == second;
      if m > 0 {
        assert ClaimMany(s, n, now, deadline) == (s, []);
      }
    }
  }

  lemma ClaimUnfold(s: State, n: nat, now: nat, deadline: nat)
    ensures if n > 0 && s.waiting != []
            then var (s1, one) := ClaimOne(s, now, deadline);
                 var (s2, rest) := ClaimMany(s1, n - 1, now, deadline);
                 && ClaimMany(s, n, now, deadline) == (s2, [one] + rest)
                 && one.id == s.waiting[|s.waiting| - 1]
                 && s1.waiting == s.waiting[..|s.waiting| - 1] && s1.concurrency == s.concurrency
            else ClaimMany(s, n, now, deadline) == (s, [])
  {
  }

  /** Pops follow the list from the right and nothing else decides how many there are. */
  lemma {:induction false} ClaimManyPops(s: State, n: nat, now: nat, deadline: nat)
    ensures var (s', es) := ClaimMany(s, n, now, deadline);
            && |es| == Min(n, |s.waiting|)
            && s'.waiting == s.waiting[..|s.waiting| - |es|]
            && s'.concurrency == s.concurrency
            && (forall i :: 0 <= i < |es| ==> es[i].id == s.waiting[|s.waiting| - 1 - i])
    decreases n
  {
    hide ClaimOne, ClaimMany;
    ClaimUnfold(s, n, now, deadline);
    if n > 0 && s.waiting != [] {
      ClaimManyPops(ClaimOne(s, now, deadline).0, n - 1, now, deadline);
    }
  }

  /** How many of the first `n` pops find no hash. */
  function MissingAmong(s: State, n: nat): nat
    requires n <= |s.waiting|
  {
    if n == 0 then 0
    else MissingAmong(s, n - 1) + (if s.waiting[|s.waiting| - n] !in s.jobs then 1 else 0)
  }

  /** The invariant says that the waiting list is duplicate-free and disjoint from `active`. */
  ghost predicate CleanQueue(s: State) {
    && (forall i, j :: 0 <= i < j < |s.waiting| ==> s.waiting[i] != s.waiting[j])
    && (forall i :: 0 <= i < |s.waiting| ==> s.waiting[i] !in s.active)
  }

  lemma ClaimOneClean(s: State, now: nat, deadline: nat)
    requires CleanQueue(s) && s.waiting != []
    ensures var (s', e) := ClaimOne(s, now, deadline);
            CleanQueue(s') && |s'.active| == |s.active| + (if e.Corrupt? then 0 else 1)
  {
  }

  lemma {:induction false} MissingShift(s: State, s1: State, n: nat)
    requires 0 < n <= |s.waiting| && s1.waiting == s.waiting[..|s.waiting| - 1]
    requires forall i :: 0 <= i < |s1.waiting| ==> (s1.waiting[i] in s1.jobs <==> s1.waiting[i] in s.jobs)
    ensures MissingAmong(s, n)
         == (if s.waiting[|s.waiting| - 1] !in s.jobs then 1 else 0) + MissingAmong(s1, n - 1)
    decreases n
  {
    if n > 1 {
      MissingShift(s, s1, n - 1);
      assert s1.waiting[|s1.waiting| - (n - 1)] == s.waiting[|s.waiting| - n];
    } else {
      assert MissingAmong(s, 0) == 0;
    }
  }

  lemma NoneMissingAtZero(s: State)
    ensures MissingAmong(s, 0) == 0
  {
  }

  lemma ClaimOneMissing(s: State, now: nat, deadline: nat, n: nat)
    requires 0 < n <= |s.waiting|
    ensures var (s1, one) := ClaimOne(s, now, deadline);
            && n - 1 <= |s1.waiting|
            && MissingAmong(s, n) == (if one.Corrupt? then 1 else 0) + MissingAmong(s1, n - 1)
  {
    var s1 := ClaimOne(s, now, deadline).0;
    MissingShift(s, s1, n);
  }

  /** Every pop that found its hash took one unit of capacity. */
  lemma {:induction false} ClaimManyFills(s: State, n: nat, now: nat, deadline: nat)
    requires CleanQueue(s)
    ensures var (s', es) := ClaimMany(s, n, now, deadline);
            && |es| <= |s.waiting|
            && |s'.active| == |s.active| + |es| - MissingAmong(s, |es|)
            && CleanQueue(s')
    decreases n
  {
    hide ClaimOne, ClaimMany, CleanQueue, MissingAmong;
    ClaimUnfold(s, n, now, deadline);
    ClaimManyPops(s, n, now, deadline);
    if n > 0 && s.waiting != [] {
      var (s1, one) := ClaimOne(s, now, deadline);
      ClaimOneClean(s, now, deadline);
      ClaimManyFills(s1, n - 1, now, deadline);
      ClaimOneMissing(s, now, deadline, |ClaimMany(s, n, now, deadline).1|);
    } else {
      NoneMissingAtZero(s);
    }
  }

  function FreeCapacity(s: State): Option<int> {
    if s.concurrency.limit.None? then None else Some(s.concurrency.limit.value - |s.active|)
  }

  /** What a caller can check before splitting a claim of m + n: the queue has no limit or is full,
      the second request is empty, the whole request or the whole list fits the free capacity, or no
      pointer the first claim pops has lost its hash. */
  predicate SplitIsHarmless(s: State, m: nat, n: nat) {
    var free := FreeCapacity(s);
    free.None? || free.value < 1 || n == 0 || m + n <= free.value || |s.waiting| <= free.value
    || MissingAmong(s, Min(Min(m, free.value), |s.waiting|)) == 0
  }

  lemma MissingAtMost(s: State, n: nat)
    requires n <= |s.waiting|
    ensures MissingAmong(s, n) <= n
  {
  }

  function Clamp(count: int, free: Option<int>): nat {
    if free.None? then Max(0, count) else Max(0, Min(Max(0, count), free.value))
  }

  /** The arithmetic of the split: `miss` of the first request's pops found no hash. */
  lemma SplitArithmetic(waiting: nat, free: Option<int>, m: nat, n: nat, miss: nat)
    requires miss <= Min(Clamp(m, free), waiting)
    ensures var popped := Min(Clamp(m, free), waiting);
            var left := if free.None? then None else Some(free.value - (popped - miss));
            Min(Clamp(m, free) + Clamp(n, left), waiting) == Min(Clamp(m + n, free), waiting)
            <==> (free.None? || free.value < 1 || n == 0 || m + n <= free.value || waiting <= free.value || miss == 0)
  {
  }

  /** claim(m) then claim(n) at one instant is claim(m + n), in state, tokens and replies, exactly when
      the split is harmless; a corrupt pointer uses up a slot of the request but no capacity. */
  lemma ClaimsCompose(s: State, m: nat, n: nat, now: nat, leaseMs: nat)
    requires CleanQueue(s)
    ensures var (s1, first) := Claim(s, m, now, leaseMs);
            var (s2, second) := Claim(s1, n, now, leaseMs);
            Claim(s, m + n, now, leaseMs) == (s2, first + second) <==> SplitIsHarmless(s, m, n)
  {
    hide ClaimMany, CleanQueue, SplitIsHarmless, Allowance;
    var deadline := now + leaseMs;
    var a := Allowance(s, m);
    var s1 := ClaimMany(s, a, now, deadline).0;
    var b, c := Allowance(s1, n), Allowance(s, m + n);
    ClaimManyComposes(s, a, b, now, deadline);
    ClaimManyPops(s, a + b, now, deadline);
    ClaimManyPops(s, c, now, deadline);
    SplitCounts(s, m, n, now, deadline);
    if Min(a + b, |s.waiting|) == Min(c, |s.waiting|) {
      SamePops(s, a + b, c, now, deadline);
    }
  }

  /** The two claims together pop as many pointers as the one exactly when the split is harmless. */
  lemma SplitCounts(s: State, m: nat, n: nat, now: nat, deadline: nat)
    requires CleanQueue(s)
    ensures var a := Allowance(s, m);
            var b := Allowance(ClaimMany(s, a, now, deadline).0, n);
            Min(a + b, |s.waiting|) == Min(Allowance(s, m + n), |s.waiting|) <==> SplitIsHarmless(s, m, n)
  {
    hide ClaimMany, CleanQueue, MissingAmong;
    var a := Allowance(s, m);
    var first := ClaimMany(s, a, now, deadline).1;
    ClaimManyPops(s, a, now, deadline);
    ClaimManyFills(s, a, now, deadline);
    MissingAtMost(s, |first|);
    SplitArithmetic(|s.waiting|, FreeCapacity(s), m, n, MissingAmong(s, |first|));
  }

  lemma {:induction false} SamePops(s: State, a: nat, c: nat, now: nat, deadline: nat)
    requires Min(a, |s.waiting|) == Min(c, |s.waiting|)
    ensures ClaimMany(s, a, now, deadline) == ClaimMany(s, c, now, deadline)
    decreases a
  {
    if a > 0 && s.waiting != [] {
      SamePops(ClaimOne(s, now, deadline).0, a - 1, c - 1, now, deadline);
    }
  }

  /** Without lost hashes batching is always transparent. */
  lemma NoLossNoDifference(s: State, m: nat, n: nat)
    requires forall i :: 0 <= i < |s.waiting| ==> s.waiting[i] in s.jobs
    ensures SplitIsHarmless(s, m, n)
  {
    var free := FreeCapacity(s);
    if free.Some? && free.value >= 1 {
      NoneMissing(s, Min(Min(m, free.value), |s.waiting|));
    }
  }

  lemma {:induction false} NoneMissing(s: State, k: nat)
    requires k <= |s.waiting| && forall i :: 0 <= i < |s.waiting| ==> s.waiting[i] in s.jobs
    ensures MissingAmong(s, k) == 0
    decreases k
  {
    if k > 0 {
      NoneMissing(s, k - 1);
    }
  }
}
