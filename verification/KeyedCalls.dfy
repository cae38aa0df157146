/** What each call of the prototypes stores and hands out, exactly. */
module KeyedCalls {
  import opened Prelude
  import opened SortedSets
  import opened Jobs
  import opened Schedulers
  import opened KeyedProofs
  import opened RoundRobin
  import opened Leasing

  /** An enqueue writes the given payload and key, sets the job waiting with no runs, keeps what a reused hash had
      besides, and changes no other job and no lease. */
  lemma EnqueueStores(s: Keyed, id: Id, payload: string, k: Key)
    ensures var s' := KeyedEnqueue(s, id, payload, k);
            && s'.jobs.Keys == s.jobs.Keys + {id} && (forall x :: x in s.jobs && x != id ==> s'.jobs[x] == s.jobs[x])
            && s'.jobs[id] == (if id in s.jobs then s.jobs[id] else Work(payload, false, 0, None, None, None, None))
                              .(payload := payload, running := false, runs := 0, ckey := Some(k))
            && WaitOf(s', k) == [id] + WaitOf(s, k) && (forall j: Key :: j != k ==> WaitOf(s', j) == WaitOf(s, j))
            && s'.active == s.active && s'.counts == s.counts
            && s'.published == s.published + (if Below(s, CountOf(s, k)) then 1 else 0)
  {
  }

  /** The hash of a job after it was handed out. */
  predicate HandedOut(before: Work, after: Work, id: Id, now: nat, deadline: nat) {
    && after.running && after.runs == before.runs + 1 && after.lastStartedAt == Some(now)
    && after.lockToken == Some(Token(id, now, before.runs + 1)) && after.leaseDeadline == Some(deadline)
    && after.payload == before.payload && after.ckey == before.ckey
  }

  predicate LeasedOut(s: Keyed, s': Keyed, id: Id, now: nat, deadline: nat) {
    && id in s.jobs && id in s'.jobs && HandedOut(s.jobs[id], s'.jobs[id], id, now, deadline)
    && Find(s'.active, id) == Some(deadline)
  }

  predicate Same(s: Keyed, s': Keyed, id: Id) {
    Find(s'.jobs, id) == Find(s.jobs, id) && Find(s'.active, id) == Find(s.active, id)
  }

  /** From `s` to `s'`, the ids were popped from the key's list and leased; nothing else was touched and nobody
      was told. */
  ghost predicate Served(s: Keyed, s': Keyed, k: Key, ids: seq<Id>, now: nat, deadline: nat) {
    var w := WaitOf(s, k);
    && |ids| <= |w| && WaitOf(s', k) == w[..|w| - |ids|] && s'.published == s.published
    && (forall i :: 0 <= i < |ids| ==> ids[i] == FromRight(w, i) && LeasedOut(s, s', ids[i], now, deadline))
    && (forall x: Id :: x !in w[|w| - |ids|..] ==> Same(s, s', x))
    && (forall j: Key :: j != k ==> WaitOf(s', j) == WaitOf(s, j))
  }

  lemma OneServed(s: Keyed, k: Key, now: nat, deadline: nat)
    requires ListsSound(s) && WaitOf(s, k) != []
    ensures var s1, w := KeyedPop(s, k, now, deadline), WaitOf(s, k); var last := FromRight(w, 0);
            && WaitOf(s1, k) == w[..|w| - 1] && last !in w[..|w| - 1] && s1.published == s.published
            && LeasedOut(s, s1, last, now, deadline)
            && (forall x: Id :: x != last ==> Same(s, s1, x))
            && (forall j: Key :: j != k ==> WaitOf(s1, j) == WaitOf(s, j))
  {
  }

  lemma ServedSteps(s: Keyed, s1: Keyed, s': Keyed, id: Id, now: nat, deadline: nat)
    ensures Same(s, s1, id) && LeasedOut(s1, s', id, now, deadline) ==> LeasedOut(s, s', id, now, deadline)
    ensures LeasedOut(s, s1, id, now, deadline) && Same(s1, s', id) ==> LeasedOut(s, s', id, now, deadline)
    ensures Same(s, s1, id) && Same(s1, s', id) ==> Same(s, s', id)
  {
  }

  lemma OneMoreServed(s: Keyed, s1: Keyed, s': Keyed, k: Key, rest: seq<Id>, now: nat, deadline: nat)
    requires ListsSound(s) && WaitOf(s, k) != [] && s1 == KeyedPop(s, k, now, deadline)
    requires Served(s1, s', k, rest, now, deadline)
    ensures Served(s, s', k, [FromRight(WaitOf(s, k), 0)] + rest, now, deadline)
  {
    hide ListsSound, LeasedOut, Same, KeyedPop, WaitOf;
    OneServed(s, k, now, deadline);
    var w, last := WaitOf(s, k), FromRight(WaitOf(s, k), 0);
    var ids := [last] + rest;
    var m := |w| - |ids|;
    SuffixSplit(w, m);
    assert last !in WaitOf(s1, k)[m..];
    ServedSteps(s, s1, s', last, now, deadline);
    forall i | 0 < i < |ids|
      ensures ids[i] == FromRight(w, i) && LeasedOut(s, s', ids[i], now, deadline)
    {
      assert ids[i] == rest[i - 1] && FromRight(w, i) == FromRight(WaitOf(s1, k), i - 1);
      ServedSteps(s, s1, s', ids[i], now, deadline);
    }
    forall x: Id | x !in w[m..]
      ensures Same(s, s', x)
    {
      assert last in w[m..];
      ServedSteps(s, s1, s', x, now, deadline);
    }
  }

  lemma {:induction false} ManyServed(s: Keyed, k: Key, n: int, now: nat, deadline: nat)
    requires ListsSound(s)
    ensures Served(s, KeyedPops(s, k, n, now, deadline).0, k, KeyedPops(s, k, n, now, deadline).1, now, deadline)
    ensures |KeyedPops(s, k, n, now, deadline).1| == Min(Max(0, n), |WaitOf(s, k)|)
    decreases Max(0, n)
  {
    hide ListsSound, KeyedPop, KeyedPops, LeasedOut;
    PopsUnfold(s, k, n, now, deadline);
    if n > 0 && WaitOf(s, k) != [] {
      var s1 := KeyedPop(s, k, now, deadline);
      var (s', rest) := KeyedPops(s1, k, n - 1, now, deadline);
      PopKeepsLists(s, k, now, deadline);
      ManyServed(s1, k, n - 1, now, deadline);
      PopFrame(s, k, now, deadline);
      OneMoreServed(s, s1, s', k, rest, now, deadline);
    }
  }

  /** How many jobs an unblocked claim hands out: what was asked for, what the two limits leave, what waits. */
  function Handing(s: Keyed, count: int, k: Key): int {
    var wanted := Max(0, Min(count, |WaitOf(s, k)|));
    var global := if s.limit.None? then wanted else Min(wanted, s.limit.value - |s.active|);
    if s.keyLimit.None? then global else Min(global, s.keyLimit.value - CountOf(s, k))
  }

  /** A claim that the global limit lets through hands out exactly that many jobs of the first ready key, oldest
      first, each leased from now for `leaseMs` under the token of its next run, and touches no other job; any
      other claim changes nothing. */
  lemma ClaimIsExact(s: Keyed, count: int, now: nat, leaseMs: nat)
    requires Sound(s)
    ensures var (s', ids) := KeyedClaim(s, count, now, leaseMs);
            if s.ready == map[] || (s.limit.Some? && |s.active| >= s.limit.value) then s' == s && ids == []
            else
              && |ids| == Handing(s, count, Line(s)[0])
              && Served(s, s', Line(s)[0], ids, now, now + leaseMs)
  {
    hide Ranked, Rotate, KeyedPops, KeyedClaim, ListsSound, CountsSound, LineSound, Due, IsLowest, LeasedOut, Same,
         Served;
    ClaimUnfold(s, count, now, leaseMs);
    var n := Allowed(s.limit, s.active, count);
    if n.Some? && s.ready != map[] {
      var k := Lowest(s.ready);
      FirstIsDue(s, k);
      RankedUnfold(s.ready, k);
      var (s', ids) := KeyedPops(s, k, Share(s, n.value, k), now, now + leaseMs);
      ManyServed(s, k, Share(s, n.value, k), now, now + leaseMs);
      RotateTouchesNoJob(s, s', k, ids, now, now + leaseMs);
    }
  }

  lemma RotateTouchesNoJob(s: Keyed, s': Keyed, k: Key, ids: seq<Id>, now: nat, deadline: nat)
    requires Served(s, s', k, ids, now, deadline)
    ensures Served(s, Rotate(s', k), k, ids, now, deadline)
  {
    hide Served;
    SameJobsServed(s, s', Rotate(s', k), k, ids, now, deadline);
  }

  lemma SameJobsServed(s: Keyed, s': Keyed, t: Keyed, k: Key, ids: seq<Id>, now: nat, deadline: nat)
    requires Served(s, s', k, ids, now, deadline) && t.jobs == s'.jobs && t.active == s'.active && t.wait == s'.wait
    requires t.published == s'.published
    ensures Served(s, t, k, ids, now, deadline)
  {
    hide HandedOut;
    assert forall j: Key :: WaitOf(t, j) == WaitOf(s', j);
    assert forall x: Id :: Same(s, s', x) ==> Same(s, t, x);
    assert forall x: Id :: LeasedOut(s, s', x, now, deadline) ==> LeasedOut(s, t, x, now, deadline);
  }

  /** The flat queue, unlike the keyed one, tells somebody whenever a call makes work claimable: an enqueue
      always publishes, a claim never, a completion exactly when a limit is set and something waits. */
  lemma FlatTells(f: Flat, q: Request)
    ensures var f' := DoFlat(f, q).0;
            && (FlatClaimable(f') && !FlatClaimable(f) ==> f'.published > f.published)
            && f'.published == f.published
                 + (if q.Put? || (q.Finish? && f.limit.Some? && f.waiting != []) then 1 else 0)
  {
    if q.Take? {
      FlatClaims(f, q.count, q.now, q.leaseMs);
    }
  }

  predicate FlatClaimable(f: Flat) {
    f.waiting != [] && (f.limit.None? || |f.active| < f.limit.value)
  }

  lemma FlatClaims(f: Flat, count: int, now: nat, leaseMs: nat)
    ensures !FlatClaimable(f) ==> FlatClaim(f, count, now, leaseMs).0 == f
    ensures FlatClaim(f, count, now, leaseMs).0.published == f.published
  {
    hide FlatPops;
    if Allowed(f.limit, f.active, count).Some? {
      FlatPopsTellNobody(f, Allowed(f.limit, f.active, count).value, now, now + leaseMs);
    }
  }

  lemma {:induction false} FlatPopsTellNobody(f: Flat, n: int, now: nat, deadline: nat)
    ensures FlatPops(f, n, now, deadline).0.published == f.published
    ensures f.waiting == [] ==> FlatPops(f, n, now, deadline).0 == f
    decreases Max(0, n)
  {
    if n > 0 && f.waiting != [] {
      FlatPopsTellNobody(FlatPop(f, now, deadline), n - 1, now, deadline);
    }
  }
}
