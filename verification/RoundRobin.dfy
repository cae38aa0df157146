/** Exact round-robin service of ready keys, and the refinement of the flat queue. */
module RoundRobin {
  import opened Prelude
  import opened SortedSets
  import opened Schedulers
  import opened KeyedProofs

  /** A claim that the global limit does not stop. */
  predicate Unblocked(s: Keyed, c: Call) {
    c.ClaimCall? && Allowed(s.limit, s.active, c.count).Some?
  }

  function Line(s: Keyed): seq<Key> {
    Ranked(s.ready)
  }

  /** What a claim hands out. */
  function Claimed(s: Keyed, c: Call): seq<Id> {
    if c.ClaimCall? then KeyedClaim(s, c.count, c.now, c.leaseMs).1 else []
  }

  /** The call hands out at least one job, and all of them wait under `k`. */
  predicate Serves(s: Keyed, c: Call, k: Key) {
    Claimed(s, c) != [] && forall id :: id in Claimed(s, c) ==> id in s.jobs && s.jobs[id].ckey == Some(k)
  }

  /** The call hands out no job of `k`. */
  predicate Skips(s: Keyed, c: Call, k: Key) {
    forall id :: id in Claimed(s, c) ==> id in s.jobs && s.jobs[id].ckey != Some(k)
  }

  lemma JoinAtEnd(s: Keyed, k: Key)
    requires LineSound(s)
    ensures Line(MakeReady(s, k)) == Line(s) || Line(MakeReady(s, k)) == Line(s) + [k]
  {
    hide Ranked, IsLowest;
    if k !in s.ready {
      AddHighest(s.ready, k, s.sequence + 1);
    }
  }

  /** Enqueues and completions never move a key that is in line: they add at the end, if at all. */
  lemma OthersOnlyAppend(s: Keyed, c: Call)
    requires LineSound(s) && !c.ClaimCall?
    ensures Line(Do(s, c)) == Line(s) || exists k :: Line(Do(s, c)) == Line(s) + [k]
  {
    hide Ranked, MakeReady, LineSound;
    match c
    case EnqueueCall(id, payload, k) =>
      SameReady(s, Pushed(s, id, payload, k));
      JoinAtEnd(Pushed(s, id, payload, k), k);
    case CompleteCall(id, k) =>
      SameReady(s, Retired(s, id, k));
      JoinAtEnd(Retired(s, id, k), k);
  }

  lemma SameReady(s: Keyed, s': Keyed)
    requires s'.ready == s.ready && s'.sequence == s.sequence && LineSound(s)
    ensures LineSound(s')
  {
  }

  /** Serving sends the first key to the end of the line or out of it. */
  lemma RotateMoves(s: Keyed, k: Key)
    requires LineSound(s) && s.ready != map[] && k == Lowest(s.ready)
    ensures Line(s)[0] == k
    ensures Line(Rotate(s, k)) == Line(s)[1..] || Line(Rotate(s, k)) == Line(s)[1..] + [k]
  {
    hide Ranked, IsLowest;
    RankedUnfold(s.ready, k);
    if WaitOf(s, k) != [] && Below(s, CountOf(s, k)) {
      assert s.ready[k := s.sequence + 1] == (s.ready - {k})[k := s.sequence + 1];
      AddHighest(s.ready - {k}, k, s.sequence + 1);
    }
  }

  /** An unblocked claim moves the first key in line, serves nobody else, and serves that key exactly when it
      asks for at least one job. */
  lemma FirstIsServed(s: Keyed, c: Call)
    requires Sound(s) && Unblocked(s, c) && s.ready != map[]
    ensures var k := Line(s)[0];
            && (Serves(s, c, k) <==> c.count >= 1)
            && (Line(Do(s, c)) == Line(s)[1..] || Line(Do(s, c)) == Line(s)[1..] + [k])
            && (forall j :: j != k ==> Skips(s, c, j))
  {
    hide Ranked, Rotate, KeyedPops, ListsSound, CountsSound, LineSound, Due, IsLowest, KeyedClaim;
    ClaimUnfold(s, c.count, c.now, c.leaseMs);
    var n := Allowed(s.limit, s.active, c.count).value;
    var k := Lowest(s.ready);
    FirstIsDue(s, k);
    RankedUnfold(s.ready, k);
    PopsKeep(s, k, Share(s, n, k), c.now, c.now + c.leaseMs);
    var (s', claimed) := KeyedPops(s, k, Share(s, n, k), c.now, c.now + c.leaseMs);
    RotateMoves(s', k);
    WaitingHaveKey(s, k, claimed);
  }

  lemma WaitingHaveKey(s: Keyed, k: Key, ids: seq<Id>)
    requires ListsSound(s) && forall id :: id in ids ==> id in WaitOf(s, k)
    ensures forall id :: id in ids ==> id in s.jobs && s.jobs[id].ckey == Some(k)
  {
  }

  lemma FirstIsDue(s: Keyed, k: Key)
    requires Sound(s) && k in s.ready
    ensures Due(s, k) && WaitOf(s, k) != [] && Below(s, CountOf(s, k)) && ReadyBut(s, Some(k))
  {
  }

  lemma BlockedClaim(s: Keyed, c: Call)
    requires c.ClaimCall? && !Unblocked(s, c)
    ensures Do(s, c) == s && Claimed(s, c) == []
  {
  }

  /** How many claims of the run the global limit lets through. */
  function Turns(s: Keyed, cs: seq<Call>): nat
    decreases |cs|
  {
    if cs == [] then 0 else (if Unblocked(s, cs[0]) then 1 else 0) + Turns(Do(s, cs[0]), cs[1..])
  }

  predicate NeverServed(s: Keyed, cs: seq<Call>, k: Key)
    decreases |cs|
  {
    cs == [] || (Skips(s, cs[0], k) && NeverServed(Do(s, cs[0]), cs[1..], k))
  }

  lemma OneTurn(s: Keyed, c: Call, k: Key, r: nat)
    requires Sound(s) && r < |Line(s)| && Line(s)[r] == k && (Unblocked(s, c) ==> r > 0)
    ensures Skips(s, c, k)
    ensures var r' := if Unblocked(s, c) then r - 1 else r;
            r' < |Line(Do(s, c))| && Line(Do(s, c))[r'] == k
  {
    hide Sound, Do, Skips, Ranked;
    if Unblocked(s, c) {
      assert s.ready != map[] by { EmptyLine(s); }
      FirstIsServed(s, c);
      FirstDiffers(s, r);
    } else if c.ClaimCall? {
      BlockedClaim(s, c);
      NothingSkips(s, c, k);
    } else {
      SoundLine(s);
      OthersOnlyAppend(s, c);
      NothingSkips(s, c, k);
    }
  }

  lemma EmptyLine(s: Keyed)
    ensures |Line(s)| == |s.ready|
  {
  }

  lemma SoundLine(s: Keyed)
    requires Sound(s)
    ensures LineSound(s)
  {
  }

  lemma NothingSkips(s: Keyed, c: Call, k: Key)
    requires Claimed(s, c) == []
    ensures Skips(s, c, k)
  {
  }

  lemma FirstDiffers(s: Keyed, r: nat)
    requires 0 < r < |Line(s)|
    ensures Line(s)[0] != Line(s)[r]
  {
    RankedIncreasing(s.ready, 0, r);
  }

  /** Whatever enqueues, completions and blocked claims interleave, a key with r ready keys ahead is not
      served by the first r unblocked claims, and each of them brings it one place forward. */
  lemma {:induction false} MovesUpOneByOne(s: Keyed, cs: seq<Call>, k: Key, r: nat)
    requires Sound(s) && LegalRun(s, cs)
    requires r < |Line(s)| && Line(s)[r] == k && Turns(s, cs) <= r
    ensures NeverServed(s, cs, k)
    ensures var at := r - Turns(s, cs); at < |Line(Run(s, cs))| && Line(Run(s, cs))[at] == k
    decreases |cs|
  {
    hide Sound, Do, Legal, Unblocked, Skips, Ranked;
    if cs != [] {
      DoKeeps(s, cs[0]);
      OneTurn(s, cs[0], k, r);
      MovesUpOneByOne(Do(s, cs[0]), cs[1..], k, if Unblocked(s, cs[0]) then r - 1 else r);
    }
  }

  /** A ready key with r ready keys ahead is passed over by the first r unblocked claims of any legal run,
      whatever they ask for, and the next unblocked claim serves it exactly when it asks for a job. */
  lemma ServedInTurn(s: Keyed, cs: seq<Call>, next: Call, k: Key, r: nat)
    requires Sound(s) && LegalRun(s, cs)
    requires r < |Line(s)| && Line(s)[r] == k && Turns(s, cs) == r && Unblocked(Run(s, cs), next)
    ensures NeverServed(s, cs, k)
    ensures Serves(Run(s, cs), next, k) <==> next.count >= 1
  {
    hide Sound, LegalRun, Run, Ranked, Serves, Unblocked, Legal, Skips, Do, Turns, NeverServed;
    MovesUpOneByOne(s, cs, k, r);
    KeyedProofs.RunKeeps(s, cs);
    EmptyLine(Run(s, cs));
    UnblockedClaims(Run(s, cs), next);
    FirstIsServed(Run(s, cs), next);
  }

  lemma UnblockedClaims(s: Keyed, c: Call)
    requires Unblocked(s, c)
    ensures c.ClaimCall?
  {
  }

  /** It happens: with two keys in line, a claim for no job sends the first to the back unserved. */
  lemma AskingForNothingSkipsATurn() returns (cs: seq<Call>, c: Call)
    ensures LegalRun(Empty(None, None), cs + [c])
    ensures var s := Run(Empty(None, None), cs);
            Unblocked(s, c) && Line(s) == [0, 1] && Claimed(s, c) == [] && Line(Do(s, c)) == [1, 0]
  {
    hide Sound, KeyedProofs.Run, LegalRun, Do, Legal, Ranked, KeyedClaim;
    var e, g := EnqueueCall(7, "", 0), EnqueueCall(8, "", 1);
    cs, c := [e, g], ClaimCall(0, 5, 5);
    OneEnqueued(None);
    SecondJoins(g, c);
    RunCons(Do(Queued(None), g), c, []);
    RunCons(Queued(None), g, [c]);
    RunCons(Queued(None), g, []);
    RunCons(Empty(None, None), e, [g, c]);
    RunCons(Empty(None, None), e, [g]);
    assert cs + [c] == [e, g, c] && [g] + [c] == [g, c] && [g] + [] == [g] && [c] + [] == [c];
    assert [e] + [g] == cs && [e] + [g, c] == cs + [c];
  }

  lemma SecondJoins(g: Call, c: Call)
    requires g == EnqueueCall(8, "", 1) && c == ClaimCall(0, 5, 5)
    ensures var s := Do(Queued(None), g);
            && Legal(Queued(None), g) && Legal(s, c) && Unblocked(s, c)
            && Line(s) == [0, 1] && Claimed(s, c) == [] && Line(Do(s, c)) == [1, 0]
  {
    hide KeyedClaim, Ranked, IsLowest;
    var s := Do(Queued(None), g);
    assert s.ready == map[0 := 1, 1 := 2] && WaitOf(s, 0) == [7];
    TwoInLine(s.ready, 0, 1);
    ClaimUnfold(s, 0, 5, 5);
    PopsUnfold(s, 0, 0, 5, 10);
    assert Do(s, c).ready == map[0 := 3, 1 := 2];
    TwoInLine(Do(s, c).ready, 1, 0);
  }

  lemma TwoInLine(z: ZSet, a: Id, b: Id)
    requires z.Keys == {a, b} && a != b && z[a] < z[b]
    ensures Lowest(z) == a && Ranked(z) == [a, b]
  {
    LowestUnique(z, a);
    RankedUnfold(z, a);
    assert (z - {a}).Keys == {b};
    LowestUnique(z - {a}, b);
    RankedUnfold(z - {a}, b);
    assert (z - {a} - {b}).Keys == {};
  }

  // ---------------------------------------------------------------- refinement

  datatype Request = Put(id: Id, payload: string) | Take(count: int, now: nat, leaseMs: nat) | Finish(id: Id)

  function DoFlat(f: Flat, q: Request): (Flat, seq<Id>) {
    match q
    case Put(id, payload) => (FlatEnqueue(f, id, payload), [])
    case Take(count, now, leaseMs) => FlatClaim(f, count, now, leaseMs)
    case Finish(id) => (FlatComplete(f, id), [])
  }

  function DoKeyed(s: Keyed, q: Request, k: Key): (Keyed, seq<Id>) {
    match q
    case Put(id, payload) => (KeyedEnqueue(s, id, payload, k), [])
    case Take(count, now, leaseMs) => KeyedClaim(s, count, now, leaseMs)
    case Finish(id) => (KeyedComplete(s, id, k), [])
  }

  function Unkeyed(jobs: map<Id, Work>): map<Id, Work> {
    map id | id in jobs :: jobs[id].(ckey := None)
  }

  /** Same waiting jobs in the same order, same leases, same hashes (tokens included) but for the key. */
  ghost predicate SameQueue(f: Flat, s: Keyed, k: Key) {
    f.waiting == WaitOf(s, k) && f.active == s.active && f.jobs == Unkeyed(s.jobs) && f.limit == s.limit
  }

  /** One key, no key limit, and the key is ready exactly when jobs wait. */
  ghost predicate Mirrors(f: Flat, s: Keyed, k: Key) {
    && SameQueue(f, s, k) && s.keyLimit.None?
    && (forall j :: j in s.ready <==> j == k && WaitOf(s, k) != [])
  }

  lemma PopMirrors(f: Flat, s: Keyed, k: Key, now: nat, deadline: nat)
    requires SameQueue(f, s, k) && f.waiting != []
    ensures SameQueue(FlatPop(f, now, deadline), KeyedPop(s, k, now, deadline), k)
  {
  }

  lemma {:induction false} PopsMirror(f: Flat, s: Keyed, k: Key, n: int, now: nat, deadline: nat)
    requires SameQueue(f, s, k)
    ensures var (f', fs) := FlatPops(f, n, now, deadline);
            var (s', ks) := KeyedPops(s, k, n, now, deadline);
            fs == ks && SameQueue(f', s', k)
    decreases Max(0, n)
  {
    hide FlatPop, KeyedPop, Leased, Unkeyed;
    if n > 0 && f.waiting != [] {
      PopMirrors(f, s, k, now, deadline);
      PopsMirror(FlatPop(f, now, deadline), KeyedPop(s, k, now, deadline), k, n - 1, now, deadline);
    }
  }

  lemma TakeMirrors(f: Flat, s: Keyed, k: Key, count: int, now: nat, leaseMs: nat)
    requires Mirrors(f, s, k)
    ensures var (f', fs) := FlatClaim(f, count, now, leaseMs);
            var (s', ks) := KeyedClaim(s, count, now, leaseMs);
            fs == ks && Mirrors(f', s', k)
  {
    hide FlatPops, KeyedPops, Unkeyed, KeyedClaim, IsLowest;
    ClaimUnfold(s, count, now, leaseMs);
    var n := Allowed(f.limit, f.active, count);
    if n.Some? {
      if s.ready == map[] {
        assert k !in s.ready;
        EmptyFlatPops(f, n.value, now, now + leaseMs);
      } else {
        assert Lowest(s.ready) == k;
        PopsMirror(f, s, k, n.value, now, now + leaseMs);
        PopsFrame(s, k, n.value, now, now + leaseMs);
      }
    }
  }

  lemma EmptyFlatPops(f: Flat, n: int, now: nat, deadline: nat)
    requires f.waiting == []
    ensures FlatPops(f, n, now, deadline) == (f, [])
  {
  }

  lemma PutMirrors(f: Flat, s: Keyed, k: Key, id: Id, payload: string)
    requires Mirrors(f, s, k)
    ensures Mirrors(FlatEnqueue(f, id, payload), KeyedEnqueue(s, id, payload, k), k)
  {
  }

  lemma FinishMirrors(f: Flat, s: Keyed, k: Key, id: Id)
    requires Mirrors(f, s, k)
    ensures Mirrors(FlatComplete(f, id), KeyedComplete(s, id, k), k)
  {
  }

  function Replies(f: Flat, qs: seq<Request>): (seq<seq<Id>>, Flat)
    decreases |qs|
  {
    if qs == [] then ([], f)
    else
      var (f', ids) := DoFlat(f, qs[0]);
      var (rest, last) := Replies(f', qs[1..]);
      ([ids] + rest, last)
  }

  function KeyedReplies(s: Keyed, k: Key, qs: seq<Request>): (seq<seq<Id>>, Keyed)
    decreases |qs|
  {
    if qs == [] then ([], s)
    else
      var (s', ids) := DoKeyed(s, qs[0], k);
      var (rest, last) := KeyedReplies(s', k, qs[1..]);
      ([ids] + rest, last)
  }

  /** With one key and no key limit, any sequence of enqueues, claims and completions at the same times
      (reused ids, unknown completions and empty requests included) gives the same replies, and keeps
      the waiting list, the leases and the stored jobs with their tokens equal. */
  lemma {:induction false} KeyedRefinesFlat(f: Flat, s: Keyed, k: Key, qs: seq<Request>)
    requires Mirrors(f, s, k)
    ensures var (fs, f') := Replies(f, qs);
            var (ks, s') := KeyedReplies(s, k, qs);
            fs == ks && Mirrors(f', s', k)
    decreases |qs|
  {
    hide Mirrors, FlatEnqueue, KeyedEnqueue, FlatClaim, KeyedClaim, FlatComplete, KeyedComplete;
    if qs != [] {
      match qs[0] {
        case Put(id, payload) => PutMirrors(f, s, k, id, payload);
        case Take(count, now, leaseMs) => TakeMirrors(f, s, k, count, now, leaseMs);
        case Finish(id) => FinishMirrors(f, s, k, id);
      }
      KeyedRefinesFlat(DoFlat(f, qs[0]).0, DoKeyed(s, qs[0], k).0, k, qs[1..]);
    }
  }

  lemma EmptyMirrors(limit: Option<int>, k: Key)
    ensures Mirrors(Flat([], map[], limit, map[], 0), Empty(limit, None), k)
  {
  }
}
