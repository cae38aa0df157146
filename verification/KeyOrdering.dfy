/** The keyed scheduler keeps each key's jobs in order, whatever happens to the other keys. */
module KeyOrdering {
  import opened Prelude
  import opened SortedSets
  import opened Schedulers
  import opened KeyedProofs
  import opened RoundRobin
  import opened Ordering

  /** Those of the ids that are stored under the key. */
  function OfKey(s: Keyed, ids: seq<Id>, k: Key): seq<Id> {
    if ids == [] then []
    else (if ids[0] in s.jobs && s.jobs[ids[0]].ckey == Some(k) then [ids[0]] else []) + OfKey(s, ids[1..], k)
  }

  lemma {:induction false} OneKeyOnly(s: Keyed, ids: seq<Id>, k: Key, served: Key)
    requires forall id :: id in ids ==> id in s.jobs && s.jobs[id].ckey == Some(served)
    ensures OfKey(s, ids, k) == if served == k then ids else []
  {
    if ids != [] {
      OneKeyOnly(s, ids[1..], k, served);
    }
  }

  lemma {:induction false} PopsInOrder(s: Keyed, k: Key, n: int, now: nat, deadline: nat)
    ensures var (s', claimed) := KeyedPops(s, k, n, now, deadline);
            && Reversed(WaitOf(s, k)) == claimed + Reversed(WaitOf(s', k))
            && (forall j: Key :: j != k ==> WaitOf(s', j) == WaitOf(s, j))
    decreases Max(0, n)
  {
    hide KeyedPop, KeyedPops;
    PopsUnfold(s, k, n, now, deadline);
    if n > 0 && WaitOf(s, k) != [] {
      PopFrame(s, k, now, deadline);
      ReversedLast(WaitOf(s, k));
      PopsInOrder(KeyedPop(s, k, now, deadline), k, n - 1, now, deadline);
    }
  }

  lemma ClaimInKeyOrder(s: Keyed, c: Call, k: Key)
    requires Sound(s) && c.ClaimCall?
    ensures Reversed(WaitOf(s, k)) == OfKey(s, Claimed(s, c), k) + Reversed(WaitOf(Do(s, c), k))
  {
    hide Sound, Rotate, KeyedPops, KeyedClaim, IsLowest;
    ClaimUnfold(s, c.count, c.now, c.leaseMs);
    var n := Allowed(s.limit, s.active, c.count);
    if n.Some? && s.ready != map[] && Below(s, CountOf(s, Lowest(s.ready))) {
      var served := Lowest(s.ready);
      var m := Share(s, n.value, served);
      var (s', claimed) := KeyedPops(s, served, m, c.now, c.now + c.leaseMs);
      PopsInOrder(s, served, m, c.now, c.now + c.leaseMs);
      ServedUnderKey(s, served, m, c.now, c.now + c.leaseMs);
      OneKeyOnly(s, claimed, k, served);
      RotateKeepsLists(s', served, k);
    }
  }

  lemma ServedUnderKey(s: Keyed, k: Key, n: int, now: nat, deadline: nat)
    requires Sound(s) && k in s.ready && n <= Share(s, n, k)
    ensures forall id :: id in KeyedPops(s, k, n, now, deadline).1 ==> id in s.jobs && s.jobs[id].ckey == Some(k)
  {
    hide KeyedPops, ListsSound, CountsSound, LineSound, Due;
    FirstIsDue(s, k);
    PopsKeep(s, k, n, now, deadline);
    WaitingHaveKey(s, k, KeyedPops(s, k, n, now, deadline).1);
  }

  lemma RotateKeepsLists(s: Keyed, served: Key, k: Key)
    ensures WaitOf(Rotate(s, served), k) == WaitOf(s, k)
  {
  }

  /** The id that the call puts in the key's list, if any. */
  function JoinsKey(c: Call, k: Key): seq<Id> {
    if c.EnqueueCall? && c.k == k then [c.id] else []
  }

  lemma StepInKeyOrder(s: Keyed, c: Call, k: Key)
    requires Sound(s)
    ensures Reversed(WaitOf(s, k)) + JoinsKey(c, k) == OfKey(s, Claimed(s, c), k) + Reversed(WaitOf(Do(s, c), k))
  {
    hide Sound, KeyedClaim;
    match c
    case EnqueueCall(id, payload, j) => ReversedPush(id, WaitOf(s, k));
    case ClaimCall(_, _, _) => ClaimInKeyOrder(s, c, k);
    case CompleteCall(_, _) =>
  }

  function AllJoined(cs: seq<Call>, k: Key): seq<Id> {
    if cs == [] then [] else JoinsKey(cs[0], k) + AllJoined(cs[1..], k)
  }

  function AllServed(s: Keyed, cs: seq<Call>, k: Key): seq<Id>
    decreases |cs|
  {
    if cs == [] then [] else OfKey(s, Claimed(s, cs[0]), k) + AllServed(Do(s, cs[0]), cs[1..], k)
  }

  /** Over any legal run, the jobs of one key are handed out in exactly the order they were enqueued in. */
  lemma {:induction false} EachKeyFirstInFirstOut(s: Keyed, cs: seq<Call>, k: Key)
    requires Sound(s) && LegalRun(s, cs)
    ensures Reversed(WaitOf(s, k)) + AllJoined(cs, k) == AllServed(s, cs, k) + Reversed(WaitOf(Run(s, cs), k))
    decreases |cs|
  {
    hide Sound, Legal, Do, Claimed, OfKey, JoinsKey;
    if cs != [] {
      var s1 := Do(s, cs[0]);
      DoKeeps(s, cs[0]);
      StepInKeyOrder(s, cs[0], k);
      EachKeyFirstInFirstOut(s1, cs[1..], k);
      calc {
        Reversed(WaitOf(s, k)) + AllJoined(cs, k);
        (Reversed(WaitOf(s, k)) + JoinsKey(cs[0], k)) + AllJoined(cs[1..], k);
        OfKey(s, Claimed(s, cs[0]), k) + (Reversed(WaitOf(s1, k)) + AllJoined(cs[1..], k));
        OfKey(s, Claimed(s, cs[0]), k) + (AllServed(s1, cs[1..], k) + Reversed(WaitOf(Run(s, cs), k)));
        AllServed(s, cs, k) + Reversed(WaitOf(Run(s, cs), k));
      }
    }
  }
}
