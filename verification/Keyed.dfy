/** The flat and the keyed scheduler prototypes (benchmarks/panqueue/poc-keyed-vs-flat.mjs). */
module Schedulers {
  import opened Prelude
  import opened SortedSets
  import opened Jobs

  /** A concurrency key. */
  type Key = Id

  datatype Work = Work(
    payload: string,
    running: bool,
    runs: nat,
    lastStartedAt: Option<nat>,
    lockToken: Option<Token>,
    leaseDeadline: Option<nat>,
    ckey: Option<Key>)

  /** HSET of the enqueue script: a field it does not name keeps the value it had. */
  function Written(jobs: map<Id, Work>, id: Id, payload: string, ckey: Option<Key>): Work {
    if id in jobs then jobs[id].(payload := payload, running := false, runs := 0, ckey := ckey)
    else Work(payload, false, 0, None, None, None, ckey)
  }

  /** HINCRBY runs and HSET of the claim scripts; both create the hash if it is missing. */
  function Leased(jobs: map<Id, Work>, id: Id, now: nat, deadline: nat): Work {
    var before := if id in jobs then jobs[id] else Work("", false, 0, None, None, None, None);
    before.(running := true, runs := before.runs + 1, lastStartedAt := Some(now),
            lockToken := Some(Token(id, now, before.runs + 1)), leaseDeadline := Some(deadline))
  }

  /** The allowance under the global limit; None when the limit blocks the claim. */
  function Allowed(limit: Option<int>, active: ZSet, count: int): Option<int> {
    if limit.None? then Some(count)
    else if limit.value - |active| < 1 then None
    else Some(Min(count, limit.value - |active|))
  }

  // ---------------------------------------------------------------- flat

  datatype Flat = Flat(waiting: seq<Id>, active: ZSet, limit: Option<int>, jobs: map<Id, Work>, published: nat)

  function FlatEnqueue(s: Flat, id: Id, payload: string): Flat {
    s.(jobs := s.jobs[id := Written(s.jobs, id, payload, None)], waiting := [id] + s.waiting,
       published := s.published + 1)
  }

  function FlatPop(s: Flat, now: nat, deadline: nat): Flat
    requires s.waiting != []
  {
    var id := s.waiting[|s.waiting| - 1];
    s.(waiting := s.waiting[..|s.waiting| - 1], jobs := s.jobs[id := Leased(s.jobs, id, now, deadline)],
       active := s.active[id := deadline])
  }

  function FlatPops(s: Flat, n: int, now: nat, deadline: nat): (Flat, seq<Id>)
    decreases Max(0, n)
  {
    if n <= 0 || s.waiting == [] then (s, [])
    else
      var (s', rest) := FlatPops(FlatPop(s, now, deadline), n - 1, now, deadline);
      (s', [s.waiting[|s.waiting| - 1]] + rest)
  }

  function FlatClaim(s: Flat, count: int, now: nat, leaseMs: nat): (Flat, seq<Id>) {
    match Allowed(s.limit, s.active, count)
    case None => (s, [])
    case Some(n) => FlatPops(s, n, now, now + leaseMs)
  }

  function FlatComplete(s: Flat, id: Id): Flat {
    s.(active := s.active - {id}, jobs := s.jobs - {id},
       published := s.published + (if s.limit.Some? && s.waiting != [] then 1 else 0))
  }

  // ---------------------------------------------------------------- keyed

  datatype Keyed = Keyed(
    ready: ZSet,
    wait: map<Key, seq<Id>>,
    counts: map<Key, int>,
    limit: Option<int>,
    keyLimit: Option<int>,
    sequence: nat,
    active: ZSet,
    jobs: map<Id, Work>,
    published: nat)

  function WaitOf(s: Keyed, k: Key): seq<Id> {
    if k in s.wait then s.wait[k] else []
  }

  function CountOf(s: Keyed, k: Key): int {
    if k in s.counts then s.counts[k] else 0
  }

  predicate Below(s: Keyed, count: int) {
    s.keyLimit.None? || count < s.keyLimit.value
  }

  /** HINCRBY seq, ZADD NX ready, PUBLISH. */
  function MakeReady(s: Keyed, k: Key): Keyed {
    s.(sequence := s.sequence + 1, ready := if k in s.ready then s.ready else s.ready[k := s.sequence + 1],
       published := s.published + 1)
  }

  function KeyedEnqueue(s: Keyed, id: Id, payload: string, k: Key): Keyed {
    var pushed := s.(jobs := s.jobs[id := Written(s.jobs, id, payload, Some(k))],
                     wait := s.wait[k := [id] + WaitOf(s, k)]);
    if Below(s, CountOf(s, k)) then MakeReady(pushed, k) else pushed
  }

  /** One pop; the count is raised with it. */
  function KeyedPop(s: Keyed, k: Key, now: nat, deadline: nat): Keyed
    requires WaitOf(s, k) != []
  {
    var w := WaitOf(s, k);
    var id := w[|w| - 1];
    s.(wait := s.wait[k := w[..|w| - 1]], jobs := s.jobs[id := Leased(s.jobs, id, now, deadline)],
       active := s.active[id := deadline], counts := Counted(s.counts, k, 1))
  }

  /** HINCRBY. */
  function Counted(counts: map<Key, int>, k: Key, n: int): map<Key, int> {
    counts[k := (if k in counts then counts[k] else 0) + n]
  }

  function KeyedPops(s: Keyed, k: Key, n: int, now: nat, deadline: nat): (Keyed, seq<Id>)
    decreases Max(0, n)
  {
    if n <= 0 || WaitOf(s, k) == [] then (s, [])
    else
      var w := WaitOf(s, k);
      var (s', rest) := KeyedPops(KeyedPop(s, k, now, deadline), k, n - 1, now, deadline);
      (s', [w[|w| - 1]] + rest)
  }

  lemma PopsUnfold(s: Keyed, k: Key, n: int, now: nat, deadline: nat)
    ensures if n <= 0 || WaitOf(s, k) == [] then KeyedPops(s, k, n, now, deadline) == (s, [])
            else var (s', rest) := KeyedPops(KeyedPop(s, k, now, deadline), k, n - 1, now, deadline);
                 KeyedPops(s, k, n, now, deadline) == (s', [WaitOf(s, k)[|WaitOf(s, k)| - 1]] + rest)
  {
  }

  /** The counts after `n` pops whose HINCRBY is still to come. */
  function Raised(s: Keyed, k: Key, n: nat): Keyed {
    if n == 0 then s else s.(counts := Counted(s.counts, k, n))
  }

  /** The pop loop that began in `start`: `n` jobs are `claimed`, the queue is in `s`, and the
      count of the key is not yet raised. */
  ghost predicate Popping(start: Keyed, s: Keyed, k: Key, n: nat, count: int, claimed: seq<Id>, now: nat, deadline: nat) {
    var (after, rest) := KeyedPops(Raised(s, k, n), k, count - n, now, deadline);
    KeyedPops(start, k, count, now, deadline) == (after, claimed + rest)
  }

  lemma PoppingStarts(s: Keyed, k: Key, count: int, now: nat, deadline: nat)
    ensures Popping(s, s, k, 0, count, [], now, deadline)
  {
    hide KeyedPops;
    var rest := KeyedPops(s, k, count, now, deadline).1;
    assert [] + rest == rest;
  }

  lemma PoppingGoesOn(start: Keyed, s: Keyed, k: Key, n: nat, count: int, claimed: seq<Id>, now: nat, deadline: nat)
    requires Popping(start, s, k, n, count, claimed, now, deadline) && n < count && WaitOf(s, k) != []
    ensures var w := WaitOf(s, k);
            Popping(start, KeyedPop(s, k, now, deadline).(counts := s.counts), k, n + 1, count,
                    claimed + [w[|w| - 1]], now, deadline)
  {
    hide KeyedPops;
    var w, next := WaitOf(s, k), KeyedPop(s, k, now, deadline).(counts := s.counts);
    PopsUnfold(Raised(s, k, n), k, count - n, now, deadline);
    assert Raised(next, k, n + 1).counts == KeyedPop(Raised(s, k, n), k, now, deadline).counts;
    var rest := KeyedPops(Raised(next, k, n + 1), k, count - (n + 1), now, deadline).1;
    assert claimed + ([w[|w| - 1]] + rest) == claimed + [w[|w| - 1]] + rest;
  }

  lemma PoppingEnds(start: Keyed, s: Keyed, k: Key, n: nat, count: int, claimed: seq<Id>, now: nat, deadline: nat)
    requires Popping(start, s, k, n, count, claimed, now, deadline) && (n >= count || WaitOf(s, k) == [])
    ensures KeyedPops(start, k, count, now, deadline) == (Raised(s, k, n), claimed)
  {
    hide KeyedPops;
    PopsUnfold(Raised(s, k, n), k, count - n, now, deadline);
    assert claimed + [] == claimed;
  }

  /** The key just served goes to the back of the line, or out of it. */
  function Rotate(s: Keyed, k: Key): Keyed {
    if WaitOf(s, k) != [] && Below(s, CountOf(s, k))
    then s.(sequence := s.sequence + 1, ready := s.ready[k := s.sequence + 1])
    else s.(ready := s.ready - {k})
  }

  function KeyedClaim(s: Keyed, count: int, now: nat, leaseMs: nat): (Keyed, seq<Id>) {
    match Allowed(s.limit, s.active, count)
    case None => (s, [])
    case Some(n) =>
      if s.ready == map[] then (s, [])
      else
        var k := Lowest(s.ready);
        if !Below(s, CountOf(s, k)) then (s.(ready := s.ready - {k}), [])
        else
          var m := if s.keyLimit.None? then n else Min(n, s.keyLimit.value - CountOf(s, k));
          var (s', claimed) := KeyedPops(s, k, m, now, now + leaseMs);
          (Rotate(s', k), claimed)
  }

  function KeyedComplete(s: Keyed, id: Id, k: Key): Keyed {
    var count := CountOf(s, k) - 1;
    var done := s.(active := s.active - {id}, jobs := s.jobs - {id},
                   counts := if count <= 0 then s.counts - {k} else s.counts[k := count]);
    if WaitOf(s, k) != [] && Below(s, count) then MakeReady(done, k) else done
  }
}

/** The prototypes' keys in Redis, one method per script. */
module SchedulerObjects {
  import opened Prelude
  import opened SortedSets
  import S = Schedulers

  class FlatScheduler {
    var waiting: seq<Id>
    var active: ZSet
    var limit: Option<int>
    var jobs: map<Id, S.Work>
    var published: nat

    ghost function Contents(): S.Flat
      reads this
    {
      S.Flat(waiting, active, limit, jobs, published)
    }

    constructor (limit: Option<int>)
      ensures Contents() == S.Flat([], map[], limit, map[], 0)
    {
      waiting, active, jobs, published := [], map[], map[], 0;
      this.limit := limit;
    }

    method Enqueue(id: Id, payload: string)
      modifies this
      ensures Contents() == S.FlatEnqueue(old(Contents()), id, payload)
    {
      jobs := jobs[id := S.Written(jobs, id, payload, None)];
      waiting := [id] + waiting;
      published := published + 1;
    }

    /** RPOP one job and lease it. */
    method LeaseNext(now: nat, deadline: nat) returns (id: Id)
      requires waiting != []
      modifies this`waiting, this`jobs, this`active
      ensures id == old(waiting)[|old(waiting)| - 1]
      ensures Contents() == S.FlatPop(old(Contents()), now, deadline)
    {
      id := waiting[|waiting| - 1];
      waiting := waiting[..|waiting| - 1];
      jobs := jobs[id := S.Leased(jobs, id, now, deadline)];
      active := active[id := deadline];
    }

    method Claim(leaseMs: nat, requested: int, now: nat) returns (claimed: seq<Id>)
      modifies this
      ensures (Contents(), claimed) == S.FlatClaim(old(Contents()), requested, now, leaseMs)
    {
      hide S.FlatPop;
      claimed := [];
      var count := requested;
      if limit.Some? {
        var free := limit.value - |active|;
        if free < 1 {
          return;
        }
        if free < count {
          count := free;
        }
      }
      var deadline := now + leaseMs;
      var i := 0;
      assert forall rest: seq<Id> :: [] + rest == rest;
      while i < count
        invariant i == 0 || i <= count
        invariant var (after, rest) := S.FlatPops(Contents(), count - i, now, deadline);
                  S.FlatPops(old(Contents()), count, now, deadline) == (after, claimed + rest)
      {
        if waiting == [] {
          break;
        }
        ghost var done := claimed;
        var id := LeaseNext(now, deadline);
        claimed := claimed + [id];
        i := i + 1;
        ghost var rest := S.FlatPops(Contents(), count - i, now, deadline).1;
        assert done + ([id] + rest) == claimed + rest;
      }
      assert claimed + [] == claimed;
    }

    method Complete(id: Id)
      modifies this
      ensures Contents() == S.FlatComplete(old(Contents()), id)
    {
      active := active - {id};
      jobs := jobs - {id};
      if limit.Some? && |waiting| > 0 {
        published := published + 1;
      }
    }
  }

  class KeyedScheduler {
    var ready: ZSet
    var wait: map<S.Key, seq<Id>>
    var counts: map<S.Key, int>
    var limit: Option<int>
    var keyLimit: Option<int>
    var sequence: nat
    var active: ZSet
    var jobs: map<Id, S.Work>
    var published: nat

    ghost function Contents(): S.Keyed
      reads this
    {
      S.Keyed(ready, wait, counts, limit, keyLimit, sequence, active, jobs, published)
    }

    constructor (limit: Option<int>, keyLimit: Option<int>)
      ensures Contents() == S.Keyed(map[], map[], map[], limit, keyLimit, 0, map[], map[], 0)
    {
      ready, wait, counts, active, jobs := map[], map[], map[], map[], map[];
      sequence, published := 0, 0;
      this.limit, this.keyLimit := limit, keyLimit;
    }

    function WaitOf(k: S.Key): seq<Id>
      reads this
    {
      if k in wait then wait[k] else []
    }

    function CountOf(k: S.Key): int
      reads this
    {
      if k in counts then counts[k] else 0
    }

    /** HINCRBY seq and ZADD NX ready. */
    method AddReady(k: S.Key)
      modifies this`sequence, this`ready, this`published
      ensures Contents() == S.MakeReady(old(Contents()), k)
    {
      sequence := sequence + 1;
      if k !in ready {
        ready := ready[k := sequence];
      }
      published := published + 1;
    }

    method Enqueue(id: Id, payload: string, k: S.Key)
      modifies this
      ensures Contents() == S.KeyedEnqueue(old(Contents()), id, payload, k)
    {
      jobs := jobs[id := S.Written(jobs, id, payload, Some(k))];
      wait := wait[k := [id] + WaitOf(k)];
      var cnt := CountOf(k);
      if keyLimit.None? || cnt < keyLimit.value {
        AddReady(k);
      }
    }

    /** RPOP one job of the key and lease it. The count is raised only after the loop. */
    method LeaseNext(k: S.Key, now: nat, deadline: nat) returns (id: Id)
      requires WaitOf(k) != []
      modifies this`wait, this`jobs, this`active
      ensures id == old(WaitOf(k))[|old(WaitOf(k))| - 1]
      ensures Contents() == S.KeyedPop(old(Contents()), k, now, deadline).(counts := counts)
    {
      var w := WaitOf(k);
      id := w[|w| - 1];
      wait := wait[k := w[..|w| - 1]];
      jobs := jobs[id := S.Leased(jobs, id, now, deadline)];
      active := active[id := deadline];
    }

    /** The pop loop and the HINCRBY of the claimed number that follows it. */
    method PopFrom(k: S.Key, count: int, now: nat, deadline: nat) returns (claimed: seq<Id>)
      modifies this`wait, this`jobs, this`active, this`counts
      ensures (Contents(), claimed) == S.KeyedPops(old(Contents()), k, count, now, deadline)
    {
      hide S.KeyedPop, S.KeyedPops, S.Popping;
      claimed := [];
      var n := 0;
      ghost var start := Contents();
      S.PoppingStarts(start, k, count, now, deadline);
      while n < count
        invariant n == 0 || n <= count
        invariant S.Popping(start, Contents(), k, n, count, claimed, now, deadline)
      {
        if WaitOf(k) == [] {
          break;
        }
        S.PoppingGoesOn(start, Contents(), k, n, count, claimed, now, deadline);
        var id := LeaseNext(k, now, deadline);
        n := n + 1;
        claimed := claimed + [id];
      }
      S.PoppingEnds(start, Contents(), k, n, count, claimed, now, deadline);
      if n > 0 {
        counts := S.Counted(counts, k, n);
      }
    }

    /** Send the key just served to the back of the line, or out of it. */
    method Rotate(k: S.Key)
      modifies this`sequence, this`ready
      ensures Contents() == S.Rotate(old(Contents()), k)
    {
      if WaitOf(k) != [] && (keyLimit.None? || CountOf(k) < keyLimit.value) {
        sequence := sequence + 1;
        ready := ready[k := sequence];
      } else {
        ready := ready - {k};
      }
    }

    /** Pop up to `count` jobs of the key and rotate it. */
    method Serve(k: S.Key, count: int, now: nat, deadline: nat) returns (claimed: seq<Id>)
      modifies this`wait, this`jobs, this`active, this`counts, this`sequence, this`ready
      ensures var (after, ids) := S.KeyedPops(old(Contents()), k, count, now, deadline);
              Contents() == S.Rotate(after, k) && claimed == ids
    {
      hide S.KeyedPops, S.Rotate;
      claimed := PopFrom(k, count, now, deadline);
      Rotate(k);
    }

    method Claim(leaseMs: nat, requested: int, now: nat) returns (claimed: seq<Id>)
      modifies this
      ensures (Contents(), claimed) == S.KeyedClaim(old(Contents()), requested, now, leaseMs)
    {
      hide S.KeyedPops, S.Rotate, S.Counted, IsLowest;
      var count := requested;
      if limit.Some? {
        var free := limit.value - |active|;
        if free < 1 {
          return [];
        }
        if free < count {
          count := free;
        }
      }
      if ready == map[] {
        return [];
      }
      var ckey := Lowest(ready);
      var cnt := CountOf(ckey);
      if keyLimit.Some? {
        var kfree := keyLimit.value - cnt;
        if kfree < 1 {
          ready := ready - {ckey};
          return [];
        }
        if kfree < count {
          count := kfree;
        }
      }
      claimed := Serve(ckey, count, now, now + leaseMs);
    }

    method Complete(id: Id, k: S.Key)
      modifies this
      ensures Contents() == S.KeyedComplete(old(Contents()), id, k)
    {
      active := active - {id};
      jobs := jobs - {id};
      counts := counts[k := CountOf(k) - 1];
      var cnt := counts[k];
      if cnt <= 0 {
        counts := counts - {k};
      }
      assert old(counts)[k := cnt] - {k} == old(counts) - {k};
      if WaitOf(k) != [] {
        if keyLimit.None? || cnt < keyLimit.value {
          AddReady(k);
        }
      }
    }
  }
}
