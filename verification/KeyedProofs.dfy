/** The keyed scheduler: readiness, per-key cap, exact round-robin, and refinement of the flat queue. */
module KeyedProofs {
  import opened Prelude
  import opened SortedSets
  import opened Jobs
  import opened Schedulers

  datatype Call =
    | EnqueueCall(id: Id, payload: string, k: Key)
    | ClaimCall(count: int, now: nat, leaseMs: nat)
    | CompleteCall(id: Id, k: Key)

  function Do(s: Keyed, c: Call): Keyed {
    match c
    case EnqueueCall(id, payload, k) => KeyedEnqueue(s, id, payload, k)
    case ClaimCall(count, now, leaseMs) => KeyedClaim(s, count, now, leaseMs).0
    case CompleteCall(id, k) => KeyedComplete(s, id, k)
  }

  /** The scheduler before the first call. */
  function Empty(limit: Option<int>, keyLimit: Option<int>): Keyed {
    Keyed(map[], map[], map[], limit, keyLimit, 0, map[], map[], 0)
  }

  ghost predicate Waits(s: Keyed, id: Id) {
    exists k: Key :: id in WaitOf(s, k)
  }

  /** The calls that do no harm, as a caller could tell beforehand. Enqueue: the id is neither waiting nor
      leased. Claim: any. Complete: a leased job under its own key; or an id that is neither leased nor
      waiting, under a key that has no active job and is not held back by a key limit of 0. The scripts
      check none of this; DoKeeps proves that no weaker condition would do. */
  ghost predicate Legal(s: Keyed, c: Call) {
    match c
    case EnqueueCall(id, _, _) => id !in s.active && !Waits(s, id)
    case ClaimCall(_, _, _) => true
    case CompleteCall(id, k) =>
      if id in s.active then id in s.jobs && s.jobs[id].ckey == Some(k)
      else CountOf(s, k) == 0 && !Waits(s, id) && (WaitOf(s, k) == [] || s.keyLimit != Some(0))
  }

  // ---------------------------------------------------------------- the invariant

  function ActiveOf(s: Keyed, k: Key): set<Id> {
    set id | id in s.active && id in s.jobs && s.jobs[id].ckey == Some(k)
  }

  /** Waiting jobs are stored under the key whose list they are in, once, and are not leased; leased jobs
      are stored under some key. */
  ghost predicate ListsSound(s: Keyed) {
    && (forall k: Key, i :: 0 <= i < |WaitOf(s, k)| ==>
          WaitOf(s, k)[i] in s.jobs && s.jobs[WaitOf(s, k)[i]].ckey == Some(k) && WaitOf(s, k)[i] !in s.active)
    && (forall k: Key, i, j :: 0 <= i < j < |WaitOf(s, k)| ==> WaitOf(s, k)[i] != WaitOf(s, k)[j])
    && (forall id :: id in s.active ==> id in s.jobs && s.jobs[id].ckey.Some?)
  }

  ghost predicate CountsSound(s: Keyed) {
    forall k: Key :: CountOf(s, k) == |ActiveOf(s, k)|
                     && (s.keyLimit.Some? ==> CountOf(s, k) <= Max(0, s.keyLimit.value))
  }

  predicate Due(s: Keyed, k: Key) {
    WaitOf(s, k) != [] && Below(s, CountOf(s, k))
  }

  ghost predicate LineSound(s: Keyed) {
    && (forall k :: k in s.ready ==> s.ready[k] <= s.sequence)
    && (forall j, k :: j in s.ready && k in s.ready && j != k ==> s.ready[j] != s.ready[k])
  }

  /** Ready keys are exactly the due ones, with the possible exception of one being served. */
  ghost predicate ReadyBut(s: Keyed, served: Option<Key>) {
    forall k: Key :: Some(k) != served ==> (k in s.ready <==> Due(s, k))
  }

  ghost predicate Sound(s: Keyed) {
    ListsSound(s) && CountsSound(s) && LineSound(s) && ReadyBut(s, None)
  }

  lemma EmptySound(limit: Option<int>, keyLimit: Option<int>)
    ensures Sound(Empty(limit, keyLimit))
  {
  }

  // ---------------------------------------------------------------- pops

  lemma PopKeepsLists(s: Keyed, k: Key, now: nat, deadline: nat)
    requires ListsSound(s) && WaitOf(s, k) != []
    ensures ListsSound(KeyedPop(s, k, now, deadline))
  {
    var s' := KeyedPop(s, k, now, deadline);
    var w := WaitOf(s, k);
    var last := |w| - 1;
    assert WaitOf(s', k) == w[..last];
    forall j: Key, i | 0 <= i < |WaitOf(s', j)|
      ensures WaitOf(s', j)[i] in s'.jobs && s'.jobs[WaitOf(s', j)[i]].ckey == Some(j) && WaitOf(s', j)[i] !in s'.active
    {
      assert WaitOf(s', j)[i] == WaitOf(s, j)[i];
      assert s.jobs[w[last]].ckey == Some(k) && s.jobs[WaitOf(s, j)[i]].ckey == Some(j);
    }
    forall j: Key, a, b | 0 <= a < b < |WaitOf(s', j)|
      ensures WaitOf(s', j)[a] != WaitOf(s', j)[b]
    {
      assert WaitOf(s', j)[a] == WaitOf(s, j)[a] && WaitOf(s', j)[b] == WaitOf(s, j)[b];
    }
  }

  lemma PopActive(s: Keyed, k: Key, now: nat, deadline: nat, j: Key)
    requires ListsSound(s) && WaitOf(s, k) != []
    ensures |ActiveOf(KeyedPop(s, k, now, deadline), j)| == |ActiveOf(s, j)| + (if j == k then 1 else 0)
  {
    var s' := KeyedPop(s, k, now, deadline);
    var id := WaitOf(s, k)[|WaitOf(s, k)| - 1];
    if j == k {
      assert ActiveOf(s', j) == ActiveOf(s, j) + {id};
    } else {
      assert ActiveOf(s', j) == ActiveOf(s, j);
    }
  }

  /** What serving `n` jobs of one key leaves true: only that key's readiness may need repair. */
  ghost predicate Serving(s: Keyed, k: Key) {
    ListsSound(s) && CountsSound(s) && LineSound(s) && ReadyBut(s, Some(k)) && k in s.ready
  }

  lemma PopKeeps(s: Keyed, k: Key, now: nat, deadline: nat)
    requires Serving(s, k) && WaitOf(s, k) != [] && Below(s, CountOf(s, k))
    ensures Serving(KeyedPop(s, k, now, deadline), k)
    ensures CountOf(KeyedPop(s, k, now, deadline), k) == CountOf(s, k) + 1
  {
    var s' := KeyedPop(s, k, now, deadline);
    PopKeepsLists(s, k, now, deadline);
    forall j: Key
      ensures CountOf(s', j) == |ActiveOf(s', j)|
      ensures s'.keyLimit.Some? ==> CountOf(s', j) <= Max(0, s'.keyLimit.value)
    {
      PopActive(s, k, now, deadline, j);
    }
    forall j: Key | j != k
      ensures j in s'.ready <==> Due(s', j)
    {
      assert Due(s', j) <==> Due(s, j);
    }
  }

  /** The frame of a service: what no pop touches. */
  predicate SameLine(s: Keyed, s': Keyed) {
    s'.ready == s.ready && s'.sequence == s.sequence && s'.keyLimit == s.keyLimit && s'.limit == s.limit
  }

  lemma {:induction false} PopsKeep(s: Keyed, k: Key, n: int, now: nat, deadline: nat)
    requires Serving(s, k) && (s.keyLimit.Some? ==> n <= s.keyLimit.value - CountOf(s, k))
    ensures var (s', claimed) := KeyedPops(s, k, n, now, deadline);
            && Serving(s', k) && SameLine(s, s')
            && |claimed| == Min(Max(0, n), |WaitOf(s, k)|)
            && (forall id :: id in claimed ==> id in WaitOf(s, k))
            && (forall j: Key :: j != k ==> WaitOf(s', j) == WaitOf(s, j))
    decreases Max(0, n)
  {
    hide KeyedPop, KeyedPops, Serving;
    PopsUnfold(s, k, n, now, deadline);
    if n > 0 && WaitOf(s, k) != [] {
      PopKeeps(s, k, now, deadline);
      PopFrame(s, k, now, deadline);
      PopsKeep(KeyedPop(s, k, now, deadline), k, n - 1, now, deadline);
    }
  }

  lemma PopFrame(s: Keyed, k: Key, now: nat, deadline: nat)
    requires WaitOf(s, k) != []
    ensures var s' := KeyedPop(s, k, now, deadline);
            && SameLine(s, s') && WaitOf(s', k) == WaitOf(s, k)[..|WaitOf(s, k)| - 1]
            && (forall j: Key :: j != k ==> WaitOf(s', j) == WaitOf(s, j))
  {
  }

  /** Only the line changed. */
  predicate OnlyLine(s: Keyed, s': Keyed) {
    s' == s.(ready := s'.ready, sequence := s'.sequence, published := s'.published)
  }

  lemma LineAside(s: Keyed, s': Keyed)
    requires OnlyLine(s, s') && ListsSound(s) && CountsSound(s)
    ensures ListsSound(s') && CountsSound(s')
    ensures forall j: Key :: Due(s', j) <==> Due(s, j)
  {
    assert forall j: Key :: WaitOf(s', j) == WaitOf(s, j);
    assert forall j: Key :: ActiveOf(s', j) == ActiveOf(s, j);
  }

  lemma RotateKeeps(s: Keyed, k: Key)
    requires Serving(s, k)
    ensures Sound(Rotate(s, k))
  {
    hide ListsSound, CountsSound, Due;
    var s' := Rotate(s, k);
    LineAside(s, s');
    RotateReady(s, k);
  }

  lemma RotateReady(s: Keyed, k: Key)
    ensures k in Rotate(s, k).ready <==> Due(s, k)
    ensures forall j: Key :: j != k ==> (j in Rotate(s, k).ready <==> j in s.ready)
  {
  }

  // ---------------------------------------------------------------- every call

  /** The served key of an unblocked claim, and how many of its jobs are taken. */
  function Share(s: Keyed, n: int, k: Key): int {
    if s.keyLimit.None? then n else Min(n, s.keyLimit.value - CountOf(s, k))
  }

  lemma ClaimUnfold(s: Keyed, count: int, now: nat, leaseMs: nat)
    ensures var n := Allowed(s.limit, s.active, count);
            if n.None? || s.ready == map[] then KeyedClaim(s, count, now, leaseMs) == (s, [])
            else if !Below(s, CountOf(s, Lowest(s.ready)))
            then KeyedClaim(s, count, now, leaseMs) == (s.(ready := s.ready - {Lowest(s.ready)}), [])
            else var k := Lowest(s.ready);
                 var (s', claimed) := KeyedPops(s, k, Share(s, n.value, k), now, now + leaseMs);
                 KeyedClaim(s, count, now, leaseMs) == (Rotate(s', k), claimed)
  {
    hide KeyedPops, Rotate, IsLowest;
  }

  lemma ClaimKeeps(s: Keyed, count: int, now: nat, leaseMs: nat)
    requires Sound(s)
    ensures Sound(KeyedClaim(s, count, now, leaseMs).0)
  {
    hide Rotate, KeyedPops, ListsSound, CountsSound, LineSound, KeyedClaim, IsLowest;
    ClaimUnfold(s, count, now, leaseMs);
    var n := Allowed(s.limit, s.active, count);
    if n.Some? && s.ready != map[] {
      var k := Lowest(s.ready);
      assert Due(s, k);
      PopsKeep(s, k, Share(s, n.value, k), now, now + leaseMs);
      RotateKeeps(KeyedPops(s, k, Share(s, n.value, k), now, now + leaseMs).0, k);
    }
  }

  lemma MakeReadyKeeps(s: Keyed, k: Key)
    requires ListsSound(s) && CountsSound(s) && LineSound(s) && ReadyBut(s, Some(k)) && Due(s, k)
    ensures Sound(MakeReady(s, k))
  {
    hide ListsSound, CountsSound, Due;
    LineAside(s, MakeReady(s, k));
  }

  function Pushed(s: Keyed, id: Id, payload: string, k: Key): Keyed {
    s.(jobs := s.jobs[id := Written(s.jobs, id, payload, Some(k))], wait := s.wait[k := [id] + WaitOf(s, k)])
  }

  lemma PushKeeps(s: Keyed, id: Id, payload: string, k: Key)
    requires Sound(s) && id !in s.active && !Waits(s, id)
    ensures var p := Pushed(s, id, payload, k);
            && ListsSound(p) && CountsSound(p) && LineSound(p) && ReadyBut(p, Some(k))
            && WaitOf(p, k) != [] && CountOf(p, k) == CountOf(s, k)
  {
    var p := Pushed(s, id, payload, k);
    assert WaitOf(p, k) == [id] + WaitOf(s, k);
    forall j: Key, i | 0 <= i < |WaitOf(p, j)|
      ensures WaitOf(p, j)[i] in p.jobs && p.jobs[WaitOf(p, j)[i]].ckey == Some(j) && WaitOf(p, j)[i] !in p.active
    {
      if j == k && i == 0 {
        assert WaitOf(p, j)[i] == id;
      } else {
        assert WaitOf(p, j)[i] == WaitOf(s, j)[if j == k then i - 1 else i];
        assert WaitOf(p, j)[i] in WaitOf(s, j);
      }
    }
    forall j: Key, a, b | 0 <= a < b < |WaitOf(p, j)|
      ensures WaitOf(p, j)[a] != WaitOf(p, j)[b]
    {
      if j == k {
        assert WaitOf(p, j)[b] == WaitOf(s, j)[b - 1] && WaitOf(p, j)[b] in WaitOf(s, j);
        assert a > 0 ==> WaitOf(p, j)[a] == WaitOf(s, j)[a - 1];
      } else {
        assert WaitOf(p, j) == WaitOf(s, j);
      }
    }
    forall j: Key
      ensures ActiveOf(p, j) == ActiveOf(s, j)
    {
    }
  }

  lemma EnqueueKeeps(s: Keyed, id: Id, payload: string, k: Key)
    requires Sound(s) && id !in s.active && !Waits(s, id)
    ensures Sound(KeyedEnqueue(s, id, payload, k))
  {
    hide ListsSound, CountsSound, LineSound, MakeReady;
    PushKeeps(s, id, payload, k);
    var p := Pushed(s, id, payload, k);
    assert KeyedEnqueue(s, id, payload, k) == if Below(s, CountOf(s, k)) then MakeReady(p, k) else p;
    if Below(s, CountOf(s, k)) {
      MakeReadyKeeps(p, k);
    } else {
      assert !Due(s, k) && !Due(p, k);
    }
  }

  function Retired(s: Keyed, id: Id, k: Key): Keyed {
    var count := CountOf(s, k) - 1;
    s.(active := s.active - {id}, jobs := s.jobs - {id},
       counts := if count <= 0 then s.counts - {k} else s.counts[k := count])
  }

  lemma RetireActive(s: Keyed, id: Id, k: Key, j: Key)
    requires id in s.active && id in s.jobs && s.jobs[id].ckey == Some(k)
    ensures |ActiveOf(Retired(s, id, k), j)| == |ActiveOf(s, j)| - (if j == k then 1 else 0)
    ensures |ActiveOf(s, k)| >= 1
  {
    assert id in ActiveOf(s, k);
    assert ActiveOf(Retired(s, id, k), j) == ActiveOf(s, j) - {id};
  }

  lemma RetireLists(s: Keyed, id: Id, k: Key)
    requires ListsSound(s) && id in s.active
    ensures ListsSound(Retired(s, id, k))
  {
    assert forall j: Key :: WaitOf(Retired(s, id, k), j) == WaitOf(s, j);
  }

  lemma RetireCounts(s: Keyed, id: Id, k: Key)
    requires CountsSound(s) && id in s.active && id in s.jobs && s.jobs[id].ckey == Some(k)
    ensures CountsSound(Retired(s, id, k))
    ensures forall j: Key :: CountOf(Retired(s, id, k), j) == CountOf(s, j) - (if j == k then 1 else 0)
  {
    hide ActiveOf;
    forall j: Key
      ensures CountOf(Retired(s, id, k), j) == CountOf(s, j) - (if j == k then 1 else 0)
      ensures CountOf(Retired(s, id, k), j) == |ActiveOf(Retired(s, id, k), j)|
    {
      RetireActive(s, id, k, j);
    }
  }

  lemma RetireKeeps(s: Keyed, id: Id, k: Key)
    requires Sound(s) && id in s.active && id in s.jobs && s.jobs[id].ckey == Some(k)
    ensures var p := Retired(s, id, k);
            && ListsSound(p) && CountsSound(p) && LineSound(p) && ReadyBut(p, Some(k))
            && CountOf(p, k) == CountOf(s, k) - 1 && WaitOf(p, k) == WaitOf(s, k)
  {
    hide ListsSound, CountsSound, CountOf;
    var p := Retired(s, id, k);
    RetireLists(s, id, k);
    RetireCounts(s, id, k);
    assert forall j: Key :: j != k ==> (Due(p, j) <==> Due(s, j));
  }

  lemma CompleteKeeps(s: Keyed, id: Id, k: Key)
    requires Sound(s) && id in s.active && id in s.jobs && s.jobs[id].ckey == Some(k)
    ensures Sound(KeyedComplete(s, id, k))
  {
    hide ListsSound, CountsSound, LineSound, MakeReady;
    RetireKeeps(s, id, k);
    var p := Retired(s, id, k);
    assert KeyedComplete(s, id, k) == if Due(p, k) then MakeReady(p, k) else p;
    if Due(p, k) {
      MakeReadyKeeps(p, k);
    } else {
      assert !Due(s, k);
    }
  }

  // ---------------------------------------------------------------- calls that do harm

  /** Enqueuing an id that is waiting or leased breaks the lists. */
  lemma EnqueueHarms(s: Keyed, id: Id, payload: string, k: Key)
    requires Sound(s) && (id in s.active || Waits(s, id))
    ensures !Sound(KeyedEnqueue(s, id, payload, k))
  {
    var s' := KeyedEnqueue(s, id, payload, k);
    assert WaitOf(s', k)[0] == id && s'.active == s.active;
    if id !in s.active {
      var j: Key :| id in WaitOf(s, j);
      var i :| 0 <= i < |WaitOf(s, j)| && WaitOf(s, j)[i] == id;
      assert j == k ==> WaitOf(s', k)[i + 1] == id;
      assert j != k ==> WaitOf(s', j)[i] == id;
    }
  }

  /** Completing an id that is not leased and does not wait, under a key without active jobs. */
  lemma IdleCompleteKeeps(s: Keyed, id: Id, k: Key)
    requires Sound(s) && id !in s.active && Legal(s, CompleteCall(id, k))
    ensures Sound(KeyedComplete(s, id, k))
  {
    hide MakeReady, ListsSound, CountsSound, Waits;
    var p := Retired(s, id, k);
    IdleRetired(s, id, k);
    if WaitOf(s, k) != [] && Below(s, -1) {
      assert Due(p, k);
      MakeReadyKeeps(p, k);
    }
  }

  lemma IdleRetired(s: Keyed, id: Id, k: Key)
    requires ListsSound(s) && CountsSound(s) && id !in s.active && !Waits(s, id) && CountOf(s, k) == 0
    ensures var p := Retired(s, id, k);
            && ListsSound(p) && CountsSound(p)
            && (forall j: Key :: WaitOf(p, j) == WaitOf(s, j) && CountOf(p, j) == CountOf(s, j))
  {
    var p := Retired(s, id, k);
    assert forall j: Key :: WaitOf(p, j) == WaitOf(s, j) && CountOf(p, j) == CountOf(s, j);
    forall j: Key
      ensures ActiveOf(p, j) == ActiveOf(s, j)
    {
    }
    forall j: Key, i | 0 <= i < |WaitOf(p, j)|
      ensures WaitOf(p, j)[i] in p.jobs
    {
      assert WaitOf(p, j)[i] in WaitOf(s, j);
    }
  }

  /** Any other completion breaks the counts, the lists or the readiness. */
  lemma CompleteHarms(s: Keyed, id: Id, k: Key)
    requires Sound(s) && !Legal(s, CompleteCall(id, k))
    ensures !Sound(KeyedComplete(s, id, k))
  {
    hide LineSound, KeyedComplete, ActiveOf;
    var s' := KeyedComplete(s, id, k);
    var own := if id in s.active then s.jobs[id].ckey.value else k;
    CompletionCounts(s, id, k, own);
    assert CountOf(s, own) == |ActiveOf(s, own)|;
    if id !in s.active && CountOf(s, k) == 0 {
      CompletionLists(s, id, k);
      if Waits(s, id) {
        var j: Key :| id in WaitOf(s, j);
        var i :| 0 <= i < |WaitOf(s, j)| && WaitOf(s, j)[i] == id;
        assert WaitOf(s', j)[i] !in s'.jobs;
      } else {
        assert k in s'.ready && !Due(s', k);
      }
    }
  }

  lemma CompletionLists(s: Keyed, id: Id, k: Key)
    ensures var s' := KeyedComplete(s, id, k);
            && s'.jobs == s.jobs - {id} && s'.keyLimit == s.keyLimit
            && (forall j: Key :: WaitOf(s', j) == WaitOf(s, j))
            && (WaitOf(s, k) != [] && Below(s, CountOf(s, k) - 1) ==> k in s'.ready)
  {
  }

  lemma CompletionCounts(s: Keyed, id: Id, k: Key, j: Key)
    requires id in s.active ==> id in s.jobs && s.jobs[id].ckey.Some?
    ensures var s' := KeyedComplete(s, id, k);
            && CountOf(s', j) == (if j == k then Max(0, CountOf(s, k) - 1) else CountOf(s, j))
            && |ActiveOf(s', j)| == |ActiveOf(s, j)| - (if id in ActiveOf(s, j) then 1 else 0)
    ensures id in ActiveOf(s, j) <==> id in s.active && s.jobs[id].ckey == Some(j)
    ensures id in ActiveOf(s, j) ==> |ActiveOf(s, j)| >= 1
  {
    hide Due, Below;
    CompletionActive(s, KeyedComplete(s, id, k), id, j);
  }

  lemma CompletionActive(s: Keyed, s': Keyed, id: Id, j: Key)
    requires s'.active == s.active - {id} && s'.jobs == s.jobs - {id}
    ensures |ActiveOf(s', j)| == |ActiveOf(s, j)| - (if id in ActiveOf(s, j) then 1 else 0)
  {
    assert ActiveOf(s', j) == ActiveOf(s, j) - {id};
  }

  /** The complete script checks nothing. From a sound state its result is sound if and only if the call names
      a leased job under its own key, or an id that is neither leased nor waiting, under a key with no active
      job and, if jobs of it wait, no key limit of 0. */
  lemma CompletionExactness(s: Keyed, id: Id, k: Key)
    requires Sound(s)
    ensures Sound(KeyedComplete(s, id, k))
            <==> (if id in s.active then id in s.jobs && s.jobs[id].ckey == Some(k)
                  else CountOf(s, k) == 0 && (forall j: Key :: id !in WaitOf(s, j))
                       && !(WaitOf(s, k) != [] && s.keyLimit == Some(0)))
  {
    hide Sound, KeyedComplete;
    if !Legal(s, CompleteCall(id, k)) {
      CompleteHarms(s, id, k);
    } else if id in s.active {
      CompleteKeeps(s, id, k);
    } else {
      IdleCompleteKeeps(s, id, k);
    }
  }

  // ---------------------------------------------------------------- whole runs

  /** From a sound state a call leads to a sound one exactly when it is legal. */
  lemma DoKeeps(s: Keyed, c: Call)
    requires Sound(s)
    ensures Sound(Do(s, c)) <==> Legal(s, c)
  {
    hide Sound, KeyedEnqueue, KeyedClaim, KeyedComplete;
    match c
    case EnqueueCall(id, payload, k) =>
      if Legal(s, c) { EnqueueKeeps(s, id, payload, k); } else { EnqueueHarms(s, id, payload, k); }
    case ClaimCall(count, now, leaseMs) => ClaimKeeps(s, count, now, leaseMs);
    case CompleteCall(id, k) => CompletionExactness(s, id, k);
  }

  function Run(s: Keyed, cs: seq<Call>): Keyed
    decreases |cs|
  {
    if cs == [] then s else Run(Do(s, cs[0]), cs[1..])
  }

  ghost predicate LegalRun(s: Keyed, cs: seq<Call>)
    decreases |cs|
  {
    cs == [] || (Legal(s, cs[0]) && LegalRun(Do(s, cs[0]), cs[1..]))
  }

  lemma {:induction false} RunKeeps(s: Keyed, cs: seq<Call>)
    requires Sound(s) && LegalRun(s, cs)
    ensures Sound(Run(s, cs)) && Run(s, cs).keyLimit == s.keyLimit
    decreases |cs|
  {
    hide Sound, Do, Legal;
    if cs != [] {
      DoKeeps(s, cs[0]);
      KeyLimitStays(s, cs[0]);
      RunKeeps(Do(s, cs[0]), cs[1..]);
    }
  }

  lemma KeyLimitStays(s: Keyed, c: Call)
    ensures Do(s, c).keyLimit == s.keyLimit
  {
    hide KeyedClaim;
    if c.ClaimCall? {
      ClaimFrame(s, c.count, c.now, c.leaseMs);
    }
  }

  lemma ClaimFrame(s: Keyed, count: int, now: nat, leaseMs: nat)
    ensures KeyedClaim(s, count, now, leaseMs).0.keyLimit == s.keyLimit
  {
    hide KeyedPops, KeyedClaim, IsLowest;
    ClaimUnfold(s, count, now, leaseMs);
    var n := Allowed(s.limit, s.active, count);
    if n.Some? && s.ready != map[] {
      var k := Lowest(s.ready);
      PopsFrame(s, k, Share(s, n.value, k), now, now + leaseMs);
    }
  }

  lemma {:induction false} PopsFrame(s: Keyed, k: Key, n: int, now: nat, deadline: nat)
    ensures SameLine(s, KeyedPops(s, k, n, now, deadline).0)
    decreases Max(0, n)
  {
    if n > 0 && WaitOf(s, k) != [] {
      PopsFrame(KeyedPop(s, k, now, deadline), k, n - 1, now, deadline);
    }
  }

  /** After any run of legal calls: a key is ready exactly when it has waiting jobs and its count is below
      the key limit; its count is its number of active jobs, and never exceeds the limit; ready keys
      have distinct sequence numbers. */
  lemma ReadinessAndCap(limit: Option<int>, keyLimit: Option<int>, cs: seq<Call>, k: Key)
    requires LegalRun(Empty(limit, keyLimit), cs)
    ensures var s := Run(Empty(limit, keyLimit), cs);
            && (k in s.ready <==> WaitOf(s, k) != [] && (keyLimit.None? || |ActiveOf(s, k)| < keyLimit.value))
            && CountOf(s, k) == |ActiveOf(s, k)|
            && (keyLimit.Some? ==> |ActiveOf(s, k)| <= Max(0, keyLimit.value))
            && (forall j :: j in s.ready && k in s.ready && j != k ==> s.ready[j] != s.ready[k])
  {
    EmptySound(limit, keyLimit);
    var s0 := Empty(limit, keyLimit);
    RunKeeps(s0, cs);
    assert Due(Run(s0, cs), k) <==> k in Run(s0, cs).ready;
  }

  // ---------------------------------------------------------------- the cap across keys

  lemma {:induction false} PopsAdd(s: Keyed, k: Key, n: int, now: nat, deadline: nat)
    ensures |KeyedPops(s, k, n, now, deadline).0.active| <= |s.active| + Max(0, n)
    decreases Max(0, n)
  {
    hide KeyedPop, KeyedPops;
    PopsUnfold(s, k, n, now, deadline);
    if n > 0 && WaitOf(s, k) != [] {
      PopAdds(s, k, now, deadline);
      PopsAdd(KeyedPop(s, k, now, deadline), k, n - 1, now, deadline);
    }
  }

  lemma PopAdds(s: Keyed, k: Key, now: nat, deadline: nat)
    requires WaitOf(s, k) != []
    ensures |KeyedPop(s, k, now, deadline).active| <= |s.active| + 1
  {
    var id := WaitOf(s, k)[|WaitOf(s, k)| - 1];
    assert s.active[id := deadline].Keys == s.active.Keys + {id};
  }

  /** Whatever its arguments and whatever the state, no call takes the active jobs of all keys together above
      the global limit, or makes them grow if they are above it. */
  lemma CallWithinLimit(s: Keyed, c: Call)
    requires s.limit.Some?
    ensures |Do(s, c).active| <= Max(|s.active|, s.limit.value) && Do(s, c).limit == s.limit
  {
    hide KeyedClaim, KeyedEnqueue, KeyedComplete;
    match c
    case ClaimCall(count, now, leaseMs) => ClaimWithinLimit(s, count, now, leaseMs);
    case CompleteCall(id, k) =>
      CompleteFrame(s, id, k);
      OneFewer(s, Do(s, c), id);
    case EnqueueCall(id, payload, k) => EnqueueFrame(s, id, payload, k);
  }

  lemma EnqueueFrame(s: Keyed, id: Id, payload: string, k: Key)
    ensures KeyedEnqueue(s, id, payload, k).active == s.active && KeyedEnqueue(s, id, payload, k).limit == s.limit
  {
  }

  lemma CompleteFrame(s: Keyed, id: Id, k: Key)
    ensures KeyedComplete(s, id, k).active == s.active - {id} && KeyedComplete(s, id, k).limit == s.limit
  {
  }

  lemma ClaimWithinLimit(s: Keyed, count: int, now: nat, leaseMs: nat)
    requires s.limit.Some?
    ensures var s' := KeyedClaim(s, count, now, leaseMs).0;
            |s'.active| <= Max(|s.active|, s.limit.value) && s'.limit == s.limit
  {
    hide KeyedPops, KeyedClaim, IsLowest;
    ClaimUnfold(s, count, now, leaseMs);
    var n := Allowed(s.limit, s.active, count);
    if n.Some? && s.ready != map[] {
      var k := Lowest(s.ready);
      PopsFrame(s, k, Share(s, n.value, k), now, now + leaseMs);
      PopsAdd(s, k, Share(s, n.value, k), now, now + leaseMs);
    }
  }

  /** So over any run of calls, legal or not, active jobs stay within max(start, limit). */
  lemma {:induction false} GlobalCap(s: Keyed, cs: seq<Call>)
    requires s.limit.Some?
    ensures |Run(s, cs).active| <= Max(|s.active|, s.limit.value)
    decreases |cs|
  {
    hide Do;
    if cs != [] {
      CallWithinLimit(s, cs[0]);
      GlobalCap(Do(s, cs[0]), cs[1..]);
    }
  }

  /** Harm is reachable: a completion that names the key's waiting job, with nothing leased anywhere, deletes
      the job's hash; the next claim leases it under no key, and the key's count no longer is the number
      of its active jobs. */
  lemma CompletingAWaitingJobHarms() returns (cs: seq<Call>, c: Call)
    ensures LegalRun(Empty(None, None), cs) && c.CompleteCall?
    ensures var s := Run(Empty(None, None), cs); var s' := Do(s, c); var s2 := Do(s', ClaimCall(1, 5, 5));
            && s.active == map[] && CountOf(s, c.k) == 0
            && !Legal(s, c) && !Sound(s')
            && CountOf(s2, c.k) == 1 && ActiveOf(s2, c.k) == {}
  {
    hide Sound, Do, LegalRun, Run;
    cs, c := [EnqueueCall(7, "", 0)], CompleteCall(7, 0);
    OneEnqueued(None);
    DoKeeps(Queued(None), c);
    assert 7 in WaitOf(Queued(None), 0);
    KeylessLease(Do(Queued(None), c));
  }

  lemma KeylessLease(s: Keyed)
    requires s == Do(Queued(None), CompleteCall(7, 0))
    ensures var s2 := Do(s, ClaimCall(1, 5, 5));
            CountOf(s2, 0) == 1 && ActiveOf(s2, 0) == {}
  {
    assert s.ready == map[0 := 1] && s.jobs == map[];
    assert 0 in s.ready;
    LowestUnique(s.ready, 0);
    ClaimUnfold(s, 1, 5, 5);
    PopsUnfold(s, 0, 1, 5, 10);
    PopsUnfold(KeyedPop(s, 0, 5, 10), 0, 0, 5, 10);
  }

  // The first states of a scheduler with no key limit, for the examples.

  /** Job 7 waits under key 0. */
  function Queued(limit: Option<int>): Keyed {
    Keyed(map[0 := 1], map[0 := [7]], map[], limit, None, 1, map[],
          map[7 := Work("", false, 0, None, None, None, Some(0))], 1)
  }

  /** Job 7 is leased and nothing waits. */
  function Busy(limit: Option<int>): Keyed {
    Keyed(map[], map[0 := []], map[0 := 1], limit, None, 1, map[7 := 10],
          map[7 := Work("", true, 1, Some(5), Some(Token(7, 5, 1)), Some(10), Some(0))], 1)
  }

  lemma OneEnqueued(limit: Option<int>)
    ensures var c := EnqueueCall(7, "", 0);
            && Do(Empty(limit, None), c) == Queued(limit) && Legal(Empty(limit, None), c)
            && LegalRun(Empty(limit, None), [c]) && Run(Empty(limit, None), [c]) == Queued(limit)
            && Sound(Queued(limit))
  {
    hide Sound;
    var s0, c := Empty(limit, None), EnqueueCall(7, "", 0);
    EmptySound(limit, None);
    DoKeeps(s0, c);
    assert forall k: Key :: WaitOf(s0, k) == [];
    assert [c][1..] == [];
    assert [7] + WaitOf(s0, 0) == [7];
    assert Do(s0, c).jobs == Queued(limit).jobs && Do(s0, c).wait == Queued(limit).wait;
  }

  lemma QueuedLowest(limit: Option<int>)
    ensures 0 in Queued(limit).ready && Lowest(Queued(limit).ready) == 0
  {
    assert 0 in Queued(limit).ready;
    LowestUnique(Queued(limit).ready, 0);
  }

  lemma OnePopped(limit: Option<int>)
    ensures WaitOf(Queued(limit), 0) == [7]
    ensures var popped := KeyedPop(Queued(limit), 0, 5, 10);
            popped == Busy(limit).(ready := map[0 := 1]) && WaitOf(popped, 0) == [] && Rotate(popped, 0) == Busy(limit)
  {
    var popped := KeyedPop(Queued(limit), 0, 5, 10);
    assert popped.jobs == Busy(limit).jobs && popped.active == Busy(limit).active;
    assert popped.wait == Busy(limit).wait && popped.counts == Busy(limit).counts;
    assert Rotate(popped, 0).ready == map[];
  }

  lemma OneLeased(limit: Option<int>)
    requires limit.None? || limit.value >= 1
    ensures Do(Queued(limit), ClaimCall(1, 5, 5)) == Busy(limit)
  {
    hide KeyedClaim, KeyedPops, KeyedPop, Rotate, WaitOf, IsLowest;
    var s := Queued(limit);
    QueuedLowest(limit);
    OnePopped(limit);
    ClaimUnfold(s, 1, 5, 5);
    PopsUnfold(s, 0, 1, 5, 10);
    PopsUnfold(KeyedPop(s, 0, 5, 10), 0, 0, 5, 10);
  }

  // ---------------------------------------------------------------- who is told

  /** An unblocked claim would find a key to serve. */
  predicate Claimable(s: Keyed) {
    s.ready != map[] && (s.limit.None? || |s.active| < s.limit.value)
  }

  /** A call makes work claimable without telling anybody exactly when it completes a leased job whose own key
      has nothing waiting, while other keys are ready and every global permit is taken. */
  lemma SilentExactlyWhenKeyIsEmpty(s: Keyed, c: Call)
    requires Sound(s) && Legal(s, c)
    ensures (!Claimable(s) && Claimable(Do(s, c)) && Do(s, c).published == s.published)
            <==> (c.CompleteCall? && c.id in s.active && WaitOf(s, c.k) == []
                  && s.ready != map[] && s.limit == Some(|s.active|))
  {
    hide Sound, Legal, KeyedClaim, KeyedEnqueue, KeyedComplete;
    match c
    case EnqueueCall(id, payload, k) =>
      if !Claimable(s) && Claimable(Do(s, c)) { EnqueueTells(s, id, payload, k); }
    case ClaimCall(count, now, leaseMs) =>
      if !Claimable(s) { BlockedStays(s, count, now, leaseMs); }
    case CompleteCall(id, k) =>
      CompleteTells(s, id, k);
      OneFewer(s, Do(s, c), id);
  }

  lemma OneFewer(s: Keyed, s': Keyed, id: Id)
    requires s'.active == s.active - {id}
    ensures |s'.active| == |s.active| - (if id in s.active then 1 else 0)
    ensures s.ready.Keys == s'.ready.Keys ==> (s.ready == map[] <==> s'.ready == map[])
  {
    if id in s.active {
      RemoveShrinks(s.active, id);
    }
    assert s.ready == map[] <==> s.ready.Keys == {};
    assert s'.ready == map[] <==> s'.ready.Keys == {};
  }

  lemma BlockedStays(s: Keyed, count: int, now: nat, leaseMs: nat)
    requires !Claimable(s)
    ensures KeyedClaim(s, count, now, leaseMs).0 == s
  {
    hide KeyedClaim;
    ClaimUnfold(s, count, now, leaseMs);
  }

  lemma EnqueueTells(s: Keyed, id: Id, payload: string, k: Key)
    requires !Claimable(s) && Claimable(KeyedEnqueue(s, id, payload, k))
    ensures KeyedEnqueue(s, id, payload, k).published > s.published
  {
  }

  lemma CompleteTells(s: Keyed, id: Id, k: Key)
    requires Sound(s) && Legal(s, CompleteCall(id, k))
    ensures var s' := KeyedComplete(s, id, k);
            && s'.limit == s.limit && s'.active == s.active - {id}
            && (if id !in s.active then s'.ready.Keys == s.ready.Keys
                else if WaitOf(s, k) != [] then s'.published == s.published + 1
                else s'.published == s.published && s'.ready == s.ready)
  {
    hide ListsSound, LineSound, ActiveOf;
    if id in s.active {
      RetireActive(s, id, k, k);
      assert CountOf(s, k) == |ActiveOf(s, k)|;
      assert Below(s, CountOf(s, k) - 1);
    } else {
      assert k in s.ready <==> Due(s, k);
    }
  }

  /** It happens: key 0 runs the only job the global limit allows, key 1 waits, and key 0's completion is
      silent although key 1 can now be served. */
  lemma SilentCompletion() returns (cs: seq<Call>, c: Call)
    ensures LegalRun(Empty(Some(1), None), cs + [c])
    ensures var s := Run(Empty(Some(1), None), cs);
            !Claimable(s) && Claimable(Do(s, c)) && Do(s, c).published == s.published
  {
    hide Sound, Run, LegalRun, Do, Legal;
    var s0, e, f, g := Empty(Some(1), None), EnqueueCall(7, "", 0), ClaimCall(1, 5, 5), EnqueueCall(8, "", 1);
    cs, c := [e, f, g], CompleteCall(7, 0);
    OneEnqueued(Some(1));
    OneLeased(Some(1));
    SecondWaits(c, g);
    RunCons(Do(Busy(Some(1)), g), c, []);
    RunCons(Busy(Some(1)), g, [c]);
    RunCons(Busy(Some(1)), g, []);
    RunCons(Queued(Some(1)), f, [g, c]);
    RunCons(Queued(Some(1)), f, [g]);
    RunCons(s0, e, [f, g, c]);
    RunCons(s0, e, [f, g]);
    assert cs + [c] == [e, f, g, c] && [g] + [c] == [g, c] && [f] + [g] == [f, g] && [f] + [g, c] == [f, g, c];
    assert [e] + [f, g] == cs && [e] + [f, g, c] == cs + [c] && [g] + [] == [g] && [c] + [] == [c];
  }

  lemma RunCons(s: Keyed, c: Call, cs: seq<Call>)
    ensures Run(s, [c] + cs) == Run(Do(s, c), cs)
    ensures LegalRun(s, [c] + cs) <==> Legal(s, c) && LegalRun(Do(s, c), cs)
    ensures Run(Do(s, c), []) == Do(s, c) && LegalRun(Do(s, c), [])
  {
    hide Do, Legal;
    assert ([c] + cs)[1..] == cs;
  }

  lemma SecondWaits(c: Call, g: Call)
    requires c == CompleteCall(7, 0) && g == EnqueueCall(8, "", 1)
    ensures var s, f := Do(Busy(Some(1)), g), ClaimCall(1, 5, 5);
            && Legal(Queued(Some(1)), f) && Legal(Busy(Some(1)), g) && Legal(s, c)
            && !Claimable(s) && Claimable(Do(s, c)) && Do(s, c).published == s.published
  {
    var s := Do(Busy(Some(1)), g);
    assert s.active == map[7 := 10] && s.ready == map[1 := 2] && s.jobs[7].ckey == Some(0);
    assert 1 in s.ready && s.active - {7} == map[];
  }
}
