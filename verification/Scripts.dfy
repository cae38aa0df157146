/** What each Redis script does, as a function on the queue's stored state. */
module Scripts {
  import opened Prelude
  import opened SortedSets
  import opened Retention
  import opened Jobs

  /** The concurrency hash; None is a missing field or, for the limit, one that is not a number. */
  datatype Concurrency = Concurrency(limit: Option<int>, version: Option<int>)

  /** Everything the scripts of one queue read or write. `waiting[0]` is the left end of the list;
      `published` is the history of the notify channel. */
  datatype State = State(
    waiting: seq<Id>,
    active: ZSet,
    completed: ZSet,
    failed: ZSet,
    jobs: map<Id, Job>,
    concurrency: Concurrency,
    published: seq<Id>,
    audit: Audit)

  const UNSET := Concurrency(None, None)

  const EMPTY := State([], map[], map[], map[], map[], UNSET, [], map[])

  datatype Ack = AckCompleted | AckWaiting | AckFailed | AckExtended | AckStale | AckMissing

  // ---------------------------------------------------------------- notifications

  function Publish(s: State, id: Id): State {
    s.(published := s.published + [id])
  }

  /** A finished job freed a cross-process permit: wake claimers if a limit is set and work waits. */
  function PublishIfFreed(s: State, id: Id): State {
    if s.concurrency.limit.Some? && s.waiting != [] then Publish(s, id) else s
  }

  // ---------------------------------------------------------------- retention fragment

  datatype Which = CompletedIndex | FailedIndex

  function Index(s: State, which: Which): ZSet {
    match which
    case CompletedIndex => s.completed
    case FailedIndex => s.failed
  }

  function WithIndex(s: State, which: Which, z: ZSet): State {
    match which
    case CompletedIndex => s.(completed := z)
    case FailedIndex => s.(failed := z)
  }

  function FinalStatus(which: Which): Status {
    match which
    case CompletedIndex => Status.Completed
    case FailedIndex => Status.Failed
  }

  /** Remove the `k` lowest index members together with their hashes. */
  function EvictLowest(s: State, which: Which, k: nat): State
    requires k <= |Index(s, which)|
  {
    var z := Index(s, which);
    var gone := SetOf(Ranked(z)[..k]);
    WithIndex(s, which, DropLowest(z, k)).(jobs := s.jobs - gone, audit := Evicted(s.audit, gone))
  }

  function TrimByAge(s: State, which: Which, cutoff: int): State {
    EvictLowest(s, which, CountUpTo(Index(s, which), cutoff))
  }

  function TrimByCount(s: State, which: Which, count: nat): State {
    var overflow := |Index(s, which)| - count;
    if overflow > 0 then EvictLowest(s, which, overflow) else s
  }

  function Trimmed(s: State, which: Which, now: nat, r: Resolved): State {
    var aged := if r.ttl >= 0 then TrimByAge(s, which, now - r.ttl) else s;
    if r.count >= 0 then TrimByCount(aged, which, r.count) else aged
  }

  function Indexed(s: State, id: Id, which: Which, now: nat): State
    requires id in s.jobs
  {
    WithIndex(s, which, Index(s, which)[id := now])
      .(jobs := s.jobs[id := s.jobs[id].(status := FinalStatus(which), finishedAt := Some(now))])
  }

  function Finish(s: State, id: Id, which: Which, now: nat, r: Resolved): State
    requires id in s.jobs
  {
    if r.mode == Delete then s.(jobs := s.jobs - {id}, audit := Jobs.Deleted(s.audit, id))
    else
      var kept := Indexed(s, id, which, now);
      if r.mode == Trim then Trimmed(kept, which, now, r) else kept
  }

  // ---------------------------------------------------------------- enqueue

  function Fresh(payload: string, maxRetries: int, maxStalls: int, now: nat): Job {
    Job(payload, Status.Waiting, 0, 0, 0, maxRetries, maxStalls, now,
        None, None, None, None, None, None, None, None, None, None, None)
  }

  /** False is the collision error reply; nothing changes then. */
  function Enqueue(s: State, id: Id, payload: string, maxRetries: int, maxStalls: int, now: nat): (State, bool) {
    if id in s.jobs then (s, false)
    else
      var added := s.(jobs := s.jobs[id := Fresh(payload, maxRetries, maxStalls, now)],
                      waiting := [id] + s.waiting,
                      audit := s.audit[id := Record(maxRetries, maxStalls, [], [], 0, 0, 0)]);
      (Publish(added, id), true)
  }

  // ---------------------------------------------------------------- claim

  datatype Claimed = Job_(id: Id, job: Job) | Corrupt(id: Id)

  /** RPOP one pointer and lease it, or surface it when its hash is gone. */
  function ClaimOne(s: State, now: nat, deadline: nat): (State, Claimed)
    requires s.waiting != []
  {
    var last := |s.waiting| - 1;
    var id := s.waiting[last];
    var popped := s.(waiting := s.waiting[..last]);
    if id !in s.jobs then (popped.(audit := Surfaced(s.audit, id)), Corrupt(id))
    else
      var runs := s.jobs[id].runs + 1;
      var token := Token(id, now, runs);
      var job := s.jobs[id].(runs := runs, status := Status.Active, lastStartedAt := Some(now),
                             lockToken := Some(token), leaseDeadline := Some(deadline));
      (popped.(jobs := s.jobs[id := job], active := s.active[id := deadline], audit := Issue(s.audit, id, token)),
       Job_(id, job))
  }

  function ClaimMany(s: State, n: nat, now: nat, deadline: nat): (State, seq<Claimed>)
    decreases n
  {
    if n == 0 || s.waiting == [] then (s, [])
    else
      var (s1, first) := ClaimOne(s, now, deadline);
      var (s2, rest) := ClaimMany(s1, n - 1, now, deadline);
      (s2, [first] + rest)
  }

  /** How many pops the script allows itself: the request, clamped to the free global capacity. */
  function Allowance(s: State, count: int): nat {
    var asked := Max(0, count);
    if s.concurrency.limit.None? then asked
    else Max(0, Min(asked, s.concurrency.limit.value - |s.active|))
  }

  function Claim(s: State, count: int, now: nat, leaseMs: nat): (State, seq<Claimed>) {
    ClaimMany(s, Allowance(s, count), now, now + leaseMs)
  }

  // ---------------------------------------------------------------- fenced scripts

  /** Whether `token` is the lock the hash of `id` holds now. */
  predicate Holds(s: State, id: Id, token: Token) {
    id in s.jobs && s.jobs[id].lockToken == Some(token)
  }

  function Refusal(s: State, id: Id): Ack {
    if id in s.jobs then AckStale else AckMissing
  }

  function Extend(s: State, id: Id, token: Token, now: nat, leaseMs: nat): (State, Ack) {
    if !Holds(s, id, token) then (s, Refusal(s, id))
    else if id !in s.active then (s, AckStale)
    else
      var deadline := now + leaseMs;
      (s.(active := s.active[id := deadline],
          jobs := s.jobs[id := s.jobs[id].(leaseDeadline := Some(deadline))]), AckExtended)
  }

  /** ZREM the job from `active` and write its hash without the lock. */
  function Settle(s: State, id: Id, job: Job, how: How): State
    requires id in s.jobs
  {
    s.(active := s.active - {id}, jobs := s.jobs[id := Unlocked(job)],
       audit := Settled(s.audit, id, s.jobs[id].lockToken, how))
  }

  /** LPUSH to waiting and PUBLISH. */
  function BackToWaiting(s: State, id: Id): State
    requires id in s.jobs
  {
    Publish(s.(jobs := s.jobs[id := s.jobs[id].(status := Status.Waiting)], waiting := [id] + s.waiting), id)
  }

  function Complete(s: State, id: Id, token: Token, now: nat, r: Resolved): (State, Ack) {
    if !Holds(s, id, token) then (s, Refusal(s, id))
    else
      var released := Settle(s, id, s.jobs[id], ByComplete);
      (PublishIfFreed(Finish(released, id, CompletedIndex, now, r), id), AckCompleted)
  }

  function Fail(s: State, id: Id, token: Token, error: string, now: nat, r: Resolved): (State, Ack) {
    if !Holds(s, id, token) then (s, Refusal(s, id))
    else
      var job := s.jobs[id].(failures := s.jobs[id].failures + 1, failureKind := Some(HandlerFailure),
                             failedReason := Some(error), lastError := Some(error), lastFailedAt := Some(now));
      var released := Settle(s, id, job, ByFail);
      if job.failures <= job.maxRetries then (BackToWaiting(released, id), AckWaiting)
      else (PublishIfFreed(Finish(released, id, FailedIndex, now, r), id), AckFailed)
  }

  function Requeue(s: State, id: Id, token: Token, reason: string, now: nat): (State, Ack) {
    if !Holds(s, id, token) then (s, Refusal(s, id))
    else
      var job := s.jobs[id].(lastRequeuedAt := Some(now), lastRequeueReason := Some(reason));
      (BackToWaiting(Settle(s, id, job, ByRequeue), id), AckWaiting)
  }

  // ---------------------------------------------------------------- recovery sweep

  datatype Recovered = Restored(id: Id, job: Job) | GaveUp(id: Id, job: Job) | CorruptActive(id: Id)

  /** Sweep one expired entry. */
  function RecoverOne(s: State, id: Id, now: nat, reason: string, r: Resolved): (State, Recovered)
    requires id in s.active
  {
    if id !in s.jobs then
      (PublishIfFreed(s.(active := s.active - {id}, audit := Surfaced(s.audit, id)), id), CorruptActive(id))
    else
      var job := s.jobs[id].(stalls := s.jobs[id].stalls + 1, failureKind := Some(StallFailure),
                             failedReason := Some(reason), lastStalledAt := Some(now));
      var released := Settle(s, id, job, ByStall);
      if job.stalls <= job.maxStalls then
        var back := BackToWaiting(released, id);
        (back, Restored(id, back.jobs[id]))
      else
        var dead := Unlocked(job).(status := Status.Failed, finishedAt := Some(now));
        (PublishIfFreed(Finish(released.(jobs := released.jobs[id := dead]), id, FailedIndex, now, r), id),
         GaveUp(id, dead))
  }

  /** Sweep up to `n` entries, always the one whose lease ended first. */
  function Sweep(s: State, n: nat, now: nat, reason: string, r: Resolved): (State, seq<Recovered>)
    decreases n
  {
    if n == 0 || s.active == map[] || s.active[Lowest(s.active)] > now then (s, [])
    else
      var (s1, first) := RecoverOne(s, Lowest(s.active), now, reason, r);
      var (s2, rest) := Sweep(s1, n - 1, now, reason, r);
      (s2, [first] + rest)
  }

  /** LIMIT 0 batch: a negative batch means no bound. */
  function SweepBound(s: State, batch: int): nat {
    if batch < 0 then |s.active| else batch
  }

  function Recover(s: State, batch: int, now: nat, reason: string, r: Resolved): (State, seq<Recovered>) {
    Sweep(s, SweepBound(s, batch), now, reason, r)
  }

  // ---------------------------------------------------------------- concurrency limit

  datatype Declared = Written | Ignored | Unchanged | Conflict

  function Declare(c: Concurrency, limit: int, version: int): (Concurrency, Declared) {
    if c.version.None? || version > c.version.value then (Concurrency(Some(limit), Some(version)), Written)
    else if version < c.version.value then (c, Ignored)
    else if c.limit == Some(limit) then (c, Unchanged)
    else (c, Conflict)
  }
}
