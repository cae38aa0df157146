/** The per-job hash, lock tokens, and the audit record kept beside each job. */
module Jobs {
  import opened Prelude
  import opened SortedSets

  datatype Status = Waiting | Active | Completed | Failed

  /** The claim script hashes these three values; the triple stands for the digest. */
  datatype Token = Token(id: Id, now: nat, runs: nat)

  datatype FailureKind = HandlerFailure | StallFailure

  /** One job hash. Fields the scripts delete or have not written yet are None. */
  datatype Job = Job(
    payload: string,
    status: Status,
    runs: nat,
    failures: nat,
    stalls: nat,
    maxRetries: int,
    maxStalls: int,
    createdAt: nat,
    lastStartedAt: Option<nat>,
    lockToken: Option<Token>,
    leaseDeadline: Option<nat>,
    finishedAt: Option<nat>,
    failureKind: Option<FailureKind>,
    failedReason: Option<string>,
    lastError: Option<string>,
    lastFailedAt: Option<nat>,
    lastStalledAt: Option<nat>,
    lastRequeuedAt: Option<nat>,
    lastRequeueReason: Option<string>)

  /** HDEL lockToken leaseDeadline. */
  function Unlocked(j: Job): Job {
    j.(lockToken := None, leaseDeadline := None)
  }

  /** How the run that a token stands for ended. */
  datatype How = ByComplete | ByFail | ByRequeue | ByStall

  datatype Settlement = Settlement(token: Token, how: How)

  /** Append-only history of one job id. The scripts never read it; theorems are about it. */
  datatype Record = Record(
    maxRetries: int,
    maxStalls: int,
    issued: seq<Token>,
    settled: seq<Settlement>,
    deleted: nat,
    evicted: nat,
    corrupt: nat)

  type Audit = map<Id, Record>

  function Issue(a: Audit, id: Id, token: Token): Audit {
    if id in a then a[id := a[id].(issued := a[id].issued + [token])] else a
  }

  function Settled(a: Audit, id: Id, token: Option<Token>, how: How): Audit {
    if id in a && token.Some?
    then a[id := a[id].(settled := a[id].settled + [Settlement(token.value, how)])] else a
  }

  function Deleted(a: Audit, id: Id): Audit {
    if id in a then a[id := a[id].(deleted := a[id].deleted + 1)] else a
  }

  function Surfaced(a: Audit, id: Id): Audit {
    if id in a then a[id := a[id].(corrupt := a[id].corrupt + 1)] else a
  }

  function Evicted(a: Audit, gone: set<Id>): Audit {
    map id | id in a :: if id in gone then a[id].(evicted := a[id].evicted + 1) else a[id]
  }

  /** How many settlements ended in the given way. */
  function Tally(ss: seq<Settlement>, how: How): nat {
    if ss == [] then 0
    else Tally(ss[..|ss| - 1], how) + (if ss[|ss| - 1].how == how then 1 else 0)
  }

  lemma TallyAppend(ss: seq<Settlement>, x: Settlement, how: How)
    ensures Tally(ss + [x], how) == Tally(ss, how) + (if x.how == how then 1 else 0)
  {
  }

  lemma {:induction false} TallyTotal(ss: seq<Settlement>)
    ensures |ss| == Tally(ss, ByComplete) + Tally(ss, ByFail) + Tally(ss, ByRequeue) + Tally(ss, ByStall)
  {
    if ss != [] {
      TallyTotal(ss[..|ss| - 1]);
    }
  }
}
