/** The journal of a job: what the replies of the scripts, with the arguments of their calls, tell about it.
    In every run, every field of a stored hash is what the journal says. */
module Journal {
  import opened Prelude
  import opened SortedSets
  import opened Retention
  import opened Jobs
  import opened Scripts
  import opened Invariant
  import opened Protocol
  import opened Finishing
  import opened Batching
  import opened Tokens
  import opened Events
  import opened SweepReports
  import opened Leasing

  datatype Entry =
    | Added(at: nat, payload: string, maxRetries: int, maxStalls: int)
    | Taken(at: nat, deadline: nat)
    | Extended(at: nat, deadline: nat)
    | Broke(at: nat, reason: string, final: bool)
    | Stalled(at: nat, reason: string, final: bool)
    | Returned(at: nat, reason: string)
    | Succeeded(at: nat)

  datatype Kind = Birth | Lease | Renewal | Failure | Stall | HandBack | Success

  function KindOf(e: Entry): Kind {
    match e
    case Added(_, _, _, _) => Birth
    case Taken(_, _) => Lease
    case Extended(_, _) => Renewal
    case Broke(_, _, _) => Failure
    case Stalled(_, _, _) => Stall
    case Returned(_, _) => HandBack
    case Succeeded(_) => Success
  }

  // ---------------------------------------------------------------- asking the journal

  function HowMany(es: seq<Entry>, k: Kind): nat {
    if es == [] then 0
    else HowMany(es[..|es| - 1], k) + (if KindOf(es[|es| - 1]) == k then 1 else 0)
  }

  function Latest(es: seq<Entry>, ks: set<Kind>): Option<Entry> {
    if es == [] then None
    else if KindOf(es[|es| - 1]) in ks then Some(es[|es| - 1])
    else Latest(es[..|es| - 1], ks)
  }

  function TimeOf(e: Option<Entry>): Option<nat> {
    if e.None? then None else Some(e.value.at)
  }

  function ReasonOf(e: Option<Entry>): Option<string> {
    match e
    case Some(Broke(_, reason, _)) => Some(reason)
    case Some(Stalled(_, reason, _)) => Some(reason)
    case Some(Returned(_, reason)) => Some(reason)
    case _ => None
  }

  function CauseOf(e: Option<Entry>): Option<FailureKind> {
    match e
    case Some(Broke(_, _, _)) => Some(HandlerFailure)
    case Some(Stalled(_, _, _)) => Some(StallFailure)
    case _ => None
  }

  function DeadlineOf(e: Option<Entry>): Option<nat> {
    match e
    case Some(Taken(_, deadline)) => Some(deadline)
    case Some(Extended(_, deadline)) => Some(deadline)
    case _ => None
  }

  /** Where the last entry that is not a renewal leaves the job. */
  function StatusAfter(e: Entry): Status {
    match e
    case Taken(_, _) => Status.Active
    case Succeeded(_) => Status.Completed
    case Broke(_, _, final) => if final then Status.Failed else Status.Waiting
    case Stalled(_, _, final) => if final then Status.Failed else Status.Waiting
    case _ => Status.Waiting
  }

  /** All but renewals. */
  const TURNS := {Birth, Lease, Failure, Stall, HandBack, Success}

  /** Field by field, the hash is what the journal says. */
  predicate Matches(id: Id, j: Job, es: seq<Entry>) {
    var birth, last := Latest(es, {Birth}), Latest(es, TURNS);
    && birth.Some? && birth.value.Added? && last.Some?
    && j.payload == birth.value.payload && j.createdAt == birth.value.at
    && j.maxRetries == birth.value.maxRetries && j.maxStalls == birth.value.maxStalls
    && j.status == StatusAfter(last.value)
    && j.runs == HowMany(es, Lease) && j.failures == HowMany(es, Failure) && j.stalls == HowMany(es, Stall)
    && j.lastStartedAt == TimeOf(Latest(es, {Lease}))
    && j.lockToken == (if last.value.Taken? then Some(Token(id, last.value.at, HowMany(es, Lease))) else None)
    && j.leaseDeadline == (if last.value.Taken? then DeadlineOf(Latest(es, {Lease, Renewal})) else None)
    && j.finishedAt == (if j.status.Completed? || j.status.Failed? then Some(last.value.at) else None)
    && j.failureKind == CauseOf(Latest(es, {Failure, Stall}))
    && j.failedReason == ReasonOf(Latest(es, {Failure, Stall}))
    && j.lastError == ReasonOf(Latest(es, {Failure}))
    && j.lastFailedAt == TimeOf(Latest(es, {Failure}))
    && j.lastStalledAt == TimeOf(Latest(es, {Stall}))
    && j.lastRequeuedAt == TimeOf(Latest(es, {HandBack}))
    && j.lastRequeueReason == ReasonOf(Latest(es, {HandBack}))
  }

  // ---------------------------------------------------------------- keeping the journal

  function TakenIn(reply: seq<Claimed>, id: Id, now: nat, deadline: nat): seq<Entry> {
    if reply == [] then []
    else (if reply[0].Job_? && reply[0].id == id then [Taken(now, deadline)] else [])
         + TakenIn(reply[1..], id, now, deadline)
  }

  function StalledIn(reply: seq<Recovered>, id: Id, now: nat, reason: string): seq<Entry> {
    if reply == [] then []
    else (if !reply[0].CorruptActive? && reply[0].id == id then [Stalled(now, reason, reply[0].GaveUp?)] else [])
         + StalledIn(reply[1..], id, now, reason)
  }

  /** What one call and its reply tell about the job. */
  function Told(s: State, a: Action, id: Id): seq<Entry> {
    match a
    case DoEnqueue(x, payload, maxRetries, maxStalls, now) =>
      if x == id && Enqueue(s, x, payload, maxRetries, maxStalls, now).1
      then [Added(now, payload, maxRetries, maxStalls)] else []
    case DoClaim(count, now, leaseMs) => TakenIn(Claim(s, count, now, leaseMs).1, id, now, now + leaseMs)
    case DoExtend(x, token, now, leaseMs) =>
      if x == id && Extend(s, x, token, now, leaseMs).1 == AckExtended then [Extended(now, now + leaseMs)] else []
    case DoComplete(x, token, now, r) =>
      if x == id && Complete(s, x, token, now, r).1 == AckCompleted then [Succeeded(now)] else []
    case DoFail(x, token, error, now, r) =>
      var ack := Fail(s, x, token, error, now, r).1;
      if x == id && (ack == AckWaiting || ack == AckFailed) then [Broke(now, error, ack == AckFailed)] else []
    case DoRequeue(x, token, reason, now) =>
      if x == id && Requeue(s, x, token, reason, now).1 == AckWaiting then [Returned(now, reason)] else []
    case DoRecover(batch, now, reason, r) => StalledIn(Recover(s, batch, now, reason, r).1, id, now, reason)
    case _ => []
  }

  function AllTold(s: State, acts: seq<Action>, id: Id): seq<Entry>
    decreases |acts|
  {
    if acts == [] then [] else Told(s, acts[0], id) + AllTold(Step(s, acts[0]), acts[1..], id)
  }

  // ---------------------------------------------------------------- one more entry

  lemma Appended(es: seq<Entry>, e: Entry)
    ensures forall k :: HowMany(es + [e], k) == HowMany(es, k) + (if KindOf(e) == k then 1 else 0)
    ensures forall ks :: Latest(es + [e], ks) == if KindOf(e) in ks then Some(e) else Latest(es, ks)
  {
    assert (es + [e])[..|es|] == es;
  }

  lemma {:induction false} LatestIsOne(es: seq<Entry>, ks: set<Kind>)
    ensures Latest(es, ks).Some? ==> KindOf(Latest(es, ks).value) in ks
    decreases |es|
  {
    if es != [] {
      LatestIsOne(es[..|es| - 1], ks);
    }
  }

  lemma MatchAdded(id: Id, payload: string, maxRetries: int, maxStalls: int, now: nat)
    ensures Matches(id, Fresh(payload, maxRetries, maxStalls, now), [Added(now, payload, maxRetries, maxStalls)])
  {
    Appended([], Added(now, payload, maxRetries, maxStalls));
    assert [] + [Added(now, payload, maxRetries, maxStalls)] == [Added(now, payload, maxRetries, maxStalls)];
  }

  lemma MatchTaken(id: Id, j: Job, es: seq<Entry>, now: nat, deadline: nat)
    requires Matches(id, j, es) && j.status.Waiting?
    ensures Matches(id, LeasedHash(id, j, now, deadline), es + [Taken(now, deadline)])
  {
    Appended(es, Taken(now, deadline));
  }

  lemma MatchExtended(id: Id, j: Job, es: seq<Entry>, now: nat, deadline: nat)
    requires Matches(id, j, es) && j.lockToken.Some?
    ensures Matches(id, j.(leaseDeadline := Some(deadline)), es + [Extended(now, deadline)])
  {
    Appended(es, Extended(now, deadline));
  }

  lemma MatchReturned(id: Id, j: Job, es: seq<Entry>, now: nat, reason: string)
    requires Matches(id, j, es) && j.lockToken.Some?
    ensures Matches(id, Unlocked(j.(lastRequeuedAt := Some(now), lastRequeueReason := Some(reason),
                                    status := Status.Waiting)), es + [Returned(now, reason)])
  {
    Appended(es, Returned(now, reason));
  }

  lemma MatchSucceeded(id: Id, j: Job, es: seq<Entry>, now: nat)
    requires Matches(id, j, es) && j.lockToken.Some?
    ensures Matches(id, Unlocked(j.(status := Status.Completed, finishedAt := Some(now))), es + [Succeeded(now)])
  {
    Appended(es, Succeeded(now));
  }

  lemma MatchBroke(id: Id, j: Job, es: seq<Entry>, now: nat, error: string, final: bool)
    requires Matches(id, j, es) && j.lockToken.Some?
    ensures var after := Unlocked(j.(failures := j.failures + 1, failureKind := Some(HandlerFailure),
                                     failedReason := Some(error), lastError := Some(error), lastFailedAt := Some(now)));
            Matches(id, if final then after.(status := Status.Failed, finishedAt := Some(now))
                        else after.(status := Status.Waiting), es + [Broke(now, error, final)])
  {
    Appended(es, Broke(now, error, final));
  }

  lemma MatchStalled(id: Id, j: Job, es: seq<Entry>, now: nat, reason: string, final: bool)
    requires Matches(id, j, es) && j.lockToken.Some?
    ensures var after := Unlocked(j.(stalls := j.stalls + 1, failureKind := Some(StallFailure),
                                     failedReason := Some(reason), lastStalledAt := Some(now)));
            Matches(id, if final then after.(status := Status.Failed, finishedAt := Some(now))
                        else after.(status := Status.Waiting), es + [Stalled(now, reason, final)])
  {
    Appended(es, Stalled(now, reason, final));
  }

  // ---------------------------------------------------------------- one more step

  /** Hash and history of the job agree with the journal; a job never enqueued has an empty one. */
  predicate Kept(s: State, id: Id, es: seq<Entry>) {
    && (id in s.jobs ==> Matches(id, s.jobs[id], es))
    && (id !in s.audit ==> es == [])
    && (id in s.audit ==> BudgetsTold(s.audit[id], es))
  }

  predicate BudgetsTold(r: Record, es: seq<Entry>) {
    var birth := Latest(es, {Birth});
    birth.Some? && birth.value.Added? && r.maxRetries == birth.value.maxRetries && r.maxStalls == birth.value.maxStalls
  }

  /** A step that leaves the hash as it is, or drops it, and tells nothing. */
  lemma KeptAside(s: State, s': State, id: Id, es: seq<Entry>)
    requires Inv(s) && Kept(s, id, es) && Evolves(s, s')
    requires id in s'.jobs ==> id in s.jobs && s'.jobs[id] == s.jobs[id]
    requires id in s'.audit ==> id in s.audit
    ensures Kept(s', id, es)
  {
    assert Fits(id, ViewOf(s, id));
  }

  /** A step that tells one thing about a known job. */
  lemma KeptNext(s: State, s': State, id: Id, es: seq<Entry>, e: Entry)
    requires Kept(s, id, es) && Evolves(s, s') && id in s.audit && !e.Added?
    requires id in s'.jobs ==> Matches(id, s'.jobs[id], es + [e])
    ensures Kept(s', id, es + [e])
  {
    Appended(es, e);
  }

  /** An accepted enqueue stores exactly what it was given, a refused one nothing; no other hash changes. */
  lemma EnqueueStores(s: State, id: Id, payload: string, maxRetries: int, maxStalls: int, now: nat)
    ensures var (s', accepted) := Enqueue(s, id, payload, maxRetries, maxStalls, now);
            && (accepted <==> id !in s.jobs)
            && (!accepted ==> s' == s)
            && (accepted ==>
                  && s'.jobs.Keys == s.jobs.Keys + {id} && (forall x :: x in s.jobs ==> s'.jobs[x] == s.jobs[x])
                  && Matches(id, s'.jobs[id], [Added(now, payload, maxRetries, maxStalls)])
                  && s'.waiting == [id] + s.waiting && s'.published == s.published + [id]
                  && s'.active == s.active && s'.completed == s.completed && s'.failed == s.failed)
  {
    MatchAdded(id, payload, maxRetries, maxStalls, now);
  }

  lemma KeptByEnqueue(s: State, x: Id, payload: string, maxRetries: int, maxStalls: int, now: nat, id: Id, es: seq<Entry>)
    requires Inv(s) && Kept(s, id, es) && (x !in s.audit || x in s.jobs)
    ensures var a := DoEnqueue(x, payload, maxRetries, maxStalls, now);
            Kept(Step(s, a), id, es + Told(s, a, id))
  {
    hide Matches;
    var e := Added(now, payload, maxRetries, maxStalls);
    var s' := Enqueue(s, x, payload, maxRetries, maxStalls, now).0;
    EnqueueStores(s, x, payload, maxRetries, maxStalls, now);
    if x == id && x !in s.jobs {
      Appended([], e);
      assert es + [e] == [] + [e] == [e];
    } else {
      assert es + [] == es;
    }
  }

  lemma PoppedIsWaiting(s: State, id: Id)
    requires Inv(s) && id in s.waiting
    ensures id in s.audit && (id in s.jobs ==> s.jobs[id].status.Waiting?)
  {
    assert Fits(id, ViewOf(s, id));
    assert multiset(s.waiting)[id] > 0;
  }

  lemma KeptByClaimOne(s: State, now: nat, deadline: nat, id: Id, es: seq<Entry>)
    requires Inv(s) && s.waiting != [] && Kept(s, id, es)
    ensures var (s1, one) := ClaimOne(s, now, deadline);
            Kept(s1, id, es + (if one.Job_? && one.id == id then [Taken(now, deadline)] else []))
  {
    hide Inv, Evolves, Matches;
    var x := s.waiting[|s.waiting| - 1];
    var (s1, one) := ClaimOne(s, now, deadline);
    ClaimOneKeeps(s, now, deadline);
    PoppedIsWaiting(s, x);
    if x == id && x in s.jobs {
      MatchTaken(id, s.jobs[id], es, now, deadline);
      KeptNext(s, s1, id, es, Taken(now, deadline));
    } else {
      KeptAside(s, s1, id, es);
      assert es + [] == es;
    }
  }

  lemma {:induction false} KeptByClaim(s: State, n: nat, now: nat, deadline: nat, id: Id, es: seq<Entry>)
    requires Inv(s) && Kept(s, id, es)
    ensures var (s', reply) := ClaimMany(s, n, now, deadline);
            Kept(s', id, es + TakenIn(reply, id, now, deadline))
    decreases n
  {
    hide Inv, ClaimOne, ClaimMany, Kept;
    ClaimUnfold(s, n, now, deadline);
    if n > 0 && s.waiting != [] {
      var (s1, one) := ClaimOne(s, now, deadline);
      var rest := ClaimMany(s1, n - 1, now, deadline).1;
      var told := if one.Job_? && one.id == id then [Taken(now, deadline)] else [];
      ClaimOneKeeps(s, now, deadline);
      KeptByClaimOne(s, now, deadline, id, es);
      KeptByClaim(s1, n - 1, now, deadline, id, es + told);
      assert ([one] + rest)[1..] == rest;
      assert es + told + TakenIn(rest, id, now, deadline) == es + TakenIn([one] + rest, id, now, deadline);
    } else {
      assert es + [] == es;
    }
  }

  lemma KeptByExtend(s: State, x: Id, token: Token, now: nat, leaseMs: nat, id: Id, es: seq<Entry>)
    requires Inv(s) && Kept(s, id, es)
    ensures var a := DoExtend(x, token, now, leaseMs); Kept(Step(s, a), id, es + Told(s, a, id))
  {
    hide Inv, Evolves, Matches;
    ExtendKeeps(s, x, token, now, leaseMs);
    var s' := Extend(s, x, token, now, leaseMs).0;
    if x == id && Holds(s, x, token) && x in s.active {
      HeldIsLatest(s, id, token);
      MatchExtended(id, s.jobs[id], es, now, now + leaseMs);
      KeptNext(s, s', id, es, Extended(now, now + leaseMs));
    } else {
      KeptAside(s, s', id, es);
      assert es + [] == es;
    }
  }

  /** An accepted requeue stores the hash as it was but for status, lock and the two requeue fields, and no
      other hash changes. */
  lemma RequeueStores(s: State, id: Id, token: Token, reason: string, now: nat)
    requires Holds(s, id, token)
    ensures var (s', ack) := Requeue(s, id, token, reason, now);
            && ack == AckWaiting && s'.jobs.Keys == s.jobs.Keys
            && (forall x :: x in s.jobs && x != id ==> s'.jobs[x] == s.jobs[x])
            && s'.jobs[id] == s.jobs[id].(status := Status.Waiting, lockToken := None, leaseDeadline := None,
                                          lastRequeuedAt := Some(now), lastRequeueReason := Some(reason))
  {
  }

  lemma KeptByRequeue(s: State, x: Id, token: Token, reason: string, now: nat, id: Id, es: seq<Entry>)
    requires Inv(s) && Kept(s, id, es)
    ensures var a := DoRequeue(x, token, reason, now); Kept(Step(s, a), id, es + Told(s, a, id))
  {
    hide Inv, Evolves, Matches;
    RequeueKeeps(s, x, token, reason, now);
    var s' := Requeue(s, x, token, reason, now).0;
    if Holds(s, x, token) {
      RequeueStores(s, x, token, reason, now);
      HeldIsLatest(s, x, token);
    }
    if x == id && Holds(s, x, token) {
      MatchReturned(id, s.jobs[id], es, now, reason);
      KeptNext(s, s', id, es, Returned(now, reason));
    } else {
      KeptAside(s, s', id, es);
      assert es + [] == es;
    }
  }

  /** An accepted completion: the job's hash, if kept, is its old one without the lock, completed now. */
  lemma CompleteStores(s: State, x: Id, token: Token, now: nat, r: Resolved, id: Id)
    requires Holds(s, x, token)
    ensures var (s', ack) := Complete(s, x, token, now, r);
            && ack == AckCompleted && s'.audit.Keys == s.audit.Keys
            && (id in s'.jobs ==>
                  && id in s.jobs
                  && s'.jobs[id] == if id != x then s.jobs[id]
                                    else Unlocked(s.jobs[x].(status := Status.Completed, finishedAt := Some(now))))
  {
    hide Finish;
    FinishSpares(Settle(s, x, s.jobs[x], ByComplete), x, CompletedIndex, now, r, id);
  }

  lemma KeptByComplete(s: State, x: Id, token: Token, now: nat, r: Resolved, id: Id, es: seq<Entry>)
    requires Inv(s) && Kept(s, id, es)
    ensures var a := DoComplete(x, token, now, r); Kept(Step(s, a), id, es + Told(s, a, id))
  {
    hide Inv, Evolves, Matches, Complete;
    CompleteKeeps(s, x, token, now, r);
    var s' := Complete(s, x, token, now, r).0;
    if Holds(s, x, token) {
      CompleteStores(s, x, token, now, r, id);
      HeldIsLatest(s, x, token);
    } else {
      DeadCallsChangeNothing(s, x, token, "", now, 0, r);
    }
    if x == id && Holds(s, x, token) {
      MatchSucceeded(id, s.jobs[id], es, now);
      KeptNext(s, s', id, es, Succeeded(now));
    } else {
      KeptAside(s, s', id, es);
      assert es + [] == es;
    }
  }

  /** An accepted failure: waiting again exactly when within the retry budget, otherwise failed now. */
  lemma FailStores(s: State, x: Id, token: Token, error: string, now: nat, r: Resolved, id: Id)
    requires Holds(s, x, token)
    ensures var (s', ack) := Fail(s, x, token, error, now, r);
            var after := Unlocked(s.jobs[x].(failures := s.jobs[x].failures + 1, failureKind := Some(HandlerFailure),
                           failedReason := Some(error), lastError := Some(error), lastFailedAt := Some(now)));
            && ack == (if s.jobs[x].failures + 1 <= s.jobs[x].maxRetries then AckWaiting else AckFailed)
            && s'.audit.Keys == s.audit.Keys
            && (id in s'.jobs ==>
                  && id in s.jobs
                  && s'.jobs[id] == if id != x then s.jobs[id]
                                    else if ack == AckFailed then after.(status := Status.Failed, finishedAt := Some(now))
                                    else after.(status := Status.Waiting))
  {
    hide Finish;
    var job := s.jobs[x].(failures := s.jobs[x].failures + 1, failureKind := Some(HandlerFailure),
                          failedReason := Some(error), lastError := Some(error), lastFailedAt := Some(now));
    FinishSpares(Settle(s, x, job, ByFail), x, FailedIndex, now, r, id);
  }

  lemma KeptByFail(s: State, x: Id, token: Token, error: string, now: nat, r: Resolved, id: Id, es: seq<Entry>)
    requires Inv(s) && Kept(s, id, es)
    ensures var a := DoFail(x, token, error, now, r); Kept(Step(s, a), id, es + Told(s, a, id))
  {
    hide Inv, Evolves, Matches, Fail;
    FailKeeps(s, x, token, error, now, r);
    var (s', ack) := Fail(s, x, token, error, now, r);
    if Holds(s, x, token) {
      FailStores(s, x, token, error, now, r, id);
      HeldIsLatest(s, x, token);
    } else {
      DeadCallsChangeNothing(s, x, token, error, now, 0, r);
    }
    if x == id && Holds(s, x, token) {
      MatchBroke(id, s.jobs[id], es, now, error, ack == AckFailed);
      KeptNext(s, s', id, es, Broke(now, error, ack == AckFailed));
    } else {
      KeptAside(s, s', id, es);
      assert es + [] == es;
    }
  }

  lemma KeptByRecoverOne(s: State, x: Id, now: nat, reason: string, r: Resolved, id: Id, es: seq<Entry>)
    requires Inv(s) && x in s.active && Kept(s, id, es)
    ensures var (s1, one) := RecoverOne(s, x, now, reason, r);
            Kept(s1, id, es + (if !one.CorruptActive? && one.id == id then [Stalled(now, reason, one.GaveUp?)] else []))
  {
    hide Inv, Evolves, Matches, RecoverOne;
    var (s1, one) := RecoverOne(s, x, now, reason, r);
    RecoverOneKeeps(s, x, now, reason, r);
    ReportOfOne(s, x, now, reason, r);
    KnownActive(s, x);
    if x in s.jobs {
      ActiveIsLeased(s, x);
    }
    if x == id && x in s.jobs {
      MatchStalled(id, s.jobs[id], es, now, reason, one.GaveUp?);
      KeptNext(s, s1, id, es, Stalled(now, reason, one.GaveUp?));
    } else {
      SameKeys(s, x, now, reason, r);
      if x != id { OneSpares(s, x, now, reason, r, id); }
      KeptAside(s, s1, id, es);
      assert es + [] == es;
    }
  }

  lemma KnownActive(s: State, x: Id)
    requires Inv(s) && x in s.active
    ensures x in s.audit
  {
    assert Fits(x, ViewOf(s, x));
  }

  lemma SameKeys(s: State, x: Id, now: nat, reason: string, r: Resolved)
    requires x in s.active
    ensures RecoverOne(s, x, now, reason, r).0.audit.Keys == s.audit.Keys
  {
    hide Finish;
    if x in s.jobs {
      var job := s.jobs[x].(stalls := s.jobs[x].stalls + 1, failureKind := Some(StallFailure),
                            failedReason := Some(reason), lastStalledAt := Some(now));
      var released := Settle(s, x, job, ByStall);
      var dead := Unlocked(job).(status := Status.Failed, finishedAt := Some(now));
      FinishSpares(released.(jobs := released.jobs[x := dead]), x, FailedIndex, now, r, x);
    }
  }

  lemma {:induction false} KeptBySweep(s: State, n: nat, now: nat, reason: string, r: Resolved, id: Id, es: seq<Entry>)
    requires Inv(s) && Kept(s, id, es)
    ensures var (s', reply) := Sweep(s, n, now, reason, r);
            Kept(s', id, es + StalledIn(reply, id, now, reason))
    decreases n
  {
    hide Inv, RecoverOne, Sweep, Kept;
    SweepUnfold(s, n, now, reason, r);
    if n > 0 && s.active != map[] && s.active[Lowest(s.active)] <= now {
      var x := Lowest(s.active);
      var (s1, one) := RecoverOne(s, x, now, reason, r);
      var rest := Sweep(s1, n - 1, now, reason, r).1;
      var told := if !one.CorruptActive? && one.id == id then [Stalled(now, reason, one.GaveUp?)] else [];
      RecoverOneKeeps(s, x, now, reason, r);
      KeptByRecoverOne(s, x, now, reason, r, id, es);
      KeptBySweep(s1, n - 1, now, reason, r, id, es + told);
      assert ([one] + rest)[1..] == rest;
      assert es + told + StalledIn(rest, id, now, reason) == es + StalledIn([one] + rest, id, now, reason);
    } else {
      assert es + [] == es;
    }
  }

  // ---------------------------------------------------------------- whole runs

  lemma StepKeepsJournal(s: State, a: Action, id: Id, es: seq<Entry>)
    requires Inv(s) && Legal(s, a) && Kept(s, id, es)
    ensures Kept(Step(s, a), id, es + Told(s, a, id))
  {
    hide Inv, Evolves, Matches, ClaimMany, Sweep, Enqueue, Extend, Complete, Fail, Requeue, TakenIn, StalledIn, Declare;
    match a
    case DoEnqueue(x, payload, maxRetries, maxStalls, now) =>
      KeptByEnqueue(s, x, payload, maxRetries, maxStalls, now, id, es);
    case DoClaim(count, now, leaseMs) => KeptByClaim(s, Allowance(s, count), now, now + leaseMs, id, es);
    case DoExtend(x, token, now, leaseMs) => KeptByExtend(s, x, token, now, leaseMs, id, es);
    case DoComplete(x, token, now, r) => KeptByComplete(s, x, token, now, r, id, es);
    case DoFail(x, token, error, now, r) => KeptByFail(s, x, token, error, now, r, id, es);
    case DoRequeue(x, token, reason, now) => KeptByRequeue(s, x, token, reason, now, id, es);
    case DoRecover(batch, now, reason, r) => KeptBySweep(s, SweepBound(s, batch), now, reason, r, id, es);
    case _ => KeptUntold(s, a, id, es);
  }

  lemma KeptUntold(s: State, a: Action, id: Id, es: seq<Entry>)
    requires (a.DoDeclare? || a.LoseHash?) && Kept(s, id, es)
    ensures Kept(Step(s, a), id, es + Told(s, a, id))
  {
    hide Matches;
    assert es + [] == es;
  }

  lemma {:induction false} RunKeepsJournal(s: State, acts: seq<Action>, id: Id, es: seq<Entry>)
    requires Inv(s) && LegalRun(s, acts) && Kept(s, id, es)
    ensures Kept(Run(s, acts), id, es + AllTold(s, acts, id))
    decreases |acts|
  {
    hide Inv, Step, Legal, Kept, Told;
    if acts != [] {
      var s1, told := Step(s, acts[0]), Told(s, acts[0], id);
      StepKeeps(s, acts[0]);
      StepKeepsJournal(s, acts[0], id, es);
      RunKeepsJournal(s1, acts[1..], id, es + told);
      assert es + told + AllTold(s1, acts[1..], id) == es + AllTold(s, acts, id);
    } else {
      assert es + [] == es;
    }
  }

  /** In every run from the empty queue, by any workers in any order, with hashes lost at any moment: every
      field of a stored hash is what the job's journal says, and so are the budgets in its history. */
  lemma HashIsTheJournal(acts: seq<Action>, id: Id)
    requires LegalRun(EMPTY, acts)
    ensures var s, es := Run(EMPTY, acts), AllTold(EMPTY, acts, id);
            && (id in s.jobs ==> Matches(id, s.jobs[id], es))
            && (id in s.audit ==> BudgetsTold(s.audit[id], es))
            && (id !in s.audit ==> es == [])
  {
    hide LegalRun, Run, AllTold, Matches;
    EmptyHolds();
    RunKeepsJournal(EMPTY, acts, id, []);
    assert [] + AllTold(EMPTY, acts, id) == AllTold(EMPTY, acts, id);
  }

  /** And what a claim replies with is the journal's hash, the claim's own entry included. */
  lemma ClaimRepliesTheJournal(acts: seq<Action>, i: nat, q: nat)
    requires LegalRun(EMPTY, acts) && i < |acts|
    requires q < |ClaimReply(StateAt(acts, i), acts[i])| && ClaimReply(StateAt(acts, i), acts[i])[q].Job_?
    ensures var e := ClaimReply(StateAt(acts, i), acts[i])[q];
            Matches(e.id, e.job, AllTold(EMPTY, acts[..i + 1], e.id))
  {
    hide LegalRun, StateAt, ClaimMany, Matches, AllTold;
    var s, a := StateAt(acts, i), acts[i];
    StateAtKeeps(acts, i);
    StateAtNext(acts, i);
    ReplyIsStored(s, Allowance(s, a.count), a.now, a.now + a.leaseMs, q);
    LegalPrefix(acts, i + 1);
    HashIsTheJournal(acts[..i + 1], ClaimReply(s, a)[q].id);
  }

  lemma LegalPrefix(acts: seq<Action>, k: nat)
    requires LegalRun(EMPTY, acts) && k <= |acts|
    ensures LegalRun(EMPTY, acts[..k]) && Run(EMPTY, acts[..k]) == StateAt(acts, k)
  {
    RunSplit(EMPTY, acts, k);
  }
}
