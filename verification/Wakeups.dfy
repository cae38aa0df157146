/** Which scripts make the queue claimable, and that each of them says so. */
module Wakeups {
  import opened SortedSets
  import opened Retention
  import opened Jobs
  import opened Scripts
  import opened Protocol
  import opened Finishing
  import opened Batching

  /** A claim of one job would return something. */
  predicate Claimable(s: State) {
    s.waiting != [] && (s.concurrency.limit.None? || |s.active| < s.concurrency.limit.value)
  }

  /** A claim that asks for at least one job and gets nothing found the queue not claimable. */
  lemma EmptyReplyMeansBlocked(s: State, count: int, now: nat, leaseMs: nat)
    requires count >= 1
    ensures Claim(s, count, now, leaseMs).1 == [] <==> !Claimable(s)
    ensures !Claimable(s) ==> Claim(s, count, now, leaseMs).0 == s
  {
  }

  /** A declaration that will be written (no version is stored, or a lower one), while jobs wait, the stored
      limit is exhausted and the declared one is not. */
  predicate SilentRaise(s: State, a: Action) {
    && a.DoDeclare?
    && (s.concurrency.version.None? || a.version > s.concurrency.version.value)
    && s.waiting != []
    && s.concurrency.limit.Some? && s.concurrency.limit.value <= |s.active| < a.limit
  }

  /** From `s` to `s'` the channel only grew, and if the queue became claimable it did grow. */
  predicate Announced(s: State, s': State) {
    s.published <= s'.published && (Claimable(s') && !Claimable(s) ==> |s'.published| > |s.published|)
  }

  lemma LeavingIsAnnounced(s: State, s': State, id: Id)
    requires LeftActive(s, s', id) || WentBack(s, s', id)
    ensures Announced(s, s')
  {
  }

  lemma {:induction false} SweepIsAnnounced(s: State, n: nat, now: nat, reason: string, r: Resolved)
    ensures Announced(s, Sweep(s, n, now, reason, r).0)
    decreases n
  {
    hide RecoverOne, Sweep;
    SweepUnfold(s, n, now, reason, r);
    if n > 0 && s.active != map[] && s.active[Lowest(s.active)] <= now {
      var e := Lowest(s.active);
      var s1 := RecoverOne(s, e, now, reason, r).0;
      RecoverOneEffect(s, e, now, reason, r);
      LeavingIsAnnounced(s, s1, e);
      SweepIsAnnounced(s1, n - 1, now, reason, r);
    }
  }

  lemma {:induction false} ClaimPublishesNothing(s: State, n: nat, now: nat, deadline: nat)
    ensures ClaimMany(s, n, now, deadline).0.published == s.published
    decreases n
  {
    if n > 0 && s.waiting != [] {
      ClaimPublishesNothing(ClaimOne(s, now, deadline).0, n - 1, now, deadline);
    }
  }

  lemma ClaimIsAnnounced(s: State, count: int, now: nat, leaseMs: nat)
    ensures Announced(s, Claim(s, count, now, leaseMs).0)
  {
    hide ClaimOne;
    ClaimPublishesNothing(s, Allowance(s, count), now, now + leaseMs);
    if !Claimable(s) {
      ClaimUnfold(s, Allowance(s, count), now, now + leaseMs);
    }
  }

  lemma ExtendIsAnnounced(s: State, id: Id, token: Token, now: nat, leaseMs: nat)
    ensures Announced(s, Extend(s, id, token, now, leaseMs).0)
  {
  }

  lemma EnqueueIsAnnounced(s: State, id: Id, payload: string, maxRetries: int, maxStalls: int, now: nat)
    ensures Announced(s, Enqueue(s, id, payload, maxRetries, maxStalls, now).0)
  {
  }

  /** A step keeps its announcements exactly when it is not a silent raise: every script that makes the
      queue claimable publishes, and a raise that frees a blocked queue is the one thing that never does. */
  lemma StepIsAnnounced(s: State, a: Action)
    ensures Announced(s, Step(s, a)) <==> !SilentRaise(s, a)
  {
    hide Enqueue, Claim, Extend, Complete, Fail, Requeue, Recover;
    match a
    case DoEnqueue(id, payload, maxRetries, maxStalls, now) =>
      EnqueueIsAnnounced(s, id, payload, maxRetries, maxStalls, now);
    case DoClaim(count, now, leaseMs) => ClaimIsAnnounced(s, count, now, leaseMs);
    case DoExtend(id, token, now, leaseMs) => ExtendIsAnnounced(s, id, token, now, leaseMs);
    case DoComplete(id, token, now, r) => AckIsAnnounced(s, id, token, "", now, r);
    case DoFail(id, token, error, now, r) => AckIsAnnounced(s, id, token, error, now, r);
    case DoRequeue(id, token, reason, now) => AckIsAnnounced(s, id, token, reason, now, Resolved(Keep, -1, -1));
    case DoRecover(batch, now, reason, r) => RecoverIsAnnounced(s, batch, now, reason, r);
    case _ =>
  }

  lemma AckIsAnnounced(s: State, id: Id, token: Token, text: string, now: nat, r: Resolved)
    ensures Announced(s, Complete(s, id, token, now, r).0)
    ensures Announced(s, Fail(s, id, token, text, now, r).0)
    ensures Announced(s, Requeue(s, id, token, text, now).0)
  {
    hide Complete, Fail, Requeue;
    if Holds(s, id, token) {
      CompleteEffect(s, id, token, now, r);
      FailEffect(s, id, token, text, now, r);
      RequeueEffect(s, id, token, text, now);
      LeavingIsAnnounced(s, Complete(s, id, token, now, r).0, id);
      LeavingIsAnnounced(s, Fail(s, id, token, text, now, r).0, id);
      LeavingIsAnnounced(s, Requeue(s, id, token, text, now).0, id);
    } else {
      DeadCallsChangeNothing(s, id, token, text, now, 0, r);
    }
  }

  lemma RecoverIsAnnounced(s: State, batch: int, now: nat, reason: string, r: Resolved)
    ensures Announced(s, Recover(s, batch, now, reason, r).0)
  {
    hide Sweep;
    SweepIsAnnounced(s, SweepBound(s, batch), now, reason, r);
  }

  // ---------------------------------------------------------------- the whole channel

  /** What a recovery with this reply publishes: every restored job, and every other one while a limit is set
      and something waits by then. */
  function RecoveryNotices(reply: seq<Recovered>, limited: bool, waits: bool): seq<Id> {
    if reply == [] then []
    else if reply[0].Restored? then [reply[0].id] + RecoveryNotices(reply[1..], limited, true)
    else (if limited && waits then [reply[0].id] else []) + RecoveryNotices(reply[1..], limited, waits)
  }

  /** What a call publishes, read off its arguments, its reply and whether a limit is set and jobs wait. */
  function Notices(s: State, a: Action): seq<Id> {
    var ifFreed := s.concurrency.limit.Some? && s.waiting != [];
    match a
    case DoEnqueue(id, payload, maxRetries, maxStalls, now) =>
      if Enqueue(s, id, payload, maxRetries, maxStalls, now).1 then [id] else []
    case DoComplete(id, token, now, r) =>
      if Complete(s, id, token, now, r).1 == AckCompleted && ifFreed then [id] else []
    case DoFail(id, token, error, now, r) =>
      var ack := Fail(s, id, token, error, now, r).1;
      if ack == AckWaiting || (ack == AckFailed && ifFreed) then [id] else []
    case DoRequeue(id, token, reason, now) => if Requeue(s, id, token, reason, now).1 == AckWaiting then [id] else []
    case DoRecover(batch, now, reason, r) =>
      RecoveryNotices(Recover(s, batch, now, reason, r).1, s.concurrency.limit.Some?, s.waiting != [])
    case _ => []
  }

  lemma {:induction false} SweepPublishes(s: State, n: nat, now: nat, reason: string, r: Resolved)
    ensures var (s', es) := Sweep(s, n, now, reason, r);
            s'.published == s.published + RecoveryNotices(es, s.concurrency.limit.Some?, s.waiting != [])
    decreases n
  {
    hide RecoverOne, Sweep;
    SweepUnfold(s, n, now, reason, r);
    if n > 0 && s.active != map[] && s.active[Lowest(s.active)] <= now {
      var e := Lowest(s.active);
      var (s1, one) := RecoverOne(s, e, now, reason, r);
      var rest := Sweep(s1, n - 1, now, reason, r).1;
      RecoverOneEffect(s, e, now, reason, r);
      SweepPublishes(s1, n - 1, now, reason, r);
      assert ([one] + rest)[1..] == rest;
    }
  }

  lemma AckAnswers(s: State, id: Id, token: Token, text: string, now: nat, r: Resolved)
    requires Holds(s, id, token)
    ensures Complete(s, id, token, now, r).1 == AckCompleted && Requeue(s, id, token, text, now).1 == AckWaiting
    ensures Fail(s, id, token, text, now, r).1 in {AckWaiting, AckFailed}
  {
    hide Finish;
  }

  /** The channel carries exactly the notices of each call, in order: no call publishes more or less. */
  lemma ChannelIsExact(s: State, a: Action)
    ensures Publishes(s, a)
  {
    hide Enqueue, ClaimMany, Complete, Fail, Requeue, Sweep;
    match a
    case DoEnqueue(id, payload, maxRetries, maxStalls, now) =>
      EnqueuePublishes(s, id, payload, maxRetries, maxStalls, now);
    case DoClaim(count, now, leaseMs) => ClaimPublishesNothing(s, Allowance(s, count), now, now + leaseMs);
    case DoComplete(id, token, now, r) => AckPublishes(s, id, token, "", now, r);
    case DoFail(id, token, error, now, r) => AckPublishes(s, id, token, error, now, r);
    case DoRequeue(id, token, reason, now) => AckPublishes(s, id, token, reason, now, Resolved(Keep, -1, -1));
    case DoRecover(batch, now, reason, r) => SweepPublishes(s, SweepBound(s, batch), now, reason, r);
    case _ =>
  }

  lemma EnqueuePublishes(s: State, id: Id, payload: string, maxRetries: int, maxStalls: int, now: nat)
    ensures var (s', accepted) := Enqueue(s, id, payload, maxRetries, maxStalls, now);
            s'.published == s.published + (if accepted then [id] else [])
  {
  }

  predicate Publishes(s: State, a: Action) {
    Step(s, a).published == s.published + Notices(s, a)
  }

  lemma AckPublishes(s: State, id: Id, token: Token, text: string, now: nat, r: Resolved)
    ensures Publishes(s, DoComplete(id, token, now, r)) && Publishes(s, DoFail(id, token, text, now, r))
    ensures Publishes(s, DoRequeue(id, token, text, now))
  {
    hide Complete, Fail, Requeue;
    if Holds(s, id, token) {
      CompleteEffect(s, id, token, now, r);
      FailEffect(s, id, token, text, now, r);
      RequeueEffect(s, id, token, text, now);
      AckAnswers(s, id, token, text, now, r);
    } else {
      DeadCallsChangeNothing(s, id, token, text, now, 0, r);
    }
  }
}
