/** The waiting list is one fair line: jobs are claimed in exactly the order in which they were put there,
    over whole runs and for all scripts together. */
module Ordering {
  import opened SortedSets
  import opened Retention
  import opened Jobs
  import opened Scripts
  import opened Protocol
  import opened Finishing
  import opened Batching

  /** The list read from the end that RPOP takes from. */
  function Reversed(w: seq<Id>): seq<Id> {
    if w == [] then [] else Reversed(w[1..]) + [w[0]]
  }

  lemma {:induction false} ReversedLast(w: seq<Id>)
    requires w != []
    ensures Reversed(w) == [w[|w| - 1]] + Reversed(w[..|w| - 1])
    decreases |w|
  {
    if |w| > 1 {
      ReversedLast(w[1..]);
      assert w[1..][..|w| - 2] == w[..|w| - 1][1..];
    }
  }

  lemma ReversedPush(id: Id, w: seq<Id>)
    ensures Reversed([id] + w) == Reversed(w) + [id]
  {
  }

  function RestoredIds(es: seq<Recovered>): seq<Id> {
    if es == [] then [] else (if es[0].Restored? then [es[0].id] else []) + RestoredIds(es[1..])
  }

  function ClaimedIds(es: seq<Claimed>): seq<Id> {
    if es == [] then [] else [es[0].id] + ClaimedIds(es[1..])
  }

  /** The ids that the script's reply says were put in the waiting list, in order. */
  function Arrivals(s: State, a: Action): seq<Id> {
    match a
    case DoEnqueue(id, payload, maxRetries, maxStalls, now) =>
      if Enqueue(s, id, payload, maxRetries, maxStalls, now).1 then [id] else []
    case DoFail(id, token, error, now, r) => if Fail(s, id, token, error, now, r).1 == AckWaiting then [id] else []
    case DoRequeue(id, token, reason, now) => if Requeue(s, id, token, reason, now).1 == AckWaiting then [id] else []
    case DoRecover(batch, now, reason, r) => RestoredIds(Recover(s, batch, now, reason, r).1)
    case _ => []
  }

  /** The ids that a claim's reply says were taken out of it, corrupt ones included, in order. */
  function Departures(s: State, a: Action): seq<Id> {
    if a.DoClaim? then ClaimedIds(Claim(s, a.count, a.now, a.leaseMs).1) else []
  }

  lemma {:induction false} ClaimInOrder(s: State, n: nat, now: nat, deadline: nat)
    ensures var (s', es) := ClaimMany(s, n, now, deadline);
            Reversed(s.waiting) == ClaimedIds(es) + Reversed(s'.waiting)
    decreases n
  {
    hide ClaimOne, ClaimMany;
    ClaimUnfold(s, n, now, deadline);
    if n > 0 && s.waiting != [] {
      var (s1, one) := ClaimOne(s, now, deadline);
      var rest := ClaimMany(s1, n - 1, now, deadline).1;
      ReversedLast(s.waiting);
      ClaimInOrder(s1, n - 1, now, deadline);
      assert ([one] + rest)[1..] == rest;
    }
  }

  lemma {:induction false} SweepInOrder(s: State, n: nat, now: nat, reason: string, r: Resolved)
    ensures var (s', es) := Sweep(s, n, now, reason, r);
            Reversed(s.waiting) + RestoredIds(es) == Reversed(s'.waiting)
    decreases n
  {
    hide RecoverOne, Sweep;
    SweepUnfold(s, n, now, reason, r);
    if n > 0 && s.active != map[] && s.active[Lowest(s.active)] <= now {
      var e := Lowest(s.active);
      var (s1, one) := RecoverOne(s, e, now, reason, r);
      var rest := Sweep(s1, n - 1, now, reason, r).1;
      RecoverOneEffect(s, e, now, reason, r);
      ReversedPush(e, s.waiting);
      SweepInOrder(s1, n - 1, now, reason, r);
      assert ([one] + rest)[1..] == rest;
    }
  }

  lemma StepInOrder(s: State, a: Action)
    ensures Reversed(s.waiting) + Arrivals(s, a) == Departures(s, a) + Reversed(Step(s, a).waiting)
  {
    hide ClaimMany, Sweep, Complete, Fail, Requeue, Extend;
    match a
    case DoEnqueue(id, payload, maxRetries, maxStalls, now) => ReversedPush(id, s.waiting);
    case DoClaim(count, now, leaseMs) => ClaimInOrder(s, Allowance(s, count), now, now + leaseMs);
    case DoRecover(batch, now, reason, r) => SweepInOrder(s, SweepBound(s, batch), now, reason, r);
    case DoComplete(id, token, now, r) =>
      if Holds(s, id, token) {
        CompleteEffect(s, id, token, now, r);
      } else {
        DeadCallsChangeNothing(s, id, token, "", now, 0, r);
      }
    case DoFail(id, token, error, now, r) =>
      if Holds(s, id, token) {
        FailEffect(s, id, token, error, now, r);
        ReversedPush(id, s.waiting);
      } else {
        DeadCallsChangeNothing(s, id, token, error, now, 0, r);
      }
    case DoRequeue(id, token, reason, now) =>
      if Holds(s, id, token) {
        RequeueEffect(s, id, token, reason, now);
        RequeueAnswer(s, id, token, reason, now);
        ReversedPush(id, s.waiting);
      } else {
        DeadCallsChangeNothing(s, id, token, reason, now, 0, Resolved(Keep, -1, -1));
      }
    case DoExtend(id, token, now, leaseMs) => ExtendWaiting(s, id, token, now, leaseMs);
    case _ =>
  }

  lemma RequeueAnswer(s: State, id: Id, token: Token, reason: string, now: nat)
    requires Holds(s, id, token)
    ensures Requeue(s, id, token, reason, now).1 == AckWaiting
  {
  }

  lemma ExtendWaiting(s: State, id: Id, token: Token, now: nat, leaseMs: nat)
    ensures Extend(s, id, token, now, leaseMs).0.waiting == s.waiting
  {
  }

  function AllArrivals(s: State, acts: seq<Action>): seq<Id>
    decreases |acts|
  {
    if acts == [] then [] else Arrivals(s, acts[0]) + AllArrivals(Step(s, acts[0]), acts[1..])
  }

  function AllDepartures(s: State, acts: seq<Action>): seq<Id>
    decreases |acts|
  {
    if acts == [] then [] else Departures(s, acts[0]) + AllDepartures(Step(s, acts[0]), acts[1..])
  }

  /** Over any run, those who were waiting followed by those who arrived, in order, are those who left
      followed by those still waiting: whatever mix of enqueues, retries, requeues, recoveries and
      claims, nobody overtakes, nobody is dropped from the line and nobody is taken twice per arrival. */
  lemma {:induction false} FirstInFirstOut(s: State, acts: seq<Action>)
    ensures Reversed(s.waiting) + AllArrivals(s, acts)
         == AllDepartures(s, acts) + Reversed(Run(s, acts).waiting)
    decreases |acts|
  {
    hide Step, Arrivals, Departures;
    if acts != [] {
      var s1 := Step(s, acts[0]);
      StepInOrder(s, acts[0]);
      FirstInFirstOut(s1, acts[1..]);
      var w, end := Reversed(s.waiting), Reversed(Run(s, acts).waiting);
      var came, left := Arrivals(s, acts[0]), Departures(s, acts[0]);
      calc {
        w + AllArrivals(s, acts);
        (w + came) + AllArrivals(s1, acts[1..]);
        left + (Reversed(s1.waiting) + AllArrivals(s1, acts[1..]));
        left + (AllDepartures(s1, acts[1..]) + end);
        AllDepartures(s, acts) + end;
      }
    }
  }
}
