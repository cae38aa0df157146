/** Which script a worker's move runs, seen from what the queue holds and remembers afterwards. */
module Outcomes {
  import opened Prelude
  import opened SortedSets
  import opened Retention
  import opened Jobs
  import opened Scripts
  import opened Invariant
  import opened Protocol
  import opened Finishing
  import opened Tokens
  import opened Workers
  import opened Journal
  import opened Leasing

  /** The history of the job gains one settlement and nothing else of anybody's runs changes. */
  predicate SettledAs(q: State, q': State, e: R.Entry, how: How) {
    && e.id in q.audit && e.id in q'.audit
    && q'.audit[e.id].settled == q.audit[e.id].settled + [Settlement(e.token, how)]
    && (forall x :: x in q.audit && x != e.id ==> x in q'.audit && q'.audit[x].settled == q.audit[x].settled)
  }

  lemma CompleteSettles(q: State, e: R.Entry, now: nat, r: Resolved)
    requires Inv(q) && Holds(q, e.id, e.token)
    ensures SettledAs(q, Complete(q, e.id, e.token, now, r).0, e, ByComplete)
  {
    hide Finish, Inv;
    HeldIsLatest(q, e.id, e.token);
    var released := Settle(q, e.id, q.jobs[e.id], ByComplete);
    forall x | x in q.audit
      ensures SameRuns(released, Finish(released, e.id, CompletedIndex, now, r), x)
    {
      FinishSpares(released, e.id, CompletedIndex, now, r, x);
    }
  }

  lemma FailSettles(q: State, e: R.Entry, error: string, now: nat, r: Resolved)
    requires Inv(q) && Holds(q, e.id, e.token)
    ensures SettledAs(q, Fail(q, e.id, e.token, error, now, r).0, e, ByFail)
  {
    hide Finish, Inv;
    HeldIsLatest(q, e.id, e.token);
    var job := q.jobs[e.id].(failures := q.jobs[e.id].failures + 1, failureKind := Some(HandlerFailure),
                             failedReason := Some(error), lastError := Some(error), lastFailedAt := Some(now));
    var released := Settle(q, e.id, job, ByFail);
    forall x | x in q.audit
      ensures SameRuns(released, Finish(released, e.id, FailedIndex, now, r), x)
    {
      FinishSpares(released, e.id, FailedIndex, now, r, x);
    }
  }

  lemma RequeueSettles(q: State, e: R.Entry, reason: string, now: nat)
    requires Inv(q) && Holds(q, e.id, e.token)
    ensures SettledAs(q, Requeue(q, e.id, e.token, reason, now).0, e, ByRequeue)
  {
    hide Inv;
    HeldIsLatest(q, e.id, e.token);
  }

  /** What the end of a handler does to the queue. If it succeeded, its job's run is settled as completed and a
      kept hash is completed now; if it threw, the run is settled as a failure with that message, and the job
      waits again exactly when its retry budget allows. If the lease had ended before, nothing changes. */
  lemma HandlerOutcomeIsRecorded(y: System, m: Move)
    requires SystemSound(y) && m.AckRuns? && Enabled(y, m)
    ensures var q, q', e := y.q, QueueAfter(y, m), y.nodes[m.rid].r.inFlight[m.slot];
            if !Holds(q, e.id, e.token) then q' == q
            else match m.outcome
              case Succeeded =>
                && SettledAs(q, q', e, ByComplete)
                && (e.id in q'.jobs ==> q'.jobs[e.id].status.Completed? && q'.jobs[e.id].finishedAt == Some(m.now))
              case Threw(message) =>
                && SettledAs(q, q', e, ByFail)
                && (e.id in q'.waiting <==> q.jobs[e.id].failures + 1 <= q.jobs[e.id].maxRetries)
                && (e.id in q'.jobs ==>
                      && q'.jobs[e.id].failures == q.jobs[e.id].failures + 1
                      && q'.jobs[e.id].failedReason == Some(message) && q'.jobs[e.id].lastError == Some(message)
                      && q'.jobs[e.id].lastFailedAt == Some(m.now))
  {
    hide Complete, Fail, Inv, SettledAs;
    var q, e := y.q, y.nodes[m.rid].r.inFlight[m.slot];
    var message := if m.outcome.Threw? then m.outcome.message else "";
    if Holds(q, e.id, e.token) {
      CompleteSettles(q, e, m.now, m.retention);
      CompleteStores(q, e.id, e.token, m.now, m.retention, e.id);
      FailSettles(q, e, message, m.now, m.retention);
      FailStores(q, e.id, e.token, message, m.now, m.retention, e.id);
      FailEffect(q, e.id, e.token, message, m.now, m.retention);
      HeldNotWaiting(q, e.id, e.token);
    } else {
      DeadCallsChangeNothing(q, e.id, e.token, message, m.now, 0, m.retention);
    }
  }

  lemma HeldNotWaiting(q: State, id: Id, token: Token)
    requires Inv(q) && Holds(q, id, token)
    ensures id !in q.waiting
  {
    hide Inv;
    HeldIsLatest(q, id, token);
    ActiveNotWaiting(q, id);
  }

  /** What handing a job back does: its run is settled as requeued and it waits, or nothing changes. */
  lemma HandBackIsRecorded(y: System, m: Move)
    requires SystemSound(y) && m.RequeueRuns? && Enabled(y, m)
    ensures var q, q', e := y.q, QueueAfter(y, m), y.nodes[m.rid].handoff.pending[m.slot];
            if !Holds(q, e.id, e.token) then q' == q
            else
              && SettledAs(q, q', e, ByRequeue) && q'.waiting == [e.id] + q.waiting
              && e.id in q'.jobs && q'.jobs[e.id].status.Waiting?
              && q'.jobs[e.id].lastRequeuedAt == Some(m.now) && q'.jobs[e.id].lastRequeueReason == Some(m.reason)
  {
    hide Requeue, Inv, SettledAs;
    var q, e := y.q, y.nodes[m.rid].handoff.pending[m.slot];
    if Holds(q, e.id, e.token) {
      RequeueSettles(q, e, m.reason, m.now);
      RequeueStores(q, e.id, e.token, m.reason, m.now);
      RequeueEffect(q, e.id, e.token, m.reason, m.now);
    } else {
      DeadCallsChangeNothing(q, e.id, e.token, m.reason, m.now, 0, Resolved(Keep, -1, -1));
    }
  }

  /** What a runner's claim does: the queue leases as many jobs as the runner holds permits, if it can, from now
      for the lease the call names, and exactly these are in the reply on its way back. */
  lemma ClaimIsRecorded(y: System, m: Move)
    requires SystemSound(y) && m.ClaimRuns? && Enabled(y, m)
    ensures var n' := NodeAfter(y, m, m.rid);
            && n'.call.Replied?
            && |n'.call.reply| == Taking(y.q, y.nodes[m.rid].r.pc.n)
            && LeasedThese(y.q, QueueAfter(y, m), n'.call.reply, m.now, m.now + m.leaseMs)
  {
    hide Claim, Inv, LeasedThese;
    ClaimIsExact(y.q, y.nodes[m.rid].r.pc.n, m.now, m.leaseMs);
  }

  /** A claim call that threw and is executed after all does the same to the queue, for the size it was sent with. */
  lemma LateClaimIsRecorded(y: System, m: Move)
    requires SystemSound(y) && m.LateClaimRuns? && Enabled(y, m)
    ensures exists reply: seq<Claimed> ::
              && |reply| == Taking(y.q, y.nodes[m.rid].late[m.i])
              && LeasedThese(y.q, QueueAfter(y, m), reply, m.now, m.now + m.leaseMs)
              && NodeAfter(y, m, m.rid).owned == y.nodes[m.rid].owned + TokensIn(reply)
  {
    hide Claim, Inv, LeasedThese, TokensIn;
    var (q', reply) := Claim(y.q, y.nodes[m.rid].late[m.i], m.now, m.leaseMs);
    ClaimIsExact(y.q, y.nodes[m.rid].late[m.i], m.now, m.leaseMs);
    assert QueueAfter(y, m) == q' && LeasedThese(y.q, QueueAfter(y, m), reply, m.now, m.now + m.leaseMs);
  }

  // ---------------------------------------------------------------- every call is executed at most once

  /** Claim calls that have been sent and not been executed. */
  function Open(n: Node): nat {
    |n.late| + (if n.call.Sent? then 1 else 0)
  }

  /** The move sends a claim call. */
  predicate Sends(y: System, m: Move, rid: RunnerId)
    requires Enabled(y, m) && rid in y.nodes
  {
    !m.Elsewhere? && m.rid == rid && m.PermitReady? && NodeAfter(y, m, rid).call.Sent?
  }

  /** The move executes one. */
  predicate Executes(m: Move, rid: RunnerId) {
    (m.ClaimRuns? || m.LateClaimRuns?) && m.rid == rid
  }

  function AllSent(y: System, ms: seq<Move>, rid: RunnerId): nat
    requires AllEnabled(y, ms) && rid in y.nodes
    decreases |ms|
  {
    if ms == [] then 0 else (if Sends(y, ms[0], rid) then 1 else 0) + AllSent(Next(y, ms[0]), ms[1..], rid)
  }

  function AllExecuted(ms: seq<Move>, rid: RunnerId): nat {
    if ms == [] then 0 else (if Executes(ms[0], rid) then 1 else 0) + AllExecuted(ms[1..], rid)
  }

  lemma MoveConservesCalls(y: System, m: Move, rid: RunnerId)
    requires SystemSound(y) && Enabled(y, m) && rid in y.nodes
    ensures Open(NodeAfter(y, m, rid)) + (if Executes(m, rid) then 1 else 0)
         == Open(y.nodes[rid]) + (if Sends(y, m, rid) then 1 else 0)
  {
    hide Step, QueueAfter, Inv, R.Start, R.ClaimReturns, R.ClaimThrows, R.LoopTop, R.StopClaiming, R.PermitResumes,
         R.JobSettles, R.Wake, R.PollFires, R.SetProgress, Claim, TokensIn, Decoded, R.Permits;
    assert NodeSound(y.nodes[rid]);
  }

  /** Every claim call that was sent is executed at most once: it has been, or it is still open. */
  lemma {:induction false} ClaimCallsAreConserved(y: System, ms: seq<Move>, rid: RunnerId)
    requires SystemSound(y) && AllEnabled(y, ms) && rid in y.nodes
    ensures rid in After(y, ms).nodes
    ensures AllExecuted(ms, rid) + Open(After(y, ms).nodes[rid]) == AllSent(y, ms, rid) + Open(y.nodes[rid])
    decreases |ms|
  {
    hide SystemSound, Enabled, NodeAfter, QueueAfter, Sends, Executes, Open;
    if ms != [] {
      MoveConservesCalls(y, ms[0], rid);
      MoveKeepsSound(y, ms[0]);
      ClaimCallsAreConserved(Next(y, ms[0]), ms[1..], rid);
    }
  }
}
