/** End to end: a parked runner with no notification on its way has nothing to claim. */
module LostWakeups {
  import opened Prelude
  import opened Scripts
  import opened Invariant
  import opened Protocol
  import opened Batching
  import opened Wakeups
  import opened Workers

  /** If nothing is on its way to the runner, then being parked, or being about to park after an empty
      reply, means that the queue is not claimable. */
  predicate Informed(q: State, n: Node) {
    n.mail == 0 ==>
      && (n.r.pc.Parked? ==> !Claimable(q))
      && (n.call == Replied([]) && !n.r.wakePending ==> !Claimable(q))
  }

  /** The moves that leave the runner waiting in vain: nothing is on its way to it, and either somebody
      raises an exhausted limit while it is parked or about to park, or its own claim call fails, with no
      wake-up pending, while there is something to claim. */
  predicate Strands(y: System, m: Move, rid: RunnerId)
    requires Enabled(y, m) && rid in y.nodes
  {
    var n := y.nodes[rid];
    n.mail == 0
    && ((m.Elsewhere? && SilentRaise(y.q, m.action)
         && (n.r.pc.Parked? || (n.call == Replied([]) && !n.r.wakePending)))
        || (m.ClaimThrows? && m.rid == rid && !n.r.wakePending && Claimable(y.q)))
  }

  /** What ends a stranding: the poll timer of the parked runner, or any notification that reaches it. */
  predicate Heals(y: System, m: Move, rid: RunnerId)
    requires Enabled(y, m) && rid in y.nodes
  {
    !m.Elsewhere? && m.rid == rid && (m.Delivered? || (m.PollFires? && y.nodes[rid].r.pc.Parked?))
  }

  /** Whether the run leaves the runner stranded: some move strands it, and no later one heals it. */
  predicate Stranded(y: System, ms: seq<Move>, rid: RunnerId, before: bool)
    requires AllEnabled(y, ms) && rid in y.nodes
    decreases |ms|
  {
    if ms == [] then before
    else Stranded(Next(y, ms[0]), ms[1..], rid, Strands(y, ms[0], rid) || (before && !Heals(y, ms[0], rid)))
  }

  lemma QueueAnnounces(y: System, m: Move)
    requires Enabled(y, m) && !(m.Elsewhere? && SilentRaise(y.q, m.action))
    ensures Announced(y.q, QueueAfter(y, m))
  {
    hide Step;
    var a := ScriptOf(y, m);
    if a.Some? {
      StepIsAnnounced(y.q, a.value);
    }
  }

  /** The step as the runner itself sees it, before new mail is counted. */
  lemma LocalStaysInformed(q: State, n: Node, m: Move, q': State)
    requires !m.Elsewhere? && Enabled(System(q, map[m.rid := n]), m) && !m.ClaimThrows?
    requires NodeSound(n) && Informed(q, n)
    requires q' == QueueAfter(System(q, map[m.rid := n]), m) && (Claimable(q') ==> Claimable(q))
    ensures Informed(q', Local(q, n, m))
  {
    hide R.Permits, R.Start, R.PermitResumes, R.ClaimReturns, R.LoopTop, R.StopClaiming, R.JobSettles,
         R.Wake, R.PollFires, Claim, Claimable, ShutdownSound;
    match m
    case Starts(_) => PcAfter(n.r); StartNotParked(n.r); IdleNotStarted(n.r);
    case PermitReady(_) => PcAfter(n.r);
    case ClaimRuns(_, now, leaseMs) => ClaimingAsks(n.r); EmptyReplyMeansBlocked(q, n.r.pc.n, now, leaseMs);
    case ClaimReturns(_, undecodable) => PcAfterReply(n.r, Decoded(n.call.reply, undecodable));
    case LoopResumes(_) => PcAfter(n.r); StartNotParked(n.r);
    case PollFires(_) => PcAfterWake(n.r);
    case Delivered(_) => PcAfterWake(n.r);
    case JobSettles(_, slot) => PcAfterRelease(n.r, slot);
    case StopClaiming(_) => PcAfterStop(n.r);
    case _ =>
  }

  lemma StartNotParked(r: R.Runner)
    ensures !R.Start(r).pc.Parked? && !R.LoopTop(r).pc.Parked?
  {
  }

  lemma ClaimingAsks(r: R.Runner)
    requires R.Permits(r) && r.pc.Claiming?
    ensures r.pc.n >= 1
  {
  }

  lemma MailKeepsInformed(n: Node, q: State, q': State)
    requires Announced(q, q') && Informed(if Claimable(q') && !Claimable(q) then q else q', n)
    ensures Informed(q', Mailed(n, q, q'))
  {
  }

  /** One move leaves the runner informed exactly when it does not strand it. */
  lemma InformedUnlessStranded(y: System, m: Move, rid: RunnerId)
    requires SystemSound(y) && Enabled(y, m) && rid in y.nodes && Informed(y.q, y.nodes[rid])
    ensures Informed(QueueAfter(y, m), NodeAfter(y, m, rid)) <==> !Strands(y, m, rid)
  {
    hide Inv, NodeSound, Local;
    if m.Elsewhere? && SilentRaise(y.q, m.action) {
      RaiseInforms(y, m, rid);
    } else if m.ClaimThrows? && m.rid == rid {
      ThrowInforms(y, m);
    } else {
      OthersInform(y, m, rid);
    }
  }

  lemma RaiseInforms(y: System, m: Move, rid: RunnerId)
    requires m.Elsewhere? && SilentRaise(y.q, m.action) && Enabled(y, m) && rid in y.nodes
    ensures NodeAfter(y, m, rid) == y.nodes[rid] && Claimable(QueueAfter(y, m))
  {
  }

  lemma ThrowInforms(y: System, m: Move)
    requires m.ClaimThrows? && Enabled(y, m) && SystemSound(y)
    ensures QueueAfter(y, m) == y.q
    ensures var n, n' := y.nodes[m.rid], NodeAfter(y, m, m.rid);
            n'.mail == n.mail && n'.call.NoCall? && (n'.r.pc.Parked? <==> !n.r.wakePending)
    ensures !y.nodes[m.rid].r.pc.Parked?
  {
    hide R.ClaimThrows;
    PcAfterThrow(y.nodes[m.rid].r);
  }

  lemma OthersInform(y: System, m: Move, rid: RunnerId)
    requires SystemSound(y) && Enabled(y, m) && rid in y.nodes && Informed(y.q, y.nodes[rid])
    requires !(m.Elsewhere? && SilentRaise(y.q, m.action)) && !(m.ClaimThrows? && m.rid == rid)
    ensures Informed(QueueAfter(y, m), NodeAfter(y, m, rid))
  {
    hide Local, Inv, NodeSound, Claimable, SilentRaise;
    var n, q' := y.nodes[rid], QueueAfter(y, m);
    QueueAnnounces(y, m);
    if !m.Elsewhere? && m.rid == rid {
      EnabledAlone(y, m);
      SameScript(y, m);
      if Claimable(q') && !Claimable(y.q) {
        GrownMail(Local(y.q, n, m), y.q, q');
      } else {
        LocalStaysInformed(y.q, n, m, q');
        MailKeepsInformed(Local(y.q, n, m), y.q, q');
      }
    } else {
      MailKeepsInformed(n, y.q, q');
    }
  }

  lemma SameScript(y: System, m: Move)
    requires Enabled(y, m) && !m.Elsewhere?
    ensures Enabled(System(y.q, map[m.rid := y.nodes[m.rid]]), m)
    ensures QueueAfter(System(y.q, map[m.rid := y.nodes[m.rid]]), m) == QueueAfter(y, m)
  {
  }

  lemma GrownMail(n: Node, q: State, q': State)
    requires Announced(q, q') && Claimable(q') && !Claimable(q)
    ensures Informed(q', Mailed(n, q, q'))
  {
  }

  /** At every moment of every run: if the runner is parked, no notification is on its way to it and it is
      not stranded, there is nothing to claim. A stranding lasts at most until the next poll or notification. */
  lemma {:induction false} NoLostWakeup(y: System, ms: seq<Move>, rid: RunnerId, before: bool)
    requires SystemSound(y) && AllEnabled(y, ms) && rid in y.nodes
    requires before || Informed(y.q, y.nodes[rid])
    ensures var y' := After(y, ms);
            && rid in y'.nodes
            && (!Stranded(y, ms, rid, before) ==> Informed(y'.q, y'.nodes[rid]))
            && (y'.nodes[rid].r.pc.Parked? && y'.nodes[rid].mail == 0 && !Stranded(y, ms, rid, before) ==>
                  !Claimable(y'.q))
    decreases |ms|
  {
    hide SystemSound, Enabled, NodeAfter, QueueAfter, Strands, Heals, Claimable;
    if ms != [] {
      var m := ms[0];
      if Informed(y.q, y.nodes[rid]) {
        InformedUnlessStranded(y, m, rid);
      } else if Heals(y, m, rid) {
        HealingInforms(y, m, rid);
      }
      MoveKeepsSound(y, m);
      NoLostWakeup(Next(y, m), ms[1..], rid, Strands(y, m, rid) || (before && !Heals(y, m, rid)));
    }
  }

  lemma HealingInforms(y: System, m: Move, rid: RunnerId)
    requires SystemSound(y) && Enabled(y, m) && rid in y.nodes && Heals(y, m, rid)
    ensures Informed(QueueAfter(y, m), NodeAfter(y, m, rid))
  {
    hide R.Wake, R.PollFires, Claimable;
    assert NodeSound(y.nodes[rid]);
    PollRestores(y.q, y.nodes[rid]);
  }

  /** Right after the poll timer of a parked runner has fired, or a notification has reached a runner, it is
      informed. */
  lemma PollRestores(q: State, n: Node)
    requires NodeSound(n)
    ensures n.r.pc.Parked? ==> Informed(q, n.(r := R.PollFires(n.r)))
    ensures n.mail > 0 ==> Informed(q, n.(r := R.Wake(n.r), mail := n.mail - 1))
  {
    PcAfterWake(n.r);
  }

  /** A runner that has not started is informed, so the theorem holds from every initial system. */
  lemma InitialInformed(y: System, rid: RunnerId)
    requires Initial(y) && rid in y.nodes
    ensures SystemSound(y) && Informed(y.q, y.nodes[rid])
  {
  }

  // ---------------------------------------------------------------- every message arrives

  function Deliveries(ms: seq<Move>, rid: RunnerId): nat {
    if ms == [] then 0 else (if ms[0].Delivered? && ms[0].rid == rid then 1 else 0) + Deliveries(ms[1..], rid)
  }

  lemma QueueGrows(y: System, m: Move)
    requires Enabled(y, m)
    ensures |QueueAfter(y, m).published| >= |y.q.published|
  {
    hide Step;
    var a := ScriptOf(y, m);
    if a.Some? {
      ChannelIsExact(y.q, a.value);
    }
  }

  lemma MoveDelivers(y: System, m: Move, rid: RunnerId)
    requires Enabled(y, m) && rid in y.nodes
    ensures NodeAfter(y, m, rid).mail + (if m.Delivered? && m.rid == rid then 1 else 0) + |y.q.published|
         == y.nodes[rid].mail + |QueueAfter(y, m).published|
  {
    hide Step, QueueAfter, R.Start, R.PermitResumes, R.ClaimReturns, R.ClaimThrows, R.LoopTop, R.StopClaiming,
         R.JobSettles, R.Wake, R.PollFires, R.SetProgress, Claim, TokensIn, Decoded;
    QueueGrows(y, m);
  }

  /** Every message published while a runner is there is delivered to it once or still on its way, neither lost
      nor doubled. */
  lemma {:induction false} MessagesAreConserved(y: System, ms: seq<Move>, rid: RunnerId)
    requires AllEnabled(y, ms) && rid in y.nodes
    ensures var y' := After(y, ms);
            && rid in y'.nodes
            && y'.nodes[rid].mail + Deliveries(ms, rid) + |y.q.published| == y.nodes[rid].mail + |y'.q.published|
    decreases |ms|
  {
    hide Enabled, NodeAfter, QueueAfter;
    if ms != [] {
      MoveDelivers(y, ms[0], rid);
      MessagesAreConserved(Next(y, ms[0]), ms[1..], rid);
    }
  }

  // ---------------------------------------------------------------- both ways of stranding happen

  /** Asked for a job, got nothing, parked, and nothing is on its way. */
  function Idle(q: State): System {
    System(q, map[7 := Node(R.Runner(Q.Sem.Sem(1, 0, []), 1, R.Running, false, R.Parked, true, false, map[], 0),
                            NoCall, [], 0, {}, NotStarted, None)])
  }

  lemma AsksInVain(q: State)
    requires !Claimable(q)
    ensures var ms := [Starts(7), PermitReady(7), ClaimRuns(7, 0, 5), ClaimReturns(7, {})];
            AllEnabled(Alone(q), ms) && After(Alone(q), ms) == Idle(q)
  {
    hide AllEnabled, After, Claimable, Claim;
    var m1, m2 := ClaimRuns(7, 0, 5), ClaimReturns(7, {});
    var y := Next(Asking(q), m1);
    EmptyReply(q);
    ParksAfterNothing(q);
    assert [m1] + [m2] == [m1, m2] && [m2] + [] == [m2];
    NoMoves(Idle(q));
    MovesCons(y, m2, []);
    MovesCons(Asking(q), m1, [m2]);
    StartsAsking(q, [m1, m2]);
    assert [Starts(7), PermitReady(7)] + [m1, m2] == [Starts(7), PermitReady(7), m1, m2];
  }

  /** Its claim call has come back empty. */
  function Refused(q: State): System {
    System(q, map[7 := Asking(q).nodes[7].(call := Replied([]))])
  }

  lemma EmptyReply(q: State)
    requires !Claimable(q)
    ensures Enabled(Asking(q), ClaimRuns(7, 0, 5)) && Next(Asking(q), ClaimRuns(7, 0, 5)) == Refused(q)
  {
    hide Claimable, Claim;
    EmptyReplyMeansBlocked(q, 1, 0, 5);
    assert TokensIn([]) == {};
    assert QueueAfter(Asking(q), ClaimRuns(7, 0, 5)) == q;
    assert NodeAfter(Asking(q), ClaimRuns(7, 0, 5), 7) == Refused(q).nodes[7];
  }

  lemma ParksAfterNothing(q: State)
    ensures Enabled(Refused(q), ClaimReturns(7, {})) && Next(Refused(q), ClaimReturns(7, {})) == Idle(q)
  {
    var r := Refused(q).nodes[7].r;
    assert Decoded([], {}) == [];
    assert R.ReleasePermits(R.ReleaseOne(r), 0) == R.ReleaseOne(r);
    assert R.ReleasePermits(r, 1) == r.(sem := Q.Sem.Sem(1, 0, []));
    assert NodeAfter(Refused(q), ClaimReturns(7, {}), 7) == Idle(q).nodes[7];
  }

  /** From an ordinary queue and a new runner: the limit of 1 is used up by somebody else and a second job
      waits; the runner asks, gets nothing and parks; then the limit is raised to 2. */
  lemma RaiseStrandsAParkedRunner() returns (acts: seq<Action>, ms: seq<Move>, m: Move)
    ensures LegalRun(EMPTY, acts)
    ensures var y := Alone(Run(EMPTY, acts));
            && Initial(y) && AllEnabled(y, ms)
            && var y' := After(y, ms);
            && m == Elsewhere(DoDeclare(2, 2)) && Enabled(y', m) && 7 in y'.nodes
            && Informed(y'.q, y'.nodes[7]) && Strands(y', m, 7)
            && var n := NodeAfter(y', m, 7);
            n.r.pc.Parked? && n.mail == 0 && Claimable(QueueAfter(y', m))
  {
    hide LegalRun, Run, AllEnabled, After, Initial, Inv, Claimable, Informed;
    acts := [DoDeclare(1, 1), DoEnqueue(2, "", 0, 0, 0), DoClaim(1, 0, 5), DoEnqueue(1, "", 0, 0, 0)];
    ms := [Starts(7), PermitReady(7), ClaimRuns(7, 0, 5), ClaimReturns(7, {})];
    m := Elsewhere(DoDeclare(2, 2));
    BlockedQueue(acts);
    AsksInVain(Run(EMPTY, acts));
    AloneInitial(acts);
    RaiseStrands(Run(EMPTY, acts));
  }

  lemma RaiseStrands(q: State)
    requires !Claimable(q) && q.waiting == [1] && |q.active| == 1 && q.concurrency == Concurrency(Some(1), Some(1))
    ensures var y, m := Idle(q), Elsewhere(DoDeclare(2, 2));
            && Enabled(y, m) && Informed(q, y.nodes[7]) && Strands(y, m, 7)
            && NodeAfter(y, m, 7) == y.nodes[7] && Claimable(QueueAfter(y, m))
  {
  }

  lemma BlockedQueue(acts: seq<Action>)
    requires acts == [DoDeclare(1, 1), DoEnqueue(2, "", 0, 0, 0), DoClaim(1, 0, 5), DoEnqueue(1, "", 0, 0, 0)]
    ensures LegalRun(EMPTY, acts)
    ensures var q := Run(EMPTY, acts);
            !Claimable(q) && q.waiting == [1] && |q.active| == 1 && q.concurrency == Concurrency(Some(1), Some(1))
  {
    hide LegalRun, Run, Step, Legal;
    var a, b, c, d := acts[0], acts[1], acts[2], acts[3];
    var s2 := Step(Step(EMPTY, a), b);
    var s3 := Step(s2, c);
    RunCons(s3, d, []);
    RunCons(s2, c, [d]);
    RunCons(Step(EMPTY, a), b, [c, d]);
    RunCons(EMPTY, a, [b, c, d]);
    assert [d] + [] == [d] && [c] + [d] == [c, d] && [b] + [c, d] == [b, c, d] && [a] + [b, c, d] == acts;
    LimitUsedUp(acts);
  }

  lemma LimitUsedUp(acts: seq<Action>)
    requires acts == [DoDeclare(1, 1), DoEnqueue(2, "", 0, 0, 0), DoClaim(1, 0, 5), DoEnqueue(1, "", 0, 0, 0)]
    ensures var s1 := Step(EMPTY, acts[0]); var s2 := Step(s1, acts[1]); var s3 := Step(s2, acts[2]);
            var q := Step(s3, acts[3]);
            && Legal(EMPTY, acts[0]) && Legal(s1, acts[1]) && Legal(s2, acts[2]) && Legal(s3, acts[3])
            && !Claimable(q) && q.waiting == [1] && |q.active| == 1 && q.concurrency == Concurrency(Some(1), Some(1))
  {
    hide ClaimMany;
    var s2 := Step(Step(EMPTY, acts[0]), acts[1]);
    assert s2.waiting == [2] && s2.active == map[] && 2 in s2.jobs;
    ClaimUnfold(s2, 1, 0, 5);
    ClaimUnfold(ClaimOne(s2, 0, 5).0, 0, 0, 5);
    assert ClaimOne(s2, 0, 5).0.active == map[2 := 5];
  }

  /** A claim call that fails while a job waits leaves the runner parked beside it. */
  lemma FailedClaimStrandsItsRunner() returns (acts: seq<Action>, ms: seq<Move>, m: Move)
    ensures LegalRun(EMPTY, acts)
    ensures var y := Alone(Run(EMPTY, acts));
            && Initial(y) && AllEnabled(y, ms)
            && var y' := After(y, ms);
            && m == ClaimThrows(7) && Enabled(y', m) && 7 in y'.nodes
            && Informed(y'.q, y'.nodes[7]) && Strands(y', m, 7)
            && var n := NodeAfter(y', m, 7);
            n.r.pc.Parked? && n.mail == 0 && Claimable(QueueAfter(y', m))
  {
    hide LegalRun, Run, AllEnabled, After, Initial, Inv;
    acts, ms, m := [DoEnqueue(1, "", 0, 0, 0)], [Starts(7), PermitReady(7)], ClaimThrows(7);
    OneQueued(acts);
    AloneInitial(acts);
    var q := Run(EMPTY, acts);
    NoMoves(Asking(q));
    StartsAsking(q, []);
    assert ms + [] == ms;
    ThrowStrands(q);
  }

  lemma ThrowStrands(q: State)
    requires Claimable(q)
    ensures var y, m := Asking(q), ClaimThrows(7);
            && Enabled(y, m) && Informed(q, y.nodes[7]) && Strands(y, m, 7)
            && QueueAfter(y, m) == q && NodeAfter(y, m, 7).mail == 0 && NodeAfter(y, m, 7).r.pc.Parked?
  {
    hide R.ClaimThrows, Claimable;
    PcAfterThrow(Asking(q).nodes[7].r);
  }
}
