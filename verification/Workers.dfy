/** Runners and queue together: any number of runners, the pub/sub messages on their way to them, and
    everybody else who runs scripts. */
module Workers {
  import opened Prelude
  import opened Retention
  import opened Jobs
  import opened Scripts
  import opened Invariant
  import opened Protocol
  import opened Batching
  import R = Runners
  import Q = Semaphores

  type RunnerId = nat

  /** The claim call of a runner: none, on its way, or executed with its reply on its way back. */
  datatype Call = NoCall | Sent | Replied(reply: seq<Claimed>)

  /** The requeue calls of forceRequeueInflight that have not been answered. */
  datatype Handoff = NotStarted | Requeueing(pending: map<nat, R.Entry>)

  /** A runner, its claim call, the sizes of earlier claim calls that threw and may yet reach the queue, the
      notifications on their way to it, every token ever issued to it, and how far its shutdown has come. */
  datatype Node = Node(
    r: R.Runner,
    call: Call,
    late: seq<nat>,
    mail: nat,
    owned: set<Token>,
    handoff: Handoff,
    draining: Option<set<nat>>)

  datatype System = System(q: State, nodes: map<RunnerId, Node>)

  /** What the worker does when the handler ends. */
  datatype Outcome = Succeeded | Threw(message: string)

  datatype Move =
    | Elsewhere(action: Action)                     // a script run by anyone else, or the loss of a hash
    | Starts(rid: RunnerId)
    | PermitReady(rid: RunnerId)
    | ClaimRuns(rid: RunnerId, now: nat, leaseMs: nat)
    | ClaimReturns(rid: RunnerId, undecodable: set<nat>)
    | ClaimThrows(rid: RunnerId)
    | LateClaimRuns(rid: RunnerId, i: nat, now: nat, leaseMs: nat)   // a claim call that threw is executed after all
    | LoopResumes(rid: RunnerId)
    | PollFires(rid: RunnerId)
    | Delivered(rid: RunnerId)                      // one notification reaches the runner
    | HandlerEnds(rid: RunnerId, slot: nat)
    | AckRuns(rid: RunnerId, slot: nat, outcome: Outcome, now: nat, retention: Resolved)
    | AckLost(rid: RunnerId, slot: nat)             // the acknowledgement call threw
    | JobSettles(rid: RunnerId, slot: nat)
    | StopClaiming(rid: RunnerId)
    | DrainInflight(rid: RunnerId)
    | ForceRequeue(rid: RunnerId)
    | RequeueRuns(rid: RunnerId, slot: nat, now: nat, reason: string)
    | RequeueLost(rid: RunnerId, slot: nat)         // a requeue call threw

  function Decoded(reply: seq<Claimed>, undecodable: set<nat>): seq<R.Received> {
    seq(|reply|, i requires 0 <= i < |reply| =>
      if reply[i].Job_? && i !in undecodable && reply[i].job.lockToken.Some?
      then R.Healthy(reply[i].id, reply[i].job.lockToken.value) else R.Unusable(reply[i].id))
  }

  function TokensIn(reply: seq<Claimed>): set<Token> {
    set i | 0 <= i < |reply| && reply[i].Job_? && reply[i].job.lockToken.Some? :: reply[i].job.lockToken.value
  }

  predicate InProgress(n: Node, slot: nat, p: R.Progress) {
    slot in n.r.inFlight && n.r.inFlight[slot].progress == p
  }

  /** Stopping is sequenced by the pool: claim loop gone, then drain, then hand-off. */
  predicate Enabled(y: System, m: Move) {
    match m
    case Elsewhere(a) => Legal(y.q, a)
    case _ =>
      m.rid in y.nodes &&
      var n := y.nodes[m.rid];
      match m
      case Starts(_) => n.r.phase == R.Idle
      case PermitReady(_) => n.r.pc.GotPermit?
      case ClaimRuns(_, _, _) => n.call.Sent? && n.r.pc.Claiming?
      case ClaimReturns(_, _) => n.call.Replied? && n.r.pc.Claiming?
      case ClaimThrows(_) => n.r.pc.Claiming?
      case LateClaimRuns(_, i, _, _) => i < |n.late|
      case LoopResumes(_) => n.r.pc.Woken? || n.r.pc.AcquireFailed?
      case Delivered(_) => n.mail > 0
      case HandlerEnds(_, slot) => InProgress(n, slot, R.Handling)
      case AckRuns(_, slot, _, _, _) => InProgress(n, slot, R.Acking)
      case AckLost(_, slot) => InProgress(n, slot, R.Acking)
      case JobSettles(_, slot) => InProgress(n, slot, R.Acked) || InProgress(n, slot, R.Unheard)
      case DrainInflight(_) => n.r.pc.Exited? && n.draining.None?
      case ForceRequeue(_) => n.r.pc.Exited? && n.handoff.NotStarted?
      case RequeueRuns(_, slot, _, _) => n.handoff.Requeueing? && slot in n.handoff.pending
      case RequeueLost(_, slot) => n.handoff.Requeueing? && slot in n.handoff.pending
      case _ => true
  }

  /** The script, if any, that the move runs on the queue. */
  function ScriptOf(y: System, m: Move): Option<Action>
    requires Enabled(y, m)
  {
    match m
    case Elsewhere(a) => Some(a)
    case ClaimRuns(rid, now, leaseMs) => Some(DoClaim(y.nodes[rid].r.pc.n, now, leaseMs))
    case LateClaimRuns(rid, i, now, leaseMs) => Some(DoClaim(y.nodes[rid].late[i], now, leaseMs))
    case AckRuns(rid, slot, outcome, now, r) =>
      var e := y.nodes[rid].r.inFlight[slot];
      Some(if outcome.Succeeded? then DoComplete(e.id, e.token, now, r)
           else DoFail(e.id, e.token, outcome.message, now, r))
    case RequeueRuns(rid, slot, now, reason) =>
      var e := y.nodes[rid].handoff.pending[slot];
      Some(DoRequeue(e.id, e.token, reason, now))
    case _ => None
  }

  /** What the move does to the runner it concerns; `q` is the queue before. */
  function Local(q: State, n: Node, m: Move): Node
    requires !m.Elsewhere? && Enabled(System(q, map[m.rid := n]), m)
  {
    match m
    case Starts(_) => n.(r := R.Start(n.r))
    case PermitReady(_) =>
      var r := R.PermitResumes(n.r);
      n.(r := r, call := if r.pc.Claiming? then Sent else NoCall)
    case ClaimRuns(_, now, leaseMs) =>
      var reply := Claim(q, n.r.pc.n, now, leaseMs).1;
      n.(call := Replied(reply), owned := n.owned + TokensIn(reply))
    case ClaimReturns(_, undecodable) =>
      n.(r := R.ClaimReturns(n.r, Decoded(n.call.reply, undecodable)), call := NoCall)
    case ClaimThrows(_) =>
      n.(r := R.ClaimThrows(n.r), call := NoCall, late := if n.call.Sent? then n.late + [n.r.pc.n] else n.late)
    case LateClaimRuns(_, i, now, leaseMs) =>
      n.(late := n.late[..i] + n.late[i + 1..], owned := n.owned + TokensIn(Claim(q, n.late[i], now, leaseMs).1))
    case LoopResumes(_) => n.(r := R.Next(n.r, R.LoopResumes))
    case PollFires(_) => n.(r := R.PollFires(n.r))
    case Delivered(_) => n.(r := R.Wake(n.r), mail := n.mail - 1)
    case HandlerEnds(_, slot) => n.(r := R.SetProgress(n.r, slot, R.Acking))
    case AckRuns(_, slot, _, _, _) => n.(r := R.SetProgress(n.r, slot, R.Acked))
    case AckLost(_, slot) => n.(r := R.SetProgress(n.r, slot, R.Unheard))
    case JobSettles(_, slot) => n.(r := R.JobSettles(n.r, slot))
    case StopClaiming(_) => n.(r := R.StopClaiming(n.r))
    case DrainInflight(_) => n.(draining := Some(n.r.inFlight.Keys))
    case ForceRequeue(_) => n.(handoff := Requeueing(n.r.inFlight))
    case RequeueRuns(_, slot, _, _) => n.(handoff := Requeueing(n.handoff.pending - {slot}))
    case RequeueLost(_, slot) => n.(handoff := Requeueing(n.handoff.pending - {slot}))
  }

  function QueueAfter(y: System, m: Move): State
    requires Enabled(y, m)
  {
    var a := ScriptOf(y, m);
    if a.Some? then Step(y.q, a.value) else y.q
  }

  /** Every message published by the step goes on its way to every runner. */
  function Mailed(n: Node, q: State, q': State): Node {
    n.(mail := n.mail + Max(0, |q'.published| - |q.published|))
  }

  function NodeAfter(y: System, m: Move, rid: RunnerId): Node
    requires Enabled(y, m) && rid in y.nodes
  {
    var n := y.nodes[rid];
    Mailed(if !m.Elsewhere? && m.rid == rid then Local(y.q, n, m) else n, y.q, QueueAfter(y, m))
  }

  function Next(y: System, m: Move): System
    requires Enabled(y, m)
  {
    System(QueueAfter(y, m), map rid | rid in y.nodes :: NodeAfter(y, m, rid))
  }

  predicate AllEnabled(y: System, ms: seq<Move>)
    decreases |ms|
  {
    ms == [] || (Enabled(y, ms[0]) && AllEnabled(Next(y, ms[0]), ms[1..]))
  }

  function After(y: System, ms: seq<Move>): System
    requires AllEnabled(y, ms)
    decreases |ms|
  {
    if ms == [] then y else After(Next(y, ms[0]), ms[1..])
  }

  function NewNode(concurrency: nat, cap: nat): Node {
    Node(R.NewRunner(concurrency, cap), NoCall, [], 0, {}, NotStarted, None)
  }

  /** A system before anything happened: a sound queue and runners that have not started. */
  ghost predicate Initial(y: System) {
    Inv(y.q) && forall rid :: rid in y.nodes ==>
      exists concurrency: nat, cap: nat :: concurrency >= 1 && cap >= 1 && y.nodes[rid] == NewNode(concurrency, cap)
  }

  // ---------------------------------------------------------------- permits and calls

  predicate NodeSound(n: Node) {
    R.Permits(n.r) && CallSound(n) && ShutdownSound(n)
  }

  ghost predicate SystemSound(y: System) {
    Inv(y.q) && forall rid :: rid in y.nodes ==> NodeSound(y.nodes[rid])
  }

  lemma InitialSound(y: System)
    requires Initial(y)
    ensures SystemSound(y)
  {
  }

  lemma ReplyFits(q: State, n: nat, now: nat, leaseMs: nat)
    ensures |Claim(q, n, now, leaseMs).1| <= n
  {
    ClaimManyPops(q, Allowance(q, n), now, now + leaseMs);
  }

  lemma PermitsKept(q: State, n: Node, m: Move)
    requires !m.Elsewhere? && Enabled(System(q, map[m.rid := n]), m) && NodeSound(n)
    ensures R.Permits(Local(q, n, m).r)
  {
    hide R.Permits, R.Start, R.PermitResumes, R.ClaimReturns, R.ClaimThrows, R.LoopTop, R.StopClaiming, R.JobSettles,
         R.Wake, R.PollFires, R.SetProgress, Claim;
    match m
    case Starts(_) => R.EventKeepsPermits(n.r, R.Starts);
    case PermitReady(_) => R.EventKeepsPermits(n.r, R.PermitReady);
    case ClaimReturns(_, undecodable) => R.EventKeepsPermits(n.r, R.Replies(Decoded(n.call.reply, undecodable)));
    case ClaimThrows(_) => R.EventKeepsPermits(n.r, R.Throws);
    case LoopResumes(_) => R.EventKeepsPermits(n.r, R.LoopResumes);
    case PollFires(_) => R.EventKeepsPermits(n.r, R.Polls);
    case Delivered(_) => R.EventKeepsPermits(n.r, R.Notified);
    case HandlerEnds(_, slot) => R.EventKeepsPermits(n.r, R.Progresses(slot, R.Acking));
    case AckRuns(_, slot, _, _, _) => R.EventKeepsPermits(n.r, R.Progresses(slot, R.Acked));
    case AckLost(_, slot) => R.EventKeepsPermits(n.r, R.Progresses(slot, R.Unheard));
    case JobSettles(_, slot) => R.EventKeepsPermits(n.r, R.Finishes(slot));
    case StopClaiming(_) => R.EventKeepsPermits(n.r, R.StopRequested);
    case _ =>
  }

  /** A claim call is out exactly while the loop waits for it, and never returns more than was asked. */
  predicate CallSound(n: Node) {
    && (!n.call.NoCall? <==> n.r.pc.Claiming?)
    && (n.call.Replied? ==> |n.call.reply| <= n.r.pc.n)
  }

  lemma CallKept(q: State, n: Node, m: Move)
    requires !m.Elsewhere? && Enabled(System(q, map[m.rid := n]), m) && R.Permits(n.r) && CallSound(n)
    ensures CallSound(Local(q, n, m))
  {
    hide R.Permits, R.Start, R.PermitResumes, R.ClaimReturns, R.ClaimThrows, R.LoopTop, R.StopClaiming, R.JobSettles,
         R.Wake, R.PollFires, Claim;
    match m
    case Starts(_) => PcAfter(n.r); IdleNotStarted(n.r);
    case PermitReady(_) => PcAfter(n.r);
    case ClaimRuns(_, now, leaseMs) => ReplyFits(q, n.r.pc.n, now, leaseMs);
    case ClaimReturns(_, undecodable) => PcAfterReply(n.r, Decoded(n.call.reply, undecodable));
    case ClaimThrows(_) => PcAfterThrow(n.r);
    case LoopResumes(_) => PcAfter(n.r);
    case PollFires(_) => PcAfterWake(n.r);
    case Delivered(_) => PcAfterWake(n.r);
    case JobSettles(_, slot) => PcAfterRelease(n.r, slot);
    case StopClaiming(_) => PcAfterStop(n.r);
    case _ =>
  }

  /** Shutdown goes on only after the loop has exited, and a drain's snapshot covers what is left. */
  predicate ShutdownSound(n: Node) {
    && (n.handoff.Requeueing? || n.draining.Some? ==> n.r.pc.Exited?)
    && (n.draining.Some? ==> n.r.inFlight.Keys <= n.draining.value)
  }

  lemma ShutdownKept(q: State, n: Node, m: Move)
    requires !m.Elsewhere? && Enabled(System(q, map[m.rid := n]), m) && R.Permits(n.r) && ShutdownSound(n)
    ensures ShutdownSound(Local(q, n, m))
  {
  }

  lemma LocalKeepsSound(q: State, n: Node, m: Move)
    requires !m.Elsewhere? && Enabled(System(q, map[m.rid := n]), m) && NodeSound(n)
    ensures NodeSound(Local(q, n, m))
  {
    hide R.Permits, CallSound, ShutdownSound, Local, Enabled;
    PermitsKept(q, n, m);
    CallKept(q, n, m);
    ShutdownKept(q, n, m);
  }

  // Where the loop can be after each kind of event.

  lemma PcAfter(r: R.Runner)
    ensures !R.Start(r).pc.Claiming? && !R.LoopTop(r).pc.Claiming?
    ensures R.PermitResumes(r).pc.Claiming? || R.PermitResumes(r).pc.Exited?
    ensures R.Start(r).inFlight == r.inFlight && R.PermitResumes(r).inFlight == r.inFlight
    ensures R.LoopTop(r).inFlight == r.inFlight
  {
  }

  lemma PcAfterWake(r: R.Runner)
    requires R.Permits(r)
    ensures R.Wake(r).pc.Claiming? <==> r.pc.Claiming?
    ensures R.PollFires(r).pc.Claiming? <==> r.pc.Claiming?
    ensures r.pc.Claiming? ==> R.Wake(r).pc == r.pc && R.PollFires(r).pc == r.pc
    ensures !R.Wake(r).pc.Parked? && !R.PollFires(r).pc.Parked?
    ensures r.pc.Claiming? ==> R.Wake(r).wakePending
    ensures R.PollFires(r).wakePending == r.wakePending
    ensures R.Wake(r).inFlight == r.inFlight && R.PollFires(r).inFlight == r.inFlight
  {
  }

  lemma IdleNotStarted(r: R.Runner)
    requires R.Permits(r) && r.phase == R.Idle
    ensures r.pc.NotStarted?
  {
  }

  lemma {:induction false} ReleaseFrame(r: R.Runner, count: int)
    ensures var d := R.ReleasePermits(r, count);
            && d.inFlight == r.inFlight && d.wakePending == r.wakePending && d.phase == r.phase
            && (d.pc == r.pc || d.pc.GotPermit?)
    decreases Max(0, count)
  {
    if count > 0 {
      ReleaseFrame(R.ReleaseOne(r), count - 1);
    }
  }

  lemma PcAfterReply(r: R.Runner, es: seq<R.Received>)
    requires r.pc.Claiming?
    ensures !R.ClaimReturns(r, es).pc.Claiming?
    ensures es != [] ==> !R.ClaimReturns(r, es).pc.Parked?
    ensures es == [] ==> (R.ClaimReturns(r, es).pc.Parked? <==> !r.wakePending)
    ensures R.ClaimReturns(r, es).inFlight == R.DispatchAll(r, es).inFlight
  {
    ReleaseFrame(r, r.pc.n);
    ReleaseFrame(R.DispatchAll(r, es), r.pc.n - |es|);
  }

  lemma PcAfterThrow(r: R.Runner)
    requires r.pc.Claiming?
    ensures !R.ClaimThrows(r).pc.Claiming? && R.ClaimThrows(r).inFlight == r.inFlight
    ensures R.ClaimThrows(r).pc.Parked? <==> !r.wakePending
  {
    ReleaseFrame(r, r.pc.n);
  }

  lemma PcAfterRelease(r: R.Runner, slot: nat)
    requires R.Permits(r)
    ensures R.JobSettles(r, slot).pc.Claiming? <==> r.pc.Claiming?
    ensures r.pc.Claiming? ==> R.JobSettles(r, slot).pc == r.pc
    ensures R.JobSettles(r, slot).pc.Parked? ==> r.pc.Parked?
    ensures R.JobSettles(r, slot).wakePending == r.wakePending
    ensures R.JobSettles(r, slot).inFlight == r.inFlight - {slot}
  {
  }

  lemma PcAfterStop(r: R.Runner)
    requires R.Permits(r)
    ensures R.StopClaiming(r).pc.Claiming? <==> r.pc.Claiming?
    ensures r.pc.Claiming? ==> R.StopClaiming(r).pc == r.pc
    ensures R.StopClaiming(r).pc.Parked? ==> r.pc.Parked?
    ensures r.wakePending ==> R.StopClaiming(r).wakePending
    ensures R.StopClaiming(r).inFlight == r.inFlight
  {
  }

  lemma QueueStaysSound(y: System, m: Move)
    requires Inv(y.q) && Enabled(y, m)
    ensures Inv(QueueAfter(y, m)) && Evolves(y.q, QueueAfter(y, m))
  {
    hide Inv, Evolves, Step;
    var a := ScriptOf(y, m);
    if a.Some? {
      StepKeeps(y.q, a.value);
    } else {
      RunKeeps(y.q, []);
    }
  }

  /** In every reachable system, at every await of every runner, permits are conserved, whatever calls
      fail, whatever replies are empty, partial, corrupt or undecodable, whenever it is stopped. */
  lemma MoveKeepsSound(y: System, m: Move)
    requires SystemSound(y) && Enabled(y, m)
    ensures SystemSound(Next(y, m))
  {
    hide Local, NodeSound, Inv, QueueAfter;
    QueueStaysSound(y, m);
    var y' := Next(y, m);
    forall rid | rid in y'.nodes
      ensures NodeSound(y'.nodes[rid])
    {
      var n := y.nodes[rid];
      if !m.Elsewhere? && m.rid == rid {
        EnabledAlone(y, m);
        LocalKeepsSound(y.q, n, m);
        MailedSound(Local(y.q, n, m), y.q, QueueAfter(y, m));
      } else {
        MailedSound(n, y.q, QueueAfter(y, m));
      }
    }
  }

  lemma EnabledAlone(y: System, m: Move)
    requires Enabled(y, m) && !m.Elsewhere?
    ensures Enabled(System(y.q, map[m.rid := y.nodes[m.rid]]), m)
  {
  }

  lemma MailedSound(n: Node, q: State, q': State)
    requires NodeSound(n)
    ensures NodeSound(Mailed(n, q, q'))
  {
  }

  lemma {:induction false} SoundForever(y: System, ms: seq<Move>)
    requires SystemSound(y) && AllEnabled(y, ms)
    ensures SystemSound(After(y, ms))
    decreases |ms|
  {
    hide SystemSound, Enabled, Next;
    if ms != [] {
      MoveKeepsSound(y, ms[0]);
      SoundForever(Next(y, ms[0]), ms[1..]);
    }
  }

  // ---------------------------------------------------------------- a small system, for the examples

  /** Runner 7, alone, with one permit, about to start. */
  function Alone(q: State): System {
    System(q, map[7 := NewNode(1, 1)])
  }

  /** The same runner with its first claim call on the way. */
  function Asking(q: State): System {
    System(q, map[7 := Node(R.Runner(Q.Sem.Sem(1, 1, []), 1, R.Running, false, R.Claiming(1), false, false, map[], 0),
                            Sent, [], 0, {}, NotStarted, None)])
  }

  lemma StartsAsking(q: State, rest: seq<Move>)
    requires AllEnabled(Asking(q), rest)
    ensures AllEnabled(Alone(q), [Starts(7), PermitReady(7)] + rest)
    ensures After(Alone(q), [Starts(7), PermitReady(7)] + rest) == After(Asking(q), rest)
  {
    hide AllEnabled, After;
    var y := Next(Alone(q), Starts(7));
    assert Next(y, PermitReady(7)) == Asking(q);
    MovesCons(y, PermitReady(7), rest);
    MovesCons(Alone(q), Starts(7), [PermitReady(7)] + rest);
    assert [Starts(7)] + ([PermitReady(7)] + rest) == [Starts(7), PermitReady(7)] + rest;
  }

  lemma MovesCons(y: System, m: Move, ms: seq<Move>)
    requires Enabled(y, m) && AllEnabled(Next(y, m), ms)
    ensures AllEnabled(y, [m] + ms) && After(y, [m] + ms) == After(Next(y, m), ms)
  {
    hide Enabled, Next;
    assert ([m] + ms)[1..] == ms;
  }

  lemma NoMoves(y: System)
    ensures AllEnabled(y, []) && After(y, []) == y
  {
  }

  lemma AloneInitial(acts: seq<Action>)
    requires LegalRun(EMPTY, acts)
    ensures Initial(Alone(Run(EMPTY, acts)))
  {
    EmptyHolds();
    RunKeeps(EMPTY, acts);
    assert Alone(Run(EMPTY, acts)).nodes[7] == NewNode(1, 1);
  }

  lemma OneQueued(acts: seq<Action>)
    requires acts == [DoEnqueue(1, "", 0, 0, 0)]
    ensures LegalRun(EMPTY, acts) && Run(EMPTY, acts) == Step(EMPTY, acts[0])
    ensures var q := Run(EMPTY, acts); q.waiting == [1] && 1 in q.jobs && q.concurrency.limit.None?
  {
    RunCons(EMPTY, acts[0], []);
    assert [acts[0]] + [] == acts;
  }
}
