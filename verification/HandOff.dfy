/** Shutdown: what is still leased to a runner after its hand-off is exactly what it lost on the way, and the
    ways of losing a lease are five kinds of failed call. */
module HandOff {
  import opened Retention
  import opened Jobs
  import opened Scripts
  import opened Invariant
  import opened Protocol
  import opened Finishing
  import opened Batching
  import opened Tokens
  import opened Wakeups
  import opened Workers
  import opened Ownership

  /** The tokens the runner still has to end: those in a slot or in a reply on its way and, once it hands
      its jobs back, those whose requeue call has not been answered. */
  function InHand(n: Node): set<Token> {
    match n.handoff
    case NotStarted => TokensOf(n.r.inFlight) + (if n.call.Replied? then TokensIn(n.call.reply) else {})
    case Requeueing(pending) => TokensOf(pending)
  }

  /** The tokens that a failure takes out of the runner's hands or keeps from them: a claim call threw although
      the claim was made; claimed hashes did not decode; a claim call that threw was executed later; a job
      settled, with no requeue to follow, after its acknowledgement threw; a requeue call threw. */
  function Dropped(q: State, n: Node, m: Move): set<Token>
    requires !m.Elsewhere? && Enabled(System(q, map[m.rid := n]), m)
  {
    match m
    case ClaimThrows(_) => if n.call.Replied? then TokensIn(n.call.reply) else {}
    case ClaimReturns(_, undecodable) => Undecoded(n.call.reply, undecodable)
    case LateClaimRuns(_, i, now, leaseMs) => TokensIn(Claim(q, n.late[i], now, leaseMs).1)
    case JobSettles(_, slot) =>
      if n.handoff.NotStarted? && n.r.inFlight[slot].progress.Unheard? then {n.r.inFlight[slot].token} else {}
    case RequeueLost(_, slot) => {n.handoff.pending[slot].token}
    case _ => {}
  }

  /** The leases the runner loses by the move. */
  function Lost(y: System, m: Move, rid: RunnerId): set<Token>
    requires Enabled(y, m) && rid in y.nodes
  {
    if m.Elsewhere? || m.rid != rid then {} else LostHere(y.q, y.nodes[rid], m, QueueAfter(y, m))
  }

  function LostHere(q: State, n: Node, m: Move, q': State): set<Token>
    requires !m.Elsewhere? && Enabled(System(q, map[m.rid := n]), m)
  {
    set t | t in Dropped(q, n, m) && Leased(q', t)
  }

  /** A token given to the runner that is still a lease is in its hands or lost, never both; and an
      acknowledgement that was answered has ended its lease. */
  ghost predicate Accounted(q: State, n: Node, lost: set<Token>) {
    && lost <= n.owned
    && (forall t :: t in n.owned && Leased(q, t) ==> (t in InHand(n) <==> t !in lost))
    && AckedEnded(q, n)
  }

  predicate AckedEnded(q: State, n: Node) {
    forall slot :: slot in n.r.inFlight && n.r.inFlight[slot].progress.Acked? ==> !Leased(q, n.r.inFlight[slot].token)
  }

  // ---------------------------------------------------------------- leases only end

  /** A given token that is not a lease does not become one, and stays given. */
  lemma LeasesOnlyEnd(q: State, q': State, t: Token)
    requires Inv(q) && Inv(q') && Evolves(q, q') && Given(q, t)
    ensures Given(q', t) && (Leased(q', t) ==> Leased(q, t))
  {
    IssuedStays(q, q', t.id, t);
    assert Fits(t.id, ViewOf(q, t.id));
    assert Fits(t.id, ViewOf(q', t.id));
    if Leased(q', t) {
      HeldIsLatest(q', t.id, t);
    }
  }

  lemma LeasesOfOnlyEnd(q: State, q': State, owned: set<Token>)
    requires Inv(q) && Inv(q') && Evolves(q, q') && AllGiven(q, owned)
    ensures forall t :: t in owned && Leased(q', t) ==> Leased(q, t)
  {
    hide Inv, Evolves, Leased;
    forall t | t in owned
      ensures Leased(q', t) ==> Leased(q, t)
    {
      LeasesOnlyEnd(q, q', t);
    }
  }

  /** An answered acknowledgement or requeue ends the lease, whether it was accepted or refused. */
  lemma AckEnds(q: State, e: R.Entry, text: string, now: nat, r: Resolved)
    requires e.token.id == e.id
    ensures !Leased(Complete(q, e.id, e.token, now, r).0, e.token)
    ensures !Leased(Fail(q, e.id, e.token, text, now, r).0, e.token)
    ensures !Leased(Requeue(q, e.id, e.token, text, now).0, e.token)
  {
    hide Complete, Fail, Requeue;
    if Holds(q, e.id, e.token) {
      AckSettles(q, e.id, e.token, text, now, r);
    } else {
      DeadCallsChangeNothing(q, e.id, e.token, text, now, 0, r);
    }
  }

  // ---------------------------------------------------------------- what a move does to the hands

  /** What leaves the hands, for whatever reason. */
  function Released(n: Node, m: Move): set<Token>
    requires !m.Elsewhere? && Enabled(System(EMPTY, map[m.rid := n]), m)
  {
    match m
    case ClaimThrows(_) => if n.call.Replied? then TokensIn(n.call.reply) else {}
    case ClaimReturns(_, undecodable) => Undecoded(n.call.reply, undecodable)
    case JobSettles(_, slot) => if n.handoff.NotStarted? then {n.r.inFlight[slot].token} else {}
    case RequeueRuns(_, slot, _, _) => {n.handoff.pending[slot].token}
    case RequeueLost(_, slot) => {n.handoff.pending[slot].token}
    case _ => {}
  }

  function Received(q: State, n: Node, m: Move): set<Token> {
    if m.ClaimRuns? && n.r.pc.Claiming? then TokensIn(Claim(q, n.r.pc.n, m.now, m.leaseMs).1) else {}
  }

  lemma TokensWithout(slots: map<nat, R.Entry>, slot: nat)
    requires Distinct(slots) && slot in slots
    ensures TokensOf(slots - {slot}) == TokensOf(slots) - {slots[slot].token}
  {
    assert forall a :: a in slots && a != slot ==> a in slots - {slot};
  }

  lemma TokensSame(slots: map<nat, R.Entry>, slots': map<nat, R.Entry>)
    requires slots'.Keys == slots.Keys && forall a :: a in slots' ==> slots'[a].token == slots[a].token
    ensures TokensOf(slots') == TokensOf(slots)
  {
    assert forall a :: a in slots <==> a in slots';
  }

  /** The runner's slots, for every move but the return of a claim. */
  lemma SlotTokens(q: State, n: Node, m: Move)
    requires !m.Elsewhere? && !m.ClaimReturns? && Enabled(System(q, map[m.rid := n]), m) && NodeSound(n) && HandsSound(n)
    ensures TokensOf(Local(q, n, m).r.inFlight)
         == TokensOf(n.r.inFlight) - (if m.JobSettles? then {n.r.inFlight[m.slot].token} else {})
  {
    hide Local, R.Permits, TokensOf;
    SlotsAfter(q, n, m);
    var after := Local(q, n, m).r.inFlight;
    if m.JobSettles? {
      TokensWithout(n.r.inFlight, m.slot);
      TokensSame(n.r.inFlight - {m.slot}, after);
    } else {
      TokensSame(n.r.inFlight, after);
    }
  }

  lemma ReturnHands(q: State, n: Node, m: Move)
    requires m.ClaimReturns? && Enabled(System(q, map[m.rid := n]), m) && NodeSound(n) && HandsSound(n)
    ensures InHand(Local(q, n, m)) == InHand(n) - Undecoded(n.call.reply, m.undecodable)
    ensures AckedEnded(q, n) ==> AckedEnded(q, Local(q, n, m))
  {
    hide R.Permits, R.ClaimReturns, R.DispatchAll, Distinct, From, Leased, TokensOf, TokensIn, Undecoded;
    var slots, reply := n.r.inFlight, n.call.reply;
    SlotsBelow(n.r);
    ReturnKeepsHands(q, n, m);
    DispatchSound(n.r, reply, m.undecodable, n.owned);
    UndecodedApart(reply, slots, n.owned, m.undecodable);
  }

  lemma UndecodedApart(reply: seq<Claimed>, slots: map<nat, R.Entry>, owned: set<Token>, undecodable: set<nat>)
    requires ReplySound(reply, slots, owned)
    ensures TokensOf(slots) !! TokensIn(reply) && Undecoded(reply, undecodable) <= TokensIn(reply)
  {
  }

  lemma HandsAfter(q: State, n: Node, m: Move)
    requires !m.Elsewhere? && Enabled(System(q, map[m.rid := n]), m) && NodeSound(n) && HandsSound(n)
    ensures Enabled(System(EMPTY, map[m.rid := n]), m)
    ensures InHand(Local(q, n, m)) == InHand(n) - Released(n, m) + Received(q, n, m)
  {
    hide R.Permits, R.Start, R.PermitResumes, R.ClaimReturns, R.ClaimThrows, R.LoopTop, R.StopClaiming, R.JobSettles,
         R.Wake, R.PollFires, R.SetProgress, TokensOf, TokensIn, Undecoded, Claim, Distinct, From;
    if m.ClaimReturns? {
      ReturnHands(q, n, m);
    } else {
      SlotTokens(q, n, m);
      match m
      case ClaimThrows(_) =>
        if n.call.Replied? { UndecodedApart(n.call.reply, n.r.inFlight, n.owned, {}); }
      case JobSettles(_, slot) =>
        if n.call.Replied? { SlotApart(n, slot); }
      case RequeueRuns(_, slot, _, _) => TokensWithout(n.handoff.pending, slot);
      case RequeueLost(_, slot) => TokensWithout(n.handoff.pending, slot);
      case ClaimRuns(_, _, _) =>
      case _ => CallAfter(q, n, m);
    }
  }

  lemma SlotApart(n: Node, slot: nat)
    requires HandsSound(n) && slot in n.r.inFlight && n.call.Replied?
    ensures n.r.inFlight[slot].token !in TokensIn(n.call.reply)
  {
  }

  /** The other moves leave a reply on its way alone. */
  lemma CallAfter(q: State, n: Node, m: Move)
    requires !m.Elsewhere? && Enabled(System(q, map[m.rid := n]), m) && NodeSound(n)
    requires !m.ClaimReturns? && !m.ClaimThrows? && !m.ClaimRuns?
    ensures var n' := Local(q, n, m); (n.call.Replied? || n'.call.Replied? ==> n'.call == n.call)
    ensures m.ForceRequeue? ==> n.call.NoCall?
  {
    hide R.Permits, R.Start, R.PermitResumes, R.LoopTop, R.StopClaiming, R.JobSettles, R.Wake, R.PollFires, Claim;
  }

  // ---------------------------------------------------------------- every move keeps the account

  lemma AckedStays(y: System, m: Move)
    requires SystemSound(y) && !m.Elsewhere? && Enabled(y, m) && HandsSound(y.nodes[m.rid])
    requires AllGiven(y.q, y.nodes[m.rid].owned) && AckedEnded(y.q, y.nodes[m.rid])
    requires Enabled(System(y.q, map[m.rid := y.nodes[m.rid]]), m)
    ensures AckedEnded(QueueAfter(y, m), Local(y.q, y.nodes[m.rid], m))
  {
    hide Inv, Evolves, Local, NodeSound, Leased, Complete, Fail, Distinct, ReplySound, R.Permits;
    var n, q' := y.nodes[m.rid], QueueAfter(y, m);
    QueueStaysSound(y, m);
    LeasesOfOnlyEnd(y.q, q', n.owned);
    if m.ClaimReturns? {
      ReturnHands(y.q, n, m);
    } else {
      PermitsOf(n);
      SlotsAfter(y.q, n, m);
      if m.AckRuns? {
        AckEnds(y.q, n.r.inFlight[m.slot], if m.outcome.Threw? then m.outcome.message else "", m.now, m.retention);
      }
    }
  }

  lemma PermitsOf(n: Node)
    requires NodeSound(n)
    ensures R.Permits(n.r)
  {
  }

  /** For tokens that are leases after the move, what is released is what is dropped. */
  lemma ReleasedIsDropped(y: System, m: Move, t: Token)
    requires SystemSound(y) && !m.Elsewhere? && Enabled(y, m) && HandsSound(y.nodes[m.rid])
    requires AckedEnded(y.q, y.nodes[m.rid]) && t in InHand(y.nodes[m.rid]) && Leased(QueueAfter(y, m), t)
    requires AllGiven(y.q, y.nodes[m.rid].owned)
    requires Enabled(System(y.q, map[m.rid := y.nodes[m.rid]]), m)
    requires Enabled(System(EMPTY, map[m.rid := y.nodes[m.rid]]), m)
    ensures t in Released(y.nodes[m.rid], m) <==> t in Dropped(y.q, y.nodes[m.rid], m)
  {
    hide Inv, Leased, TokensIn, Undecoded, Claim, Requeue, NodeSound;
    var n := y.nodes[m.rid];
    match m
    case RequeueRuns(_, slot, now, reason) =>
      AckEnds(y.q, n.handoff.pending[slot], reason, now, Resolved(Keep, -1, -1));
    case LateClaimRuns(_, i, now, leaseMs) =>
      InHandIsOwned(n);
      ClaimGives(y.q, n, n.late[i], now, leaseMs);
    case _ =>
  }

  lemma InHandIsOwned(n: Node)
    requires HandsSound(n)
    ensures InHand(n) <= n.owned
  {
  }

  lemma OwnMoveAccounted(y: System, m: Move, lost: set<Token>)
    requires SystemSound(y) && !m.Elsewhere? && Enabled(y, m) && HandsSound(y.nodes[m.rid])
    requires AllGiven(y.q, y.nodes[m.rid].owned) && Accounted(y.q, y.nodes[m.rid], lost)
    requires Enabled(System(y.q, map[m.rid := y.nodes[m.rid]]), m)
    ensures var n := y.nodes[m.rid];
            Accounted(QueueAfter(y, m), Local(y.q, n, m), lost + LostHere(y.q, n, m, QueueAfter(y, m)))
  {
    hide Inv, Evolves, Local, NodeSound, HandsSound, Leased, InHand, Released, Received, Dropped, AckedEnded, Given;
    var n, q' := y.nodes[m.rid], QueueAfter(y, m);
    var n' := Local(y.q, n, m);
    QueueStaysSound(y, m);
    LeasesOfOnlyEnd(y.q, q', n.owned);
    LocalOwns(y, m);
    HandsAfter(y.q, n, m);
    AckedStays(y, m);
    InHandIsOwned(n);
    NodeIsSound(y, m.rid);
    NewTokens(y.q, n, m);
    forall t | t in n'.owned && Leased(q', t)
      ensures t in InHand(n') <==> t !in lost + LostHere(y.q, n, m, q')
    {
      if t in InHand(n) {
        ReleasedIsDropped(y, m, t);
      }
    }
  }

  /** A token that is new to the runner comes into its hands or is dropped at once; the others are not new. */
  predicate NewOnesFit(q: State, n: Node, m: Move)
    requires !m.Elsewhere? && Enabled(System(q, map[m.rid := n]), m)
  {
    var n' := Local(q, n, m);
    && (forall t :: t in n'.owned && t !in n.owned ==> (t in Received(q, n, m) <==> t !in Dropped(q, n, m)))
    && Received(q, n, m) !! n.owned
    && Dropped(q, n, m) <= n'.owned
    && (forall t :: t in Dropped(q, n, m) && t in n.owned ==> t in InHand(n))
  }

  lemma NewTokens(q: State, n: Node, m: Move)
    requires Inv(q) && !m.Elsewhere? && Enabled(System(q, map[m.rid := n]), m) && NodeSound(n)
    requires HandsSound(n) && AllGiven(q, n.owned)
    ensures NewOnesFit(q, n, m)
  {
    hide Inv, Given, Leased, TokensIn, Claim, NodeSound, HandsSound, NewOnesFit, Local, Dropped, InHand;
    if m.ClaimRuns? || m.LateClaimRuns? {
      ClaimGives(q, n, if m.ClaimRuns? then n.r.pc.n else n.late[m.i], m.now, m.leaseMs);
      NewByClaim(q, n, m);
    } else {
      DroppedWasInHand(q, n, m);
      NothingNew(q, n, m);
    }
  }

  lemma NewByClaim(q: State, n: Node, m: Move)
    requires (m.ClaimRuns? || m.LateClaimRuns?) && Enabled(System(q, map[m.rid := n]), m) && AllGiven(q, n.owned)
    requires forall t :: t in TokensIn(Claim(q, if m.ClaimRuns? then n.r.pc.n else n.late[m.i], m.now, m.leaseMs).1) ==>
               !Given(q, t)
    ensures NewOnesFit(q, n, m)
  {
    hide Given, TokensIn, Claim;
  }

  lemma NothingNew(q: State, n: Node, m: Move)
    requires !m.Elsewhere? && Enabled(System(q, map[m.rid := n]), m) && !m.ClaimRuns? && !m.LateClaimRuns?
    requires Dropped(q, n, m) <= InHand(n) <= n.owned
    ensures NewOnesFit(q, n, m)
  {
    hide Dropped, InHand, R.Start, R.PermitResumes, R.LoopTop, R.StopClaiming, R.JobSettles, R.Wake, R.PollFires,
         R.ClaimReturns, R.ClaimThrows, R.SetProgress;
  }

  lemma DroppedWasInHand(q: State, n: Node, m: Move)
    requires !m.Elsewhere? && !m.LateClaimRuns? && Enabled(System(q, map[m.rid := n]), m) && NodeSound(n) && HandsSound(n)
    ensures Dropped(q, n, m) <= InHand(n) <= n.owned
  {
    InHandIsOwned(n);
  }

  /** One move, anybody's: the account stays right when what this runner loses by it is added to the losses. */
  lemma MoveAccounted(y: System, m: Move, rid: RunnerId, lost: set<Token>)
    requires SystemSound(y) && Owned(y) && Enabled(y, m) && rid in y.nodes && Accounted(y.q, y.nodes[rid], lost)
    ensures Accounted(QueueAfter(y, m), NodeAfter(y, m, rid), lost + Lost(y, m, rid))
  {
    hide Inv, Evolves, Local, NodeSound, HandsSound, Leased, Given, LostHere;
    var n, q' := y.nodes[rid], QueueAfter(y, m);
    QueueStaysSound(y, m);
    if !m.Elsewhere? && m.rid == rid {
      EnabledAlone(y, m);
      OwnMoveAccounted(y, m, lost);
    } else {
      LeasesOfOnlyEnd(y.q, q', n.owned);
      OthersMoveAccounted(y.q, n, q', lost);
      assert lost + {} == lost;
    }
    MailAccounted(q', if !m.Elsewhere? && m.rid == rid then Local(y.q, n, m) else n, y.q, lost + Lost(y, m, rid));
  }

  lemma OthersMoveAccounted(q: State, n: Node, q': State, lost: set<Token>)
    requires Accounted(q, n, lost) && HandsSound(n)
    requires forall t :: t in n.owned && Leased(q', t) ==> Leased(q, t)
    ensures Accounted(q', n, lost)
  {
    hide Leased, InHand;
  }

  lemma MailAccounted(q': State, n: Node, q: State, lost: set<Token>)
    requires Accounted(q', n, lost)
    ensures Accounted(q', Mailed(n, q, q'), lost)
  {
    assert InHand(Mailed(n, q, q')) == InHand(n);
  }

  // ---------------------------------------------------------------- whole runs

  /** Everything the runner loses in the run. */
  function AllLost(y: System, ms: seq<Move>, rid: RunnerId): set<Token>
    requires AllEnabled(y, ms) && rid in y.nodes
    decreases |ms|
  {
    if ms == [] then {} else Lost(y, ms[0], rid) + AllLost(Next(y, ms[0]), ms[1..], rid)
  }

  lemma {:induction false} AlwaysAccounted(y: System, ms: seq<Move>, rid: RunnerId, lost: set<Token>)
    requires SystemSound(y) && Owned(y) && AllEnabled(y, ms)
    requires rid in y.nodes && Accounted(y.q, y.nodes[rid], lost)
    ensures var y' := After(y, ms);
            rid in y'.nodes && Accounted(y'.q, y'.nodes[rid], lost + AllLost(y, ms, rid)) && SystemSound(y')
    decreases |ms|
  {
    hide SystemSound, Owned, Enabled, NodeAfter, QueueAfter, Accounted, Lost;
    if ms != [] {
      MoveAccounted(y, ms[0], rid, lost);
      MoveKeepsSound(y, ms[0]);
      MoveKeepsOwned(y, ms[0]);
      AlwaysAccounted(Next(y, ms[0]), ms[1..], rid, lost + Lost(y, ms[0], rid));
      assert lost + Lost(y, ms[0], rid) + AllLost(Next(y, ms[0]), ms[1..], rid) == lost + AllLost(y, ms, rid);
    } else {
      assert lost + {} == lost;
    }
  }

  /** forceRequeueInflight has been answered for every job it found. */
  predicate HandedOff(n: Node) {
    n.handoff.Requeueing? && n.handoff.pending == map[]
  }

  /** A drain without timeout has returned: every job it found in flight has settled. */
  predicate Drained(n: Node) {
    n.draining.Some? && n.draining.value !! n.r.inFlight.Keys
  }

  /** The leases that the runner was ever given and that have not ended. */
  function LeasesOf(q: State, owned: set<Token>): set<Token> {
    set t | t in owned && Leased(q, t)
  }

  /** Whatever the interleaving with the handlers' own acknowledgements, with failures and with everybody
      else: after the hand-off, or after a drain that returned, the leases left to the runner are exactly
      those it lost that have not ended. So none is left if and only if every lost one has ended. */
  lemma NoLeaseLeftBehind(y: System, ms: seq<Move>, rid: RunnerId)
    requires Initial(y) && AllEnabled(y, ms) && rid in y.nodes
    ensures var y' := After(y, ms);
            && rid in y'.nodes
            && var n := y'.nodes[rid];
            (HandedOff(n) || (Drained(n) && n.handoff.NotStarted?) ==>
               LeasesOf(y'.q, n.owned) == LeasesOf(y'.q, AllLost(y, ms, rid)))
  {
    hide Leased, AllEnabled, AllLost, After, SystemSound, Initial, Owned;
    StartsAccounted(y, rid);
    AlwaysAccounted(y, ms, rid, {});
    var y' := After(y, ms);
    var n := y'.nodes[rid];
    if HandedOff(n) || (Drained(n) && n.handoff.NotStarted?) {
      NodeIsSound(y', rid);
      EmptyHands(n);
    }
    assert {} + AllLost(y, ms, rid) == AllLost(y, ms, rid);
  }

  lemma NodeIsSound(y: System, rid: RunnerId)
    requires SystemSound(y) && rid in y.nodes
    ensures NodeSound(y.nodes[rid])
  {
  }

  lemma StartsAccounted(y: System, rid: RunnerId)
    requires Initial(y) && rid in y.nodes
    ensures SystemSound(y) && Owned(y) && Accounted(y.q, y.nodes[rid], {})
  {
    InitialSound(y);
  }

  lemma EmptyHands(n: Node)
    requires NodeSound(n) && (HandedOff(n) || (Drained(n) && n.handoff.NotStarted?))
    ensures InHand(n) == {}
  {
    if !HandedOff(n) {
      DrainedIsEmpty(n);
    }
  }

  /** An un-timed drain leaves nothing in flight. */
  lemma DrainedIsEmpty(n: Node)
    requires NodeSound(n) && Drained(n)
    ensures n.r.inFlight == map[] && n.call.NoCall?
  {
  }

  lemma DrainLeavesNothing(y: System, ms: seq<Move>, rid: RunnerId)
    requires SystemSound(y) && AllEnabled(y, ms) && rid in After(y, ms).nodes && Drained(After(y, ms).nodes[rid])
    ensures After(y, ms).nodes[rid].r.inFlight == map[]
  {
    SoundForever(y, ms);
    DrainedIsEmpty(After(y, ms).nodes[rid]);
  }

  // ---------------------------------------------------------------- it happens

  /** Runner 7 in a system of its own. */
  function Single(q: State, n: Node): System {
    System(q, map[7 := n])
  }

  /** The loop has parked after a failed claim call, with all permits free. */
  function Parks(n: Node): Node {
    n.(r := n.r.(sem := n.r.sem.(current := 0), pc := R.Parked, wakeResolve := true), call := NoCall,
       late := if n.call.Sent? then n.late + [1] else n.late)
  }

  function Stops(n: Node): Node {
    n.(r := n.r.(phase := R.Stopping, aborted := true, pc := R.Woken, wakeResolve := false))
  }

  function Exits(n: Node): Node {
    n.(r := n.r.(pc := R.Exited))
  }

  function HandsOver(n: Node): Node {
    n.(handoff := Requeueing(n.r.inFlight))
  }

  /** The runner after its first claim call went out, with whatever has come of the call. */
  predicate FirstCall(n: Node) {
    !n.call.NoCall? && n == Asking(EMPTY).nodes[7].(call := n.call, owned := n.owned)
  }

  lemma ThrowParks(q: State, n: Node)
    requires FirstCall(n)
    ensures Enabled(Single(q, n), ClaimThrows(7)) && Next(Single(q, n), ClaimThrows(7)) == Single(q, Parks(n))
  {
    assert R.ReleasePermits(R.ReleaseOne(n.r), 0) == R.ReleaseOne(n.r);
    assert NodeAfter(Single(q, n), ClaimThrows(7), 7) == Parks(n);
  }

  lemma ParkedStops(q: State, n: Node)
    requires n.r.phase.Running? && n.r.pc.Parked? && n.r.wakeResolve && n.r.sem.waiters == []
    ensures Enabled(Single(q, n), StopClaiming(7)) && Next(Single(q, n), StopClaiming(7)) == Single(q, Stops(n))
  {
    assert NodeAfter(Single(q, n), StopClaiming(7), 7) == Stops(n);
  }

  lemma StoppedExits(q: State, n: Node)
    requires n.r.phase.Stopping? && n.r.pc.Woken?
    ensures Enabled(Single(q, n), LoopResumes(7)) && Next(Single(q, n), LoopResumes(7)) == Single(q, Exits(n))
  {
    assert NodeAfter(Single(q, n), LoopResumes(7), 7) == Exits(n);
  }

  lemma ExitedHandsOver(q: State, n: Node)
    requires n.r.pc.Exited? && n.handoff.NotStarted?
    ensures Enabled(Single(q, n), ForceRequeue(7)) && Next(Single(q, n), ForceRequeue(7)) == Single(q, HandsOver(n))
  {
    assert NodeAfter(Single(q, n), ForceRequeue(7), 7) == HandsOver(n);
  }

  /** Its claim call throws and the runner is shut down: it parks, stops, exits and has nothing to hand back. */
  lemma ShutDown(q: State, n: Node, rest: seq<Move>)
    requires FirstCall(n) && AllEnabled(Single(q, HandsOver(Exits(Stops(Parks(n))))), rest)
    ensures var ms := [ClaimThrows(7), StopClaiming(7), LoopResumes(7), ForceRequeue(7)] + rest;
            && AllEnabled(Single(q, n), ms)
            && After(Single(q, n), ms) == After(Single(q, HandsOver(Exits(Stops(Parks(n))))), rest)
  {
    hide AllEnabled, After, Enabled, Next, Single;
    var a, b, c, d := ClaimThrows(7), StopClaiming(7), LoopResumes(7), ForceRequeue(7);
    ThrowParks(q, n);
    ParkedStops(q, Parks(n));
    StoppedExits(q, Stops(Parks(n)));
    ExitedHandsOver(q, Exits(Stops(Parks(n))));
    MovesCons(Single(q, Exits(Stops(Parks(n)))), d, rest);
    MovesCons(Single(q, Stops(Parks(n))), c, [d] + rest);
    MovesCons(Single(q, Parks(n)), b, [c] + ([d] + rest));
    MovesCons(Single(q, n), a, [b] + ([c] + ([d] + rest)));
    assert [a] + ([b] + ([c] + ([d] + rest))) == [a, b, c, d] + rest;
  }

  /** The queue holds job 1 alone. */
  predicate OneJob(q: State) {
    q.waiting == [1] && 1 in q.jobs && q.concurrency.limit.None?
  }

  /** Job 1 is leased under one of the runner's tokens. */
  predicate StillLeased(y: System) {
    && 7 in y.nodes && 1 in y.q.jobs && y.q.jobs[1].lockToken.Some?
    && y.q.jobs[1].lockToken.value in y.nodes[7].owned
  }

  lemma FirstLease(q: State)
    requires OneJob(q)
    ensures var (q', reply) := Claim(q, 1, 0, 5);
            && 1 in q'.jobs && q'.jobs[1].lockToken.Some? && q'.jobs[1].lockToken.value in TokensIn(reply)
  {
    hide ClaimMany;
    var (q', one) := ClaimOne(q, 0, 5);
    ClaimUnfold(q, 1, 0, 5);
    ClaimUnfold(q', 0, 0, 5);
    assert Claim(q, 1, 0, 5) == (q', [one] + []);
    assert ([one] + [])[0] == one;
  }

  /** The claim is made but its reply is lost: the hand-off finds nothing in flight, and the job stays leased
      to a runner that is gone, until its lease ends. */
  lemma LostReplyLeavesALease() returns (acts: seq<Action>, ms: seq<Move>)
    ensures LegalRun(EMPTY, acts)
    ensures var y := Alone(Run(EMPTY, acts));
            && Initial(y) && AllEnabled(y, ms)
            && StillLeased(After(y, ms)) && HandedOff(After(y, ms).nodes[7])
  {
    hide LegalRun, Run, AllEnabled, After, Initial, Inv, Claim;
    acts := [DoEnqueue(1, "", 0, 0, 0)];
    var m, rest := ClaimRuns(7, 0, 5), [ClaimThrows(7), StopClaiming(7), LoopResumes(7), ForceRequeue(7)];
    ms := [Starts(7), PermitReady(7)] + ([m] + rest);
    OneQueued(acts);
    AloneInitial(acts);
    var q := Run(EMPTY, acts);
    FirstLease(q);
    ClaimsFirst(q);
    var (q', reply) := Claim(q, 1, 0, 5);
    var n := Asking(q).nodes[7].(call := Replied(reply), owned := TokensIn(reply));
    NoMoves(Single(q', HandsOver(Exits(Stops(Parks(n))))));
    ShutDown(q', n, []);
    assert rest + [] == rest;
    MovesCons(Asking(q), m, rest);
    StartsAsking(q, [m] + rest);
  }

  lemma ClaimsFirst(q: State)
    ensures var (q', reply) := Claim(q, 1, 0, 5);
            var n := Asking(q).nodes[7].(call := Replied(reply), owned := TokensIn(reply));
            Enabled(Asking(q), ClaimRuns(7, 0, 5)) && Next(Asking(q), ClaimRuns(7, 0, 5)) == Single(q', n)
  {
    hide ClaimMany, TokensIn;
    ClaimPublishesNothing(q, Allowance(q, 1), 0, 5);
    var (q', reply) := Claim(q, 1, 0, 5);
    var n := Asking(q).nodes[7].(call := Replied(reply), owned := TokensIn(reply));
    assert {} + TokensIn(reply) == TokensIn(reply);
    assert NodeAfter(Asking(q), ClaimRuns(7, 0, 5), 7) == n;
  }

  /** The claim call throws before it reaches the queue and is executed after the hand-off: nobody is there to
      take its reply. */
  lemma LateClaimLeavesALease() returns (acts: seq<Action>, ms: seq<Move>)
    ensures LegalRun(EMPTY, acts)
    ensures var y := Alone(Run(EMPTY, acts));
            && Initial(y) && AllEnabled(y, ms)
            && StillLeased(After(y, ms)) && HandedOff(After(y, ms).nodes[7])
  {
    hide LegalRun, Run, AllEnabled, After, Initial, Inv, Claim;
    acts := [DoEnqueue(1, "", 0, 0, 0)];
    var m, rest := LateClaimRuns(7, 0, 0, 5), [ClaimThrows(7), StopClaiming(7), LoopResumes(7), ForceRequeue(7)];
    ms := [Starts(7), PermitReady(7)] + (rest + [m]);
    OneQueued(acts);
    AloneInitial(acts);
    var q := Run(EMPTY, acts);
    FirstLease(q);
    var n := Asking(q).nodes[7];
    var last := HandsOver(Exits(Stops(Parks(n))));
    ClaimsLate(q, last);
    NoMoves(Next(Single(q, last), m));
    assert [m] + [] == [m];
    MovesCons(Single(q, last), m, []);
    ShutDown(q, n, [m]);
    StartsAsking(q, rest + [m]);
  }

  lemma ClaimsLate(q: State, n: Node)
    requires n.late == [1] && OneJob(q) && n.handoff == Requeueing(map[])
    ensures Enabled(Single(q, n), LateClaimRuns(7, 0, 0, 5))
    ensures var y := Next(Single(q, n), LateClaimRuns(7, 0, 0, 5)); StillLeased(y) && HandedOff(y.nodes[7])
  {
    hide Claim, TokensIn;
    FirstLease(q);
  }
}
