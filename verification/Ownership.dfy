/** Who has which token: no two runners are ever given the same one, no runner works on one twice, and so at
    most one handler in the whole system can settle a given job. */
module Ownership {
  import opened Prelude
  import opened SortedSets
  import opened Jobs
  import opened Scripts
  import opened Invariant
  import opened Protocol
  import opened Tokens
  import opened Events
  import opened Workers

  predicate Given(q: State, t: Token) {
    t.id in q.audit && t in q.audit[t.id].issued
  }

  predicate Leased(q: State, t: Token) {
    Holds(q, t.id, t)
  }

  predicate Distinct(slots: map<nat, R.Entry>) {
    forall a, b :: a in slots && b in slots && a != b ==> slots[a].token != slots[b].token
  }

  /** The entries carry the runner's own tokens, each with the id it was issued for. */
  predicate From(slots: map<nat, R.Entry>, owned: set<Token>) {
    forall a :: a in slots ==> slots[a].token in owned && slots[a].token.id == slots[a].id
  }

  /** The leased entries of a reply: their tokens are all different, the runner's own, and in no slot yet. */
  predicate ReplySound(reply: seq<Claimed>, slots: map<nat, R.Entry>, owned: set<Token>) {
    && (forall i :: 0 <= i < |reply| && reply[i].Job_? ==>
          reply[i].job.lockToken.Some? && reply[i].job.lockToken.value in owned
          && reply[i].job.lockToken.value.id == reply[i].id)
    && (forall i, a :: 0 <= i < |reply| && reply[i].Job_? && a in slots ==>
          reply[i].job.lockToken != Some(slots[a].token))
    && (forall i, j :: 0 <= i < j < |reply| && reply[i].Job_? && reply[j].Job_? ==>
          reply[i].job.lockToken != reply[j].job.lockToken)
  }

  predicate HandsSound(n: Node) {
    && Distinct(n.r.inFlight) && From(n.r.inFlight, n.owned)
    && (n.call.Replied? ==> ReplySound(n.call.reply, n.r.inFlight, n.owned))
    && (n.handoff.Requeueing? ==> Distinct(n.handoff.pending) && From(n.handoff.pending, n.owned))
  }

  predicate AllGiven(q: State, owned: set<Token>) {
    forall t :: t in owned ==> Given(q, t)
  }

  ghost predicate Owned(y: System) {
    && (forall rid :: rid in y.nodes ==> HandsSound(y.nodes[rid]) && AllGiven(y.q, y.nodes[rid].owned))
    && (forall a, b :: a in y.nodes && b in y.nodes && a != b ==> y.nodes[a].owned !! y.nodes[b].owned)
  }

  // ---------------------------------------------------------------- claims give new tokens

  /** A claim leaves the token of each leased entry held, and in the history. */
  lemma ReplyGiven(q: State, n: nat, now: nat, deadline: nat, i: nat)
    requires Inv(q) && i < |ClaimMany(q, n, now, deadline).1| && ClaimMany(q, n, now, deadline).1[i].Job_?
    ensures var (q', reply) := ClaimMany(q, n, now, deadline);
            && reply[i].job.lockToken.Some? && reply[i].job.lockToken.value.id == reply[i].id
            && Given(q', reply[i].job.lockToken.value) && Leased(q', reply[i].job.lockToken.value)
  {
    hide ClaimMany, Inv;
    var (q', reply) := ClaimMany(q, n, now, deadline);
    ReplyTokens(q, n, now, deadline, i);
    ReplyIsStored(q, n, now, deadline, i);
    ClaimManyKeeps(q, n, now, deadline);
    HeldIsLatest(q', reply[i].id, reply[i].job.lockToken.value);
  }

  /** And it was not given before. */
  lemma ReplyIsNew(q: State, n: nat, now: nat, deadline: nat, i: nat)
    requires Inv(q) && i < |ClaimMany(q, n, now, deadline).1| && ClaimMany(q, n, now, deadline).1[i].Job_?
    ensures var e := ClaimMany(q, n, now, deadline).1[i];
            e.job.lockToken.Some? && !Given(q, e.job.lockToken.value)
  {
    hide ClaimMany, Inv;
    var e := ClaimMany(q, n, now, deadline).1[i];
    ReplyTokens(q, n, now, deadline, i);
    IssuedRuns(q, e.id);
  }

  lemma IssuedRuns(q: State, id: Id)
    requires Inv(q)
    ensures id in q.audit ==> forall t :: t in q.audit[id].issued ==> t.runs <= |q.audit[id].issued|
  {
    assert Fits(id, ViewOf(q, id));
  }

  lemma ClaimGives(q: State, n: Node, count: nat, now: nat, leaseMs: nat)
    requires Inv(q) && HandsSound(n) && AllGiven(q, n.owned)
    ensures var (q', reply) := Claim(q, count, now, leaseMs);
            && ReplySound(reply, n.r.inFlight, n.owned + TokensIn(reply))
            && (forall t :: t in TokensIn(reply) ==> Given(q', t) && Leased(q', t) && !Given(q, t))
  {
    hide ClaimMany, Inv, Given, Leased;
    var k := Allowance(q, count);
    var (q', reply) := ClaimMany(q, k, now, now + leaseMs);
    forall i | 0 <= i < |reply| && reply[i].Job_?
      ensures reply[i].job.lockToken.Some? && reply[i].job.lockToken.value.id == reply[i].id
      ensures Given(q', reply[i].job.lockToken.value) && Leased(q', reply[i].job.lockToken.value)
      ensures !Given(q, reply[i].job.lockToken.value)
    {
      ReplyGiven(q, k, now, now + leaseMs, i);
      ReplyIsNew(q, k, now, now + leaseMs, i);
    }
    forall i, j | 0 <= i < j < |reply| && reply[i].Job_? && reply[j].Job_?
      ensures reply[i].job.lockToken != reply[j].job.lockToken
    {
      ReplyTokensDiffer(q, k, now, now + leaseMs, i, j);
    }
  }

  // ---------------------------------------------------------------- a reply is dispatched once

  lemma {:induction false} DispatchDistinct(r: R.Runner, es: seq<R.Received>)
    requires forall slot :: slot in r.inFlight ==> slot < r.nextSlot
    requires Distinct(r.inFlight)
    requires forall i, a :: 0 <= i < |es| && es[i].Healthy? && a in r.inFlight ==> es[i].token != r.inFlight[a].token
    requires forall i, j :: 0 <= i < j < |es| && es[i].Healthy? && es[j].Healthy? ==> es[i].token != es[j].token
    ensures var d := R.DispatchAll(r, es);
            && Distinct(d.inFlight)
            && (forall slot :: slot in d.inFlight ==> slot < d.nextSlot)
            && (forall slot :: slot in r.inFlight ==> slot in d.inFlight && d.inFlight[slot] == r.inFlight[slot])
            && (forall slot :: slot in d.inFlight && slot !in r.inFlight ==> Came(es, d.inFlight[slot]))
            && (forall i :: 0 <= i < |es| && es[i].Healthy? ==> es[i].token in TokensOf(d.inFlight))
    decreases |es|
  {
    if es != [] {
      var init, last := es[..|es| - 1], es[|es| - 1];
      DispatchDistinct(r, init);
      var before, d := R.DispatchAll(r, init), R.DispatchAll(r, es);
      assert d == R.Dispatch(before, last);
      forall slot | slot in before.inFlight && slot !in r.inFlight
        ensures Came(es, before.inFlight[slot])
        ensures last.Healthy? ==> last.token != before.inFlight[slot].token
      {
        var i :| 0 <= i < |init| && init[i] == R.Healthy(before.inFlight[slot].id, before.inFlight[slot].token);
        assert es[i] == init[i];
      }
      assert last.Healthy? ==> before.nextSlot in d.inFlight && Came(es, d.inFlight[before.nextSlot]) by {
        assert es[|es| - 1] == last;
      }
      DispatchHolds(before, last);
      forall i | 0 <= i < |es| && es[i].Healthy?
        ensures es[i].token in TokensOf(d.inFlight)
      {
        if i < |es| - 1 { assert init[i] == es[i]; }
      }
    }
  }

  lemma DispatchHolds(r: R.Runner, e: R.Received)
    requires forall slot :: slot in r.inFlight ==> slot < r.nextSlot
    ensures TokensOf(R.Dispatch(r, e).inFlight) == TokensOf(r.inFlight) + (if e.Healthy? then {e.token} else {})
  {
    var d := R.Dispatch(r, e);
    assert forall slot :: slot in r.inFlight ==> slot in d.inFlight && d.inFlight[slot] == r.inFlight[slot];
    assert e.Healthy? ==> r.nextSlot in d.inFlight;
  }

  /** The entry was dispatched for one of the received jobs, and is being handled. */
  predicate Came(es: seq<R.Received>, e: R.Entry) {
    e.progress.Handling? && exists i :: 0 <= i < |es| && es[i] == R.Healthy(e.id, e.token)
  }

  function TokensOf(slots: map<nat, R.Entry>): set<Token> {
    set a | a in slots :: slots[a].token
  }

  /** The claimed jobs that do not decode. */
  function Undecoded(reply: seq<Claimed>, undecodable: set<nat>): set<Token> {
    set i | 0 <= i < |reply| && i in undecodable && reply[i].Job_? && reply[i].job.lockToken.Some?
      :: reply[i].job.lockToken.value
  }

  /** Dispatching a reply puts exactly the tokens that decode in the slots, each in one of its own. */
  lemma DispatchSound(r: R.Runner, reply: seq<Claimed>, undecodable: set<nat>, owned: set<Token>)
    requires forall slot :: slot in r.inFlight ==> slot < r.nextSlot
    requires Distinct(r.inFlight) && From(r.inFlight, owned) && ReplySound(reply, r.inFlight, owned)
    ensures var d := R.DispatchAll(r, Decoded(reply, undecodable));
            && Distinct(d.inFlight) && From(d.inFlight, owned)
            && TokensOf(d.inFlight) == TokensOf(r.inFlight) + (TokensIn(reply) - Undecoded(reply, undecodable))
            && (forall slot :: slot in d.inFlight && d.inFlight[slot].progress.Acked? ==>
                  slot in r.inFlight && d.inFlight[slot] == r.inFlight[slot])
  {
    hide R.DispatchAll, Decoded, TokensIn, Undecoded, ReplySound, Came;
    var es := Decoded(reply, undecodable);
    var d := R.DispatchAll(r, es);
    ReplyDiffers(r, reply, undecodable, owned);
    DispatchDistinct(r, es);
    forall slot | slot in d.inFlight && slot !in r.inFlight
      ensures var e := d.inFlight[slot];
              e.progress.Handling? && e.token in owned && e.token.id == e.id
              && e.token in TokensIn(reply) && e.token !in Undecoded(reply, undecodable)
    {
      CameDecoded(reply, r.inFlight, owned, undecodable, d.inFlight[slot]);
    }
    forall t | t in TokensIn(reply) && t !in Undecoded(reply, undecodable)
      ensures t in TokensOf(d.inFlight)
    {
      var i := DecodedAt(reply, undecodable, t);
    }
    assert forall slot :: slot in r.inFlight ==> r.inFlight[slot].token in TokensOf(d.inFlight);
  }

  lemma ReplyDiffers(r: R.Runner, reply: seq<Claimed>, undecodable: set<nat>, owned: set<Token>)
    requires ReplySound(reply, r.inFlight, owned)
    ensures var es := Decoded(reply, undecodable);
            && (forall i, a :: 0 <= i < |es| && es[i].Healthy? && a in r.inFlight ==> es[i].token != r.inFlight[a].token)
            && (forall i, j :: 0 <= i < j < |es| && es[i].Healthy? && es[j].Healthy? ==> es[i].token != es[j].token)
  {
  }

  lemma CameDecoded(reply: seq<Claimed>, slots: map<nat, R.Entry>, owned: set<Token>, undecodable: set<nat>, e: R.Entry)
    requires ReplySound(reply, slots, owned) && Came(Decoded(reply, undecodable), e)
    ensures e.progress.Handling? && e.token in owned && e.token.id == e.id
    ensures e.token in TokensIn(reply) && e.token !in Undecoded(reply, undecodable)
  {
    var es := Decoded(reply, undecodable);
    var i :| 0 <= i < |es| && es[i] == R.Healthy(e.id, e.token);
    OneIndex(reply, slots, owned, i);
  }

  lemma DecodedAt(reply: seq<Claimed>, undecodable: set<nat>, t: Token) returns (i: nat)
    requires t in TokensIn(reply) && t !in Undecoded(reply, undecodable)
    ensures var es := Decoded(reply, undecodable); i < |es| && es[i].Healthy? && es[i].token == t
  {
    i :| 0 <= i < |reply| && reply[i].Job_? && reply[i].job.lockToken.Some? && reply[i].job.lockToken.value == t;
  }

  lemma OneIndex(reply: seq<Claimed>, slots: map<nat, R.Entry>, owned: set<Token>, i: nat)
    requires ReplySound(reply, slots, owned) && i < |reply| && reply[i].Job_?
    ensures reply[i].job.lockToken.value in TokensIn(reply)
    ensures forall j :: 0 <= j < |reply| && j != i && reply[j].Job_? ==> reply[j].job.lockToken != reply[i].job.lockToken
  {
  }

  lemma ReturnKeepsHands(q: State, n: Node, m: Move)
    requires m.ClaimReturns? && Enabled(System(q, map[m.rid := n]), m) && NodeSound(n) && HandsSound(n)
    ensures HandsSound(Local(q, n, m))
    ensures Local(q, n, m).r.inFlight == R.DispatchAll(n.r, Decoded(n.call.reply, m.undecodable)).inFlight
  {
    hide R.Permits, R.ClaimReturns, R.DispatchAll, Distinct, From, ReplySound, Decoded;
    SlotsBelow(n.r);
    DispatchSound(n.r, n.call.reply, m.undecodable, n.owned);
    PcAfterReply(n.r, Decoded(n.call.reply, m.undecodable));
  }

  lemma SlotsBelow(r: R.Runner)
    requires R.Permits(r)
    ensures forall slot :: slot in r.inFlight ==> slot < r.nextSlot
  {
  }

  // ---------------------------------------------------------------- every other move

  /** No other move puts anything in a slot, and only settling takes anything out. */
  lemma SlotsAfter(q: State, n: Node, m: Move)
    requires !m.Elsewhere? && !m.ClaimReturns? && Enabled(System(q, map[m.rid := n]), m) && R.Permits(n.r)
    ensures var n' := Local(q, n, m);
            && n'.r.inFlight.Keys == n.r.inFlight.Keys - (if m.JobSettles? then {m.slot} else {})
            && (forall slot :: slot in n'.r.inFlight ==>
                  && n'.r.inFlight[slot].id == n.r.inFlight[slot].id
                  && n'.r.inFlight[slot].token == n.r.inFlight[slot].token
                  && (n'.r.inFlight[slot].progress.Acked? ==>
                        n.r.inFlight[slot].progress.Acked? || (m.AckRuns? && slot == m.slot)))
  {
    hide R.Permits, R.Start, R.PermitResumes, R.ClaimThrows, R.LoopTop, R.StopClaiming, R.JobSettles, R.Wake,
         R.PollFires, R.SetProgress, Claim, TokensIn;
    if m.ClaimThrows? {
      PcAfterThrow(n.r);
    } else if m.JobSettles? {
      PcAfterRelease(n.r, m.slot);
    } else if m.HandlerEnds? || m.AckRuns? || m.AckLost? {
      ProgressAfter(n.r, m.slot, if m.HandlerEnds? then R.Acking else if m.AckRuns? then R.Acked else R.Unheard);
    } else {
      PcAfter(n.r);
      PcAfterStop(n.r);
      PcAfterWake(n.r);
    }
  }

  lemma ProgressAfter(r: R.Runner, slot: nat, p: R.Progress)
    ensures var d := R.SetProgress(r, slot, p);
            && d.inFlight.Keys == r.inFlight.Keys
            && (forall k :: k in d.inFlight ==>
                  && d.inFlight[k].id == r.inFlight[k].id && d.inFlight[k].token == r.inFlight[k].token
                  && d.inFlight[k].progress == if k == slot then p else r.inFlight[k].progress)
  {
  }

  /** `n'` has no more in its hands than `n`. */
  ghost predicate HoldsLess(n: Node, n': Node) {
    && n'.owned == n.owned && (n'.call == n.call || n'.call.NoCall? || n'.call.Sent?)
    && (forall slot :: slot in n'.r.inFlight ==>
          && slot in n.r.inFlight && n'.r.inFlight[slot].id == n.r.inFlight[slot].id
          && n'.r.inFlight[slot].token == n.r.inFlight[slot].token)
    && (n'.handoff == n.handoff || n'.handoff == Requeueing(n.r.inFlight)
        || (n.handoff.Requeueing? && exists slot :: n'.handoff == Requeueing(n.handoff.pending - {slot})))
  }

  lemma LessIsSound(n: Node, n': Node)
    requires HandsSound(n) && HoldsLess(n, n')
    ensures HandsSound(n')
  {
  }

  lemma OthersHoldLess(q: State, n: Node, m: Move)
    requires !m.Elsewhere? && !m.ClaimReturns? && !m.ClaimRuns? && !m.LateClaimRuns?
    requires Enabled(System(q, map[m.rid := n]), m)
    requires R.Permits(n.r)
    ensures HoldsLess(n, Local(q, n, m))
  {
    hide R.Permits, R.Start, R.PermitResumes, R.ClaimThrows, R.LoopTop, R.StopClaiming, R.JobSettles, R.Wake, R.PollFires;
    SlotsAfter(q, n, m);
    if m.RequeueRuns? || m.RequeueLost? {
      assert Local(q, n, m).handoff == Requeueing(n.handoff.pending - {m.slot});
    }
  }

  lemma ClaimKeepsHands(q: State, n: Node, m: Move)
    requires (m.ClaimRuns? || m.LateClaimRuns?) && Enabled(System(q, map[m.rid := n]), m)
    requires Inv(q) && HandsSound(n) && AllGiven(q, n.owned)
    ensures HandsSound(Local(q, n, m))
  {
    hide Claim, TokensIn, Inv, Given;
    if m.ClaimRuns? {
      ClaimGives(q, n, n.r.pc.n, m.now, m.leaseMs);
    }
  }

  lemma LocalKeepsHands(q: State, n: Node, m: Move)
    requires !m.Elsewhere? && Enabled(System(q, map[m.rid := n]), m) && NodeSound(n)
    requires Inv(q) && HandsSound(n) && AllGiven(q, n.owned)
    ensures HandsSound(Local(q, n, m))
  {
    hide R.Permits, Local, HandsSound, Inv, HoldsLess;
    if m.ClaimReturns? {
      ReturnKeepsHands(q, n, m);
    } else if m.ClaimRuns? || m.LateClaimRuns? {
      ClaimKeepsHands(q, n, m);
    } else {
      OthersHoldLess(q, n, m);
      LessIsSound(n, Local(q, n, m));
    }
  }

  /** What a move adds to a runner's tokens was given by that move. */
  lemma LocalOwns(y: System, m: Move)
    requires SystemSound(y) && Enabled(y, m) && !m.Elsewhere? && HandsSound(y.nodes[m.rid])
    requires AllGiven(y.q, y.nodes[m.rid].owned)
    requires Enabled(System(y.q, map[m.rid := y.nodes[m.rid]]), m)
    ensures var n, n' := y.nodes[m.rid], Local(y.q, y.nodes[m.rid], m);
            && n.owned <= n'.owned
            && (forall t :: t in n'.owned && t !in n.owned ==>
                  Given(QueueAfter(y, m), t) && Leased(QueueAfter(y, m), t) && !Given(y.q, t))
  {
    hide R.Permits, Claim, TokensIn, Inv, Given, Leased;
    var n := y.nodes[m.rid];
    if m.ClaimRuns? {
      ClaimGives(y.q, n, n.r.pc.n, m.now, m.leaseMs);
    } else if m.LateClaimRuns? {
      ClaimGives(y.q, n, n.late[m.i], m.now, m.leaseMs);
    }
  }

  lemma GivenStays(q: State, q': State, owned: set<Token>)
    requires Evolves(q, q') && AllGiven(q, owned)
    ensures AllGiven(q', owned)
  {
    forall t | t in owned
      ensures Given(q', t)
    {
      IssuedStays(q, q', t.id, t);
    }
  }

  /** The node itself: nobody else's move touches what it has. */
  lemma NodeOwns(y: System, m: Move, rid: RunnerId)
    requires SystemSound(y) && Owned(y) && Enabled(y, m) && rid in y.nodes
    ensures var n, n' := y.nodes[rid], NodeAfter(y, m, rid);
            && HandsSound(n') && AllGiven(QueueAfter(y, m), n'.owned)
            && (m.Elsewhere? || m.rid != rid ==> n'.owned == n.owned)
            && (forall t :: t in n'.owned && t !in n.owned ==> !Given(y.q, t))
  {
    hide NodeSound, Local, Inv, Given, Leased, Evolves;
    QueueStaysSound(y, m);
    GivenStays(y.q, QueueAfter(y, m), y.nodes[rid].owned);
    if !m.Elsewhere? && m.rid == rid {
      EnabledAlone(y, m);
      LocalKeepsHands(y.q, y.nodes[rid], m);
      LocalOwns(y, m);
    }
  }

  lemma MoveKeepsOwned(y: System, m: Move)
    requires SystemSound(y) && Owned(y) && Enabled(y, m)
    ensures Owned(Next(y, m))
  {
    hide SystemSound, Enabled, NodeAfter, QueueAfter, HandsSound, Given;
    forall rid | rid in y.nodes
      ensures var n, n' := y.nodes[rid], NodeAfter(y, m, rid);
              && HandsSound(n') && AllGiven(QueueAfter(y, m), n'.owned)
              && (m.Elsewhere? || m.rid != rid ==> n'.owned == n.owned)
              && (forall t :: t in n'.owned && t !in n.owned ==> !Given(y.q, t))
    {
      NodeOwns(y, m, rid);
    }
  }

  lemma {:induction false} AlwaysOwned(y: System, ms: seq<Move>)
    requires SystemSound(y) && Owned(y) && AllEnabled(y, ms)
    ensures SystemSound(After(y, ms)) && Owned(After(y, ms))
    decreases |ms|
  {
    hide SystemSound, Enabled, Owned, Next;
    if ms != [] {
      MoveKeepsSound(y, ms[0]);
      MoveKeepsOwned(y, ms[0]);
      AlwaysOwned(Next(y, ms[0]), ms[1..]);
    }
  }

  /** At every moment of every run: no token was given to two runners, no two in-flight jobs anywhere have
      the same token, and of two in-flight jobs with the same id at most one holds that id's lease, so
      at most one of their acknowledgements can be accepted. */
  lemma OneHandlerPerLease(y: System, ms: seq<Move>, a: RunnerId, i: nat, b: RunnerId, j: nat)
    requires Initial(y) && AllEnabled(y, ms) && (a, i) != (b, j)
    ensures var y' := After(y, ms);
            a in y'.nodes && b in y'.nodes ==>
              && (a != b ==> y'.nodes[a].owned !! y'.nodes[b].owned)
              && (i in y'.nodes[a].r.inFlight && j in y'.nodes[b].r.inFlight ==>
                    var e, f := y'.nodes[a].r.inFlight[i], y'.nodes[b].r.inFlight[j];
                    && e.token != f.token
                    && (e.id == f.id ==> !(Holds(y'.q, e.id, e.token) && Holds(y'.q, f.id, f.token))))
  {
    InitialSound(y);
    AlwaysOwned(y, ms);
  }
}
