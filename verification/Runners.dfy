/** One worker runner: the claim loop, its wake handshake and its in-flight jobs
    (packages/worker/src/internal/worker-runner.ts). A step is the code between two awaits. */
module Runners {
  import opened Prelude
  import opened SortedSets
  import opened Jobs
  import opened Semaphores

  datatype Phase = Idle | Running | Stopping | Stopped

  /** One entry of a claim reply as the runner sees it: a decoded job, or a corrupt or undecodable one. */
  datatype Received = Healthy(id: Id, token: Token) | Unusable(id: Id)

  /** Where the claim loop is suspended. */
  datatype Pc =
    | NotStarted
    | WaitPermit                              // acquire() is pending
    | GotPermit                               // acquire() has resolved
    | AcquireFailed                           // acquire() has rejected: the signal aborted
    | Claiming(n: nat)                        // the claim call is out, with n permits held
    | Parked                                  // waiting for a notification
    | Woken                                   // the wait has resolved
    | Exited

  /** Where a job is between its claim and the end of its promise; Unheard is an acknowledgement that threw. */
  datatype Progress = Handling | Acking | Acked | Unheard

  datatype Entry = Entry(id: Id, token: Token, progress: Progress)

  /** `wakeResolve` says whether the resolver of a parked wait is installed. The keys of `inFlight`
      stand for the identities of the entry objects. */
  datatype Runner = Runner(
    sem: Sem,
    cap: nat,
    phase: Phase,
    aborted: bool,
    pc: Pc,
    wakeResolve: bool,
    wakePending: bool,
    inFlight: map<nat, Entry>,
    nextSlot: nat)

  /** The claim loop is the only caller that ever waits for a permit. */
  const LOOP: Waiter := 0

  function NewRunner(concurrency: nat, cap: nat): Runner {
    Runner(Sem(concurrency, 0, []), cap, Idle, false, NotStarted, false, false, map[], 0)
  }

  // ---------------------------------------------------------------- the steps

  /** Give one permit back; if the loop was waiting for it, acquire() resolves. */
  function ReleaseOne(r: Runner): Runner {
    var (sem, woken) := Release(r.sem);
    r.(sem := sem, pc := if woken.Some? then GotPermit else r.pc)
  }

  function ReleasePermits(r: Runner, count: int): Runner
    decreases Max(0, count)
  {
    if count <= 0 then r else ReleasePermits(ReleaseOne(r), count - 1)
  }

  /** The loop condition and the acquire that follows it. */
  function LoopTop(r: Runner): Runner {
    if r.phase != Running then r.(pc := Exited)
    else
      var (sem, outcome) := Acquire(r.sem, LOOP, r.aborted);
      r.(sem := sem, pc := match outcome
                           case Granted => GotPermit
                           case Queued => WaitPermit
                           case Rejected => AcquireFailed)
  }

  function Start(r: Runner): Runner {
    LoopTop(r.(phase := Running))
  }

  /** Permits the loop holds after topping up from one. */
  function TopUp(r: Runner): nat {
    Max(1, Min(r.cap, r.sem.max - r.sem.current + 1))
  }

  /** After acquire() resolved: give up if stopping, otherwise top up and send the claim. */
  function PermitResumes(r: Runner): Runner {
    if r.phase != Running then ReleaseOne(r).(pc := Exited)
    else
      var n := TopUp(r);
      r.(sem := r.sem.(current := r.sem.current + (n - 1)), pc := Claiming(n))
  }

  function WaitForNotification(r: Runner): Runner {
    if r.wakePending then r.(wakePending := false, pc := Woken)
    else r.(wakeResolve := true, pc := Parked)
  }

  function Dispatch(r: Runner, e: Received): Runner {
    match e
    case Unusable(_) => ReleaseOne(r)
    case Healthy(id, token) =>
      r.(inFlight := r.inFlight[r.nextSlot := Entry(id, token, Handling)], nextSlot := r.nextSlot + 1)
  }

  function DispatchAll(r: Runner, es: seq<Received>): Runner {
    if es == [] then r else Dispatch(DispatchAll(r, es[..|es| - 1]), es[|es| - 1])
  }

  /** After the claim call returned. */
  function ClaimReturns(r: Runner, es: seq<Received>): Runner
    requires r.pc.Claiming?
  {
    if es == [] then WaitForNotification(ReleasePermits(r, r.pc.n))
    else LoopTop(ReleasePermits(DispatchAll(r, es), r.pc.n - |es|))
  }

  /** After the claim call threw. */
  function ClaimThrows(r: Runner): Runner
    requires r.pc.Claiming?
  {
    WaitForNotification(ReleasePermits(r, r.pc.n))
  }

  /** A notification arrived. */
  function Wake(r: Runner): Runner {
    if r.wakeResolve then r.(wakeResolve := false, pc := Woken) else r.(wakePending := true)
  }

  /** The poll timer of a parked wait fired. */
  function PollFires(r: Runner): Runner {
    if r.wakeResolve then r.(wakeResolve := false, pc := Woken) else r
  }

  /** The synchronous part of stopClaiming. */
  function StopClaiming(r: Runner): Runner {
    if r.phase != Running then r
    else
      var (sem, rejected) := Abort(r.sem, LOOP);
      Wake(r.(phase := Stopping, aborted := true, sem := sem, pc := if rejected then AcquireFailed else r.pc))
  }

  /** The finally of a job's promise. */
  function JobSettles(r: Runner, slot: nat): Runner {
    ReleaseOne(r.(inFlight := r.inFlight - {slot}))
  }

  function SetProgress(r: Runner, slot: nat, p: Progress): Runner {
    if slot in r.inFlight then r.(inFlight := r.inFlight[slot := r.inFlight[slot].(progress := p)]) else r
  }

  // ---------------------------------------------------------------- the machine

  datatype Event =
    | Starts
    | PermitReady
    | Replies(es: seq<Received>)
    | Throws
    | Notified
    | Polls
    | LoopResumes
    | StopRequested
    | Progresses(slot: nat, progress: Progress)
    | Finishes(slot: nat)

  /** When an event can happen: a continuation runs only where its await has resolved, and a claim
      never returns more entries than it asked for. */
  predicate Enabled(r: Runner, e: Event) {
    match e
    case Starts => r.phase == Idle
    case PermitReady => r.pc.GotPermit?
    case Replies(es) => r.pc.Claiming? && |es| <= r.pc.n
    case Throws => r.pc.Claiming?
    case LoopResumes => r.pc.Woken? || r.pc.AcquireFailed?
    case Finishes(slot) => slot in r.inFlight
    case _ => true
  }

  function Next(r: Runner, e: Event): Runner
    requires Enabled(r, e)
  {
    match e
    case Starts => Start(r)
    case PermitReady => PermitResumes(r)
    case Replies(es) => ClaimReturns(r, es)
    case Throws => ClaimThrows(r)
    case Notified => Wake(r)
    case Polls => PollFires(r)
    case LoopResumes => if r.pc.Woken? then LoopTop(r) else r.(pc := Exited)
    case StopRequested => StopClaiming(r)
    case Progresses(slot, p) => SetProgress(r, slot, p)
    case Finishes(slot) => JobSettles(r, slot)
  }

  // ---------------------------------------------------------------- permits

  function HeldByLoop(pc: Pc): nat {
    match pc
    case GotPermit => 1
    case Claiming(n) => n
    case _ => 0
  }

  /** At every await: permits in use are those the loop holds plus one per unfinished job, never more
      than the concurrency; the loop waits for a permit only when all are taken; a resolver is
      installed exactly while the loop is parked. */
  predicate Permits(r: Runner) {
    && r.sem.max >= 1 && r.cap >= 1
    && r.sem.current == HeldByLoop(r.pc) + |r.inFlight|
    && r.sem.current <= r.sem.max
    && r.sem.waiters == (if r.pc.WaitPermit? then [LOOP] else [])
    && (r.pc.WaitPermit? ==> r.sem.current == r.sem.max)
    && (r.wakeResolve <==> r.pc.Parked?)
    && (forall slot :: slot in r.inFlight ==> slot < r.nextSlot)
    && (r.phase.Idle? <==> r.pc.NotStarted?)
    && (r.pc.Claiming? ==> r.pc.n >= 1)
    && (r.aborted <==> r.phase.Stopping? || r.phase.Stopped?)
  }

  lemma NewHasPermits(concurrency: nat, cap: nat)
    requires concurrency >= 1 && cap >= 1
    ensures Permits(NewRunner(concurrency, cap))
  {
  }

  /** Releasing with nobody waiting just counts down. */
  lemma {:induction false} ReleaseCounts(r: Runner, count: nat)
    requires r.sem.waiters == []
    ensures ReleasePermits(r, count) == r.(sem := r.sem.(current := r.sem.current - count))
    decreases count
  {
    if count > 0 {
      ReleaseCounts(ReleaseOne(r), count - 1);
    }
  }

  function HealthyCount(es: seq<Received>): nat {
    if es == [] then 0 else HealthyCount(es[..|es| - 1]) + (if es[|es| - 1].Healthy? then 1 else 0)
  }

  /** Dispatching turns one held permit into one in-flight job for each healthy entry, and gives the
      permit back for each unusable one. */
  lemma {:induction false} DispatchCounts(r: Runner, es: seq<Received>)
    requires r.sem.waiters == [] && forall slot :: slot in r.inFlight ==> slot < r.nextSlot
    ensures var d := DispatchAll(r, es);
            && |d.inFlight| == |r.inFlight| + HealthyCount(es)
            && d.sem == r.sem.(current := r.sem.current - (|es| - HealthyCount(es)))
            && HealthyCount(es) <= |es|
            && d == r.(sem := d.sem, inFlight := d.inFlight, nextSlot := d.nextSlot)
            && (forall slot :: slot in d.inFlight ==> slot < d.nextSlot)
    decreases |es|
  {
    if es != [] {
      DispatchCounts(r, es[..|es| - 1]);
      var d := DispatchAll(r, es[..|es| - 1]);
      if es[|es| - 1].Healthy? {
        assert d.nextSlot !in d.inFlight;
        assert DispatchAll(r, es).inFlight.Keys == d.inFlight.Keys + {d.nextSlot};
      }
    }
  }

  lemma LoopTopKeeps(r: Runner)
    requires Permits(r.(pc := Woken, wakeResolve := false)) && !r.phase.Idle? && !r.wakeResolve
    ensures Permits(LoopTop(r))
  {
  }

  lemma ReplyKeeps(r: Runner, es: seq<Received>)
    requires Permits(r) && r.pc.Claiming? && |es| <= r.pc.n
    ensures Permits(ClaimReturns(r, es))
  {
    if es == [] {
      ReleaseCounts(r, r.pc.n);
    } else {
      var d := DispatchAll(r, es);
      DispatchCounts(r, es);
      ReleaseCounts(d, r.pc.n - |es|);
      LoopTopKeeps(ReleasePermits(d, r.pc.n - |es|));
    }
  }

  lemma FinishKeepsPermits(r: Runner, slot: nat)
    requires Permits(r) && slot in r.inFlight
    ensures Permits(JobSettles(r, slot))
  {
  }

  lemma StopKeeps(r: Runner)
    requires Permits(r)
    ensures Permits(StopClaiming(r))
  {
  }

  /** Every step conserves permits. */
  lemma EventKeepsPermits(r: Runner, e: Event)
    requires Permits(r) && Enabled(r, e)
    ensures Permits(Next(r, e))
  {
    hide Permits, LoopTop, ClaimReturns, ClaimThrows, StopClaiming, JobSettles, SetProgress, PermitResumes, Start, Wake,
         PollFires;
    match e
    case Replies(es) => ReplyKeeps(r, es);
    case Throws => ThrowKeeps(r);
    case Finishes(slot) => FinishKeepsPermits(r, slot);
    case StopRequested => StopKeeps(r);
    case Progresses(slot, p) => ProgressKeeps(r, slot, p);
    case LoopResumes => ResumeKeeps(r);
    case PermitReady => PermitKeeps(r);
    case _ => SignalKeeps(r);
  }

  lemma ThrowKeeps(r: Runner)
    requires Permits(r) && r.pc.Claiming?
    ensures Permits(ClaimThrows(r))
  {
    ReleaseCounts(r, r.pc.n);
  }

  lemma ProgressKeeps(r: Runner, slot: nat, p: Progress)
    requires Permits(r)
    ensures Permits(SetProgress(r, slot, p))
  {
  }

  lemma ResumeKeeps(r: Runner)
    requires Permits(r) && (r.pc.Woken? || r.pc.AcquireFailed?)
    ensures Permits(Next(r, LoopResumes))
  {
  }

  lemma PermitKeeps(r: Runner)
    requires Permits(r) && r.pc.GotPermit?
    ensures Permits(PermitResumes(r))
  {
  }

  lemma SignalKeeps(r: Runner)
    requires Permits(r)
    ensures r.phase == Idle ==> Permits(Start(r))
    ensures Permits(Wake(r)) && Permits(PollFires(r))
  {
  }

  predicate AllEnabled(r: Runner, es: seq<Event>)
    decreases |es|
  {
    es == [] || (Enabled(r, es[0]) && AllEnabled(Next(r, es[0]), es[1..]))
  }

  function After(r: Runner, es: seq<Event>): Runner
    requires AllEnabled(r, es)
    decreases |es|
  {
    if es == [] then r else After(Next(r, es[0]), es[1..])
  }

  /** Whatever errors, aborts, empty, partial or corrupt replies happen, no permit is lost or invented. */
  lemma {:induction false} PermitsConserved(r: Runner, es: seq<Event>)
    requires Permits(r) && AllEnabled(r, es)
    ensures Permits(After(r, es))
    decreases |es|
  {
    hide Permits, Next, Enabled;
    if es != [] {
      EventKeepsPermits(r, es[0]);
      PermitsConserved(Next(r, es[0]), es[1..]);
    }
  }

  // ---------------------------------------------------------------- stopping

  /** A stopping loop is neither waiting for a permit nor parked, and if its claim call is out, a wake-up is
      pending, so that it will not park when the call is over. */
  predicate StopSound(r: Runner) {
    r.phase.Stopping? ==> !r.pc.WaitPermit? && !r.pc.Parked? && (r.pc.Claiming? ==> r.wakePending)
  }

  /** How many steps of its own the loop still takes once it has been told to stop. */
  function StepsLeft(pc: Pc): nat {
    match pc
    case Exited => 0
    case Claiming(_) => 2
    case _ => 1
  }

  /** The loop itself goes on, rather than something happening around it. */
  predicate IsLoopStep(e: Event) {
    e.PermitReady? || e.Replies? || e.Throws? || e.LoopResumes?
  }

  lemma EventKeepsStop(r: Runner, e: Event)
    requires Permits(r) && StopSound(r) && Enabled(r, e)
    ensures StopSound(Next(r, e))
    ensures r.phase.Stopping? ==>
              && Next(r, e).phase.Stopping?
              && StepsLeft(Next(r, e).pc) + (if IsLoopStep(e) then 1 else 0) <= StepsLeft(r.pc)
  {
    hide LoopTop, ClaimReturns, StopClaiming, JobSettles, PermitResumes;
    match e
    case Replies(es) => StopReplies(r, es);
    case Throws => ReleaseCounts(r, r.pc.n);
    case Finishes(slot) => StopSettles(r, slot);
    case StopRequested => StopRequests(r);
    case PermitReady => StopPermits(r);
    case LoopResumes => StopLoops(r);
    case Starts => StopLoops(r.(phase := Running));
    case _ =>
  }

  lemma StopReplies(r: Runner, es: seq<Received>)
    requires Permits(r) && StopSound(r) && r.pc.Claiming? && |es| <= r.pc.n
    ensures ClaimReturns(r, es).phase == r.phase
    ensures r.phase.Stopping? ==> ClaimReturns(r, es).pc.Exited? || ClaimReturns(r, es).pc.Woken?
  {
    DispatchCounts(r, es);
    ReleaseCounts(DispatchAll(r, es), r.pc.n - |es|);
    ReleaseCounts(r, r.pc.n);
  }

  lemma StopSettles(r: Runner, slot: nat)
    requires Permits(r)
    ensures JobSettles(r, slot).phase == r.phase && JobSettles(r, slot).wakePending == r.wakePending
    ensures !r.pc.WaitPermit? ==> JobSettles(r, slot).pc == r.pc
  {
  }

  lemma StopRequests(r: Runner)
    requires Permits(r) && StopSound(r)
    ensures StopSound(StopClaiming(r))
    ensures r.phase.Stopping? ==> StopClaiming(r) == r
  {
  }

  lemma StopPermits(r: Runner)
    requires r.pc.GotPermit?
    ensures PermitResumes(r).phase == r.phase && PermitResumes(r).wakePending == r.wakePending
    ensures r.phase.Stopping? ==> PermitResumes(r).pc.Exited?
  {
  }

  lemma StopLoops(r: Runner)
    ensures LoopTop(r).wakePending == r.wakePending
    ensures LoopTop(r).phase == r.phase
    ensures r.phase.Stopping? ==> LoopTop(r).pc.Exited?
  {
  }

  function LoopSteps(es: seq<Event>): nat {
    if es == [] then 0 else (if IsLoopStep(es[0]) then 1 else 0) + LoopSteps(es[1..])
  }

  /** Stopping comes to an end by itself. Once told to stop, the loop takes at most two more steps, whatever
      happens around it, and never sends another claim; and until it has exited, either its own claim call is
      out or its next step can be taken: it never waits for a handler, a permit or the poll timer. */
  lemma {:induction false} StoppingLoopExits(r: Runner, es: seq<Event>)
    requires Permits(r) && StopSound(r) && AllEnabled(r, es)
    ensures var r' := After(r, es);
            && Permits(r') && StopSound(r')
            && (r.phase.Stopping? ==>
                  && r'.phase.Stopping?
                  && LoopSteps(es) + StepsLeft(r'.pc) <= StepsLeft(r.pc) <= 2
                  && (r'.pc.Claiming? ==> r.pc.Claiming?)
                  && (r'.pc.Exited? || r'.pc.Claiming? || Enabled(r', PermitReady) || Enabled(r', LoopResumes)))
    decreases |es|
  {
    hide Next, Enabled, Permits, StopSound;
    if es == [] {
      if r.phase.Stopping? { StopCanGoOn(r); }
    } else {
      EventKeepsPermits(r, es[0]);
      EventKeepsStop(r, es[0]);
      StoppingLoopExits(Next(r, es[0]), es[1..]);
    }
  }

  lemma StopCanGoOn(r: Runner)
    requires Permits(r) && StopSound(r) && r.phase.Stopping?
    ensures r.pc.Exited? || r.pc.Claiming? || Enabled(r, PermitReady) || Enabled(r, LoopResumes)
  {
  }

  /** A claim asks for as many jobs as the loop can have permits, itself included, but no more than the cap, and
      holds exactly that many. */
  lemma ClaimAsksForTheBatch(r: Runner)
    requires Permits(r) && r.pc.GotPermit? && r.phase.Running?
    ensures var r', free := PermitResumes(r), r.sem.max - r.sem.current;
            && r'.pc == Claiming(Min(r.cap, free + 1))
            && r'.sem.current == r.sem.current - 1 + Min(r.cap, free + 1) && r'.sem.max == r.sem.max
            && 1 <= Min(r.cap, free + 1)
  {
  }

  // ---------------------------------------------------------------- notifications are spent

  /** A wait that returned at once, on the strength of a notification that had come before. */
  predicate SkipsWait(r: Runner, e: Event)
    requires Enabled(r, e)
  {
    ((e.Replies? && e.es == []) || e.Throws?) && Next(r, e).pc.Woken?
  }

  /** A call of wake(). */
  predicate IsWake(e: Event) {
    e.Notified? || e.StopRequested?
  }

  function Skips(r: Runner, es: seq<Event>): nat
    requires AllEnabled(r, es)
    decreases |es|
  {
    if es == [] then 0 else (if SkipsWait(r, es[0]) then 1 else 0) + Skips(Next(r, es[0]), es[1..])
  }

  function Wakes(es: seq<Event>): nat {
    if es == [] then 0 else (if IsWake(es[0]) then 1 else 0) + Wakes(es[1..])
  }

  function Pending(r: Runner): nat {
    if r.wakePending then 1 else 0
  }

  lemma EventSpends(r: Runner, e: Event)
    requires Permits(r) && Enabled(r, e)
    ensures (if SkipsWait(r, e) then 1 else 0) + Pending(Next(r, e)) <= Pending(r) + (if IsWake(e) then 1 else 0)
    ensures (e.Replies? && e.es == []) || e.Throws? ==>
              (SkipsWait(r, e) <==> r.wakePending) && !Next(r, e).wakePending
  {
    hide LoopTop, JobSettles, PermitResumes;
    match e
    case Replies(es) =>
      DispatchCounts(r, es);
      ReleaseCounts(DispatchAll(r, es), r.pc.n - |es|);
      ReleaseCounts(r, r.pc.n);
      StopLoops(ReleasePermits(DispatchAll(r, es), r.pc.n - |es|));
    case Throws => ReleaseCounts(r, r.pc.n);
    case Finishes(slot) => StopSettles(r, slot);
    case PermitReady => StopPermits(r);
    case LoopResumes => StopLoops(r);
    case Starts => StopLoops(r.(phase := Running));
    case _ =>
  }

  /** Every notification is used up at most once: over any run, the waits that return at once are no more than
      the wakes, the one remembered at the start included. */
  lemma {:induction false} NotificationsAreSpent(r: Runner, es: seq<Event>)
    requires Permits(r) && AllEnabled(r, es)
    ensures Skips(r, es) + Pending(After(r, es)) <= Pending(r) + Wakes(es)
    decreases |es|
  {
    hide Next, Enabled, Permits, SkipsWait, IsWake;
    if es != [] {
      EventKeepsPermits(r, es[0]);
      EventSpends(r, es[0]);
      NotificationsAreSpent(Next(r, es[0]), es[1..]);
    }
  }

  // ---------------------------------------------------------------- running

  /** A running loop has not exited and is not about to. */
  predicate Alive(r: Runner) {
    r.phase.Running? ==> !r.pc.Exited? && !r.pc.AcquireFailed? && !r.pc.NotStarted?
  }

  lemma EventKeepsAlive(r: Runner, e: Event)
    requires Permits(r) && Alive(r) && Enabled(r, e)
    ensures Alive(Next(r, e))
  {
    hide LoopTop, JobSettles, PermitResumes, ReleasePermits;
    match e
    case Replies(es) =>
      DispatchCounts(r, es);
      ReleaseCounts(DispatchAll(r, es), r.pc.n - |es|);
      ReleaseCounts(r, r.pc.n);
      LoopTopAlive(ReleasePermits(DispatchAll(r, es), r.pc.n - |es|));
    case Throws => ReleaseCounts(r, r.pc.n);
    case Finishes(slot) => SettlesAlive(r, slot);
    case PermitReady => PermitAlive(r);
    case LoopResumes => LoopTopAlive(r);
    case Starts => LoopTopAlive(r.(phase := Running));
    case _ =>
  }

  lemma LoopTopAlive(r: Runner)
    requires r.phase.Running? ==> !r.aborted
    ensures LoopTop(r).phase == r.phase
    ensures r.phase.Running? ==> LoopTop(r).pc.GotPermit? || LoopTop(r).pc.WaitPermit?
  {
  }

  lemma SettlesAlive(r: Runner, slot: nat)
    ensures JobSettles(r, slot).phase == r.phase
    ensures JobSettles(r, slot).pc == r.pc || JobSettles(r, slot).pc.GotPermit?
  {
  }

  lemma PermitAlive(r: Runner)
    ensures PermitResumes(r).phase == r.phase
    ensures r.phase.Running? ==> PermitResumes(r).pc.Claiming?
  {
  }

  /** Until it is told to stop the loop never exits, whatever fails around it: at every moment it waits for a
      permit while all are taken, its claim call is out, it is parked, or its next step can be taken. */
  lemma {:induction false} RunningLoopLives(r: Runner, es: seq<Event>)
    requires Permits(r) && Alive(r) && AllEnabled(r, es)
    ensures var r' := After(r, es);
            && Permits(r') && Alive(r')
            && (r'.phase.Running? ==>
                  || (r'.pc.WaitPermit? && |r'.inFlight| == r'.sem.max)
                  || r'.pc.Claiming? || r'.pc.Parked? || Enabled(r', PermitReady) || Enabled(r', LoopResumes))
    decreases |es|
  {
    if es != [] {
      hide Next, Enabled, Permits, Alive;
      EventKeepsPermits(r, es[0]);
      EventKeepsAlive(r, es[0]);
      RunningLoopLives(Next(r, es[0]), es[1..]);
    }
  }
}
