/** The runner object: each method is the code between two awaits, proved to do the step of the
    same name in Runners. */
module WorkerRunners {
  import opened Prelude
  import opened SemaphoreObjects
  import R = Runners

  class WorkerRunner {
    const semaphore: Semaphore
    const claimBatchCap: nat
    var state: R.Phase
    var aborted: bool
    var pc: R.Pc
    var wakeResolve: bool
    var wakePending: bool
    var inFlight: map<nat, R.Entry>
    var nextSlot: nat

    ghost function Contents(): R.Runner
      reads this, semaphore
    {
      R.Runner(semaphore.Contents(), claimBatchCap, state, aborted, pc, wakeResolve, wakePending, inFlight, nextSlot)
    }

    constructor (concurrency: nat, cap: nat)
      requires concurrency >= 1
      ensures Contents() == R.NewRunner(concurrency, cap) && fresh(semaphore)
    {
      semaphore := new Semaphore(concurrency);
      claimBatchCap := cap;
      state, aborted, pc := R.Idle, false, R.NotStarted;
      wakeResolve, wakePending, inFlight, nextSlot := false, false, map[], 0;
    }

    method ReleaseOne()
      modifies this`pc, semaphore
      ensures Contents() == R.ReleaseOne(old(Contents()))
    {
      var woken := semaphore.Release();
      if woken.Some? {
        pc := R.GotPermit;
      }
    }

    method ReleasePermits(count: int)
      modifies this`pc, semaphore
      ensures Contents() == R.ReleasePermits(old(Contents()), count)
    {
      var i := 0;
      while i < count
        invariant i == 0 || i <= count
        invariant R.ReleasePermits(Contents(), count - i) == R.ReleasePermits(old(Contents()), count)
      {
        ReleaseOne();
        i := i + 1;
      }
    }

    /** The loop condition, and the acquire if it holds. */
    method LoopTop()
      modifies this`pc, semaphore
      ensures Contents() == R.LoopTop(old(Contents()))
    {
      if state != R.Running {
        pc := R.Exited;
        return;
      }
      var outcome := semaphore.Acquire(R.LOOP, aborted);
      match outcome
      case Granted => pc := R.GotPermit;
      case Queued => pc := R.WaitPermit;
      case Rejected => pc := R.AcquireFailed;
    }

    /** Runners are single-shot: false is the error thrown in any other state than idle. */
    method Start() returns (started: bool)
      modifies this`state, this`pc, semaphore
      ensures started <==> old(state) == R.Idle
      ensures Contents() == if started then R.Start(old(Contents())) else old(Contents())
    {
      if state != R.Idle {
        return false;
      }
      state := R.Running;
      LoopTop();
      return true;
    }

    method PermitResumes()
      modifies this`pc, semaphore
      ensures Contents() == R.PermitResumes(old(Contents()))
    {
      if state != R.Running {
        ReleaseOne();
        pc := R.Exited;
        return;
      }
      var n := 1;
      var target := Min(claimBatchCap, semaphore.Available() + 1);
      while n < target
        invariant 1 <= n <= Max(1, target)
        invariant semaphore.Contents() == old(semaphore.Contents()).(current := old(semaphore.current) + (n - 1))
      {
        var taken := semaphore.TryAcquire();
        if !taken {
          break;
        }
        n := n + 1;
      }
      pc := R.Claiming(n);
    }

    method WaitForNotification()
      modifies this`pc, this`wakeResolve, this`wakePending
      ensures Contents() == R.WaitForNotification(old(Contents()))
    {
      if wakePending {
        wakePending := false;
        pc := R.Woken;
        return;
      }
      wakeResolve := true;
      pc := R.Parked;
    }

    method ClaimThrows()
      requires pc.Claiming?
      modifies this, semaphore
      ensures Contents() == R.ClaimThrows(old(Contents()))
    {
      ReleasePermits(pc.n);
      WaitForNotification();
    }

    method ClaimReturns(jobs: seq<R.Received>)
      requires pc.Claiming?
      modifies this, semaphore
      ensures Contents() == R.ClaimReturns(old(Contents()), jobs)
    {
      var n := pc.n;
      if |jobs| == 0 {
        ReleasePermits(n);
        WaitForNotification();
        return;
      }
      for i := 0 to |jobs|
        invariant Contents() == R.DispatchAll(old(Contents()), jobs[..i])
      {
        match jobs[i] {
          case Unusable(_) =>
            ReleaseOne();
          case Healthy(id, token) =>
            inFlight := inFlight[nextSlot := R.Entry.Entry(id, token, R.Handling)];
            nextSlot := nextSlot + 1;
        }
        assert jobs[..i + 1][..i] == jobs[..i];
      }
      assert jobs[..|jobs|] == jobs;
      ReleasePermits(n - |jobs|);
      LoopTop();
    }

    method Wake()
      modifies this`wakeResolve, this`wakePending, this`pc
      ensures Contents() == R.Wake(old(Contents()))
    {
      if wakeResolve {
        wakeResolve := false;
        pc := R.Woken;
      } else {
        wakePending := true;
      }
    }

    method PollFires()
      modifies this`wakeResolve, this`pc
      ensures Contents() == R.PollFires(old(Contents()))
    {
      if wakeResolve {
        wakeResolve := false;
        pc := R.Woken;
      }
    }

    method StopClaiming()
      modifies this, semaphore
      ensures Contents() == R.StopClaiming(old(Contents()))
    {
      if state != R.Running {
        return;
      }
      state := R.Stopping;
      aborted := true;
      var rejected := semaphore.OnAbort(R.LOOP);
      if rejected {
        pc := R.AcquireFailed;
      }
      Wake();
    }

    method JobSettles(slot: nat)
      modifies this`inFlight, this`pc, semaphore
      ensures Contents() == R.JobSettles(old(Contents()), slot)
    {
      inFlight := inFlight - {slot};
      ReleaseOne();
    }
  }
}
