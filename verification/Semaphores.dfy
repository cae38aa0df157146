/** The counting semaphore that bounds a runner's concurrent jobs (packages/worker/src/semaphore.ts). */
module Semaphores {
  import opened Prelude

  /** A pending acquire, by identity. */
  type Waiter = nat

  datatype Sem = Sem(max: nat, current: int, waiters: seq<Waiter>)

  datatype Acquired = Granted | Queued | Rejected

  function Acquire(s: Sem, w: Waiter, aborted: bool): (Sem, Acquired) {
    if aborted then (s, Rejected)
    else if s.current < s.max then (s.(current := s.current + 1), Granted)
    else (s.(waiters := s.waiters + [w]), Queued)
  }

  function TryAcquire(s: Sem): (Sem, bool) {
    if s.current < s.max then (s.(current := s.current + 1), true) else (s, false)
  }

  /** A released permit goes straight to the waiter that came first, if there is one. */
  function Release(s: Sem): (Sem, Option<Waiter>) {
    if s.waiters != [] then (s.(waiters := s.waiters[1..]), Some(s.waiters[0]))
    else (s.(current := s.current - 1), None)
  }

  function Without(ws: seq<Waiter>, w: Waiter): seq<Waiter> {
    if ws == [] then [] else if ws[0] == w then ws[1..] else [ws[0]] + Without(ws[1..], w)
  }

  /** The abort listener: true when the waiter was still queued and is now rejected. */
  function Abort(s: Sem, w: Waiter): (Sem, bool) {
    if w in s.waiters then (s.(waiters := Without(s.waiters, w)), true) else (s, false)
  }

  // ---------------------------------------------------------------- whole histories

  datatype Use = AcquireBy(w: Waiter, aborted: bool) | TryOnce | ReleaseOne | AbortOf(w: Waiter)

  /** What has happened: permits out, waiters in order of arrival, waiters in order of service, those whose
      signal aborted while they were queued, and requests turned away without a reason. */
  datatype History = History(held: int, arrived: seq<Waiter>, served: seq<Waiter>, dropped: set<Waiter>, denied: nat)

  function Apply(s: Sem, h: History, u: Use): (Sem, History) {
    match u
    case AcquireBy(w, aborted) =>
      var (s', outcome) := Acquire(s, w, aborted);
      (s', if aborted then h
           else match outcome
                case Granted => h.(held := h.held + 1)
                case Queued => h.(arrived := h.arrived + [w])
                case Rejected => h.(denied := h.denied + 1))
    case TryOnce =>
      var (s', taken) := TryAcquire(s);
      (s', if taken then h.(held := h.held + 1) else if h.held < s.max then h.(denied := h.denied + 1) else h)
    case ReleaseOne =>
      var (s', woken) := Release(s);
      (s', if woken.Some? then h.(served := h.served + [woken.value]) else h.(held := h.held - 1))
    case AbortOf(w) =>
      var (s', rejected) := Abort(s, w);
      (s', if rejected then h.(dropped := h.dropped + {w}) else h)
  }

  /** Callers release only permits they hold, and each acquire call is its own waiter. */
  predicate Proper(h: History, u: Use) {
    (u.ReleaseOne? ==> h.held > 0) && (u.AcquireBy? ==> u.w !in h.arrived && u.w !in h.dropped)
  }

  function Kept(ws: seq<Waiter>, dropped: set<Waiter>): seq<Waiter> {
    if ws == [] then []
    else Kept(ws[..|ws| - 1], dropped) + (if ws[|ws| - 1] in dropped then [] else [ws[|ws| - 1]])
  }

  ghost predicate Distinct(ws: seq<Waiter>) {
    forall i, j :: 0 <= i < j < |ws| ==> ws[i] != ws[j]
  }

  /** The count is the number of permits out and never above the maximum; nobody waits while a permit
      is free, and nobody is turned away then; an aborted request gets nothing; service is first come, first
      served among those that did not abort. */
  ghost predicate Sound(s: Sem, h: History) {
    && s.current == h.held && 0 <= h.held <= s.max && h.denied == 0
    && (s.waiters != [] ==> s.current == s.max)
    && Distinct(h.arrived)
    && Kept(h.arrived, h.dropped) == h.served + s.waiters
    && (forall w :: w in h.dropped ==> w in h.arrived)
  }

  lemma {:induction false} KeptMembers(ws: seq<Waiter>, dropped: set<Waiter>, w: Waiter)
    ensures w in Kept(ws, dropped) <==> w in ws && w !in dropped
    decreases |ws|
  {
    if ws != [] {
      assert ws == ws[..|ws| - 1] + [ws[|ws| - 1]];
      KeptMembers(ws[..|ws| - 1], dropped, w);
    }
  }

  lemma {:induction false} WithoutAbsent(ws: seq<Waiter>, w: Waiter)
    requires w !in ws
    ensures Without(ws, w) == ws
    decreases |ws|
  {
    if ws != [] {
      WithoutAbsent(ws[1..], w);
    }
  }

  lemma {:induction false} WithoutPrefix(a: seq<Waiter>, b: seq<Waiter>, w: Waiter)
    ensures w !in a ==> Without(a + b, w) == a + Without(b, w)
    ensures w !in b ==> Without(a + b, w) == Without(a, w) + b
    decreases |a|
  {
    if a == [] {
      assert a + b == b;
      if w !in b {
        WithoutAbsent(b, w);
      }
    } else {
      assert (a + b)[1..] == a[1..] + b;
      WithoutPrefix(a[1..], b, w);
    }
  }

  lemma WithoutAt(ws: seq<Waiter>, w: Waiter, i: nat)
    requires i <= |ws| && w !in ws[..i] && (i < |ws| ==> ws[i] == w)
    ensures w in ws <==> i < |ws|
    ensures i < |ws| ==> Without(ws, w) == ws[..i] + ws[i + 1..]
  {
    assert ws == ws[..i] + ws[i..];
    WithoutPrefix(ws[..i], ws[i..], w);
  }

  /** Dropping one more waiter removes just it. */
  lemma {:induction false} KeptDrop(ws: seq<Waiter>, dropped: set<Waiter>, w: Waiter)
    requires Distinct(ws) && w !in dropped
    ensures Kept(ws, dropped + {w}) == Without(Kept(ws, dropped), w)
    decreases |ws|
  {
    if ws != [] {
      var init, last := ws[..|ws| - 1], ws[|ws| - 1];
      KeptDrop(init, dropped, w);
      KeptMembers(init, dropped, w);
      if last == w {
        assert w !in init;
        WithoutPrefix(Kept(init, dropped), [w], w);
        WithoutAbsent(Kept(init, dropped), w);
        assert Without([w], w) == [];
      } else {
        WithoutPrefix(Kept(init, dropped), if last in dropped then [] else [last], w);
      }
    }
  }

  lemma {:induction false} KeptDistinct(ws: seq<Waiter>, dropped: set<Waiter>)
    requires Distinct(ws)
    ensures Distinct(Kept(ws, dropped))
    decreases |ws|
  {
    if ws != [] {
      var init, last := ws[..|ws| - 1], ws[|ws| - 1];
      KeptDistinct(init, dropped);
      KeptMembers(init, dropped, last);
      assert last !in init;
    }
  }

  lemma AbortStaysFifo(s: Sem, h: History, w: Waiter)
    requires Sound(s, h) && w in s.waiters
    ensures Kept(h.arrived, h.dropped + {w}) == h.served + Without(s.waiters, w)
    ensures w in h.arrived
  {
    assert w in h.served + s.waiters;
    KeptMembers(h.arrived, h.dropped, w);
    KeptDrop(h.arrived, h.dropped, w);
    KeptDistinct(h.arrived, h.dropped);
    var i :| 0 <= i < |s.waiters| && s.waiters[i] == w;
    assert (h.served + s.waiters)[|h.served| + i] == w;
    assert forall k :: 0 <= k < |h.served| ==> (h.served + s.waiters)[k] == h.served[k];
    assert w !in h.served;
    WithoutPrefix(h.served, s.waiters, w);
  }

  lemma UseKeeps(s: Sem, h: History, u: Use)
    requires Sound(s, h) && Proper(h, u)
    ensures Sound(Apply(s, h, u).0, Apply(s, h, u).1)
  {
    match u
    case AcquireBy(w, aborted) =>
      if !aborted && s.current >= s.max {
        assert (h.arrived + [w])[..|h.arrived|] == h.arrived;
        assert h.served + s.waiters + [w] == h.served + (s.waiters + [w]);
      }
    case ReleaseOne =>
      if s.waiters != [] {
        assert h.served + [s.waiters[0]] + s.waiters[1..] == h.served + s.waiters;
      }
    case AbortOf(w) =>
      if w in s.waiters {
        AbortStaysFifo(s, h, w);
        assert Without(s.waiters, w) != [] ==> s.waiters != [];
      }
    case TryOnce =>
  }

  function UseAll(s: Sem, h: History, us: seq<Use>): (Sem, History)
    decreases |us|
  {
    if us == [] then (s, h)
    else
      var (s1, h1) := Apply(s, h, us[0]);
      UseAll(s1, h1, us[1..])
  }

  predicate AllProper(s: Sem, h: History, us: seq<Use>)
    decreases |us|
  {
    us == [] || (Proper(h, us[0]) && AllProper(Apply(s, h, us[0]).0, Apply(s, h, us[0]).1, us[1..]))
  }

  /** Over any proper use, the semaphore is sound: permits are conserved and service is FIFO. */
  lemma {:induction false} SemaphoreIsSound(s: Sem, h: History, us: seq<Use>)
    requires Sound(s, h) && AllProper(s, h, us)
    ensures Sound(UseAll(s, h, us).0, UseAll(s, h, us).1)
    decreases |us|
  {
    hide Apply, Sound;
    if us != [] {
      UseKeeps(s, h, us[0]);
      SemaphoreIsSound(Apply(s, h, us[0]).0, Apply(s, h, us[0]).1, us[1..]);
    }
  }
}

/** The semaphore object itself. */
module SemaphoreObjects {
  import opened Prelude
  import S = Semaphores

  class Semaphore {
    const max: nat
    var current: int
    var waiters: seq<S.Waiter>

    function Contents(): S.Sem
      reads this
    {
      S.Sem(max, current, waiters)
    }

    constructor (max: nat)
      requires max >= 1
      ensures Contents() == S.Sem(max, 0, [])
    {
      this.max := max;
      current, waiters := 0, [];
    }

    function Available(): int
      reads this
    {
      max - current
    }

    method Acquire(w: S.Waiter, aborted: bool) returns (outcome: S.Acquired)
      modifies this
      ensures (Contents(), outcome) == S.Acquire(old(Contents()), w, aborted)
    {
      if aborted {
        return S.Rejected;
      }
      if current < max {
        current := current + 1;
        return S.Granted;
      }
      waiters := waiters + [w];
      return S.Queued;
    }

    /** indexOf and splice. */
    method OnAbort(w: S.Waiter) returns (rejected: bool)
      modifies this
      ensures (Contents(), rejected) == S.Abort(old(Contents()), w)
    {
      var idx := 0;
      while idx < |waiters| && waiters[idx] != w
        invariant idx <= |waiters| && waiters == old(waiters)
        invariant w !in waiters[..idx]
      {
        idx := idx + 1;
      }
      S.WithoutAt(waiters, w, idx);
      if idx < |waiters| {
        waiters := waiters[..idx] + waiters[idx + 1..];
        return true;
      }
      return false;
    }

    method TryAcquire() returns (taken: bool)
      modifies this
      ensures (Contents(), taken) == S.TryAcquire(old(Contents()))
    {
      if current < max {
        current := current + 1;
        return true;
      }
      return false;
    }

    method Release() returns (woken: Option<S.Waiter>)
      modifies this
      ensures (Contents(), woken) == S.Release(old(Contents()))
    {
      if |waiters| > 0 {
        var next := waiters[0];
        waiters := waiters[1..];
        return Some(next);
      }
      current := current - 1;
      return None;
    }
  }
}
