/** The cross-process limit over whole runs, and the versioned rule that declares it. */
module Limits {
  import opened Prelude
  import opened SortedSets
  import opened Retention
  import opened Jobs
  import opened Scripts
  import opened Protocol
  import opened Finishing
  import opened Batching

  // ---------------------------------------------------------------- the limit

  lemma {:induction false} ClaimManyAdds(s: State, n: nat, now: nat, deadline: nat)
    ensures |ClaimMany(s, n, now, deadline).0.active| <= |s.active| + n
    decreases n
  {
    hide ClaimMany, ClaimOne;
    ClaimUnfold(s, n, now, deadline);
    if n > 0 && s.waiting != [] {
      ClaimOneAdds(s, now, deadline);
      ClaimManyAdds(ClaimOne(s, now, deadline).0, n - 1, now, deadline);
    }
  }

  lemma ClaimOneAdds(s: State, now: nat, deadline: nat)
    requires s.waiting != []
    ensures |ClaimOne(s, now, deadline).0.active| <= |s.active| + 1
  {
  }

  /** A claim under limit L ends with at most max(before, L) active jobs, whatever it asks for. */
  lemma ClaimWithinLimit(s: State, count: int, now: nat, leaseMs: nat, limit: int)
    requires s.concurrency.limit == Some(limit)
    ensures |Claim(s, count, now, leaseMs).0.active| <= Max(|s.active|, limit)
  {
    hide ClaimMany;
    ClaimManyAdds(s, Allowance(s, count), now, now + leaseMs);
  }

  lemma LeavingShrinks(s: State, s': State, id: Id)
    requires s' == s || LeftActive(s, s', id) || WentBack(s, s', id)
    ensures |s'.active| <= |s.active|
  {
  }

  lemma AckShrinks(s: State, id: Id, token: Token, text: string, now: nat, r: Resolved)
    ensures |Complete(s, id, token, now, r).0.active| <= |s.active|
    ensures |Fail(s, id, token, text, now, r).0.active| <= |s.active|
    ensures |Requeue(s, id, token, text, now).0.active| <= |s.active|
  {
    hide Complete, Fail, Requeue;
    if Holds(s, id, token) {
      CompleteEffect(s, id, token, now, r);
      FailEffect(s, id, token, text, now, r);
      RequeueEffect(s, id, token, text, now);
    } else {
      DeadCallsChangeNothing(s, id, token, text, now, 0, r);
    }
    LeavingShrinks(s, Complete(s, id, token, now, r).0, id);
    LeavingShrinks(s, Fail(s, id, token, text, now, r).0, id);
    LeavingShrinks(s, Requeue(s, id, token, text, now).0, id);
  }

  lemma SweepShrinks(s: State, batch: int, now: nat, reason: string, r: Resolved)
    ensures |Recover(s, batch, now, reason, r).0.active| <= |s.active|
  {
    hide Sweep;
    SweepTakesTheExpired(s, SweepBound(s, batch), now, reason, r);
  }

  /** Only a claim makes `active` grow. */
  lemma OnlyClaimGrows(s: State, a: Action)
    requires !a.DoClaim?
    ensures |Step(s, a).active| <= |s.active|
  {
    hide Enqueue, Extend, Complete, Fail, Requeue, Recover;
    match a
    case DoComplete(id, token, now, r) => AckShrinks(s, id, token, "", now, r);
    case DoFail(id, token, error, now, r) => AckShrinks(s, id, token, error, now, r);
    case DoRequeue(id, token, reason, now) => AckShrinks(s, id, token, reason, now, Resolved(Keep, -1, -1));
    case DoRecover(batch, now, reason, r) => SweepShrinks(s, batch, now, reason, r);
    case DoEnqueue(id, payload, maxRetries, maxStalls, now) => EnqueueActive(s, id, payload, maxRetries, maxStalls, now);
    case DoExtend(id, token, now, leaseMs) => ExtendNeverAdds(s, id, token, now, leaseMs);
    case _ =>
  }

  lemma EnqueueActive(s: State, id: Id, payload: string, maxRetries: int, maxStalls: int, now: nat)
    ensures Enqueue(s, id, payload, maxRetries, maxStalls, now).0.active == s.active
  {
  }

  /** Whatever the state, extending never adds a job to `active` or takes one away. */
  lemma ExtendNeverAdds(s: State, id: Id, token: Token, now: nat, leaseMs: nat)
    ensures Extend(s, id, token, now, leaseMs).0.active.Keys == s.active.Keys
    ensures |Extend(s, id, token, now, leaseMs).0.active| == |s.active|
  {
  }

  /** The stored limit is L at every point of the run. */
  predicate LimitStays(s: State, acts: seq<Action>, limit: int)
    decreases |acts|
  {
    s.concurrency.limit == Some(limit) && (acts == [] || LimitStays(Step(s, acts[0]), acts[1..], limit))
  }

  /** While the limit is L, active jobs never exceed max(start, L): at or below L they stay there, and
      above it (after a lowering) they never grow. */
  lemma {:induction false} LimitHolds(s: State, acts: seq<Action>, limit: int)
    requires LimitStays(s, acts, limit)
    ensures |Run(s, acts).active| <= Max(|s.active|, limit)
    decreases |acts|
  {
    if acts != [] {
      hide Enqueue, ClaimMany, Extend, Complete, Fail, Requeue, Sweep, Declare;
      var a := acts[0];
      if a.DoClaim? {
        ClaimWithinLimit(s, a.count, a.now, a.leaseMs, limit);
      } else {
        OnlyClaimGrows(s, a);
      }
      LimitHolds(Step(s, a), acts[1..], limit);
    }
  }

  // ---------------------------------------------------------------- declaring it

  datatype Declaration = Declaration(limit: int, version: int)

  function DeclareAll(c: Concurrency, ds: seq<Declaration>): Concurrency {
    if ds == [] then c
    else
      var last := |ds| - 1;
      Declare(DeclareAll(c, ds[..last]), ds[last].limit, ds[last].version).0
  }

  /** The answer the k-th declaration gets. */
  function Answer(c: Concurrency, ds: seq<Declaration>, k: nat): Declared
    requires k < |ds|
  {
    Declare(DeclareAll(c, ds[..k]), ds[k].limit, ds[k].version).1
  }

  ghost predicate Consistent(ds: seq<Declaration>) {
    forall i, j :: 0 <= i < |ds| && 0 <= j < |ds| && ds[i].version == ds[j].version ==> ds[i].limit == ds[j].limit
  }

  ghost predicate IsHighest(d: Declaration, ds: seq<Declaration>) {
    d in ds && forall e :: e in ds ==> e.version <= d.version
  }

  /** From an absent record, the store holds a declaration of the highest version seen, and it was
      answered "written" when it arrived. */
  lemma {:induction false} StoredIsHighest(ds: seq<Declaration>) returns (w: nat)
    requires ds != []
    ensures w < |ds| && IsHighest(ds[w], ds) && Answer(UNSET, ds, w) == Written
    ensures DeclareAll(UNSET, ds) == Concurrency(Some(ds[w].limit), Some(ds[w].version))
    decreases |ds|
  {
    var last := |ds| - 1;
    var before := ds[..last];
    assert forall e :: e in ds <==> e in before || e == ds[last];
    if before == [] {
      w := last;
    } else {
      var v := StoredIsHighest(before);
      assert before[..v] == ds[..v];
      w := if ds[last].version > before[v].version then last else v;
    }
  }

  /** If equal versions carry equal limits, every order of the same declarations stores the highest
      version's limit, and nobody is told "conflict". */
  lemma DeclarationsConverge(ds: seq<Declaration>, es: seq<Declaration>)
    requires Consistent(ds) && multiset(ds) == multiset(es) && ds != []
    ensures DeclareAll(UNSET, ds) == DeclareAll(UNSET, es)
    ensures forall k :: 0 <= k < |es| ==> Answer(UNSET, es, k) != Conflict
    ensures exists d :: IsHighest(d, ds) && DeclareAll(UNSET, es) == Concurrency(Some(d.limit), Some(d.version))
  {
    SameElements(ds, es);
    var v := StoredIsHighest(ds);
    var w := StoredIsHighest(es);
    assert ds[v] in es && es[w] in ds;
    assert forall i :: 0 <= i < |es| ==> es[i] in ds;
    forall k | 0 <= k < |es|
      ensures Answer(UNSET, es, k) != Conflict
    {
      if Answer(UNSET, es, k) == Conflict {
        var j := ConflictHasCause(es, k);
      }
    }
  }

  /** Consistency is needed: two declarations that disagree conflict in the orders that bring them first. */
  lemma InconsistencyShows(ds: seq<Declaration>) returns (es: seq<Declaration>)
    requires !Consistent(ds)
    ensures multiset(es) == multiset(ds) && |es| >= 2 && Answer(UNSET, es, 1) == Conflict
  {
    var i, j :| 0 <= i < j < |ds| && ds[i].version == ds[j].version && ds[i].limit != ds[j].limit;
    var rest := ds[..i] + ds[i + 1..j] + ds[j + 1..];
    es := [ds[i], ds[j]] + rest;
    hide Answer;
    assert ds == ds[..i] + [ds[i]] + ds[i + 1..j] + [ds[j]] + ds[j + 1..];
    TwoDisagree(ds[i], ds[j], rest);
  }

  lemma TwoDisagree(d: Declaration, e: Declaration, rest: seq<Declaration>)
    requires d.version == e.version && d.limit != e.limit
    ensures Answer(UNSET, [d, e] + rest, 1) == Conflict
  {
    assert ([d, e] + rest)[..1] == [d] && [d][..0] == [];
    assert DeclareAll(UNSET, []) == UNSET;
  }

  lemma SameElements(ds: seq<Declaration>, es: seq<Declaration>)
    requires multiset(ds) == multiset(es)
    ensures forall d :: d in ds <==> d in es
    ensures ds != [] ==> es != []
  {
    forall d
      ensures d in ds <==> d in es
    {
      assert d in multiset(ds) <==> d in multiset(es);
    }
    assert |ds| == |multiset(ds)| && |es| == |multiset(es)|;
  }

  /** In any list, "conflict" means that version was written before with another limit. */
  lemma ConflictHasCause(ds: seq<Declaration>, k: nat) returns (j: nat)
    requires k < |ds| && Answer(UNSET, ds, k) == Conflict
    ensures j < k && Answer(UNSET, ds, j) == Written
    ensures ds[j].version == ds[k].version && ds[j].limit != ds[k].limit
  {
    j := StoredIsHighest(ds[..k]);
    assert ds[..k][..j] == ds[..j];
  }

  /** The stored version never goes down, whatever was stored to begin with. */
  lemma {:induction false} VersionsOnlyRise(c: Concurrency, ds: seq<Declaration>, k: nat)
    requires k <= |ds| && DeclareAll(c, ds[..k]).version.Some?
    ensures DeclareAll(c, ds).version.Some?
    ensures DeclareAll(c, ds).version.value >= DeclareAll(c, ds[..k]).version.value
    decreases |ds|
  {
    if k == |ds| {
      assert ds[..k] == ds;
    } else {
      assert ds[..|ds| - 1][..k] == ds[..k];
      VersionsOnlyRise(c, ds[..|ds| - 1], k);
    }
  }

  /** Some earlier declaration of this version was written, with the same limit or with another. */
  ghost predicate WrittenBefore(ds: seq<Declaration>, k: nat, same: bool)
    requires k < |ds|
  {
    exists w :: 0 <= w < k && Answer(UNSET, ds, w) == Written && ds[w].version == ds[k].version
                && (ds[w].limit == ds[k].limit <==> same)
  }

  /** Every answer read off the declarations that came before: written when all had lower versions, ignored when
      one had a higher one; otherwise the version was written before, and the answer is unchanged when that was
      with the same limit and conflict when it was with another. Only "written" changes the record. */
  lemma AnswersByHistory(ds: seq<Declaration>, k: nat)
    requires k < |ds|
    ensures var answer := Answer(UNSET, ds, k);
            && (answer == Written <==> forall j :: 0 <= j < k ==> ds[j].version < ds[k].version)
            && (answer == Ignored <==> exists j :: 0 <= j < k && ds[j].version > ds[k].version)
            && (answer == Unchanged ==> WrittenBefore(ds, k, true))
            && (answer == Conflict ==> WrittenBefore(ds, k, false))
            && DeclareAll(UNSET, ds[..k + 1])
               == if answer == Written then Concurrency(Some(ds[k].limit), Some(ds[k].version))
                  else DeclareAll(UNSET, ds[..k])
  {
    assert ds[..k + 1][..k] == ds[..k] && ds[..k + 1][k] == ds[k];
    if k > 0 {
      var w := StoredIsHighest(ds[..k]);
      assert ds[..k][..w] == ds[..w];
      assert Answer(UNSET, ds, w) == Written;
      assert forall j :: 0 <= j < k ==> ds[j] in ds[..k];
      assert ds[w] in ds[..k];
    }
  }
}
