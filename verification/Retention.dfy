/** Retention rules and their normal form (packages/core/src/retention.ts). */
module Retention {
  import opened Prelude

  /** A user's rule: keep-or-delete, or bounds that may be missing. */
  datatype Rule = Flag(keep: bool) | Bounds(maxAge: Option<int>, maxCount: Option<int>)

  datatype Mode = Delete | Keep | Trim

  /** The scalars the scripts see; -1 means "no bound". */
  datatype Resolved = Resolved(mode: Mode, ttl: int, count: int)

  function OrMinusOne(bound: Option<int>): int {
    match bound
    case None => -1
    case Some(n) => n
  }

  function Resolve(rule: Option<Rule>, fallback: Rule): Resolved {
    var effective := if rule.Some? then rule.value else fallback;
    match effective
    case Flag(keep) => Resolved(if keep then Keep else Delete, -1, -1)
    case Bounds(maxAge, maxCount) =>
      var ttl := OrMinusOne(maxAge);
      var count := OrMinusOne(maxCount);
      if ttl < 0 && count < 0 then Resolved(Keep, -1, -1) else Resolved(Trim, ttl, count)
  }

  /** Whether a rule, read on its own, says that a finished job of the given age and number of
      newer finished jobs should still be kept. */
  predicate Wants(rule: Rule, age: int, newer: nat) {
    match rule
    case Flag(keep) => keep
    case Bounds(maxAge, maxCount) =>
      && (maxAge.Some? && maxAge.value >= 0 ==> age < maxAge.value)
      && (maxCount.Some? && maxCount.value >= 0 ==> newer < maxCount.value)
  }

  /** What the three scalars mean to the trim fragment. */
  predicate Keeps(r: Resolved, age: int, newer: nat) {
    match r.mode
    case Delete => false
    case Keep => true
    case Trim => (r.ttl >= 0 ==> age < r.ttl) && (r.count >= 0 ==> newer < r.count)
  }

  /** Normalization preserves the rule's meaning, and the trim mode always carries a real bound. */
  lemma ResolveKeepsMeaning(rule: Option<Rule>, fallback: Rule, age: int, newer: nat)
    ensures var r := Resolve(rule, fallback);
            && Keeps(r, age, newer) == Wants(if rule.Some? then rule.value else fallback, age, newer)
            && (r.mode == Trim <==> r.ttl >= 0 || r.count >= 0)
  {
  }
}
