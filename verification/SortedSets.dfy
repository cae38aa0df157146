/** Redis sorted sets: members with scores, ranked by (score, member).
    A set is a map from member to score; the rank order is computed, so two sets with the
    same members and scores are equal values. */
module SortedSets {
  import opened Prelude

  /** A job id (or, in the keyed scheduler, a concurrency key). Only its total order matters. */
  type Id = nat

  type ZSet = map<Id, nat>

  predicate Before(z: ZSet, a: Id, b: Id)
    requires a in z && b in z
  {
    z[a] < z[b] || (z[a] == z[b] && a < b)
  }

  predicate IsLowest(z: ZSet, a: Id) {
    a in z && forall b :: b in z && b != a ==> Before(z, a, b)
  }

  lemma {:induction false} LowestExists(z: ZSet)
    requires z != map[]
    ensures exists a :: a in z && IsLowest(z, a)
    decreases |z|
  {
    var x :| x in z;
    var rest := z - {x};
    if rest == map[] {
      forall b | b in z
        ensures b == x
      {
        assert b in rest <==> b != x;
      }
      assert IsLowest(z, x);
    } else {
      assert rest.Keys == z.Keys - {x};
      LowestExists(rest);
      var y :| y in rest && IsLowest(rest, y);
      if Before(z, x, y) {
        assert forall b :: b in z && b != x ==> b in rest;
        assert IsLowest(z, x);
      } else {
        assert forall b :: b in z && b != x ==> b in rest;
        assert IsLowest(z, y);
      }
    }
  }

  /** The member of least (score, member). */
  function Lowest(z: ZSet): (a: Id)
    requires z != map[]
    ensures a in z && IsLowest(z, a)
  {
    LowestExists(z);
    var a :| a in z && IsLowest(z, a);
    a
  }

  lemma RemoveShrinks(z: ZSet, a: Id)
    requires a in z
    ensures |z - {a}| == |z| - 1
  {
  }

  /** All members in rank order (ZRANGE 0 -1). */
  function Ranked(z: ZSet): (r: seq<Id>)
    ensures |r| == |z|
    decreases |z|
  {
    if z == map[] then []
    else
      var a := Lowest(z);
      RemoveShrinks(z, a);
      [a] + Ranked(z - {a})
  }

  /** The ranking lists exactly the members. */
  lemma {:induction false} RankedMembers(z: ZSet)
    ensures forall id :: id in Ranked(z) <==> id in z
    decreases |z|
  {
    if z != map[] {
      var a := Lowest(z);
      RemoveShrinks(z, a);
      RankedMembers(z - {a});
      assert Ranked(z) == [a] + Ranked(z - {a});
    }
  }

  lemma {:induction false} RankedAt(z: ZSet, i: nat)
    requires i < |z|
    ensures Ranked(z)[i] in z
    decreases |z|
  {
    var a := Lowest(z);
    RemoveShrinks(z, a);
    if i > 0 {
      RankedAt(z - {a}, i - 1);
      assert Ranked(z)[i] == Ranked(z - {a})[i - 1];
    }
  }

  /** Ranks are strictly increasing in (score, member); in particular no member is ranked twice. */
  lemma {:induction false} RankedIncreasing(z: ZSet, i: nat, j: nat)
    requires i < j < |z|
    ensures Ranked(z)[i] in z && Ranked(z)[j] in z
    ensures Before(z, Ranked(z)[i], Ranked(z)[j])
    ensures z[Ranked(z)[i]] < z[Ranked(z)[j]] || (z[Ranked(z)[i]] == z[Ranked(z)[j]] && Ranked(z)[i] < Ranked(z)[j])
    decreases |z|
  {
    var a := Lowest(z);
    var rest := z - {a};
    RemoveShrinks(z, a);
    RankedAt(rest, j - 1);
    assert Ranked(z)[j] == Ranked(rest)[j - 1];
    if i > 0 {
      RankedIncreasing(rest, i - 1, j - 1);
      assert Ranked(z)[i] == Ranked(rest)[i - 1];
    }
  }

  lemma RankedUnfold(z: ZSet, a: Id)
    requires z != map[] && Lowest(z) == a
    ensures Ranked(z) == [a] + Ranked(z - {a}) && |z - {a}| == |z| - 1
  {
  }

  /** How many members have a score of at most `cutoff`. */
  function CountUpTo(z: ZSet, cutoff: int): (n: nat)
    ensures n <= |z|
    decreases |z|
  {
    if z == map[] || z[Lowest(z)] > cutoff then 0
    else
      RemoveShrinks(z, Lowest(z));
      1 + CountUpTo(z - {Lowest(z)}, cutoff)
  }

  /** ZRANGEBYSCORE z 0 cutoff: scores are never negative, so the lower bound 0 excludes nothing. */
  function RangeByScore(z: ZSet, cutoff: int): seq<Id> {
    Ranked(z)[..CountUpTo(z, cutoff)]
  }

  /** Within the ranking, the members scored at most `cutoff` are exactly the first CountUpTo. */
  lemma {:induction false} CutAt(z: ZSet, cutoff: int, i: nat)
    requires i < |z|
    ensures Ranked(z)[i] in z
    ensures z[Ranked(z)[i]] <= cutoff <==> i < CountUpTo(z, cutoff)
    decreases |z|
  {
    var a := Lowest(z);
    var rest := z - {a};
    RemoveShrinks(z, a);
    assert Ranked(z) == [a] + Ranked(rest);
    if i > 0 {
      assert Ranked(z)[i] == Ranked(rest)[i - 1];
      CutAt(rest, cutoff, i - 1);
      assert Before(z, a, Ranked(rest)[i - 1]);
    }
  }

  /** ZRANGEBYSCORE returns exactly the members with score at most `cutoff`. */
  lemma RangeByScoreExact(z: ZSet, cutoff: int)
    ensures forall id :: id in RangeByScore(z, cutoff) <==> id in z && z[id] <= cutoff
  {
    var n := CountUpTo(z, cutoff);
    forall id
      ensures id in RangeByScore(z, cutoff) <==> id in z && z[id] <= cutoff
    {
      if id in RangeByScore(z, cutoff) {
        var i :| 0 <= i < n && Ranked(z)[i] == id;
        CutAt(z, cutoff, i);
      }
      if id in z && z[id] <= cutoff {
        RankedMembers(z);
        assert id in Ranked(z);
        var i :| 0 <= i < |Ranked(z)| && Ranked(z)[i] == id;
        CutAt(z, cutoff, i);
        assert Ranked(z)[..n][i] == id;
      }
    }
  }

  /** Remove the `k` lowest members (ZREMRANGEBYRANK z 0 k-1). */
  function DropLowest(z: ZSet, k: nat): (r: ZSet)
    requires k <= |z|
    ensures |r| == |z| - k
    decreases k
  {
    if k == 0 then z
    else
      RemoveShrinks(z, Lowest(z));
      DropLowest(z - {Lowest(z)}, k - 1)
  }

  /** The ranking of what is left is the old ranking without its first `k`. */
  lemma {:induction false} RankedAfterDrop(z: ZSet, k: nat)
    requires k <= |z|
    ensures Ranked(DropLowest(z, k)) == Ranked(z)[k..]
    decreases k
  {
    hide DropLowest, Ranked, IsLowest, Before;
    if k == 0 {
      DropUnfold(z, 0);
    } else {
      var rest := DropOne(z, k);
      RankedUnfold(z, Lowest(z));
      RankedAfterDrop(rest, k - 1);
      assert ([Lowest(z)] + Ranked(rest))[k..] == Ranked(rest)[k - 1..];
    }
  }

  /** What DropLowest keeps: exactly the members not among the first `k` ranks, scores untouched. */
  lemma {:induction false} DropLowestKeeps(z: ZSet, k: nat)
    requires k <= |z|
    ensures DropLowest(z, k) == z - SetOf(Ranked(z)[..k])
    decreases k
  {
    hide Ranked, IsLowest;
    if k > 0 {
      var a := Lowest(z);
      var rest := z - {a};
      RankedUnfold(z, a);
      DropLowestKeeps(rest, k - 1);
      assert Ranked(z)[..k] == [a] + Ranked(rest)[..k - 1];
      SetOfCons(a, Ranked(rest)[..k - 1]);
      assert rest - SetOf(Ranked(rest)[..k - 1]) == z - ({a} + SetOf(Ranked(rest)[..k - 1]));
    }
  }

  /** The first `k` ranks are members, and no member is gained by dropping them. */
  lemma DropLowestWithin(z: ZSet, k: nat, id: Id)
    requires k <= |z|
    ensures id in SetOf(Ranked(z)[..k]) ==> id in z
    ensures id in DropLowest(z, k) <==> id in z && id !in SetOf(Ranked(z)[..k])
  {
    DropLowestKeeps(z, k);
    if id in SetOf(Ranked(z)[..k]) {
      var i :| 0 <= i < k && Ranked(z)[i] == id;
      RankedAt(z, i);
    }
  }

  /** Dropping in two goes is dropping once. */
  lemma {:induction false} DropLowestTwice(z: ZSet, j: nat, k: nat)
    requires j + k <= |z|
    ensures DropLowest(DropLowest(z, j), k) == DropLowest(z, j + k)
    decreases j
  {
    hide DropLowest, Lowest, IsLowest, Before;
    if j == 0 {
      DropUnfold(z, 0);
    } else {
      var rest := DropOne(z, j);
      var same := DropOne(z, j + k);
      DropLowestTwice(rest, j - 1, k);
    }
  }

  /** Dropping some is dropping the lowest, then the others. */
  lemma DropOne(z: ZSet, k: nat) returns (rest: ZSet)
    requires 0 < k <= |z|
    ensures z != map[] && rest == z - {Lowest(z)} && |rest| == |z| - 1 && DropLowest(z, k) == DropLowest(rest, k - 1)
  {
    rest := z - {Lowest(z)};
    DropUnfold(z, k);
  }

  lemma DropUnfold(z: ZSet, k: nat)
    requires k <= |z|
    ensures if k == 0 then DropLowest(z, k) == z
            else |z - {Lowest(z)}| == |z| - 1 && DropLowest(z, k) == DropLowest(z - {Lowest(z)}, k - 1)
  {
    if k > 0 { RemoveShrinks(z, Lowest(z)); }
  }

  lemma CountUnfold(z: ZSet, cutoff: int)
    requires z != map[]
    ensures var rest := z - {Lowest(z)};
            && |rest| == |z| - 1
            && CountUpTo(z, cutoff) == (if z[Lowest(z)] > cutoff then 0 else 1 + CountUpTo(rest, cutoff))
            && (z[Lowest(z)] > cutoff ==> CountUpTo(rest, cutoff) == 0)
  {
  }

  /** Removing the lowest `k` leaves max(0, CountUpTo - k) members at or below a cutoff. */
  lemma {:induction false} CountAfterDrop(z: ZSet, k: nat, cutoff: int)
    requires k <= |z|
    ensures CountUpTo(DropLowest(z, k), cutoff) == Max(0, CountUpTo(z, cutoff) - k)
    decreases k
  {
    hide IsLowest, CountUpTo;
    if k > 0 {
      CountUnfold(z, cutoff);
      CountAfterDrop(z - {Lowest(z)}, k - 1, cutoff);
    }
  }

  /** ZREMRANGEBYSCORE z 0 cutoff. */
  function RemoveUpTo(z: ZSet, cutoff: int): ZSet {
    map id | id in z && z[id] > cutoff :: z[id]
  }

  /** Removing by score is removing that many lowest ranks. */
  lemma RemoveUpToIsDrop(z: ZSet, cutoff: int)
    ensures RemoveUpTo(z, cutoff) == DropLowest(z, CountUpTo(z, cutoff))
  {
  }

  lemma LowestUnique(z: ZSet, a: Id)
    requires z != map[] && IsLowest(z, a)
    ensures Lowest(z) == a
  {
  }

  lemma AddHighestLowest(z: ZSet, a: Id, score: nat)
    requires a !in z && z != map[]
    requires forall b :: b in z ==> z[b] < score
    ensures Lowest(z[a := score]) == Lowest(z) && Lowest(z) != a
  {
    var y := z[a := score];
    var l := Lowest(z);
    forall b | b in y && b != l
      ensures Before(y, l, b)
    {
      assert b != a ==> Before(z, l, b);
    }
    LowestUnique(y, l);
  }

  lemma AddToEmpty(a: Id, score: nat)
    ensures Ranked(map[a := score]) == [a]
  {
  }

  /** Adding a member above every score appends it to the ranking. */
  lemma {:induction false} AddHighest(z: ZSet, a: Id, score: nat)
    requires a !in z
    requires forall b :: b in z ==> z[b] < score
    ensures Ranked(z[a := score]) == Ranked(z) + [a]
    decreases |z|
  {
    hide IsLowest, Ranked;
    if z == map[] {
      AddToEmpty(a, score);
      assert z[a := score] == map[a := score];
      assert |Ranked(z)| == 0;
    } else {
      var l := Lowest(z);
      AddHighestLowest(z, a, score);
      RankedUnfold(z, l);
      RankedUnfold(z[a := score], l);
      AddHighest(z - {l}, a, score);
      assert z[a := score] - {l} == (z - {l})[a := score];
    }
  }

  /** The members scored at most `cutoff`, as a set. */
  function UpTo(z: ZSet, cutoff: int): set<Id> {
    set a | a in z && z[a] <= cutoff
  }

  lemma {:induction false} CountUpToCounts(z: ZSet, cutoff: int)
    ensures CountUpTo(z, cutoff) == |UpTo(z, cutoff)|
    decreases |z|
  {
    hide CountUpTo;
    if z == map[] {
      NothingUpTo(z, cutoff);
    } else {
      var a := Lowest(z);
      CountUnfold(z, cutoff);
      if z[a] > cutoff {
        assert UpTo(z, cutoff) == {};
      } else {
        CountUpToCounts(z - {a}, cutoff);
        assert UpTo(z, cutoff) == UpTo(z - {a}, cutoff) + {a};
      }
    }
  }

  lemma NothingUpTo(z: ZSet, cutoff: int)
    requires z == map[]
    ensures CountUpTo(z, cutoff) == 0 && UpTo(z, cutoff) == {}
  {
  }

  /** The members that come after `m`. */
  function Newer(z: ZSet, m: Id): set<Id>
    requires m in z
  {
    set a | a in z && Before(z, m, a)
  }

  /** A rank counts the members after it. */
  lemma {:induction false} RankCountsNewer(z: ZSet, i: nat)
    requires i < |z|
    ensures Ranked(z)[i] in z && |Newer(z, Ranked(z)[i])| == |z| - 1 - i
    decreases |z|
  {
    hide Ranked;
    var a := Lowest(z);
    var rest := z - {a};
    RankedUnfold(z, a);
    if i == 0 {
      assert Newer(z, a) == rest.Keys;
    } else {
      RankCountsNewer(rest, i - 1);
      assert Ranked(z)[i] == Ranked(rest)[i - 1];
      assert Newer(z, Ranked(z)[i]) == Newer(rest, Ranked(rest)[i - 1]);
    }
  }
}
